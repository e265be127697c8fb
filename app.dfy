/**
 * `PetitionRaceApp`: the state the application keeps between polls and audio
 * ticks, and the operations that change it. Time, the network and the audio
 * backend come in as parameters; the page and the audio graph are represented by
 * the values the class writes to them (cat positions, crowns, status line, gain
 * automation, scheduled sound events).
 */
module App {
  import opened Wrappers
  import opened Config
  import opened Race
  import opened Fetch
  import opened Sequencer
  import opened Scheduler
  import opened Audio

  const UPDATING_STATUS: string := "Updating..."
  const FAILED_STATUS: string := "Update failed - retrying..."

  /** `(this.petitionData.get(name) || { lastCount: 0 }).lastCount`. */
  function LastCount(petitionData: map<string, nat>, name: string): nat {
    if name in petitionData then petitionData[name] else 0
  }

  class PetitionRaceApp {
    /** Per petition name, the last count shown (the only field of the source's record). */
    var petitionData: map<string, nat>
    /** Per petition id, the `Date.now()` of its last failed fetch. */
    var failedRequests: map<string, int>
    /** `audioContext`: null or a context in some state. */
    var audioContext: Option<ContextState>
    /** `bgmGainNode` is not null. */
    var hasGainNode: bool
    var melodyInterval: Interval
    var pollInterval: Interval
    var nextNoteTime: real
    var isMuted: bool
    var isAudioInitialized: bool
    var measureCount: nat

    /** The cats' `left` positions in percent, by petition name. */
    var positions: map<string, real>
    /** The crowns' `active` classes. */
    var crownAnti: bool
    var crownPro: bool
    /** The text of the status line. */
    var status: string
    /** Calls made on the background gain, oldest first. */
    var gainEvents: seq<GainEvent>
    /** Sound events handed to the synthesis routines, oldest first. */
    var scheduled: seq<Event>

    /** The gain node exists exactly when audio is initialized, and then so does the context. */
    ghost predicate Valid()
      reads this`hasGainNode, this`isAudioInitialized, this`audioContext
    {
      && hasGainNode == isAudioInitialized
      && (hasGainNode ==> audioContext.Some?)
    }

    constructor ()
      ensures Valid()
      ensures petitionData == map[] && failedRequests == map[]
      ensures audioContext == None && !hasGainNode
      ensures melodyInterval == NoInterval && pollInterval == NoInterval
      ensures nextNoteTime == 0.0 && measureCount == 0
      ensures !isMuted && !isAudioInitialized
      ensures positions == map[] && !crownAnti && !crownPro && status == ""
      ensures gainEvents == [] && scheduled == []
    {
      petitionData, failedRequests := map[], map[];
      audioContext, hasGainNode := None, false;
      melodyInterval, pollInterval := NoInterval, NoInterval;
      nextNoteTime, measureCount := 0.0, 0;
      isMuted, isAudioInitialized := false, false;
      positions, crownAnti, crownPro, status := map[], false, false, "";
      gainEvents, scheduled := [], [];
    }

    /** The guard of `duckAudioVolume`. */
    predicate DuckAllowed()
      reads this`isAudioInitialized, this`isMuted, this`hasGainNode
    {
      isAudioInitialized && !isMuted && hasGainNode
    }

    method PauseAudio()
      requires Valid()
      modifies this`audioContext
      ensures Valid()
      ensures audioContext == AfterPause(old(audioContext))
    {
      if audioContext == Some(Running) {
        audioContext := Some(Suspended);
      }
    }

    method ResumeAudio()
      requires Valid()
      modifies this`audioContext
      ensures Valid()
      ensures audioContext == AfterResume(old(audioContext))
    {
      if audioContext == Some(Suspended) {
        audioContext := Some(Running);
      }
    }

    /**
     * `fetchWithRetry`: the loop of attempts, with the network's answers given by
     * `net`. Besides the result it reports how many requests it made and the
     * backoff delays it waited.
     */
    method FetchWithRetry(attempts: int, net: Network) returns (result: FetchResult, tries: nat, waits: seq<nat>)
      ensures Retried(result, tries, waits) == Retry(net, attempts)
    {
      tries, waits := 0, [];
      var i: nat := 0;
      while i < attempts
        invariant i > 0 ==> i < attempts
        invariant tries == i
        invariant var rest := RetryFrom(net, attempts, i);
          Retry(net, attempts) == Retried(rest.result, tries + rest.tries, waits + rest.waits)
        decreases attempts - i
      {
        var answer := net(i);
        tries := tries + 1;
        if answer.Ok() {
          return Response(answer.body), tries, waits;
        }
        if i == attempts - 1 {
          return Rejected(ExhaustedMessage(attempts, answer.ErrorMessage())), tries, waits;
        }
        ghost var rest := RetryFrom(net, attempts, i + 1);
        assert waits + ([RETRY_DELAY * (i + 1)] + rest.waits) == (waits + [RETRY_DELAY * (i + 1)]) + rest.waits;
        waits := waits + [RETRY_DELAY * (i + 1)];
        i := i + 1;
      }
      result := NoResult;
    }

    /**
     * `fetchSignatureCount`: skipped inside the suppression window, otherwise
     * fetched; `requests` is the number of network requests it made.
     */
    method FetchSignatureCount(petition: Petition, input: PollInput) returns (count: Option<nat>, requests: nat)
      modifies this`failedRequests
      ensures count == PollCount(old(failedRequests), petition.id, input)
      ensures failedRequests == PollFailures(old(failedRequests), petition.id, input)
      ensures requests == if Suppressed(old(failedRequests), petition.id, input.checkedAt) then 0
                          else Retry(input.net, RETRY_ATTEMPTS).tries
    {
      var lastFailure := if petition.id in failedRequests then failedRequests[petition.id] else 0;
      if lastFailure != 0 && input.checkedAt - lastFailure < SUPPRESSION_WINDOW {
        return None, 0;
      }
      var result, tries, _ := FetchWithRetry(RETRY_ATTEMPTS, input.net);
      requests := tries;
      if result.Response? && result.body.Json? {
        failedRequests := failedRequests - {petition.id};
        count := Some(result.body.signatureCount.GetOr(0));
      } else {
        // a rejection, a body `json()` cannot parse, or `undefined.json()`
        failedRequests := failedRequests[petition.id := input.failedAt];
        count := None;
      }
    }

    /** `duckAudioVolume`: a no-op unless audio is initialized, unmuted and has a gain node. */
    method DuckAudioVolume(audioTime: real)
      modifies this`gainEvents
      ensures gainEvents == old(gainEvents) + (if DuckAllowed() then DuckRamps(audioTime) else [])
    {
      if !isAudioInitialized || isMuted || !hasGainNode {
        return;
      }
      gainEvents := gainEvents + DuckRamps(audioTime);
    }

    /**
     * The state part of `updateCatPosition`: the cat's new position, the duck
     * when it advances, and its count remembered as the last one.
     */
    method UpdateCatPosition(petition: Petition, count: nat, maxCount: nat, antiCount: nat, proCount: nat, audioTime: real)
      modifies this`positions, this`petitionData, this`gainEvents
      ensures var last := LastCount(old(petitionData), petition.name);
        && positions == old(positions)[petition.name := FinalPosition(count, antiCount, proCount, last)]
        && petitionData == old(petitionData)[petition.name := count]
        && gainEvents == old(gainEvents)
                         + (if Advancing(count, last) && DuckAllowed() then DuckRamps(audioTime) else [])
    {
      var lastCount := LastCount(petitionData, petition.name);
      var total := antiCount + proCount;
      var share := if total > 0 then count as real / total as real else 0.5;
      var basePosition := MIN_POSITION + share * (MAX_POSITION - MIN_POSITION);
      var finalPosition := basePosition;
      var countIncreased := count > lastCount && lastCount > 0;
      if countIncreased {
        finalPosition := finalPosition + ADVANCE_BUMP;
        DuckAudioVolume(audioTime);
      }
      finalPosition := Min(Max(finalPosition, MIN_POSITION), MAX_POSITION_PERCENT);
      positions := positions[petition.name := finalPosition];
      petitionData := petitionData[petition.name := count];
    }

    /** `updateLeaderCrown`: both crowns off, then the strict leader's on. */
    method UpdateLeaderCrown(antiCount: nat, proCount: nat)
      modifies this`crownAnti, this`crownPro
      ensures crownAnti <==> LeaderOf(antiCount, proCount) == AntiLeads
      ensures crownPro <==> LeaderOf(antiCount, proCount) == ProLeads
    {
      crownAnti, crownPro := false, false;
      if antiCount > proCount {
        crownAnti := true;
      } else if proCount > antiCount {
        crownPro := true;
      }
    }

    /**
     * The second half of `updateRace`, once both fetches settled: with both
     * counts known, move both cats, crown the leader and stamp the time;
     * otherwise only the status line changes. `timeText` stands for
     * `new Date().toLocaleTimeString()`.
     */
    method ShowCounts(antiCount: Option<nat>, proCount: Option<nat>, audioTime: real, timeText: string)
      modifies this`status, this`positions, this`petitionData, this`gainEvents, this`crownAnti, this`crownPro
      ensures if antiCount.Some? && proCount.Some? then
          var a, p := antiCount.value, proCount.value;
          var lastA, lastP := LastCount(old(petitionData), ANTI.name), LastCount(old(petitionData), PRO.name);
          && positions == old(positions)[ANTI.name := FinalPosition(a, a, p, lastA)]
                                        [PRO.name := FinalPosition(p, a, p, lastP)]
          && petitionData == old(petitionData)[ANTI.name := a][PRO.name := p]
          && gainEvents == old(gainEvents)
                           + (if Advancing(a, lastA) && DuckAllowed() then DuckRamps(audioTime) else [])
                           + (if Advancing(p, lastP) && DuckAllowed() then DuckRamps(audioTime) else [])
          && (crownAnti <==> LeaderOf(a, p) == AntiLeads)
          && (crownPro <==> LeaderOf(a, p) == ProLeads)
          && status == "Last updated: " + timeText
        else
          && status == FAILED_STATUS
          && positions == old(positions) && petitionData == old(petitionData)
          && gainEvents == old(gainEvents)
          && crownAnti == old(crownAnti) && crownPro == old(crownPro)
    {
      if antiCount.Some? && proCount.Some? {
        var maxCount := if antiCount.value >= proCount.value then antiCount.value else proCount.value;
        ghost var data0 := petitionData;
        PetitionsDiffer();
        UpdateCatPosition(ANTI, antiCount.value, maxCount, antiCount.value, proCount.value, audioTime);
        assert LastCount(petitionData, PRO.name) == LastCount(data0, PRO.name);
        UpdateCatPosition(PRO, proCount.value, maxCount, antiCount.value, proCount.value, audioTime);
        UpdateLeaderCrown(antiCount.value, proCount.value);
        status := "Last updated: " + timeText;
      } else {
        status := FAILED_STATUS;
      }
    }

    /**
     * `updateRace`: fetch both counts, then commit positions, last counts and
     * crowns only when both are known; otherwise only the status line changes.
     */
    method UpdateRace(anti: PollInput, pro: PollInput, audioTime: real, timeText: string)
      modifies this`status, this`failedRequests, this`positions, this`petitionData, this`gainEvents
      modifies this`crownAnti, this`crownPro
      ensures failedRequests == PollFailures(PollFailures(old(failedRequests), ANTI.id, anti), PRO.id, pro)
      ensures var antiCount := PollCount(old(failedRequests), ANTI.id, anti);
        var proCount := PollCount(old(failedRequests), PRO.id, pro);
        if antiCount.Some? && proCount.Some? then
          var a, p := antiCount.value, proCount.value;
          var lastA, lastP := LastCount(old(petitionData), ANTI.name), LastCount(old(petitionData), PRO.name);
          && positions == old(positions)[ANTI.name := FinalPosition(a, a, p, lastA)]
                                        [PRO.name := FinalPosition(p, a, p, lastP)]
          && petitionData == old(petitionData)[ANTI.name := a][PRO.name := p]
          && gainEvents == old(gainEvents)
                           + (if Advancing(a, lastA) && DuckAllowed() then DuckRamps(audioTime) else [])
                           + (if Advancing(p, lastP) && DuckAllowed() then DuckRamps(audioTime) else [])
          && (crownAnti <==> LeaderOf(a, p) == AntiLeads)
          && (crownPro <==> LeaderOf(a, p) == ProLeads)
          && status == "Last updated: " + timeText
        else
          && status == FAILED_STATUS
          && positions == old(positions) && petitionData == old(petitionData)
          && gainEvents == old(gainEvents)
          && crownAnti == old(crownAnti) && crownPro == old(crownPro)
    {
      status := UPDATING_STATUS;
      ghost var failed0 := failedRequests;
      var antiCount, _ := FetchSignatureCount(ANTI, anti);
      PetitionsDiffer();
      PollLeavesOthers(failed0, ANTI.id, anti, PRO.id, pro.checkedAt);
      assert PollCount(failedRequests, PRO.id, pro) == PollCount(failed0, PRO.id, pro);
      var proCount, _ := FetchSignatureCount(PRO, pro);
      ShowCounts(antiCount, proCount, audioTime, timeText);
    }

    /** `scheduleNotes`: one measure's events from `startTime`, after advancing the measure counter. */
    method ScheduleNotes(startTime: real)
      requires isAudioInitialized
      modifies this`measureCount, this`scheduled
      ensures measureCount == old(measureCount) + 1
      ensures scheduled == old(scheduled) + MeasureEvents(measureCount, startTime)
    {
      measureCount := measureCount + 1;
      var cycle := measureCount % 16;
      var plan := Plan(cycle);
      var melodyPattern := Pattern(plan.pattern);
      ghost var notes := NoteEvents(melodyPattern, startTime, plan.volume);
      ghost var clicks := ClickEvents(RHYTHM_CLICKS, startTime, plan.intensity);
      for i := 0 to |melodyPattern|
        invariant measureCount == old(measureCount) + 1
        invariant scheduled == old(scheduled) + notes[..i]
      {
        assert notes[..i + 1] == notes[..i] + [notes[i]];
        scheduled := scheduled + [NoteEvent(melodyPattern[i], startTime, plan.volume)];
      }
      assert notes[..|notes|] == notes;
      for k := 0 to |RHYTHM_CLICKS|
        invariant measureCount == old(measureCount) + 1
        invariant scheduled == old(scheduled) + notes + clicks[..k]
      {
        assert clicks[..k + 1] == clicks[..k] + [clicks[k]];
        scheduled := scheduled + [ClickEvent(RHYTHM_CLICKS[k], startTime, plan.intensity)];
      }
      assert clicks[..|clicks|] == clicks;
      if measureCount % 16 == 15 {
        scheduled := scheduled + [MeowSound(startTime + MEOW_OFFSET)];
      }
    }

    /**
     * `scheduleMelody`: while the cursor is inside the look-ahead window, schedule
     * a measure there and move the cursor one measure on.
     */
    method ScheduleMelody(audioTime: real)
      modifies this`nextNoteTime, this`measureCount, this`scheduled
      ensures !old(isAudioInitialized) ==>
                nextNoteTime == old(nextNoteTime) && measureCount == old(measureCount) && scheduled == old(scheduled)
      ensures old(isAudioInitialized) ==>
                var k := PassesNeeded(old(nextNoteTime), audioTime + SCHEDULE_AHEAD_TIME);
                && nextNoteTime == Cursor(old(nextNoteTime), k)
                && measureCount == old(measureCount) + k
                && scheduled == old(scheduled) + Measures(old(measureCount), old(nextNoteTime), k)
                && nextNoteTime >= audioTime + SCHEDULE_AHEAD_TIME
    {
      if !isAudioInitialized {
        return;
      }
      var scheduleAheadTime := SCHEDULE_AHEAD_TIME;
      ghost var horizon := audioTime + scheduleAheadTime;
      ghost var k: nat := 0;
      while nextNoteTime < audioTime + scheduleAheadTime
        invariant nextNoteTime == Cursor(old(nextNoteTime), k)
        invariant measureCount == old(measureCount) + k
        invariant scheduled == old(scheduled) + Measures(old(measureCount), old(nextNoteTime), k)
        invariant k == 0 || Cursor(old(nextNoteTime), k - 1) < horizon
        decreases PassesNeeded(nextNoteTime, horizon)
      {
        PassesStep(nextNoteTime, horizon);
        ghost var done := scheduled;
        ScheduleNotes(nextNoteTime);
        LookAheadStep(old(scheduled), old(measureCount), old(nextNoteTime), k, done, measureCount, nextNoteTime, scheduled);
        nextNoteTime := nextNoteTime + MEASURE_SECONDS;  // MELODY_LOOP_TIME / 1000
        k := k + 1;
      }
      PassesCount(old(nextNoteTime), horizon, k);
    }

    /** `startMelody`: restart the cursor at the audio clock, schedule, and set the look-ahead timer. */
    method StartMelody(audioTime: real)
      requires isAudioInitialized
      modifies this`melodyInterval, this`nextNoteTime, this`measureCount, this`scheduled
      ensures melodyInterval == Scheduled
      ensures nextNoteTime == audioTime + MEASURE_SECONDS
      ensures measureCount == old(measureCount) + 1
      ensures scheduled == old(scheduled) + MeasureEvents(old(measureCount) + 1, audioTime)
    {
      nextNoteTime := audioTime;
      OnePassFromNow(audioTime);
      SingleMeasure(measureCount, audioTime);
      ScheduleMelody(audioTime);
      melodyInterval := Scheduled;
    }

    /**
     * `initAudio`: once initialized it returns at once; otherwise it creates a
     * context (resuming it when it starts suspended), the gain node, and starts
     * the melody unless muted. A failure on the way leaves audio uninitialized.
     */
    method InitAudio(backend: AudioBackend, audioTime: real)
      requires Valid()
      modifies this`audioContext, this`hasGainNode, this`isAudioInitialized
      modifies this`melodyInterval, this`nextNoteTime, this`measureCount, this`scheduled
      ensures Valid()
      ensures old(isAudioInitialized) || backend.Unavailable? ==>
                && audioContext == old(audioContext) && hasGainNode == old(hasGainNode)
                && isAudioInitialized == old(isAudioInitialized)
                && melodyInterval == old(melodyInterval) && nextNoteTime == old(nextNoteTime)
                && measureCount == old(measureCount) && scheduled == old(scheduled)
      ensures !old(isAudioInitialized) && backend.Available? && backend.startsSuspended && backend.resumeRejects ==>
                && audioContext == Some(Suspended) && !hasGainNode && !isAudioInitialized
                && melodyInterval == old(melodyInterval) && nextNoteTime == old(nextNoteTime)
                && measureCount == old(measureCount) && scheduled == old(scheduled)
      ensures !old(isAudioInitialized) && backend.Available? && !(backend.startsSuspended && backend.resumeRejects) ==>
                && audioContext == Some(Running) && hasGainNode && isAudioInitialized
                && (if isMuted then
                      melodyInterval == old(melodyInterval) && nextNoteTime == old(nextNoteTime)
                      && measureCount == old(measureCount) && scheduled == old(scheduled)
                    else
                      melodyInterval == Scheduled && nextNoteTime == audioTime + MEASURE_SECONDS
                      && measureCount == old(measureCount) + 1
                      && scheduled == old(scheduled) + MeasureEvents(old(measureCount) + 1, audioTime))
    {
      if isAudioInitialized {
        return;
      }
      match backend {
        case Unavailable =>
          // the constructor threw; the toast is not modelled
        case Available(startsSuspended, resumeRejects) =>
          audioContext := Some(if startsSuspended then Suspended else Running);
          if audioContext == Some(Suspended) {
            if resumeRejects {
              return;
            }
            audioContext := Some(Running);
          }
          hasGainNode := true;
          isAudioInitialized := true;
          if !isMuted {
            StartMelody(audioTime);
          }
      }
    }

    /** `toggleMute`: flip the flag, and silence or restore the gain when there is a gain node. */
    method ToggleMute(audioTime: real)
      modifies this`isMuted, this`gainEvents
      ensures isMuted == !old(isMuted)
      ensures gainEvents == old(gainEvents) + (if hasGainNode then [MuteGain(isMuted, audioTime)] else [])
    {
      isMuted := !isMuted;
      if hasGainNode {
        gainEvents := gainEvents + [MuteGain(isMuted, audioTime)];
      }
    }

    /**
     * The page's click handler (clicks on links aside): the first click unmutes,
     * initializes audio and toggles mute twice; later clicks toggle mute once.
     */
    method HandleClick(backend: AudioBackend, audioTime: real)
      requires Valid()
      modifies this`audioContext, this`hasGainNode, this`isAudioInitialized, this`isMuted, this`gainEvents
      modifies this`melodyInterval, this`nextNoteTime, this`measureCount, this`scheduled
      ensures Valid()
      ensures !old(isAudioInitialized) ==> !isMuted
      ensures old(isAudioInitialized) ==> isMuted == !old(isMuted) && audioContext == old(audioContext)
    {
      if !isAudioInitialized {
        isMuted := false;
        InitAudio(backend, audioTime);
        ToggleMute(audioTime);
        ToggleMute(audioTime);
      } else {
        ToggleMute(audioTime);
      }
    }

    /** `cleanup` (the later definition, which wins): stop both timers and close the context; nothing else is reset. */
    method Cleanup()
      requires Valid()
      modifies this`melodyInterval, this`pollInterval, this`audioContext
      ensures Valid()
      ensures melodyInterval == AfterClearInterval(old(melodyInterval))
      ensures pollInterval == AfterClearInterval(old(pollInterval))
      ensures audioContext == AfterClose(old(audioContext))
    {
      if melodyInterval == Scheduled {
        melodyInterval := Cleared;
      }
      if pollInterval == Scheduled {
        pollInterval := Cleared;
      }
      if audioContext.Some? && audioContext.value != Closed {
        audioContext := Some(Closed);
      }
    }

    /** `init` without its DOM work: one race update, then the poll timer. */
    method Init(anti: PollInput, pro: PollInput, audioTime: real, timeText: string)
      modifies this`status, this`failedRequests, this`positions, this`petitionData, this`gainEvents
      modifies this`crownAnti, this`crownPro, this`pollInterval
      ensures pollInterval == Scheduled
      ensures failedRequests == PollFailures(PollFailures(old(failedRequests), ANTI.id, anti), PRO.id, pro)
    {
      UpdateRace(anti, pro, audioTime, timeText);
      pollInterval := Scheduled;
    }
  }
}
