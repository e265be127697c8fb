/**
 * The pattern sequencer of `scheduleNotes`: which melody, rhythm intensity and
 * volume a measure gets, and the events that measure hands to the synthesiser.
 * Only `main`, `variation` and `bridge` are reachable from `scheduleNotes`.
 */
module Sequencer {
  import opened Config

  /** One entry of a melody pattern: frequency (Hz), onset within the measure and duration (s). */
  datatype Note = Note(freq: nat, time: real, dur: real)

  /** One entry of `RHYTHM_CLICKS`: onset within the measure (s) and base volume. */
  datatype Beat = Beat(time: real, vol: real)

  const MAIN: seq<Note> := [
    Note(523, 0.0, 0.3), Note(659, 0.3, 0.15), Note(784, 0.45, 0.15), Note(1047, 0.6, 0.4),
    Note(784, 1.0, 0.2), Note(659, 1.2, 0.2), Note(523, 1.4, 0.2)]

  const VARIATION: seq<Note> := [
    Note(784, 0.0, 0.3), Note(784, 0.3, 0.3), Note(880, 0.6, 0.3),
    Note(784, 0.9, 0.2), Note(698, 1.1, 0.2), Note(659, 1.3, 0.3)]

  const BRIDGE: seq<Note> := [
    Note(1047, 0.0, 0.2), Note(1175, 0.2, 0.2), Note(1319, 0.4, 0.4), Note(1175, 0.8, 0.2),
    Note(1047, 1.0, 0.2), Note(880, 1.2, 0.2), Note(784, 1.4, 0.2)]

  const RHYTHM_CLICKS: seq<Beat> := [
    Beat(0.0, 0.12), Beat(0.5, 0.06), Beat(1.0, 0.10), Beat(1.5, 0.06), Beat(1.75, 0.04)]

  /** Onset of the meow, relative to the start of the last measure of a cycle. */
  const MEOW_OFFSET: real := 0.7

  datatype PatternName = Main | Variation | Bridge

  function Pattern(name: PatternName): seq<Note> {
    match name
    case Main => MAIN
    case Variation => VARIATION
    case Bridge => BRIDGE
  }

  /** The choice made for one measure. */
  datatype MeasurePlan = MeasurePlan(pattern: PatternName, intensity: real, volume: real)

  /** The if-chain choosing the melody and the rhythm intensity. */
  function PatternChoice(cycle: nat): (PatternName, real) {
    if cycle < 2 then (Main, 1.0)
    else if cycle < 4 then (Variation, 1.2)
    else if cycle < 6 then (Main, 0.7)
    else if cycle < 8 then (Variation, 1.4)
    else if cycle < 10 then (Main, 1.0)
    else if cycle < 12 then (Variation, 0.8)
    else if cycle < 14 then (Bridge, 0.6)
    else (Variation, 1.5)
  }

  /** `CONFIG.AUDIO.VOLUME * 0.9`, louder in cycles 6-7, quieter in 12-13. */
  function MelodyVolume(cycle: nat): real {
    var volume := VOLUME * 0.9;
    if 6 <= cycle < 8 then volume * 1.1
    else if 12 <= cycle < 14 then volume * 0.8
    else volume
  }

  function Plan(cycle: nat): MeasurePlan {
    var (pattern, intensity) := PatternChoice(cycle);
    MeasurePlan(pattern, intensity, MelodyVolume(cycle))
  }

  /** The 16-measure schedule written out as a table, one entry per cycle position. */
  const SCHEDULE: seq<MeasurePlan> := [
    MeasurePlan(Main, 1.0, 0.09), MeasurePlan(Main, 1.0, 0.09),
    MeasurePlan(Variation, 1.2, 0.09), MeasurePlan(Variation, 1.2, 0.09),
    MeasurePlan(Main, 0.7, 0.09), MeasurePlan(Main, 0.7, 0.09),
    MeasurePlan(Variation, 1.4, 0.099), MeasurePlan(Variation, 1.4, 0.099),
    MeasurePlan(Main, 1.0, 0.09), MeasurePlan(Main, 1.0, 0.09),
    MeasurePlan(Variation, 0.8, 0.09), MeasurePlan(Variation, 0.8, 0.09),
    MeasurePlan(Bridge, 0.6, 0.072), MeasurePlan(Bridge, 0.6, 0.072),
    MeasurePlan(Variation, 1.5, 0.09), MeasurePlan(Variation, 1.5, 0.09)]

  /** The branching of `scheduleNotes` and the table agree on every cycle position. */
  lemma PlanMatchesSchedule(cycle: nat)
    requires cycle < 16
    ensures |SCHEDULE| == 16 && Plan(cycle) == SCHEDULE[cycle]
  {
  }

  /** What `scheduleNotes` hands to the synthesis routines. */
  datatype Event =
    | PianoNote(time: real, freq: nat, dur: real, volume: real)  // playPianoNote
    | Click(time: real, volume: real)                            // playClick
    | MeowSound(time: real)                                      // playMeow
  {
    function Time(): real {
      match this
      case PianoNote(t, _, _, _) => t
      case Click(t, _) => t
      case MeowSound(t) => t
    }
  }

  function NoteEvent(note: Note, start: real, volume: real): Event {
    PianoNote(start + note.time, note.freq, note.dur, volume)
  }

  function ClickEvent(beat: Beat, start: real, intensity: real): Event {
    Click(start + beat.time, beat.vol * intensity)
  }

  /** The `melodyPattern.forEach` of `scheduleNotes`: one piano note per pattern entry, in order. */
  function NoteEvents(pattern: seq<Note>, start: real, volume: real): seq<Event> {
    seq(|pattern|, i requires 0 <= i < |pattern| => NoteEvent(pattern[i], start, volume))
  }

  /** The `RHYTHM_CLICKS.forEach` of `scheduleNotes`: one click per beat, in order. */
  function ClickEvents(beats: seq<Beat>, start: real, intensity: real): seq<Event> {
    seq(|beats|, k requires 0 <= k < |beats| => ClickEvent(beats[k], start, intensity))
  }

  function MeowEvents(measureCount: nat, start: real): seq<Event> {
    if measureCount % 16 == 15 then [MeowSound(start + MEOW_OFFSET)] else []
  }

  /** The events of one measure; `measureCount` is the counter after `scheduleNotes` incremented it. */
  function MeasureEvents(measureCount: nat, start: real): seq<Event> {
    var plan := Plan(measureCount % 16);
    NoteEvents(Pattern(plan.pattern), start, plan.volume)
      + ClickEvents(RHYTHM_CLICKS, start, plan.intensity)
      + MeowEvents(measureCount, start)
  }

  /** A measure holds the pattern's notes at the cycle's volume, the five clicks scaled by its intensity, and a meow only on cycle 15. */
  lemma MeasureShape(measureCount: nat, start: real)
    ensures var plan := Plan(measureCount % 16);
      var pattern := Pattern(plan.pattern);
      var events := MeasureEvents(measureCount, start);
      && |events| == |pattern| + 5 + (if measureCount % 16 == 15 then 1 else 0)
      && (forall i :: 0 <= i < |pattern| ==>
            events[i] == PianoNote(start + pattern[i].time, pattern[i].freq, pattern[i].dur, plan.volume))
      && (forall k :: 0 <= k < 5 ==>
            events[|pattern| + k] == Click(start + RHYTHM_CLICKS[k].time, RHYTHM_CLICKS[k].vol * plan.intensity))
      && (measureCount % 16 == 15 ==> events[|pattern| + 5] == MeowSound(start + MEOW_OFFSET))
  {
  }

  /** A meow is emitted in a measure exactly when its cycle position is 15. */
  lemma MeowOnlyOnLastMeasure(measureCount: nat, start: real)
    ensures (exists i :: 0 <= i < |MeasureEvents(measureCount, start)|
                         && MeasureEvents(measureCount, start)[i].MeowSound?)
            <==> measureCount % 16 == 15
  {
    var plan := Plan(measureCount % 16);
    var notes := NoteEvents(Pattern(plan.pattern), start, plan.volume);
    var clicks := ClickEvents(RHYTHM_CLICKS, start, plan.intensity);
    var events := MeasureEvents(measureCount, start);
    assert events == notes + clicks + MeowEvents(measureCount, start);
    forall i | 0 <= i < |notes| + |clicks| ensures !events[i].MeowSound? {
      if i < |notes| {
        assert events[i] == notes[i];
      } else {
        assert events[i] == clicks[i - |notes|];
      }
    }
    if measureCount % 16 == 15 {
      assert events[|notes| + |clicks|].MeowSound?;
    }
  }

  /** The sequencer's output repeats with period 16 measures. */
  lemma MeasuresRepeatEvery16(measureCount: nat, start: real)
    ensures MeasureEvents(measureCount + 16, start) == MeasureEvents(measureCount, start)
  {
    assert (measureCount + 16) % 16 == measureCount % 16;
  }

  lemma PatternOnsetsWithinMeasure(name: PatternName)
    ensures forall i :: 0 <= i < |Pattern(name)| ==> 0.0 <= Pattern(name)[i].time < MEASURE_SECONDS
  {
  }

  /** Every event of `events` begins in [lo, hi), checked front to back. */
  predicate StartsWithin(events: seq<Event>, lo: real, hi: real)
    decreases |events|
  {
    |events| == 0 || (lo <= events[0].Time() < hi && StartsWithin(events[1..], lo, hi))
  }

  lemma {:induction false} StartsWithinMeansAll(events: seq<Event>, lo: real, hi: real)
    ensures StartsWithin(events, lo, hi) <==> forall i :: 0 <= i < |events| ==> lo <= events[i].Time() < hi
    decreases |events|
  {
    if |events| > 0 {
      var rest := events[1..];
      StartsWithinMeansAll(rest, lo, hi);
      if forall i :: 0 <= i < |events| ==> lo <= events[i].Time() < hi {
        assert forall i :: 0 <= i < |rest| ==> rest[i] == events[i + 1];
      }
      if StartsWithin(events, lo, hi) {
        forall i | 0 <= i < |events| ensures lo <= events[i].Time() < hi {
          if i > 0 {
            assert events[i] == rest[i - 1];
          }
        }
      }
    }
  }

  /** Two runs of events inside [lo, hi) make a run inside [lo, hi). */
  lemma WithinConcat(a: seq<Event>, b: seq<Event>, lo: real, hi: real)
    requires StartsWithin(a, lo, hi) && StartsWithin(b, lo, hi)
    ensures StartsWithin(a + b, lo, hi)
  {
    StartsWithinMeansAll(a, lo, hi);
    StartsWithinMeansAll(b, lo, hi);
    StartsWithinMeansAll(a + b, lo, hi);
    forall i | 0 <= i < |a + b| ensures lo <= (a + b)[i].Time() < hi {
      if i >= |a| {
        assert (a + b)[i] == b[i - |a|];
      }
    }
  }

  /** A run inside [lo, hi) is inside every wider interval. */
  lemma WithinWiden(events: seq<Event>, lo: real, hi: real, lo': real, hi': real)
    requires StartsWithin(events, lo, hi) && lo' <= lo && hi <= hi'
    ensures StartsWithin(events, lo', hi')
  {
    StartsWithinMeansAll(events, lo, hi);
    StartsWithinMeansAll(events, lo', hi');
  }

  /** Every event of a measure starting at `start` begins in [start, start + one measure). */
  lemma MeasureEventsWithin(measureCount: nat, start: real)
    ensures StartsWithin(MeasureEvents(measureCount, start), start, start + MEASURE_SECONDS)
  {
    var plan := Plan(measureCount % 16);
    var notes := NoteEvents(Pattern(plan.pattern), start, plan.volume);
    var clicks := ClickEvents(RHYTHM_CLICKS, start, plan.intensity);
    var events := MeasureEvents(measureCount, start);
    PatternOnsetsWithinMeasure(plan.pattern);
    assert events == notes + clicks + MeowEvents(measureCount, start);
    forall i | 0 <= i < |events| ensures start <= events[i].Time() < start + MEASURE_SECONDS {
      if i < |notes| {
        assert events[i] == notes[i];
      } else if i < |notes| + |clicks| {
        assert events[i] == clicks[i - |notes|];
      }
    }
    StartsWithinMeansAll(events, start, start + MEASURE_SECONDS);
  }
}
