/**
 * The audio lifecycle guards of `pauseAudio`, `resumeAudio`, `cleanup` and the
 * gain automation written by `duckAudioVolume` and `toggleMute`.
 */
module Audio {
  import opened Wrappers
  import opened Config

  /** `AudioContext.state`. */
  datatype ContextState = Running | Suspended | Closed

  /** `pauseAudio`: only a running context is suspended. */
  function AfterPause(context: Option<ContextState>): (r: Option<ContextState>)
    ensures r != context <==> context == Some(Running)
    ensures r != context ==> r == Some(Suspended)
  {
    if context == Some(Running) then Some(Suspended) else context
  }

  /** `resumeAudio`: only a suspended context is resumed. */
  function AfterResume(context: Option<ContextState>): (r: Option<ContextState>)
    ensures r != context <==> context == Some(Suspended)
    ensures r != context ==> r == Some(Running)
  {
    if context == Some(Suspended) then Some(Running) else context
  }

  /** `cleanup`: a context that exists and is not closed yet is closed; null stays null. */
  function AfterClose(context: Option<ContextState>): (r: Option<ContextState>)
    ensures r.Some? <==> context.Some?
    ensures r.Some? ==> r == Some(Closed)
    ensures r != context <==> context.Some? && context != Some(Closed)
  {
    match context
    case Some(state) => if state != Closed then Some(Closed) else context
    case None => None
  }

  /** Closing twice is closing once, so a repeated `cleanup` leaves the context alone. */
  lemma CloseIsIdempotent(context: Option<ContextState>)
    ensures AfterClose(AfterClose(context)) == AfterClose(context)
  {
  }

  /** A closed context is neither suspended nor resumed again. */
  lemma ClosedIsTerminal()
    ensures AfterPause(Some(Closed)) == Some(Closed)
    ensures AfterResume(Some(Closed)) == Some(Closed)
    ensures AfterClose(Some(Closed)) == Some(Closed)
  {
  }

  /** Pausing and resuming undo each other from the states they act on. */
  lemma PauseResumeRoundTrip()
    ensures AfterResume(AfterPause(Some(Running))) == Some(Running)
    ensures AfterPause(AfterResume(Some(Suspended))) == Some(Suspended)
  {
  }

  /** A `setInterval` handle: never set, set and firing, or cleared (the handle is kept). */
  datatype Interval = NoInterval | Scheduled | Cleared

  /** `if (handle) clearInterval(handle)` without resetting the field. */
  function AfterClearInterval(interval: Interval): (r: Interval)
    ensures r != Scheduled
    ensures r == NoInterval <==> interval == NoInterval
  {
    if interval == Scheduled then Cleared else interval
  }

  /** Clearing a handle twice is clearing it once. */
  lemma ClearIsIdempotent(interval: Interval)
    ensures AfterClearInterval(AfterClearInterval(interval)) == AfterClearInterval(interval)
  {
  }

  /** One automation call on the background gain `bgmGainNode.gain`. */
  datatype GainEvent = SetValue(value: real, time: real) | ExponentialRamp(value: real, time: real)

  /** The duck: down to VOLUME_DIP within 0.1 s, back to unity 1 s after that. */
  function DuckRamps(now: real): (r: seq<GainEvent>)
    ensures |r| == 2 && r[0].ExponentialRamp? && r[1].ExponentialRamp?
    ensures r[0].value == VOLUME_DIP && r[0].time == now + 0.1
    ensures r[1].value == 1.0 && r[1].time == now + 1.1
    ensures now < r[0].time < r[1].time && r[1].time - r[0].time == 1.0
    ensures 0.0 < r[0].value < r[1].value
  {
    [ExponentialRamp(VOLUME_DIP, now + 0.1), ExponentialRamp(1.0, now + 1.1)]
  }

  /** `toggleMute`'s gain write at the current time: silence when muted, unity otherwise. */
  function MuteGain(muted: bool, now: real): (r: GainEvent)
    ensures r.SetValue? && r.time == now
    ensures muted ==> r.value == 0.0
    ensures !muted ==> r.value == 1.0
  {
    SetValue(if muted then 0.0 else 1.0, now)
  }

  /** How creating the `AudioContext` turns out. */
  datatype AudioBackend =
    | Unavailable                                          // the constructor throws
    | Available(startsSuspended: bool, resumeRejects: bool) // a context, maybe suspended; resuming it may reject
}
