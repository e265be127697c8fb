/** The constants of `CONFIG` in main.js and the two petitions it tracks. */
module Config {

  /** One tracked petition: its numeric id on the petition site and its display name. */
  datatype Petition = Petition(id: string, name: string)

  const ANTI: Petition := Petition("700824", "anti-immigration")
  const PRO: Petition := Petition("727360", "pro-immigration")

  /** Milliseconds between two polls. */
  const POLL_INTERVAL: int := 15000
  /** A failed petition is not fetched again for this many milliseconds. */
  const SUPPRESSION_WINDOW: int := POLL_INTERVAL * 2

  const RETRY_ATTEMPTS: int := 3
  /** Milliseconds; the wait after the (i+1)-th failed attempt is RETRY_DELAY * (i + 1). */
  const RETRY_DELAY: nat := 1000

  /** Track bounds, in percent of the track width. */
  const MIN_POSITION: real := 50.0
  const MAX_POSITION: real := 80.0
  const MAX_POSITION_PERCENT: real := 80.0
  /** Forward bounce, in percent, of a cat whose count went up. */
  const ADVANCE_BUMP: real := 2.0

  /** Seconds of audio scheduled ahead of the audio clock. */
  const SCHEDULE_AHEAD_TIME: real := 0.1
  /** Milliseconds per measure; one measure is MELODY_LOOP_TIME / 1000 seconds. */
  const MELODY_LOOP_TIME: int := 2000
  const MEASURE_SECONDS: real := MELODY_LOOP_TIME as real / 1000.0
  const VOLUME: real := 0.1
  const VOLUME_DIP: real := 0.25

  lemma PetitionsDiffer()
    ensures ANTI.id != PRO.id && ANTI.name != PRO.name
  {
    assert ANTI.id[1] != PRO.id[1];
    assert ANTI.name[0] != PRO.name[0];
  }
}
