/** A race result: which participant, in which sport, took how long. */
module RaceResults {
  import opened Durations

  /** A plain record of exactly three fields, with no behaviour of its own. */
  datatype RaceResult = RaceResult(participantId: string, sport: string, duration: Duration)

  /**
   * `new RaceResult(participantId, sport, duration)`: every argument triple is
   * accepted, and each argument is stored as given.
   */
  function NewRaceResult(participantId: string, sport: string, duration: Duration): (r: RaceResult)
    ensures r.participantId == participantId
    ensures r.sport == sport
    ensures r.duration == duration
  {
    RaceResult(participantId, sport, duration)
  }

  /** A record is nothing but its three fields: rebuilding it from them gives it back. */
  lemma RebuildFromFields(r: RaceResult)
    ensures NewRaceResult(r.participantId, r.sport, r.duration) == r
  {
  }
}
