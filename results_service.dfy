/**
 * The race-results store: an ordered list of race results with insertion,
 * save and load, a first-match lookup by (participant, sport) and a total
 * time per participant.
 *
 * The queries and the save/load encoding are pure functions over the list;
 * the store itself is the class `RaceResultsService` at the end, whose list
 * is the only state and is changed by `AddRaceResult` and `LoadFromFile`.
 */
module ResultsService {
  import opened Wrappers
  import opened Durations
  import opened RaceResults

  // ---------------------------------------------------------------------
  // Saved form of the list
  // ---------------------------------------------------------------------

  /** One saved entry: the participant, the sport and the raw seconds count. */
  datatype RawRecord = RawRecord(participantId: string, sport: string, duration: int)

  /** How `saveToFile` writes one result. */
  function EncodeRecord(r: RaceResult): RawRecord
  {
    RawRecord(r.participantId, r.sport, r.duration.totalSeconds)
  }

  /** How `loadFromFile` rebuilds one result, with a fresh Duration. */
  function DecodeRecord(e: RawRecord): RaceResult
  {
    NewRaceResult(e.participantId, e.sport, Duration(e.duration))
  }

  /** The list as saved: one entry per result, in list order. */
  function Encode(rs: seq<RaceResult>): (es: seq<RawRecord>)
    ensures |es| == |rs|
    ensures forall i :: 0 <= i < |rs| ==> es[i] == EncodeRecord(rs[i])
  {
    if rs == [] then [] else [EncodeRecord(rs[0])] + Encode(rs[1..])
  }

  /** The list as loaded: one result per saved entry, in file order. */
  function Decode(es: seq<RawRecord>): (rs: seq<RaceResult>)
    ensures |rs| == |es|
    ensures forall i :: 0 <= i < |es| ==> rs[i] == DecodeRecord(es[i])
  {
    if es == [] then [] else [DecodeRecord(es[0])] + Decode(es[1..])
  }

  /**
   * Loading what was saved gives back the same results in the same order
   * (entry by entry, from the contracts of Encode and Decode).
   */
  lemma DecodeEncode(rs: seq<RaceResult>)
    ensures Decode(Encode(rs)) == rs
  {
  }

  /** Saving what was loaded writes back the same entries in the same order. */
  lemma EncodeDecode(es: seq<RawRecord>)
    ensures Encode(Decode(es)) == es
  {
  }

  // ---------------------------------------------------------------------
  // Lookup of one time
  // ---------------------------------------------------------------------

  /** Exact (case-sensitive) match on both the participant and the sport. */
  predicate Matches(r: RaceResult, participantId: string, sport: string)
  {
    r.participantId == participantId && r.sport == sport
  }

  /** No result in `rs` is for this participant in this sport. */
  predicate NoMatch(rs: seq<RaceResult>, participantId: string, sport: string)
  {
    forall i :: 0 <= i < |rs| ==> !Matches(rs[i], participantId, sport)
  }

  /** `rs[i]` is the earliest result for this participant in this sport. */
  predicate FirstMatchAt(rs: seq<RaceResult>, participantId: string, sport: string, i: int)
  {
    0 <= i < |rs| && Matches(rs[i], participantId, sport) &&
    forall j :: 0 <= j < i ==> !Matches(rs[j], participantId, sport)
  }

  /**
   * `find` over the list: the duration of the first matching result, or
   * `None` (the source's `null`) exactly when nothing matches.
   */
  function TimeFor(rs: seq<RaceResult>, participantId: string, sport: string): (d: Option<Duration>)
    ensures d.None? <==> NoMatch(rs, participantId, sport)
    ensures d.Some? ==> exists i :: FirstMatchAt(rs, participantId, sport, i) && d.value == rs[i].duration
  {
    if rs == [] then None
    else if Matches(rs[0], participantId, sport) then
      assert FirstMatchAt(rs, participantId, sport, 0);
      Some(rs[0].duration)
    else
      var d := TimeFor(rs[1..], participantId, sport);
      assert NoMatch(rs[1..], participantId, sport) ==> NoMatch(rs, participantId, sport) by {
        if NoMatch(rs[1..], participantId, sport) {
          forall i | 0 <= i < |rs| ensures !Matches(rs[i], participantId, sport) {
            if i > 0 { assert rs[i] == rs[1..][i - 1]; }
          }
        }
      }
      assert d.Some? ==> exists i :: FirstMatchAt(rs, participantId, sport, i) && d.value == rs[i].duration by {
        if d.Some? {
          var k :| FirstMatchAt(rs[1..], participantId, sport, k) && d.value == rs[1..][k].duration;
          assert FirstMatchAt(rs, participantId, sport, k + 1);
        }
      }
      d
  }

  /**
   * Appending a result never changes an existing answer; when there was none,
   * the new result is the answer exactly when it matches.
   */
  lemma {:induction false} TimeForAppend(rs: seq<RaceResult>, r: RaceResult, participantId: string, sport: string)
    ensures TimeFor(rs + [r], participantId, sport) ==
      if TimeFor(rs, participantId, sport).Some? then TimeFor(rs, participantId, sport)
      else if Matches(r, participantId, sport) then Some(r.duration)
      else None
  {
    if rs != [] {
      assert (rs + [r])[1..] == rs[1..] + [r];
      TimeForAppend(rs[1..], r, participantId, sport);
    }
  }

  // ---------------------------------------------------------------------
  // Total time of one participant
  // ---------------------------------------------------------------------

  /**
   * `filter` over the list: the participant's results, any sport.
   * `ResultsOfCounts` says each is kept as often as it occurs, and
   * `ResultsOfConcat` that list order is kept.
   */
  function ResultsOf(rs: seq<RaceResult>, participantId: string): (ms: seq<RaceResult>)
    ensures |ms| <= |rs|
    ensures forall r :: r in ms <==> r in rs && r.participantId == participantId
  {
    if rs == [] then []
    else if rs[0].participantId == participantId then [rs[0]] + ResultsOf(rs[1..], participantId)
    else ResultsOf(rs[1..], participantId)
  }

  /** The filter keeps every occurrence of the participant's results, duplicates included, and nothing else. */
  lemma {:induction false} ResultsOfCounts(rs: seq<RaceResult>, participantId: string)
    ensures forall r :: multiset(ResultsOf(rs, participantId))[r] == (if r.participantId == participantId then multiset(rs)[r] else 0)
  {
    if rs != [] {
      ResultsOfCounts(rs[1..], participantId);
      assert rs == [rs[0]] + rs[1..];
      assert multiset(rs) == multiset{rs[0]} + multiset(rs[1..]);
    }
  }

  /**
   * The filter keeps list order: filtering a concatenation is concatenating
   * the filtered parts, so a kept result never moves ahead of an earlier one.
   */
  lemma {:induction false} ResultsOfConcat(a: seq<RaceResult>, b: seq<RaceResult>, participantId: string)
    ensures ResultsOf(a + b, participantId) == ResultsOf(a, participantId) + ResultsOf(b, participantId)
  {
    if a == [] {
      assert a + b == b;
    } else {
      var ab := a + b;
      assert ab != [] && ab[0] == a[0] && ab[1..] == a[1..] + b;
      ResultsOfConcat(a[1..], b, participantId);
      var rest := ResultsOf(a[1..], participantId);
      if a[0].participantId == participantId {
        assert ResultsOf(ab, participantId) == [a[0]] + (rest + ResultsOf(b, participantId));
        assert ResultsOf(a, participantId) == [a[0]] + rest;
      } else {
        assert ResultsOf(ab, participantId) == rest + ResultsOf(b, participantId);
        assert ResultsOf(a, participantId) == rest;
      }
    }
  }

  /** The left fold of `Plus` over the results' durations, starting from `acc`. */
  function FoldPlus(acc: Duration, ms: seq<RaceResult>): Duration
    decreases ms
  {
    if ms == [] then acc else FoldPlus(Plus(acc, ms[0].duration), ms[1..])
  }

  /**
   * `getTotalTimeForParticipant` over a list: the zero duration when the
   * participant has no result, otherwise the fold of `plus` from zero.
   */
  function TotalTimeFor(rs: seq<RaceResult>, participantId: string): Duration
  {
    var ms := ResultsOf(rs, participantId);
    if |ms| == 0 then Duration(0) else FoldPlus(Duration(0), ms)
  }

  /** Reference definition: the seconds of all the participant's results, summed. */
  function SecondsOf(rs: seq<RaceResult>, participantId: string): int
  {
    if rs == [] then 0
    else
      var own := if rs[0].participantId == participantId then rs[0].duration.totalSeconds else 0;
      own + SecondsOf(rs[1..], participantId)
  }

  /** The seconds of every result in `ms`, summed. */
  function SumSeconds(ms: seq<RaceResult>): int
  {
    if ms == [] then 0 else ms[0].duration.totalSeconds + SumSeconds(ms[1..])
  }

  /** The left fold adds up the seconds of everything it folds, onto `acc`. */
  lemma {:induction false} FoldPlusSums(acc: Duration, ms: seq<RaceResult>)
    ensures FoldPlus(acc, ms).totalSeconds == acc.totalSeconds + SumSeconds(ms)
    decreases ms
  {
    if ms != [] {
      FoldPlusSums(Plus(acc, ms[0].duration), ms[1..]);
    }
  }

  /** Filtering then summing is summing the participant's results. */
  lemma {:induction false} ResultsOfSums(rs: seq<RaceResult>, participantId: string)
    ensures SumSeconds(ResultsOf(rs, participantId)) == SecondsOf(rs, participantId)
  {
    if rs != [] {
      ResultsOfSums(rs[1..], participantId);
      if rs[0].participantId == participantId {
        assert ([rs[0]] + ResultsOf(rs[1..], participantId))[1..] == ResultsOf(rs[1..], participantId);
      }
    }
  }

  /**
   * The total has as many seconds as the participant's results together,
   * whatever their sports; the early return for no results agrees with
   * folding over nothing.
   */
  lemma TotalTimeIsSum(rs: seq<RaceResult>, participantId: string)
    ensures TotalTimeFor(rs, participantId) == FoldPlus(Duration(0), ResultsOf(rs, participantId))
    ensures TotalTimeFor(rs, participantId).totalSeconds == SecondsOf(rs, participantId)
  {
    FoldPlusSums(Duration(0), ResultsOf(rs, participantId));
    ResultsOfSums(rs, participantId);
  }

  /** A participant with no result has the zero duration as total (never "no value"). */
  lemma TotalTimeWithoutResults(rs: seq<RaceResult>, participantId: string)
    requires forall i :: 0 <= i < |rs| ==> rs[i].participantId != participantId
    ensures TotalTimeFor(rs, participantId) == Duration(0)
  {
  }

  /** The sport of a result plays no part in its participant's total. */
  lemma {:induction false} SecondsIgnoreSport(rs: seq<RaceResult>, i: int, sport: string, participantId: string)
    requires 0 <= i < |rs|
    ensures SecondsOf(rs[i := rs[i].(sport := sport)], participantId) == SecondsOf(rs, participantId)
  {
    if i > 0 {
      SecondsIgnoreSport(rs[1..], i - 1, sport, participantId);
      assert rs[i := rs[i].(sport := sport)][1..] == rs[1..][i - 1 := rs[i].(sport := sport)];
    } else {
      assert rs[i := rs[i].(sport := sport)][1..] == rs[1..];
    }
  }

  /** Relabelling the sport of any one result leaves every participant's total unchanged. */
  lemma TotalTimeIgnoresSport(rs: seq<RaceResult>, i: int, sport: string, participantId: string)
    requires 0 <= i < |rs|
    ensures TotalTimeFor(rs[i := rs[i].(sport := sport)], participantId) == TotalTimeFor(rs, participantId)
  {
    TotalTimeIsSum(rs, participantId);
    TotalTimeIsSum(rs[i := rs[i].(sport := sport)], participantId);
    SecondsIgnoreSport(rs, i, sport, participantId);
  }

  /** Appending a result adds its seconds to its own participant's total only. */
  lemma {:induction false} SecondsOfAppend(rs: seq<RaceResult>, r: RaceResult, participantId: string)
    ensures SecondsOf(rs + [r], participantId) ==
      SecondsOf(rs, participantId) + (if r.participantId == participantId then r.duration.totalSeconds else 0)
  {
    if rs != [] {
      assert (rs + [r])[1..] == rs[1..] + [r];
      SecondsOfAppend(rs[1..], r, participantId);
    } else {
      assert [r][1..] == [];
    }
  }

  // ---------------------------------------------------------------------
  // The store
  // ---------------------------------------------------------------------

  /**
   * The store. Its only state is the ordered list of results; reading the
   * field is the `raceResults` getter.
   */
  class RaceResultsService {
    var raceResults: seq<RaceResult>

    /** A new store holds no result. */
    constructor ()
      ensures raceResults == []
    {
      raceResults := [];
    }

    /** `addRaceResult`: the result goes at the end; earlier results stay as they were. */
    method AddRaceResult(result: RaceResult)
      modifies this
      ensures raceResults == old(raceResults) + [result]
      ensures |raceResults| == |old(raceResults)| + 1
      ensures raceResults[..|old(raceResults)|] == old(raceResults)
    {
      raceResults := raceResults + [result];
    }

    /**
     * `saveToFile`: what is written, one entry per result in list order, from
     * which a load rebuilds exactly the current list.
     */
    function SaveToFile(): (data: seq<RawRecord>)
      reads this
      ensures |data| == |raceResults|
      ensures forall i :: 0 <= i < |raceResults| ==> data[i] == EncodeRecord(raceResults[i])
      ensures Decode(data) == raceResults
    {
      DecodeEncode(raceResults);
      Encode(raceResults)
    }

    /**
     * `loadFromFile`: `decoded` is what reading and parsing the file gave,
     * `None` when reading, parsing or rebuilding the entries threw. On success
     * the whole list is replaced by the rebuilt results; on failure the list
     * is left exactly as it was.
     */
    method LoadFromFile(decoded: Option<seq<RawRecord>>) returns (ok: bool)
      modifies this
      ensures ok <==> decoded.Some?
      ensures ok ==> raceResults == Decode(decoded.value) && SaveToFile() == decoded.value
      ensures !ok ==> raceResults == old(raceResults)
    {
      match decoded
      case None =>
        ok := false;
      case Some(entries) =>
        raceResults := Decode(entries);
        EncodeDecode(entries);
        ok := true;
    }

    /** `getTimeForParticipant`: the first exact match's duration, or `None`. */
    function GetTimeForParticipant(participantId: string, sport: string): (d: Option<Duration>)
      reads this
      ensures d.None? <==> NoMatch(raceResults, participantId, sport)
      ensures d.Some? ==> exists i :: FirstMatchAt(raceResults, participantId, sport, i) && d.value == raceResults[i].duration
    {
      TimeFor(raceResults, participantId, sport)
    }

    /** `getTotalTimeForParticipant`: the seconds of all the participant's results, summed. */
    function GetTotalTimeForParticipant(participantId: string): (d: Duration)
      reads this
      ensures d == TotalTimeFor(raceResults, participantId)
      ensures d.totalSeconds == SecondsOf(raceResults, participantId)
    {
      TotalTimeIsSum(raceResults, participantId);
      TotalTimeFor(raceResults, participantId)
    }
  }

  /** Saving and then loading what was saved leaves the store as it was. */
  method SaveThenLoad(store: RaceResultsService)
    modifies store
    ensures store.raceResults == old(store.raceResults)
  {
    var data := store.SaveToFile();
    var ok := store.LoadFromFile(Some(data));
    assert ok;
  }

  /**
   * After a result is added, lookups keep their earlier answers and the
   * result's participant gains its seconds in the total.
   */
  method AddThenQuery(store: RaceResultsService, result: RaceResult, participantId: string, sport: string)
    modifies store
    ensures store.GetTimeForParticipant(participantId, sport) ==
      if old(store.GetTimeForParticipant(participantId, sport)).Some? then old(store.GetTimeForParticipant(participantId, sport))
      else if Matches(result, participantId, sport) then Some(result.duration)
      else None
    ensures store.GetTotalTimeForParticipant(result.participantId).totalSeconds ==
      old(store.GetTotalTimeForParticipant(result.participantId)).totalSeconds + result.duration.totalSeconds
  {
    ghost var before := store.raceResults;
    store.AddRaceResult(result);
    TimeForAppend(before, result, participantId, sport);
    SecondsOfAppend(before, result, result.participantId);
  }
}
