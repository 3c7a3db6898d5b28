# Race-results store

A Dafny model of the race-results store of `Ex-3`: the `RaceResult` record
(participant id, sport label, duration) and the `RaceResultsService` class,
which keeps an ordered list of results and offers insertion, saving, loading,
a first-match time lookup per (participant, sport) and a total time per
participant.

- `wrappers.dfy` — `Option`, standing for the source's `null` result.
- `durations.dfy` — `Duration`, reduced to what the store uses (see below).
- `race_result.dfy` — the `RaceResult` record and its constructor.
- `results_service.dfy` — the saved form of the list with its encoding and
  decoding, the lookup and the total as pure functions over the list with the
  lemmas about them, and the class `RaceResultsService`, whose one field
  `raceResults: seq<RaceResult>` is changed by `AddRaceResult` and
  `LoadFromFile`; the queries and `SaveToFile` are functions that only read it.

File input and output are replaced by values. `SaveToFile` returns the list
of saved entries (participant id, sport, seconds) instead of writing JSON.
`LoadFromFile` receives what reading and parsing produced, as
`Option<seq<RawRecord>>`. It is `None` when anything inside the `try`
threw: `readFileSync`, `JSON.parse`, or the `map` that rebuilds the results
(for example on a top level that is not an array, or a `null` entry).

**Assumption about `Duration`.** `Ex-3/model/Duration.js` is not part of this
model. It is taken to wrap a whole number of seconds. The model's `totalSeconds`
stands for the field `_totalSeconds` that `saveToFile` reads at
`Ex-3/service/RaceResultsService.js:36`. It is built
from a seconds count (lines 55 and 87). Its `plus` (line 90) is taken to
return a new duration holding the sum of the two counts. Nothing in the model
depends on any other part of `Duration`.

## Model

| member | source | states |
|---|---|---|
| `RaceResults.NewRaceResult` | Ex-3/model/RaceResult.js:31-35 | the constructor accepts every (participant, sport, duration) triple and stores each argument as given |
| `RaceResults.RebuildFromFields` | Ex-3/model/RaceResult.js:11-23 | a result is exactly its three fields: rebuilding it from them yields the same record |
| `ResultsService.Encode` | Ex-3/service/RaceResultsService.js:33-37 | saving writes one entry per result, in list order, each holding the participant id, the sport and the duration's seconds |
| `ResultsService.Decode` | Ex-3/service/RaceResultsService.js:52-56 | loading rebuilds one result per entry, in file order, each with a new Duration of the saved seconds |
| `ResultsService.DecodeEncode` | Ex-3/service/RaceResultsService.js:33-56 | loading what was saved gives back the same results in the same order |
| `ResultsService.EncodeDecode` | Ex-3/service/RaceResultsService.js:33-56 | saving what was loaded writes back the same entries in the same order |
| `ResultsService.TimeFor` | Ex-3/service/RaceResultsService.js:71-75 | the result is absent exactly when no record matches both participant and sport; otherwise it is the duration of the earliest matching record |
| `ResultsService.TimeForAppend` | Ex-3/service/RaceResultsService.js:71-75 | appending a result never changes an existing lookup answer, and answers a missing one exactly when it matches |
| `ResultsService.ResultsOf` | Ex-3/service/RaceResultsService.js:84 | the filter keeps exactly the records of the participant, whatever their sport, and no more records than the list has |
| `ResultsService.ResultsOfCounts` | Ex-3/service/RaceResultsService.js:84 | each of the participant's records occurs in the filtered list as often as in the whole list, duplicates included, and no other record occurs |
| `ResultsService.ResultsOfConcat` | Ex-3/service/RaceResultsService.js:84 | the filter keeps list order: filtering a concatenation is concatenating the filtered parts |
| `ResultsService.FoldPlusSums` | Ex-3/service/RaceResultsService.js:90 | the left fold of `plus` gives the starting seconds plus the seconds of every folded record |
| `ResultsService.ResultsOfSums` | Ex-3/service/RaceResultsService.js:84 | summing the filtered records is summing the participant's records in the whole list |
| `ResultsService.TotalTimeIsSum` | Ex-3/service/RaceResultsService.js:84-90 | the total equals the fold from zero over the filtered records (the early return included) and has the participant's summed seconds |
| `ResultsService.TotalTimeWithoutResults` | Ex-3/service/RaceResultsService.js:86-88 | a participant with no record gets the zero duration, never an absent value |
| `ResultsService.SecondsIgnoreSport` | Ex-3/service/RaceResultsService.js:84 | the participant's summed seconds do not depend on the sport of any record |
| `ResultsService.TotalTimeIgnoresSport` | Ex-3/service/RaceResultsService.js:84-90 | relabelling the sport of any record leaves every participant's total unchanged |
| `ResultsService.SecondsOfAppend` | Ex-3/service/RaceResultsService.js:84-90 | appending a result adds its seconds to its own participant's sum and to no other |
| `ResultsService.RaceResultsService.constructor` | Ex-3/service/RaceResultsService.js:14 | a new store holds the empty list |
| `ResultsService.RaceResultsService.AddRaceResult` | Ex-3/service/RaceResultsService.js:24-26 | the new list is the old list with the result appended: one longer, earlier entries unchanged |
| `ResultsService.RaceResultsService.SaveToFile` | Ex-3/service/RaceResultsService.js:32-40 | the saved entries follow the current list one for one, and decoding them gives the current list back; the list is only read |
| `ResultsService.RaceResultsService.LoadFromFile` | Ex-3/service/RaceResultsService.js:47-63 | returns true exactly when reading, parsing and rebuilding succeeded; then the whole list is replaced by the decoded records, which save back to the same entries; otherwise the list is exactly as before |
| `ResultsService.RaceResultsService.GetTimeForParticipant` | Ex-3/service/RaceResultsService.js:71-76 | absent exactly when no record of the store matches; otherwise the duration of the earliest match; the list is only read |
| `ResultsService.RaceResultsService.GetTotalTimeForParticipant` | Ex-3/service/RaceResultsService.js:83-91 | the filter-then-fold total of the store's list, whose seconds are the participant's summed seconds; the list is only read |
| `ResultsService.SaveThenLoad` | Ex-3/service/RaceResultsService.js:32-63 | saving and then loading the saved entries leaves the store's list as it was |
| `ResultsService.AddThenQuery` | Ex-3/service/RaceResultsService.js:24-91 | after adding a result, earlier lookup answers stand and the result's participant total grows by its seconds |

## Left out

- Reading and writing files (`fs.readFileSync`, `fs.writeFileSync`) are I/O. Load takes the decoded entries or `None` as a parameter. Save returns the entries.
- JSON text, `JSON.stringify` and `JSON.parse`, and the two-space pretty printing are library serialisation. The encoding is modelled at the level of records.
- Loosely typed JSON input is not modelled. A missing `participantId` or `sport` becomes `undefined` without failing. A missing `duration` is passed to `new Duration(undefined)`; whether that throws depends on `Duration.js`, which is not part of this model. Each saved entry is a typed triple, and every failure inside the `try`, including those of `map`, is folded into `None`.
- The `console.error` message on a failed load is advisory output only.
- The `raceResults` getter returns the live array, so callers could change it. In the model the field holds an immutable `seq`, and reading it is the getter; that aliasing is not captured.
- `Duration` beyond `totalSeconds`, construction from seconds and `plus` is left out, because its source is not part of this model. This covers `toString` formatting, any validation of negative or fractional seconds, and commutativity or associativity of `plus`.
- JavaScript numbers are doubles. Seconds are modelled as unbounded integers, so rounding of very large or fractional totals is not captured.
- The object identity of a stored `Duration` is not modelled. The lookup returns the very object held by the record; in the model, durations are values.
- `Ex-3/main_load.js` is a startup script with no logic of its own.
