# Video statistics store: a Dafny model

This project models the statistics core of a screen-recording app.

Every uploaded recording has a `Video` record. The records are kept in a single
collection. The tracking route receives playback events (`view`, `completion`) and
updates two aggregates on the matching record:

- a view counter;
- a running weighted mean of reported completion percentages, with the number of
  watches it is taken over.

Files and modules:

- `types.dfy` (`Types`): the `Video` record and a small `Option` type.
- `upload.dfy` (`Upload`): the shape of a freshly uploaded record.
- `db.dfy` (`Db`): the store. It has pure specification functions on a sequence of
  records (`FirstMatch`, `Lookup`, `WeightedMean`, `ApplyView`, `ApplyCompletion`) and
  lemmas about them. The class `VideoStore` holds the records in a field `videos`.
  Its methods follow the source: they look up an index with a left-to-right scan
  (`findIndex`), then update the record in place or append. Each method's
  postcondition ties the new `videos` to a specification function of the old one.
- `track.dfy` (`Track`): the request, as arbitrary JSON field values, with
  JavaScript truthiness. `Decide` is the validation cascade. `Post` carries the
  decision out against a `VideoStore`, the way the route calls the store's
  exported functions. `ExampleSession` is a client that walks through upload, two
  completions (80, then 40) and a view, and checks that the record ends with
  `views = 1`, `totalWatches = 2`, `completionRate = 60`.

Numbers: `views` and `totalWatches` are `nat`. `completionRate` and the percentages
are exact `real`s. The weighted mean divides by `totalWatches + 1`, which is at
least 1 because `totalWatches` is a `nat`. Since `WeightedMean` has no precondition,
Dafny checks once, in its body, that the divisor is nonzero.

In three places the system's intended design and its code differ. The model
follows the code:

- A tracking update on an id that no record carries is a silent no-op that still
  answers success. There is no not-found error.
- `createVideo` does not check that ids are unique. Lookups return the first
  matching record, so a later record with a duplicate id can never be reached
  (`CreateThenLookup`).
- The completion percentage is not clamped to [0, 100]. A rate stays in that range
  only while every reported value does (`UpdatesKeepPercentages`,
  `PostKeepsPercentages`).

## Model

| member | source | states |
|---|---|---|
| `Upload.InitialRecord` | src/app/api/upload/route.ts:32-39 | a new record carries the generated id, timestamp and file name, with views, total watches and completion rate all zero |
| `Db.FirstMatchFrom` | src/lib/db.ts:43 | the result is -1 exactly when no record at or after the start index has the id; otherwise it is the first such index |
| `Db.FirstMatch` | src/lib/db.ts:43 | `findIndex`: -1 exactly when no record has the id; otherwise an index whose record has the id, with no earlier record having it |
| `Db.Lookup` | src/lib/db.ts:30-33 | `find`: nothing exactly when no record has the id; otherwise a stored record with that id, and no earlier record has it |
| `Db.WeightedMeanProperties` | src/lib/db.ts:58-63 | the contract of `WeightedMean`, the expression at line 63: new mean × (watches + 1) = old mean × watches + p; with no prior watches the new mean is p; the new mean lies between min(old mean, p) and max(old mean, p) |
| `Db.Viewed` | src/lib/db.ts:45 | the record gains exactly one view; id, creation time, file name, rate and total watches keep their values |
| `Db.Completed` | src/lib/db.ts:57-66 | the record gets total watches + 1 and the weighted mean of its old rate and p as its new rate; views, id, creation time and file name keep their values |
| `Db.ApplyView` | src/lib/db.ts:41-48 | same length; with no matching record the store is unchanged; otherwise the first match gains exactly one view, its other fields keep their values; the result is the old store with only that position replaced |
| `Db.ApplyCompletion` | src/lib/db.ts:53-70 | same length; with no matching record the store is unchanged; otherwise the first match gets total watches + 1 and the weighted mean of its old rate and p; its views, id, creation time and file name keep their values; the result is the old store with only that position replaced |
| `Db.CreateThenLookup` | src/lib/db.ts:30-39 | after an append, a lookup returns an earlier match if there is one; otherwise it returns the appended record if its id matches, and nothing if not |
| `Db.RepeatedViews` | src/lib/db.ts:41-47 | n successive views equal the closed form `AddViews`: on a present id the first match has views + n and nothing else changes; on an absent id the store is unchanged |
| `Db.CompletedStep` | src/lib/db.ts:62-66 | one completion adds one watch and adds p to rate × watches; views, id, creation time and file name are unchanged |
| `Db.FoldCompletionsClosedForm` | src/lib/db.ts:62-66 | after percentages p1..pn, total watches grow by n; rate × watches equals the old rate × old watches + p1 + … + pn; views, id, creation time and file name are unchanged |
| `Db.FreshRecordAverages` | src/lib/db.ts:58-66 | on a record with no watches, after p1..pn (n ≥ 1) the rate is their arithmetic mean |
| `Db.FoldCompletionsInHull` | src/lib/db.ts:62-63 | if the old rate and every new percentage lie in [lo, hi], the rate after all of them lies in [lo, hi] |
| `Db.FreshRecordInHull` | src/lib/db.ts:59-63 | on a record with no watches, the rate ends between the least and the greatest reported percentage, whatever the starting rate |
| `Db.RepeatedCompletions` | src/lib/db.ts:53-70 | successive `updateCompletion` calls with p1..pn replace the first matching record by the per-record fold of p1..pn and leave every other record unchanged; on an absent id the store is unchanged. So the closed form, the mean and the hull above hold of the stored record |
| `Db.UpdatesKeepPercentages` | src/lib/types.ts:5 | a view keeps every rate in [0, 100]; so does a completion whose value is in [0, 100] |
| `Db.VideoStore.constructor` | src/lib/db.ts:7-13 | a missing backing file starts as an empty collection |
| `Db.VideoStore.GetVideos` | src/lib/db.ts:26-28 | returns every stored record, in order |
| `Db.VideoStore.FindIndex` | src/lib/db.ts:43 | the scan returns the first index whose record has the id, or -1 when none has it |
| `Db.VideoStore.GetVideo` | src/lib/db.ts:30-33 | returns the first record with the id, or nothing when no record has it; the store is only read |
| `Db.VideoStore.CreateVideo` | src/lib/db.ts:35-39 | appends the record as given: length + 1, the last element is the record, earlier records unchanged, no uniqueness check |
| `Db.VideoStore.IncrementViews` | src/lib/db.ts:41-48 | the new store is the old store after one view on the first match, or unchanged when there is none |
| `Db.VideoStore.UpdateCompletion` | src/lib/db.ts:53-70 | the new store is the old store with p folded into the first match's mean and watch count, or unchanged when there is none |
| `Track.Truthy` | src/app/api/track/route.ts:9 | a field is falsy exactly when it is missing, `null`, `false`, `0` or the empty string |
| `Track.Decide` | src/app/api/track/route.ts:9-22 | a falsy id or type gives "Missing fields" before the type is looked at; `"view"` with a truthy id records a view; `"completion"` records a completion exactly when the value is a number, passing it unclamped; a non-number value gives "Value required for completion"; any other truthy type gives "Invalid type"; the target is the request's id |
| `Track.Respond` | src/app/api/track/route.ts:9-24 | a rejection answers 400 with its message; a view or a completion answers 200 with `{ success: true }` |
| `Track.Effect` | src/app/api/track/route.ts:13-19 | a rejection leaves the store unchanged; a view or a completion on a string id is the store update of that name; a truthy id that is not a string matches no record under `===`, so the store is unchanged |
| `Track.Post` | src/app/api/track/route.ts:4-24 | the response is the one for the decision; the store changes only as the decided update says |
| `Track.OutcomeOfPost` | src/app/api/track/route.ts:9-24 | a request gets `{ success: true }` with 200 exactly when it is well formed; any other request gets 400 with one of the three messages and leaves the store unchanged |
| `Track.UnknownIdIsSilentSuccess` | src/app/api/track/route.ts:13-24 | a well-formed request whose id no record carries still succeeds, and the store is unchanged |
| `Track.PostKeepsRecordInvariants` | src/app/api/track/route.ts:13-19 | tracking adds or removes no record; id, creation time and file name never change; views and total watches never decrease; at most one record changes |
| `Track.PostKeepsPercentages` | src/app/api/track/route.ts:15-19 | with every stored rate in [0, 100] and any numeric value in [0, 100], every rate stays in [0, 100] |

## Left out

- File persistence is not modelled: `ensureDB`, `readDB`, `writeDB`, JSON encoding and
  the `data/db.json` path are I/O. Their place is taken by the `videos` field.
- Concurrency is not modelled. Two overlapping read-modify-write cycles can lose an
  update in the source. Each store method is taken as one atomic step.
- The 500 response of the tracking route is left out. It reports only exceptions
  from I/O or from parsing the request body, including a `null` body, whose
  destructuring throws. A number, string or boolean body destructures to three
  missing fields; that is the request `Request(Absent, Absent, Absent)`, which gets
  400 "Missing fields".
- The upload route's form parsing, uuid generation and file writes are left out.
  Only the shape of the record it creates is modelled (`Upload.InitialRecord`).
- Floating point is not modelled. Rates are exact reals, so there is no rounding.
  NaN and ±Infinity, which pass `typeof value === 'number'`, are not represented.
  The `|| 0` guards at db.ts lines 59-60 only ever replace a missing or NaN field;
  on a well-typed record they do nothing, so they are not modelled.
- Truthiness of a numeric id leaves out NaN, for the same reason.
- The components (recorder, editor, video player, pages) and the ffmpeg loader are
  not part of this model: they are UI and browser or WASM glue.
