# Dataset training queue: intake and vector worker

A Dafny model of the two pieces of the knowledge-base training pipeline
that carry logic.

- **Intake** (`pushData.ts`). The push endpoint takes a batch of
  `{q, a, indexes}` records and a training mode. It sorts every record into
  exactly one bucket:
  - `error`: an empty question;
  - `overToken`: the question's token count is above the mode's ceiling;
  - `repeat`: an earlier record in the same batch was accepted with the same `q + a` key;
  - `success`: everything else.

  Only `success` records become training tasks, and each one is stamped with
  the batch's team, member, dataset, collection, bill, mode, prompt and the
  mode's model.
- **Vector worker** (`generateVector.ts`). One iteration runs these steps:
  1. It is admitted against the process counter `vectorQueueLen`.
  2. It claims one chunk-mode task whose lease (`lockTime`) is at least a minute old, and sets the lease to now.
  3. It replaces the characters 0x00–0x08 in `q` and `a` with spaces.
  4. It checks the team's balance. On an insufficient balance it suspends every task of the team with the `2999/5/5` lease.
  5. It inserts the vector. On success it deletes the task. On failure it poisons the task with the `2998/5/5` lease (a content-fatal error), or leaves the task leased and retries after one second.

  Every path releases the counter once.

Files and modules:

- `results.dfy`, module `Results`: the `Option` and `Result` wrappers.
- `training.dfy`, module `Training`: the task record shared by both sides, the modes and the store.
- `push_data.dfy`, module `PushData`: the handler's guards, the classification fold and its independent per-item reference, the inserted tasks and the response.
- `queue_counter.dfy`, module `QueueCounter`: `reduceQueue`, the admission guard, and the counter under any interleaving of admissions and releases.
- `generate_vector.dfy`, module `GenerateVector`: the lease claim, sanitisation, suspension, deletion, poisoning, the iteration `Step` that returns the next action (`Stop`, `ContinueNow` or `ContinueAfter(1000)`), and lemmas over sequences of iterations.

Modelling choices:

- Token counting is the parameter `tok: string -> nat`.
- The ceilings `1.5 × maxToken` (chunk) and `0.8 × maxContext` (qa) are integer comparisons. `ExceedsCeilingMeansAboveCeiling` shows that they equal the comparison with the exact real ceilings. For integer limits and token counts they also agree with the double-precision comparison `token > modeMap[mode].maxToken`: `maxToken * 1.5` is exact, and `maxContext * 0.8` rounds to exactly `4 × maxContext / 5` when that is an integer, while otherwise it lies at least 0.2 from every integer.
- The per-item callbacks of `Promise.all` never await before they push into a bucket. So the classification is a left fold in array order: `FilterBatch`.
- The dedup key is the JavaScript string `q + a`. A missing `a` becomes the text `"undefined"`, as JavaScript's `+` makes it. A missing `q` is modelled as `""`, because both fail the same truthiness test.
- The claim is `findOneAndUpdate` with no sort. The step takes the store's answer as an input (`Claimed(id)`, `NothingClaimable` or `StoreFailed`). `HonestReply` requires that a claimed task matched the filter and that "nothing" means nothing matched. Every property holds for whichever claimable task the store picks.
- The vector insert and the bill pass the team id as `tmbId`, as the code does (`generateVector.ts` lines 116 and 127). The suspension notice goes to the task's own member.
- Every throw from `authTeamBalance`, including one unrelated to the balance, takes the suspension path (`generateVector.ts` lines 84-108). So the balance verdict is `Sufficient` or `Insufficient`, and nothing else.
- Each character 0x00–0x08 is replaced by a space, not removed, so the length is preserved (`generateVector.ts` lines 60-61).
- The lease sentinels are the UTC millisecond values of 2998-05-05 and 2999-05-05. Properties that depend on them assume the clock is at least a minute before the poison date.

## Model

| member | source | states |
|---|---|---|
| `Training.ParseMode` | projects/app/src/pages/api/core/dataset/data/pushData.ts:26-28 | the training-type map admits exactly `chunk` and `qa`, and each name selects its own mode |
| `PushData.CheckRequest` | projects/app/src/pages/api/core/dataset/data/pushData.ts:20-32 | a request passes iff it has a collection id, an array `data`, a known (or omitted, hence chunk) mode, and at most 200 items; a missing collection or non-array data is reported before an unknown mode, and an unknown mode before the length |
| `PushData.Handle` | projects/app/src/pages/api/core/dataset/data/pushData.ts:17-56 | the endpoint fails exactly when a guard fails, never with a mode-lookup error; a batch over 200 items with valid other fields is `TooLong`; an accepted request inserts at most 200 tasks and is the push of its batch under the requested or default mode |
| `PushData.GuardsPrecedeClassification` | projects/app/src/pages/api/core/dataset/data/pushData.ts:22-32 | a rejected request gets the same error whatever the token counter, because no item is classified before the guards |
| `PushData.Key` | projects/app/src/pages/api/core/dataset/data/pushData.ts:100 | the dedup key starts with the question and ends with the answer, or with the text `undefined` when the answer is missing, so a missing answer and the answer `"undefined"` give the same key |
| `PushData.ExceedsCeilingMeansAboveCeiling` | projects/app/src/pages/api/core/dataset/data/pushData.ts:74-83 | the integer over-token test equals `tokens > 1.5 × maxToken` in chunk mode and `tokens > 0.8 × maxContext` in qa mode |
| `PushData.Place` | projects/app/src/pages/api/core/dataset/data/pushData.ts:95-115 | sorting one item adds it to exactly one bucket, so the bucket contents grow by that item, and the seen set only grows |
| `PushData.PlaceKeepsConsistent` | projects/app/src/pages/api/core/dataset/data/pushData.ts:110-115 | after each item, accepted keys are still pairwise distinct and the seen set is exactly the set of accepted keys |
| `PushData.PlaceKeepsSound` | projects/app/src/pages/api/core/dataset/data/pushData.ts:95-115 | after each item, error items have empty questions, over-token items exceed the ceiling, and accepted and repeat items are eligible, with repeats' keys already seen |
| `PushData.FilterBatch` | projects/app/src/pages/api/core/dataset/data/pushData.ts:85-117 | the buckets hold the batch's items exactly once each: equal as a multiset, and `|success| + |overToken| + |repeat| + |error| = |data|`; no two accepted items share `q + a`; the seen set is the accepted keys; every bucket's members satisfy the bucket's test |
| `PushData.ItemLandsInItsBucket` | projects/app/src/pages/api/core/dataset/data/pushData.ts:95-108 | an item with an empty question is in `error` and never accepted, whatever its answer or token count; a non-empty question above the ceiling is in `overToken`; an eligible item is accepted or a repeat |
| `PushData.FilterBatchIsReference` | projects/app/src/pages/api/core/dataset/data/pushData.ts:93-117 | the fold equals the per-item reference: each bucket is the input-ordered list of items whose own question, token count and earlier eligible items put them there, and the seen set is the keys of eligible items only, never of error or over-token items |
| `PushData.EligibleKeysSpec` | projects/app/src/pages/api/core/dataset/data/pushData.ts:100-115 | a key is among the eligible keys iff some eligible item of the batch has it |
| `PushData.RepeatFollowsAcceptedTwin` | projects/app/src/pages/api/core/dataset/data/pushData.ts:110-115 | an item is a repeat only if an earlier item with the same `q + a` key was accepted: the first eligible occurrence wins |
| `PushData.FirstEligibleIsAccepted` | projects/app/src/pages/api/core/dataset/data/pushData.ts:110-115 | every eligible item's key is accepted at or before that item |
| `PushData.AcceptedDistinctAndEligible` | projects/app/src/pages/api/core/dataset/data/pushData.ts:100-115 | the accepted items of a batch are eligible and their `q + a` keys are pairwise distinct, so `("ab","c")` and `("a","bc")` cannot both be accepted |
| `PushData.ToTasks` | projects/app/src/pages/api/core/dataset/data/pushData.ts:120-134 | one task per accepted item, in order, each with the batch's fields, the mode's model and the item's `q`, `a` and `indexes` |
| `PushData.InsertedTasksSound` | projects/app/src/pages/api/core/dataset/data/pushData.ts:120-134 | tasks made from eligible, key-distinct items are stamped with the batch, have non-empty questions and distinct keys |
| `PushData.PushDataToCollection` | projects/app/src/pages/api/core/dataset/data/pushData.ts:119-142 | `insertLen` is the number of inserted tasks and the queue starts iff it is positive; the counts sum to the batch size; the response buckets and inserted tasks are the reference buckets in input order; no `success` list is returned |
| `PushData.OmittedModeIsChunk` | projects/app/src/pages/api/core/dataset/data/pushData.ts:20-20 | an omitted mode behaves as the explicit mode `chunk` |
| `PushData.PushDataAsWritten` | projects/app/src/pages/api/core/dataset/data/pushData.ts:74-108 | with a mode, this is the push; with no mode, it fails iff some item has a non-empty question, and otherwise every item is in `error`, nothing is inserted and the queue is not started |
| `PushData.HandleAsWritten` | projects/app/src/pages/api/core/dataset/data/pushData.ts:43-48 | the handler as written agrees with the corrected handler whenever the request names its mode and rejects what the guards reject; with the mode omitted, a request that passes the guards fails iff some item has a non-empty question, and otherwise answers with every item in `error`, no insert and no queue start |
| `PushData.OmittedModeRejectedAsWritten` | projects/app/src/pages/api/core/dataset/data/pushData.ts:43-48 | a one-item request without a mode fails as written but inserts one task when the default is carried through |
| `QueueCounter.ReduceQueue` | projects/app/src/service/events/generateVector.ts:10-12 | a positive counter goes down by one, and any other counter becomes zero, so the result is never negative |
| `QueueCounter.TryAdmit` | projects/app/src/service/events/generateVector.ts:16-17 | an iteration is admitted iff the counter is below the maximum, and then the counter rises by one to at most the maximum |
| `QueueCounter.ReleaseUndoesAdmit` | projects/app/src/service/events/generateVector.ts:10-17 | an admission followed by one release restores the counter |
| `QueueCounter.CounterStaysInRange` | projects/app/src/service/events/generateVector.ts:10-17 | under any sequence of admissions and releases, including unmatched releases, a counter that starts in `[0, max]` stays there |
| `GenerateVector.Claim` | projects/app/src/service/events/generateVector.ts:28-35 | the claim changes only the claimed task's `lockTime`, sets it to now, and deletes nothing |
| `GenerateVector.LeaseExcludesReclaim` | projects/app/src/service/events/generateVector.ts:28-35 | a task leased at `now` fails the claim filter at any time before `now + 60000` |
| `GenerateVector.IsFatal` | projects/app/src/service/events/generateVector.ts:151-156 | a failed insert is fatal for its task iff the error message is `invalid message format`, the provider's error type is `invalid_request_error`, or the error code is 500 |
| `GenerateVector.Sanitize` | projects/app/src/service/events/generateVector.ts:60-60 | the length is preserved; every character 0x00–0x08 becomes a space and every other character is kept; no such character remains |
| `GenerateVector.SanitizeIdempotent` | projects/app/src/service/events/generateVector.ts:60-61 | sanitising twice is sanitising once |
| `GenerateVector.SanitizeKeepsCleanText` | projects/app/src/service/events/generateVector.ts:60-61 | text without characters 0x00–0x08 passes through unchanged |
| `GenerateVector.SanitizeAnswer` | projects/app/src/service/events/generateVector.ts:61-61 | a missing answer becomes `""`; a present one is sanitised |
| `GenerateVector.SuspendTeam` | projects/app/src/service/events/generateVector.ts:97-104 | every task of the team, in any mode, gets the `2999/5/5` lease; other tasks and all task data are unchanged; nothing is deleted |
| `GenerateVector.DeleteById` | projects/app/src/service/events/generateVector.ts:134-134 | exactly the given id is removed; deleting an id already gone changes nothing |
| `GenerateVector.Poison` | projects/app/src/service/events/generateVector.ts:160-164 | only the given task changes, and it gets the `2998/5/5` lease and is kept |
| `GenerateVector.Process` | projects/app/src/service/events/generateVector.ts:19-171 | after admission, every path releases the counter once; only leases change and only the claimed task can disappear; an empty queue stops, a store error retries at once with the store untouched; a notice is sent only on insufficient balance, and a vector insert happens iff the claimed task's team has balance and the embedding succeeded |
| `GenerateVector.Step` | projects/app/src/service/events/generateVector.ts:15-171 | at the limit, nothing changes and the worker stops; otherwise the counter ends at its starting value and is never negative; only leases change and only the claimed task can be deleted; `Stop` leaves the store untouched; with nothing claimable and no store error the result is `Stop`; a store error retries at once; a notice is sent only on insufficient balance; a vector insert happens iff a claimed task of a team with balance was embedded |
| `GenerateVector.InsufficientBalanceSuspendsTeam` | projects/app/src/service/events/generateVector.ts:84-108 | on insufficient balance, every task of the claimed task's team gets the suspension lease, other teams' tasks are untouched, nothing is deleted, one notice goes to the task's member, and the loop continues at once |
| `GenerateVector.SuccessDeletesClaimedTask` | projects/app/src/service/events/generateVector.ts:112-136 | on success, the claimed task alone is removed, and the insert and the bill carry the team id as member, the sanitised text, the model and the bill id |
| `GenerateVector.FailureKeepsTask` | projects/app/src/service/events/generateVector.ts:137-170 | on failure, the task is kept and other tasks are untouched; a failure is fatal iff the loop continues at once, and then the task is poisoned; otherwise it keeps its claim-time lease and the loop resumes after 1000 ms |
| `GenerateVector.ClaimedTaskStaysLeased` | projects/app/src/service/events/generateVector.ts:28-170 | whatever happens after a claim, the claimed task, if still stored, cannot be claimed again before the lease window has passed |
| `GenerateVector.NoDoubleClaim` | projects/app/src/service/events/generateVector.ts:28-35 | an iteration that starts less than a minute after another one claimed a task cannot claim the same task |
| `GenerateVector.StepKeepsParked` | projects/app/src/service/events/generateVector.ts:97-163 | one iteration never claims, deletes or un-parks a poisoned or suspended task |
| `GenerateVector.ParkedTasksStayParked` | projects/app/src/service/events/generateVector.ts:28-163 | across any sequence of iterations before the poison date, poisoned and suspended tasks stay stored, parked and unchanged in content |

## Findings

| source | as written | input that shows it | evidently intended | confidence | as-written member | corrected member |
|---|---|---|---|---|---|---|
| projects/app/src/pages/api/core/dataset/data/pushData.ts:43-48 | The handler defaults `mode` to `chunk` only in its own local variable. The push receives the raw request body, whose `mode` is absent, so `modeMap[mode].maxToken` throws on the first item with a non-empty question, and the request fails with code 500. | `{collectionId: "c", data: [{q: "hello"}]}` with no `mode` | An omitted mode trains in chunk mode, as the handler's default and its guard suggest. | medium; not executed | `PushData.HandleAsWritten` (`PushData.OmittedModeRejectedAsWritten`) | `PushData.Handle` (`PushData.OmittedModeIsChunk`) |

## Left out

- Database connection, CORS, `authDatasetCollection`, `getCollectionWithDataset`, `getVectorModel` and the QA model list are I/O or authentication. Their results are the `Context` input: team, member, dataset and model limits.
- The tokenizer behind `countPromptTokens` is a foreign library. It is the parameter `tok`.
- A failing `insertMany`, and rejection by the collection's schema, end in the handler's catch. They are not modelled.
- Mode strings that name inherited object properties (such as `constructor`) pass the source's map lookup. They are not modelled: only `chunk`, `qa` and an omitted mode are recognised.
- Records that are not objects, and a `q` that is not a string, are not modelled.
- An `a` that is not a string or absent, such as JSON `null`, is not modelled. The key `q + a` would then hold its string form (`{q:"x", a:null}` has the key `"xnull"`, the same as `{q:"x", a:"null"}`), and the worker would send `""` for it.
- `insertData2Dataset`, `authTeamBalance`, `pushGenerateVectorBill` and `sendOneInform` are foreign calls. They appear as the balance verdict, the embed outcome and the step's `Effects`.
- GenerateVector.Step: assumes the suspension `updateMany` and the poisoning `findByIdAndUpdate` take effect. The code swallows their errors, which would leave the task with its claim-time lease.
- GenerateVector.Step: treats a failed insert as having had no effect. A throw from the bill push or the delete after a successful vector write is classified like a provider error.
- A stored task whose `q` is missing would throw inside the claim after its lease is set. This is not modelled, because intake never inserts an empty question.
- Concurrency, `setTimeout`, and the recursive chain of calls as a runtime are not modelled. One call is a `Step` that returns the next action, and `Run` composes steps the store answered honestly. Each process has its own counter: the model has one.
- Logging through `addLog` and `console` is left out.
- Parsing of the sentinel dates in the server's local time zone is left out. The constants are UTC.
