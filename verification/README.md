# Tag top-lists of doubanj (`tasks/toplist/by_tag.js`), modelled in Dafny

`by_tag.js` builds two top-list collections from data that has already been synced:

- `users_by_tag(ns, status)` reads every user whose last sync succeeded and whose `<ns>_stats.n_done` is above 20. It writes one record `{_id: <user id>::i, tagname: item._id, count: item.count}` per entry `item` of `<ns>_stats.<status>.top_tags`. The records go to `top_<ns>_<status>_user_by_tag`.
- `subjects_by_tag(ns)` reads every subject of collection `<ns>` that has more than 10 raters. It writes one record `{_id: <subject id>::i, tagname: item.name, count: item.count}` per entry of its `tags`. The records go to `top_<ns>_by_tag`. It also counts every record in `total`.

Records pass through a batcher. The batcher's `transform` first removes every stored record whose `_id` is in the batch. It then inserts the batch with `continueOnError`, so the unique `_id` index rejects a record whose id is still stored. When the last write for a document is refused, `highWater` pauses the cursor until the batcher's next `drain`. The user job also pauses the cursor when more than 10000 records are pending.

The project has these modules:

- `Wrappers` (`wrappers.dfy`): `Option` and `Result`.
- `Text` (`text.dfy`): `join`, and the decimal form of an index. Also the facts needed to split a string at its last separator.
- `Json` (`json.dfy`): the JavaScript values of a document, with truthiness and property access.
- `FanOut` (`fanout.dfy`): documents, records and the guarded navigation to a tag list. Also the records one document or a whole run produces, their ids, and the subject job's `total`.
- `Sink` (`sink.dfy`): the output collection as a `map` from id to record. This includes the remove-then-insert `transform` as functions, its idempotence and the effect of a sequence of flushes. The class `Collection` updates the map in place.
- `Params` (`params.dfy`): the argument checks, and the names, filter and projection each job derives.
- `Pipeline` (`pipeline.dfy`): the class `Job` holds the job's mutable state:
  - the cursor's paused flag;
  - the batcher's pending batch and its `drain` listeners;
  - `total`;
  - the calls made to `done`;
  - the output collection.

  Each cursor or batcher event is a method of `Job`. `Job.Valid()` ties the state to the documents seen so far:
  - the collection is the initial one with every flushed batch applied in order;
  - the flushed batches followed by the pending batch are exactly the records of the documents seen;
  - `total` is the sum of their tag-list lengths.
- `Scenarios` (`scenarios.dfy`): the user `u1` (`book`/`all`) and subject `s1` (`book`) jobs, each from its arguments through one `data` event and `end` to the stored records and the `done` call. Also a user job whose overfull pause nothing undoes.

Behaviour of the code worth knowing:

- **Final flush errors never reach `done`.** The transform calls its callback without an error, whatever `remove` or `insert` reported. So the batcher's `end`, and with it `done`, always reports success (`Job.OnEnd`). Once the job is queued, only a cursor error reaches `done` (`Job.OnError`). Before that, a missing argument (lines 63 and 138) reaches it too.
- **`status || 'all'` is dead code.** The argument check has already rejected a missing status, so the user job always reads the status it was given.
- **Only the last answer of `buffer.write` for a document counts.** An earlier refusal followed by an accepted last write does not pause the cursor.
- **The 10000-record check is skipped for some documents.** A document whose `<ns>_stats` is falsy returns before the check.
- **A tag list that is truthy but not an array throws.** `forEach` throws on it, and the source does not catch the `TypeError`. The model reports it as `threw`.
- **The 10000-record pause is undone only by a `highWater` listener.** Lines 123-125 pause the cursor without registering a `drain` listener. Only the listener of lines 197-202 resumes it. With no such listener waiting, the cursor stays paused (`Scenarios.OverfullPauseSticks`).
- **Two different user argument pairs can name the same output collection.** The name is joined with `_`, so `("a_b", "c")` and `("a", "b_c")` collide. The names are unique when statuses contain no `_`.

## Model

| member | source | states |
|---|---|---|
| Params.UsersByTag | tasks/toplist/by_tag.js:60-77 | Fails with "Namespace and status needed" exactly when `ns` or `status` is missing or empty. Otherwise the plan has output `top_<ns>_<status>_user_by_tag`, source collection `user`, filter `last_synced_status = succeed` and `<ns>_stats.n_done > 20`, projection `<ns>_stats.<status>.top_tags`, and reads `doc[<ns>_stats][status]` |
| Params.SubjectsByTag | tasks/toplist/by_tag.js:135-148 | Fails with "Namespace needed" exactly when `ns` is missing or empty. Otherwise the plan has output `top_<ns>_by_tag`, source collection `<ns>`, filter `raters > 10` and projection `tags` |
| Params.UsersOutCollUnique | tasks/toplist/by_tag.js:66 | When statuses contain no `_`, two accepted user jobs share an output collection only if their `ns` and `status` are equal |
| Params.UsersOutCollCollision | tasks/toplist/by_tag.js:66 | Without that proviso, `("a_b", "c")` and `("a", "b_c")` name the same collection |
| Text.JoinEnds | tasks/toplist/by_tag.js:66-68 | `Array.prototype.join` of no parts is empty; otherwise the result starts with the first part, followed by the separator when there are more, and ends with the last part |
| Text.DecimalRoundTrip | tasks/toplist/by_tag.js:105 | The digits that `'::' + i` appends read back as `i` |
| Json.Truthy | tasks/toplist/by_tag.js:116 | A truthy value is defined, and every array or object is truthy |
| FanOut.UserTopTagsPath | tasks/toplist/by_tag.js:115-120 | Characterises `UserTopTags` and the property reads (`Get`) it makes. The user handler finds a tag list exactly when `<ns>_stats`, its `[status]` and `top_tags` are all present, the first two are objects and `top_tags` is an array. It finds a non-list (and `forEach` throws) exactly when `top_tags` is truthy and not an array. Otherwise the document is skipped |
| FanOut.SubjectTags | tasks/toplist/by_tag.js:181-184 | Characterises the `tags` read (`Get`). The subject handler finds a tag list exactly when `tags` is an array. It throws exactly when `tags` is truthy and not an array. Otherwise the document is skipped |
| FanOut.MakeIdParts | tasks/toplist/by_tag.js:105 | The id `sid + '::' + i` begins with `sid`, then `::`, then digits that read back as `i` |
| FanOut.DocRecords | tasks/toplist/by_tag.js:118-121 | A document yields exactly as many records as its tag list has entries when that list is an array, and none otherwise |
| FanOut.MakeIdInjective | tasks/toplist/by_tag.js:171 | An output id `sid::i` determines both `sid` and `i` |
| FanOut.TagRecords | tasks/toplist/by_tag.js:103-109 | `update_tags_coll` writes exactly one record per tag entry |
| FanOut.TagRecordsAt | tasks/toplist/by_tag.js:103-109 | The `i`-th record written has id `sid::i`, the entry's label property as `tagname` and its `count` |
| FanOut.DocRecordsAt | tasks/toplist/by_tag.js:164-175 | A document's `i`-th record exists only when its tag list is an array. It has id `<doc id>::i`. Its `tagname` is the entry's `_id` (users) or `name` (subjects, never `title`) and its `count` the entry's `count`, each defined exactly when the entry is an object holding that property, and then equal to it unchanged |
| FanOut.DocIdsDistinct | tasks/toplist/by_tag.js:105 | The records of one document have pairwise different ids: the indices leave no duplicates |
| FanOut.TagTotalCountsRecords | tasks/toplist/by_tag.js:164-167 | The subject job's count of tag entries over a run equals the number of records the run writes |
| FanOut.AllRecordsDistinct | tasks/toplist/by_tag.js:171 | Documents with pairwise different `_id`s produce records with pairwise different ids, across the whole run |
| Sink.Ids | tasks/toplist/by_tag.js:33 | `_.pluck(items, '_id')`, as a set, contains the id of every record of the batch |
| Sink.InsertAll | tasks/toplist/by_tag.js:39 | Characterises the record-by-record `InsertOne`. After a `continueOnError` insert, the stored ids are the old ones plus the batch's. Every stored record is unchanged. A new id holds the batch's first record with that id |
| Sink.Apply | tasks/toplist/by_tag.js:32-47 | The transform stores exactly the old ids plus the batch's. After a successful remove, every batch id holds the batch's record. After a failed remove, ids already stored keep their records and new ids get the batch's. Ids outside the batch are untouched |
| Sink.ApplyEmpty | tasks/toplist/by_tag.js:32-47 | Flushing an empty batch changes nothing |
| Sink.ApplyTwice | tasks/toplist/by_tag.js:32-47 | Flushing a batch twice in a row ends as one flush whose remove succeeded if either remove did |
| Sink.ReflushIsNoop | tasks/toplist/by_tag.js:32-47 | Applying a batch again right after it was flushed with a successful remove changes nothing, whether or not the second remove succeeds |
| Sink.RetryConverges | tasks/toplist/by_tag.js:35-39 | A flush whose remove failed, retried with a successful remove, ends as if the first remove had succeeded |
| Sink.Replay | tasks/toplist/by_tag.js:32-47 | A sequence of flushes stores exactly the old ids plus every flushed id, and keeps every record stored under its own id |
| Sink.ReplayOutside | tasks/toplist/by_tag.js:35 | Flushes with successful removes leave every stored record whose id they do not contain as it was |
| Sink.RerunIsIdempotent | tasks/toplist/by_tag.js:32-47 | Re-running the same flushes, with successful removes, on the collection they produced leaves it unchanged |
| Sink.ReplaySameConcat | tasks/toplist/by_tag.js:27-47 | Successful flushes of the same records with distinct ids give the same collection however the batcher (size 5000, timeout 5000) cut them into batches |
| Sink.RerunAnyBatches | tasks/toplist/by_tag.js:27-47 | Re-running a job over unchanged data, with successful removes, leaves the collection the first run produced, even when the batches are cut differently |
| Sink.ReplayStoresRecords | tasks/toplist/by_tag.js:32-47 | After successful flushes of records with distinct ids, every flushed record is stored under its id |
| Sink.Collection.Remove | tasks/toplist/by_tag.js:35-38 | `remove` by `$in` deletes exactly the listed ids, or nothing when it fails |
| Sink.Collection.Insert | tasks/toplist/by_tag.js:39 | The record-by-record insert loop ends in the state `InsertAll` describes |
| Sink.Collection.Transform | tasks/toplist/by_tag.js:32-47 | Remove, then insert whatever the remove reported, gives `Apply` |
| Pipeline.Job.constructor | tasks/toplist/by_tag.js:82-84 | A new job is unpaused, with an empty batch, `total` 0, no `done` calls, and the output collection as it was |
| Pipeline.Job.Write | tasks/toplist/by_tag.js:104 | `buffer.write` appends the record to the pending batch and returns the batcher's answer |
| Pipeline.Job.HighWater | tasks/toplist/by_tag.js:197-202 | `highWater` pauses the cursor and registers one more `drain` listener |
| Pipeline.Job.WriteItem | tasks/toplist/by_tag.js:166-174 | One `forEach` callback appends record `sid::i`, counts it in `total` for subjects and returns the write's answer |
| Pipeline.Job.WriteEach | tasks/toplist/by_tag.js:102-109 | The `forEach` appends exactly `TagRecords(sid, items)` to the batch, adds `|items|` to `total` for subjects, and leaves `completed` false exactly when the last write was refused |
| Pipeline.Job.UpdateTagsColl | tasks/toplist/by_tag.js:101-113 | After `update_tags_coll`, the cursor is paused and one `drain` listener is added exactly when the last write was refused |
| Pipeline.Job.WriteTags | tasks/toplist/by_tag.js:118-121 | A document's tag list adds exactly its records to the batch, and throws exactly when it is not iterable. The job stays valid |
| Pipeline.Job.OnUserData | tasks/toplist/by_tag.js:115-126 | The user `data` handler adds exactly the document's records and keeps the job valid. Afterwards the cursor is paused exactly when it was paused before, or the last write was refused, or (with `<ns>_stats` truthy and no throw) more than 10000 records are pending |
| Pipeline.Job.PauseIfOverfull | tasks/toplist/by_tag.js:123-125 | More than 10000 pending records pause the cursor |
| Pipeline.Job.OnSubjectData | tasks/toplist/by_tag.js:181-184 | The subject `data` handler adds exactly the document's records and raises `total` by their number. Afterwards the cursor is paused exactly when it was paused before or the last write was refused |
| Pipeline.Job.OnData | tasks/toplist/by_tag.js:115-126 | A `data` event runs the job's own handler and keeps the job valid. It adds exactly the document's records, reports a throw exactly when the tag list is truthy and not an array, counts `total` for subjects only, adds a `drain` listener exactly when the last write was refused, and leaves the cursor paused exactly when it was, or the last write was refused, or the user job's 10000-record check fired |
| Pipeline.Job.Deliver | tasks/toplist/by_tag.js:115 | Delivering the `k`-th document of the cursor extends the documents seen and the batch by exactly that document and its records, with the same throw, listener and pause outcome as `OnData` |
| Pipeline.Job.OnDrain | tasks/toplist/by_tag.js:199-201 | A `drain` event resumes the cursor only if a `highWater` listener was waiting. Nothing else resumes it |
| Pipeline.Job.FlushBatch | tasks/toplist/by_tag.js:32-47 | A flush hands the whole pending batch to the transform, empties the batch, applies `Apply` to the collection and keeps the job valid |
| Pipeline.Job.OnEnd | tasks/toplist/by_tag.js:185-193 | At `end` a non-empty trailing batch is flushed. Afterwards every record of every document seen has been flushed, and `done` is called once without an error |
| Pipeline.Job.OnError | tasks/toplist/by_tag.js:188 | A cursor error reaches `done` unchanged |
| Pipeline.Job.Pump | tasks/toplist/by_tag.js:115-126 | The cursor ends, with its paused flag and `drain` listeners, exactly where `Run` over the documents' effects says, so by `Run`, `DeliveredQuietly` and `DeliveredLast` it stops right after the first document that throws or pauses it, or at the end, and never delivers from a cursor already paused. The documents seen and the batch grow by exactly the delivered documents and their records |
| Pipeline.Job.Advance | tasks/toplist/by_tag.js:115-126 | One loop step of the cursor takes the job from cursor state `c` to `Step(effect of document k, c)` and extends the documents seen and the batch by that document |
| Pipeline.Run | tasks/toplist/by_tag.js:115-126 | Delivery never goes past the last document, ends before it only when the cursor is paused or a handler threw, and delivers nothing from a cursor already paused or after a throw |
| Pipeline.RunBefore | tasks/toplist/by_tag.js:115-126 | Every document delivered before the last one neither threw nor paused the cursor |
| Pipeline.RunLast | tasks/toplist/by_tag.js:115-126 | When something was delivered, the final throw and paused flags are the last delivered document's own, and only that document can have added a `drain` listener |
| Pipeline.DeliveredQuietly | tasks/toplist/by_tag.js:115-126 | On a cursor started unpaused, every document delivered before the last one had a tag list that did not throw, did not end in a refused write, and did not find more than 10000 records pending |
| Pipeline.DeliveredLast | tasks/toplist/by_tag.js:115-126 | On a cursor started unpaused, the final state is that of the last delivered document: it threw exactly when that tag list is truthy and not an array, the cursor is paused exactly when that document's last write was refused or (users) it found more than 10000 records pending, and only that document can have added a `drain` listener |
| Pipeline.EffectStep | tasks/toplist/by_tag.js:115-126 | The outcome of one `data` event (throw, listeners, paused with the pending count) is exactly one `Step` by that document's effect |
| Pipeline.StartUsersByTag | tasks/toplist/by_tag.js:60-84 | Fails with "Namespace and status needed" exactly when an argument is missing or empty. Otherwise a fresh, valid, unpaused job writes to `top_<ns>_<status>_user_by_tag`, with no documents seen, no flushes, an empty batch, no `drain` listeners, `total` 0 and no `done` calls |
| Pipeline.StartSubjectsByTag | tasks/toplist/by_tag.js:135-150 | Fails with "Namespace needed" exactly when `ns` is missing or empty. Otherwise a fresh, valid, unpaused job writes to `top_<ns>_by_tag`, with no documents seen, no flushes, an empty batch, no `drain` listeners, `total` 0 and no `done` calls |
| Scenarios.UserScenarioPlan | tasks/toplist/by_tag.js:66 | `book`/`all` writes to `top_book_all_user_by_tag` and reads `book_stats.all` |
| Scenarios.UserScenario | tasks/toplist/by_tag.js:101-121 | User `u1` with top tags scifi 5 and drama 2 yields `u1::0 scifi 5` then `u1::1 drama 2` |
| Scenarios.SubjectScenarioPlan | tasks/toplist/by_tag.js:140 | `book` writes to `top_book_by_tag` and reads collection `book` |
| Scenarios.SubjectScenario | tasks/toplist/by_tag.js:164-184 | Subject `s1` with tag fiction 30 yields `s1::0 fiction 30` |
| Scenarios.UserU1Stored | tasks/toplist/by_tag.js:32-47 | Flushing `u1`'s records into an empty collection stores exactly `u1::0 scifi 5` and `u1::1 drama 2` |
| Scenarios.UserRun | tasks/toplist/by_tag.js:60-130 | A user job for `book`/`all` on an empty collection, given `u1` and then `end`, stores exactly `u1::0 scifi 5` and `u1::1 drama 2` and calls `done` once without an error |
| Scenarios.SubjectS1Stored | tasks/toplist/by_tag.js:32-47 | Flushing `s1`'s one record into an empty collection stores exactly `s1::0 fiction 30` |
| Scenarios.SubjectRun | tasks/toplist/by_tag.js:135-194 | A subject job on an empty collection, given `s1` and then `end`, stores exactly `s1::0 fiction 30`, has `total` 1 and calls `done` once without an error |
| Scenarios.OverfullPauseSticks | tasks/toplist/by_tag.js:123-125 | A user job with more than 10000 pending records and no `highWater` listener waiting is paused by the check, and a `drain` leaves it paused |

## Left out

- MongoDB access is not modelled: `mongo.queue`, `db.collection`, `find().stream()` and the `remove`/`insert` wire calls. The collection is a `map`, the cursor is a sequence of documents handed to `Job.Pump`, and the query filter and projection are data in the `Plan`. The model does not evaluate them against documents.
- `ensureIndex` (lines 86-89, 152) is left out: its callback is `noop`, so its outcome is ignored, and it changes no record.
- The `batch-stream2` batcher's own logic is a library not in this repository: its size 5000, timeout 5000 and highWaterMark 2.
  - Its answer to each `write` is a parameter (`accepts`).
  - When it flushes is left to the caller of `Job.FlushBatch`.
- Pipeline.Job.FlushBatch: always flushes the whole pending batch. A flush of only part of it is not modelled.
- Sink.Collection.Remove: a failed `remove` is all-or-nothing (`ok`). A partial remove is not modelled.
- Sink.Collection.Insert: the only insert error modelled is the duplicate `_id` that `continueOnError` skips. Other per-record insert errors are not modelled.
- Event ordering is not modelled, nor any overlap between reading documents and flushes still in flight. The model handles one event at a time, and `mongo.queue`'s concurrency of 4 is not modelled.
- Logging (`debug`, `console.error`) and the `noop` and default `done` callbacks are left out. The commented-out `reduce` (lines 11-19) is dead code.
- Arguments are strings or absent, and documents have string `_id`s. The JavaScript conversions of other argument types and of an `ObjectId` are left out.
- `Json.Get`: reading a property of an array or a string gives `undefined` in the model. The special keys of JavaScript arrays and strings (`length`, numeric indices) are not modelled.
- `FanOut.Emit`: a tag entry that is `null` or `undefined` is read as having no properties. In JavaScript, `item._id` on such an entry throws.
- Counts are integers in the model: JSON floating-point numbers are not modelled.
- Pipeline.Job.Pump: after a handler throws, the source leaves the uncaught `TypeError` to the driver; whether the cursor goes on and whether `done` is ever called is not in the source. The model chooses to stop delivering and leaves `done` uncalled.
- Pipeline.Job.Pump: the `k`-th document's writes are answered by `accepts(k)`. The batcher's real high-water logic is not modelled.
