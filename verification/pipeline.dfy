/**
 * The job itself: the cursor's paused flag, the batcher's pending batch
 * and its `drain` listeners, the subject job's `total` counter, the calls
 * made to `done`, and the output collection the batches are flushed to.
 * Each method is one event or one step of the source's callbacks.
 */
module Pipeline {
  import opened Wrappers
  import opened Json
  import opened FanOut
  import opened Sink
  import opened Params

  /** Above this many pending records the user `data` handler pauses the cursor. */
  const MaxPending := 10000

  /** Whether the last `buffer.write` of a `forEach` over `items` returned false. */
  predicate LastWriteRejected(items: seq<Json>, accepts: nat -> bool)
  {
    |items| > 0 && !accepts(|items| - 1)
  }

  /** Whether handling `doc` ends with a call to `highWater`. */
  predicate HighWaterAfter(v: Variant, doc: Doc, accepts: nat -> bool)
  {
    TagListOf(v, doc).Tags? && LastWriteRejected(TagListOf(v, doc).items, accepts)
  }

  /**
   * Whether the user `data` handler for `doc` pauses the cursor for the size
   * of the batch: it did not throw, `<ns>_stats` is truthy, and `pending`
   * records are more than `MaxPending`.
   */
  predicate OverfullAfter(v: Variant, doc: Doc, threw: bool, pending: nat)
  {
    v.Users? && !threw && Truthy(Field(doc, v.nsStats)) && pending > MaxPending
  }

  /** Whether the `data` handler for `doc` leaves the cursor paused. */
  predicate PausesAfter(v: Variant, doc: Doc, accepts: nat -> bool, threw: bool, pending: nat)
  {
    HighWaterAfter(v, doc, accepts) || OverfullAfter(v, doc, threw, pending)
  }

  /**
   * What the `data` handler does with one document: whether it throws,
   * whether it calls `highWater`, whether it finds the batch overfull.
   */
  datatype Effect = Effect(threw: bool, highWater: bool, overfull: bool)
  {
    /** Whether the handler leaves the cursor paused. */
    predicate Pauses()
    {
      highWater || overfull
    }
  }

  /** The handler's effect on `doc`, its writes answered `accepts`, `pending` records in the batch after them. */
  function EffectOf(v: Variant, doc: Doc, accepts: nat -> bool, pending: nat): Effect
  {
    var threw := TagListOf(v, doc).NotIterable?;
    Effect(threw, HighWaterAfter(v, doc, accepts), OverfullAfter(v, doc, threw, pending))
  }

  /**
   * The effect of each of `docs` when they are handled in order on a
   * batcher that held `base` records before the first; the `k`-th
   * document's writes are answered `accepts(k)`.
   */
  function Effects(v: Variant, docs: seq<Doc>, accepts: nat -> nat -> bool, base: nat): seq<Effect>
  {
    seq(|docs|, k requires 0 <= k < |docs| => EffectOf(v, docs[k], accepts(k), base + |AllRecords(v, docs[..k + 1])|))
  }

  /**
   * Where the cursor stands: how many documents it delivered, whether the
   * last `data` handler threw, whether it is paused, and how many `drain`
   * listeners wait to resume it.
   */
  datatype Cursor = Cursor(delivered: nat, threw: bool, paused: bool, listeners: nat)

  /** One `data` event, whose handler has effect `e`. */
  function Step(e: Effect, c: Cursor): Cursor
  {
    Cursor(c.delivered + 1, e.threw, c.paused || e.Pauses(), c.listeners + (if e.highWater then 1 else 0))
  }

  /**
   * The cursor going on from `c` over documents with the handler effects
   * `effects`: it delivers the next one for as long as there is one, it is
   * not paused and no handler threw.
   */
  function Run(effects: seq<Effect>, c: Cursor): (r: Cursor)
    requires c.delivered <= |effects|
    ensures c.delivered <= r.delivered <= |effects|
    ensures r.delivered < |effects| ==> r.paused || r.threw
    ensures c.paused || c.threw ==> r == c
    decreases |effects| - c.delivered
  {
    if c.delivered == |effects| || c.paused || c.threw then c
    else Run(effects, Step(effects[c.delivered], c))
  }

  /** Every document the run delivers before its last one neither threw nor left the cursor paused. */
  lemma {:induction false} RunBefore(effects: seq<Effect>, c: Cursor, j: nat)
    requires c.delivered <= j < |effects| && j + 1 < Run(effects, c).delivered
    ensures !effects[j].threw && !effects[j].Pauses()
    decreases |effects| - c.delivered
  {
    var s := Step(effects[c.delivered], c);
    if j > c.delivered {
      RunBefore(effects, s, j);
    }
  }

  /**
   * A run that delivers something ends in the state its last document's
   * handler left: that handler threw or not, paused the cursor or not, and
   * added a `drain` listener or not; no earlier document added one.
   */
  lemma {:induction false} RunLast(effects: seq<Effect>, c: Cursor)
    requires c.delivered <= |effects| && c.delivered < Run(effects, c).delivered
    ensures var r := Run(effects, c);
      && r.threw == effects[r.delivered - 1].threw
      && r.paused == effects[r.delivered - 1].Pauses()
      && r.listeners == c.listeners + (if effects[r.delivered - 1].highWater then 1 else 0)
    decreases |effects| - c.delivered
  {
    var s := Step(effects[c.delivered], c);
    if s.delivered < Run(effects, s).delivered {
      RunLast(effects, s);
    }
  }

  lemma EffectsAt(v: Variant, docs: seq<Doc>, accepts: nat -> nat -> bool, base: nat, j: nat)
    requires j < |docs|
    ensures Effects(v, docs, accepts, base)[j] == EffectOf(v, docs[j], accepts(j), base + |AllRecords(v, docs[..j + 1])|)
  {
  }

  /**
   * The cursor over `docs`, started unpaused after a batch of `base`
   * records: every document it delivers before its last one had an
   * iterable tag list (or none) and neither called `highWater` nor found
   * the batch overfull.
   */
  lemma DeliveredQuietly(v: Variant, docs: seq<Doc>, accepts: nat -> nat -> bool, base: nat, listeners: nat, j: nat)
    requires j + 1 < Run(Effects(v, docs, accepts, base), Cursor(0, false, false, listeners)).delivered
    ensures !TagListOf(v, docs[j]).NotIterable?
    ensures !PausesAfter(v, docs[j], accepts(j), false, base + |AllRecords(v, docs[..j + 1])|)
  {
    RunBefore(Effects(v, docs, accepts, base), Cursor(0, false, false, listeners), j);
    EffectsAt(v, docs, accepts, base, j);
  }

  /**
   * The same cursor, once it delivered something, stops in the state its
   * last document `docs[n]` left: it threw exactly when that tag list is
   * not iterable, is paused exactly when that document called `highWater`
   * or found the batch overfull, and only that document can have added a
   * `drain` listener.
   */
  lemma DeliveredLast(v: Variant, docs: seq<Doc>, accepts: nat -> nat -> bool, base: nat, listeners: nat, n: nat)
    requires n + 1 == Run(Effects(v, docs, accepts, base), Cursor(0, false, false, listeners)).delivered
    ensures var r := Run(Effects(v, docs, accepts, base), Cursor(0, false, false, listeners));
      && (r.threw <==> TagListOf(v, docs[n]).NotIterable?)
      && r.paused == PausesAfter(v, docs[n], accepts(n), r.threw, base + |AllRecords(v, docs[..n + 1])|)
      && r.listeners == listeners + (if HighWaterAfter(v, docs[n], accepts(n)) then 1 else 0)
  {
    RunLast(Effects(v, docs, accepts, base), Cursor(0, false, false, listeners));
    EffectsAt(v, docs, accepts, base, n);
  }

  /** The cursor after `Deliver` on the `k`-th of `docs` took the `k`-th step of `Run`. */
  lemma EffectStep(v: Variant, docs: seq<Doc>, accepts: nat -> nat -> bool, base: nat, k: nat, c: Cursor,
                   threw: bool, paused: bool, listeners: nat, pending: nat)
    requires k < |docs| && c.delivered == k && pending == base + |AllRecords(v, docs[..k + 1])|
    requires threw <==> TagListOf(v, docs[k]).NotIterable?
    requires listeners == c.listeners + (if HighWaterAfter(v, docs[k], accepts(k)) then 1 else 0)
    requires paused == (c.paused || PausesAfter(v, docs[k], accepts(k), threw, pending))
    ensures Cursor(k + 1, threw, paused, listeners) == Step(Effects(v, docs, accepts, base)[k], c)
  {
    EffectsAt(v, docs, accepts, base, k);
  }

  lemma AppendAssoc<T>(a: seq<T>, b: seq<T>, c: seq<T>)
    ensures a + (b + c) == (a + b) + c
  {
  }

  /** A batch that completes `c` to `a` still does so after `d` is appended to both. */
  lemma Extend<T>(c: seq<T>, b: seq<T>, a: seq<T>, d: seq<T>)
    requires c + b == a
    ensures c + (b + d) == a + d
  {
  }

  class Job {
    const variant: Variant
    /** The output collection (`out_collection`). */
    const out: Collection
    /** The collection's content when the job started. */
    ghost const initial: map<string, Record>
    /** Whether the source cursor is paused. */
    var paused: bool
    /** The batcher's pending records (`buffer.batch`). */
    var batch: seq<Record>
    /** The `buffer.once('drain', ...)` listeners registered by `highWater` and not yet fired. */
    var drainListeners: nat
    /** The subject job's `total`; the user job has no counter and keeps 0. */
    var total: nat
    /** The arguments `done` was called with, in order: `None` for success. */
    var outcomes: seq<Option<string>>
    /** The documents the cursor delivered so far. */
    ghost var seen: seq<Doc>
    /** The batches handed to the collection so far. */
    ghost var flushes: seq<Flush>

    ghost predicate Valid()
      reads this, out
    {
      && out.Valid()
      && out.docs == Replay(initial, flushes)
      && Concat(flushes) + batch == AllRecords(variant, seen)
      && total == (if variant.Subjects? then TagTotal(seen) else 0)
    }

    /** The job function given to `mongo.queue`, up to the first cursor event. */
    constructor (plan: Plan, existing: map<string, Record>)
      requires Keyed(existing)
      ensures Valid() && fresh(out)
      ensures variant == plan.variant && out.name == plan.outColl && out.docs == existing
      ensures !paused && batch == [] && drainListeners == 0 && total == 0 && outcomes == []
      ensures seen == [] && flushes == []
    {
      variant := plan.variant;
      out := new Collection(plan.outColl, existing);
      initial := existing;
      paused, batch, drainListeners, total, outcomes := false, [], 0, 0, [];
      seen, flushes := [], [];
    }

    /** `buffer.write(record)`: the record joins the pending batch; `accepted` is the batcher's answer. */
    method Write(r: Record, accepted: bool) returns (ok: bool)
      modifies this`batch
      ensures batch == old(batch) + [r] && ok == accepted
    {
      batch := batch + [r];
      ok := accepted;
    }

    /** `highWater(stream, buffer)`: pause the cursor and resume it on the next `drain`. */
    method HighWater()
      modifies this`paused, this`drainListeners
      ensures paused && drainListeners == old(drainListeners) + 1
    {
      paused := true;
      drainListeners := drainListeners + 1;
    }

    /**
     * The `forEach` of `update_tags_coll(sid, items)`: one record per tag
     * entry, the `i`-th write answered `accepts(i)`; `completed` is the
     * last answer, or true when there is no entry.
     */
    method WriteEach(sid: string, items: seq<Json>, accepts: nat -> bool) returns (completed: bool)
      modifies this`batch, this`total
      ensures batch == old(batch) + TagRecords(sid, items, Label(variant))
      ensures total == old(total) + (if variant.Subjects? then |items| else 0)
      ensures completed == !LastWriteRejected(items, accepts)
    {
      completed := true;
      var i := 0;
      while i < |items|
        invariant 0 <= i <= |items|
        invariant batch == old(batch) + TagRecords(sid, items[..i], Label(variant))
        invariant total == old(total) + (if variant.Subjects? then i else 0)
        invariant completed == (i == 0 || accepts(i - 1))
      {
        completed := WriteItem(sid, items, i, accepts(i), old(batch));
        i := i + 1;
      }
      assert items[..i] == items;
    }

    /** The `forEach` callback for the `i`-th entry, after the entries before it were written from `batch0` on. */
    method WriteItem(sid: string, items: seq<Json>, i: nat, accepted: bool, ghost batch0: seq<Record>)
      returns (completed: bool)
      requires i < |items| && batch == batch0 + TagRecords(sid, items[..i], Label(variant))
      modifies this`batch, this`total
      ensures batch == batch0 + TagRecords(sid, items[..i + 1], Label(variant))
      ensures total == old(total) + (if variant.Subjects? then 1 else 0)
      ensures completed == accepted
    {
      if variant.Subjects? {
        total := total + 1;
      }
      var r := Emit(sid, i, items[i], Label(variant));
      TagRecordsStep(sid, items, Label(variant), i);
      AppendAssoc(batch0, TagRecords(sid, items[..i], Label(variant)), [r]);
      completed := Write(r, accepted);
    }

    /** `update_tags_coll(sid, items)`: the writes, then `highWater` when the last one was refused. */
    method UpdateTagsColl(sid: string, items: seq<Json>, accepts: nat -> bool)
      modifies this`batch, this`total, this`paused, this`drainListeners
      ensures batch == old(batch) + TagRecords(sid, items, Label(variant))
      ensures total == old(total) + (if variant.Subjects? then |items| else 0)
      ensures paused == (old(paused) || LastWriteRejected(items, accepts))
      ensures drainListeners == old(drainListeners) + (if LastWriteRejected(items, accepts) then 1 else 0)
    {
      var completed := WriteEach(sid, items, accepts);
      if !completed {
        HighWater();
      }
    }

    /**
     * The part the two `data` handlers share: the document is delivered, and
     * its tag list `tags` goes to `update_tags_coll` when it is one, throws
     * in `forEach` when it is not, and is skipped when it is absent.
     */
    method WriteTags(doc: Doc, tags: TagList, accepts: nat -> bool) returns (threw: bool)
      requires Valid() && tags == TagListOf(variant, doc)
      modifies this`batch, this`total, this`paused, this`drainListeners, this`seen
      ensures Valid()
      ensures seen == old(seen) + [doc]
      ensures threw <==> tags.NotIterable?
      ensures batch == old(batch) + DocRecords(variant, doc)
      ensures total == old(total) + (if variant.Subjects? then |DocRecords(variant, doc)| else 0)
      ensures drainListeners == old(drainListeners) + (if HighWaterAfter(variant, doc, accepts) then 1 else 0)
      ensures paused == (old(paused) || HighWaterAfter(variant, doc, accepts))
    {
      ghost var recs := DocRecords(variant, doc);
      if tags.Tags? {
        UpdateTagsColl(doc.id, tags.items, accepts);
      } else {
        assert old(batch) + recs == old(batch);
      }
      threw := tags.NotIterable?;
      AllRecordsSnoc(variant, seen, doc);
      Extend(Concat(flushes), old(batch), AllRecords(variant, seen), recs);
      seen := seen + [doc];
    }

    /**
     * The user job's `data` handler. A document whose `<ns>_stats` is falsy
     * returns at once; `UserTopTags` is `Absent` for it, so only the check
     * of the pending batch's size is skipped.
     */
    method OnUserData(doc: Doc, accepts: nat -> bool) returns (threw: bool)
      requires Valid() && variant.Users?
      modifies this`batch, this`total, this`paused, this`drainListeners, this`seen
      ensures Valid()
      ensures seen == old(seen) + [doc]
      ensures threw <==> TagListOf(variant, doc).NotIterable?
      ensures batch == old(batch) + DocRecords(variant, doc)
      ensures drainListeners == old(drainListeners) + (if HighWaterAfter(variant, doc, accepts) then 1 else 0)
      ensures paused == (
        || old(paused)
        || HighWaterAfter(variant, doc, accepts)
        || (!threw && Truthy(Field(doc, variant.nsStats)) && |batch| > MaxPending))
    {
      var guarded := Truthy(Field(doc, variant.nsStats));
      threw := WriteTags(doc, UserTopTags(doc, variant.nsStats, variant.statsStatus), accepts);
      if guarded && !threw {
        PauseIfOverfull();
      }
    }

    /** The user `data` handler's last step: too much unwritten output pauses the cursor. */
    method PauseIfOverfull()
      modifies this`paused
      ensures paused == (old(paused) || |batch| > MaxPending)
    {
      if |batch| > MaxPending {
        paused := true;
      }
    }

    /** The subject job's `data` handler. */
    method OnSubjectData(doc: Doc, accepts: nat -> bool) returns (threw: bool)
      requires Valid() && variant.Subjects?
      modifies this`batch, this`total, this`paused, this`drainListeners, this`seen
      ensures Valid()
      ensures seen == old(seen) + [doc]
      ensures threw <==> TagListOf(variant, doc).NotIterable?
      ensures batch == old(batch) + DocRecords(variant, doc)
      ensures total == old(total) + |DocRecords(variant, doc)|
      ensures drainListeners == old(drainListeners) + (if HighWaterAfter(variant, doc, accepts) then 1 else 0)
      ensures paused == (old(paused) || HighWaterAfter(variant, doc, accepts))
    {
      threw := WriteTags(doc, SubjectTags(doc), accepts);
    }

    /** A `data` event of the cursor, handled by the job's own handler. */
    method OnData(doc: Doc, accepts: nat -> bool) returns (threw: bool)
      requires Valid()
      modifies this`batch, this`total, this`paused, this`drainListeners, this`seen
      ensures Valid()
      ensures seen == old(seen) + [doc]
      ensures batch == old(batch) + DocRecords(variant, doc)
      ensures threw <==> TagListOf(variant, doc).NotIterable?
      ensures total == old(total) + (if variant.Subjects? then |DocRecords(variant, doc)| else 0)
      ensures drainListeners == old(drainListeners) + (if HighWaterAfter(variant, doc, accepts) then 1 else 0)
      ensures paused == (old(paused) || PausesAfter(variant, doc, accepts, threw, |batch|))
    {
      if variant.Users? {
        threw := OnUserData(doc, accepts);
      } else {
        threw := OnSubjectData(doc, accepts);
      }
    }

    /** `OnData` for the `k`-th of `docs`, answered `accepts(k)`, in a run that began with `seen0` and `batch0`. */
    method Deliver(docs: seq<Doc>, k: nat, accepts: nat -> nat -> bool, ghost seen0: seq<Doc>, ghost batch0: seq<Record>)
      returns (threw: bool)
      requires k < |docs| && Valid()
      requires seen == seen0 + docs[..k] && batch == batch0 + AllRecords(variant, docs[..k])
      modifies this`batch, this`total, this`paused, this`drainListeners, this`seen
      ensures Valid()
      ensures seen == seen0 + docs[..k + 1]
      ensures batch == batch0 + AllRecords(variant, docs[..k + 1])
      ensures threw <==> TagListOf(variant, docs[k]).NotIterable?
      ensures drainListeners == old(drainListeners) + (if HighWaterAfter(variant, docs[k], accepts(k)) then 1 else 0)
      ensures paused == (old(paused) || PausesAfter(variant, docs[k], accepts(k), threw, |batch|))
    {
      ghost var prefix, doc := docs[..k], docs[k];
      assert docs[..k + 1] == prefix + [doc];
      AllRecordsSnoc(variant, prefix, doc);
      AppendAssoc(seen0, prefix, [doc]);
      AppendAssoc(batch0, AllRecords(variant, prefix), DocRecords(variant, doc));
      threw := OnData(docs[k], accepts(k));
    }

    /** A `drain` event of the batcher: every pending listener resumes the cursor. */
    method OnDrain()
      modifies this`paused, this`drainListeners
      ensures drainListeners == 0
      ensures paused == (old(paused) && old(drainListeners) == 0)
    {
      if drainListeners > 0 {
        paused := false;
      }
      drainListeners := 0;
    }

    /**
     * The batcher cutting its pending records into a batch and running the
     * `transform` on it; `removeOk` is whether the `remove` call succeeded.
     */
    method FlushBatch(removeOk: bool)
      requires Valid()
      modifies this`batch, this`flushes, out
      ensures Valid()
      ensures batch == []
      ensures flushes == old(flushes) + [Flush(old(batch), removeOk)]
      ensures out.docs == Apply(old(out.docs), old(batch), removeOk)
    {
      var items := batch;
      batch := [];
      out.Transform(items, removeOk);
      flushes := flushes + [Flush(items, removeOk)];
      assert flushes[..|flushes| - 1] == old(flushes);
    }

    /**
     * The cursor's `end` event: `buffer.end()` flushes a non-empty trailing
     * batch, then the batcher's `end` calls `done` without an error.
     */
    method OnEnd(removeOk: bool)
      requires Valid()
      modifies this`batch, this`flushes, this`outcomes, out
      ensures Valid()
      ensures batch == [] && Concat(flushes) == AllRecords(variant, seen)
      ensures out.docs == Apply(old(out.docs), old(batch), removeOk)
      ensures outcomes == old(outcomes) + [None]
    {
      if batch != [] {
        FlushBatch(removeOk);
      } else {
        assert Concat(flushes) == Concat(flushes) + batch;
        ApplyEmpty(out.docs, removeOk);
      }
      outcomes := outcomes + [None];
    }

    /** The cursor's `error` event: `done` receives the error. */
    method OnError(err: string)
      modifies this`outcomes
      ensures outcomes == old(outcomes) + [Some(err)]
    {
      outcomes := outcomes + [Some(err)];
    }

    /**
     * The cursor delivering `docs` one `data` event at a time for as long as
     * it is not paused and no handler threw; the `k`-th document's writes
     * are answered `accepts(k)`. It ends where `Run` says, so `RunBefore`
     * and `RunLast` tell how it stopped.
     */
    method Pump(docs: seq<Doc>, accepts: nat -> nat -> bool) returns (delivered: nat, threw: bool)
      requires Valid()
      modifies this`batch, this`total, this`paused, this`drainListeners, this`seen
      ensures Valid()
      ensures Cursor(delivered, threw, paused, drainListeners)
           == Run(Effects(variant, docs, accepts, |old(batch)|), Cursor(0, false, old(paused), old(drainListeners)))
      ensures delivered <= |docs| && seen == old(seen) + docs[..delivered]
      ensures batch == old(batch) + AllRecords(variant, docs[..delivered])
    {
      delivered, threw := 0, false;
      while delivered < |docs| && !paused && !threw
        invariant delivered <= |docs|
        invariant Valid()
        invariant seen == old(seen) + docs[..delivered]
        invariant batch == old(batch) + AllRecords(variant, docs[..delivered])
        invariant Run(Effects(variant, docs, accepts, |old(batch)|), Cursor(delivered, threw, paused, drainListeners))
               == Run(Effects(variant, docs, accepts, |old(batch)|), Cursor(0, false, old(paused), old(drainListeners)))
      {
        threw := Advance(docs, delivered, accepts, old(seen), old(batch), threw);
        delivered := delivered + 1;
      }
    }

    /** One turn of `Pump`: the `k`-th document is handed to a cursor that is not paused. */
    method Advance(docs: seq<Doc>, k: nat, accepts: nat -> nat -> bool,
                   ghost seen0: seq<Doc>, ghost batch0: seq<Record>, ghost threw0: bool)
      returns (threw: bool)
      requires k < |docs| && Valid() && !paused
      requires seen == seen0 + docs[..k] && batch == batch0 + AllRecords(variant, docs[..k])
      modifies this`batch, this`total, this`paused, this`drainListeners, this`seen
      ensures Valid()
      ensures seen == seen0 + docs[..k + 1] && batch == batch0 + AllRecords(variant, docs[..k + 1])
      ensures Cursor(k + 1, threw, paused, drainListeners)
           == Step(Effects(variant, docs, accepts, |batch0|)[k], Cursor(k, threw0, old(paused), old(drainListeners)))
    {
      threw := Deliver(docs, k, accepts, seen0, batch0);
      EffectStep(variant, docs, accepts, |batch0|, k, Cursor(k, threw0, old(paused), old(drainListeners)),
                 threw, paused, drainListeners, |batch|);
    }
  }

  /** `users_by_tag(ns, status, done)`: a parameter error, or a fresh job on the existing collection. */
  method StartUsersByTag(ns: Option<string>, status: Option<string>, existing: map<string, Record>)
    returns (r: Result<Job, string>)
    requires Keyed(existing)
    ensures r.Failure? <==> !Given(ns) || !Given(status)
    ensures r.Failure? ==> r.error == "Namespace and status needed"
    ensures r.Success? ==>
      && fresh(r.value) && fresh(r.value.out) && r.value.Valid()
      && r.value.variant == Users(ns.value + "_stats", status.value)
      && r.value.out.name == "top_" + ns.value + "_" + status.value + "_user_by_tag"
      && r.value.out.docs == existing && !r.value.paused && r.value.batch == [] && r.value.outcomes == []
      && r.value.seen == [] && r.value.flushes == [] && r.value.drainListeners == 0 && r.value.total == 0
  {
    match UsersByTag(ns, status)
    case Failure(e) =>
      r := Failure(e);
    case Success(plan) =>
      var job := new Job(plan, existing);
      r := Success(job);
  }

  /** `subjects_by_tag(ns, done)`: a parameter error, or a fresh job on the existing collection. */
  method StartSubjectsByTag(ns: Option<string>, existing: map<string, Record>)
    returns (r: Result<Job, string>)
    requires Keyed(existing)
    ensures r.Failure? <==> !Given(ns)
    ensures r.Failure? ==> r.error == "Namespace needed"
    ensures r.Success? ==>
      && fresh(r.value) && fresh(r.value.out) && r.value.Valid()
      && r.value.variant == Subjects
      && r.value.out.name == "top_" + ns.value + "_by_tag"
      && r.value.out.docs == existing && !r.value.paused && r.value.batch == [] && r.value.total == 0
      && r.value.outcomes == [] && r.value.seen == [] && r.value.flushes == [] && r.value.drainListeners == 0
  {
    match SubjectsByTag(ns)
    case Failure(e) =>
      r := Failure(e);
    case Success(plan) =>
      var job := new Job(plan, existing);
      r := Success(job);
  }
}
