/**
 * The output collection and the batch `transform` of `createBatcher`:
 * remove every stored record whose id is in the batch, then insert the
 * batch with `continueOnError`, so that a record whose id is already
 * stored is rejected by the unique `_id` index and the rest go in.
 */
module Sink {
  import opened FanOut

  /** The stored records are keyed by their own `_id`. */
  ghost predicate Keyed(m: map<string, Record>)
  {
    forall k :: k in m ==> m[k].id == k
  }

  /** `_.pluck(items, '_id')`, as the set the `$in` filter matches. */
  function Ids(items: seq<Record>): (s: set<string>)
    ensures forall i :: 0 <= i < |items| ==> items[i].id in s
  {
    if items == [] then {} else Ids(items[..|items| - 1]) + {items[|items| - 1].id}
  }

  lemma {:induction false} IdsAppend(p: seq<Record>, q: seq<Record>)
    ensures Ids(p + q) == Ids(p) + Ids(q)
  {
    if q != [] {
      var n := |q| - 1;
      assert (p + q)[..|p + q| - 1] == p + q[..n];
      IdsAppend(p, q[..n]);
    } else {
      assert p + q == p;
    }
  }

  /** An id that no record carries is not among the ids. */
  lemma {:induction false} NotInIds(items: seq<Record>, id: string)
    requires forall j :: 0 <= j < |items| ==> items[j].id != id
    ensures id !in Ids(items)
  {
    if items != [] {
      NotInIds(items[..|items| - 1], id);
    }
  }

  /** The position of the earliest record of `items` with id `id`. */
  function FirstIndex(items: seq<Record>, id: string): (i: nat)
    requires id in Ids(items)
    ensures i < |items| && items[i].id == id
    ensures forall j :: 0 <= j < i ==> items[j].id != id
  {
    var n := |items| - 1;
    if id in Ids(items[..n]) then
      var i := FirstIndex(items[..n], id);
      assert items[..n][i] == items[i];
      assert forall j :: 0 <= j < i ==> items[..n][j] == items[j];
      i
    else
      assert forall j :: 0 <= j < n ==> items[..n][j] == items[j];
      n
  }

  /** The earliest record of `items` with id `id`: the one the unique `_id` index lets in. */
  function First(items: seq<Record>, id: string): Record
    requires id in Ids(items)
  {
    items[FirstIndex(items, id)]
  }

  /** A record appended to a batch is the first of its id only when no earlier record has that id. */
  lemma FirstSnoc(items: seq<Record>)
    requires items != []
    ensures var n := |items| - 1;
      && Ids(items) == Ids(items[..n]) + {items[n].id}
      && (forall k :: k in Ids(items[..n]) ==> First(items, k) == First(items[..n], k))
      && (items[n].id !in Ids(items[..n]) ==> First(items, items[n].id) == items[n])
  {
  }

  /** In a batch without repeated ids, every record is the one kept for its id. */
  lemma FirstOfDistinct(items: seq<Record>, k: nat)
    requires DistinctIds(items) && k < |items|
    ensures items[k].id in Ids(items) && First(items, items[k].id) == items[k]
  {
    var i := FirstIndex(items, items[k].id);
  }

  /** The two halves of a batch without repeated ids share no id. */
  lemma DistinctSplit(p: seq<Record>, q: seq<Record>)
    requires DistinctIds(p + q)
    ensures DistinctIds(p) && DistinctIds(q)
    ensures forall a :: 0 <= a < |p| ==> p[a].id !in Ids(q)
  {
    var all := p + q;
    forall a, b | 0 <= a < b < |p| ensures p[a].id != p[b].id {
      assert p[a] == all[a] && p[b] == all[b];
    }
    forall a, b | 0 <= a < b < |q| ensures q[a].id != q[b].id {
      assert q[a] == all[|p| + a] && q[b] == all[|p| + b];
    }
    forall a | 0 <= a < |p| ensures p[a].id !in Ids(q) {
      forall j | 0 <= j < |q| ensures q[j].id != p[a].id {
        assert p[a] == all[a] && q[j] == all[|p| + j];
      }
      NotInIds(q, p[a].id);
    }
  }

  /** One `insert` document: rejected when its id is already stored. */
  function InsertOne(m: map<string, Record>, rec: Record): map<string, Record>
  {
    if rec.id in m then m else m[rec.id := rec]
  }

  /** The effect of inserting `items` in order with `continueOnError`. */
  function InsertAll(m: map<string, Record>, items: seq<Record>): (r: map<string, Record>)
    ensures r.Keys == m.Keys + Ids(items)
    ensures forall k :: k in m ==> r[k] == m[k]
    ensures forall k :: k in Ids(items) && k !in m ==> r[k] == First(items, k)
    ensures Keyed(m) ==> Keyed(r)
  {
    if items == [] then m
    else
      var n := |items| - 1;
      FirstSnoc(items);
      InsertOne(InsertAll(m, items[..n]), items[n])
  }

  /** Inserting one more record of `items` is one more `InsertOne`. */
  lemma InsertAllStep(m: map<string, Record>, items: seq<Record>, i: nat)
    requires i < |items|
    ensures InsertAll(m, items[..i + 1]) == InsertOne(InsertAll(m, items[..i]), items[i])
  {
    assert items[..i + 1][..i] == items[..i];
  }

  /** The batch `transform`: remove by id (when the remove succeeds), then insert. */
  function Apply(m: map<string, Record>, items: seq<Record>, removeOk: bool): (r: map<string, Record>)
    ensures r.Keys == m.Keys + Ids(items)
    ensures removeOk ==> forall k :: k in Ids(items) ==> r[k] == First(items, k)
    ensures forall k :: k in Ids(items) && k !in m ==> r[k] == First(items, k)
    ensures forall k :: k in m && (k !in Ids(items) || !removeOk) ==> r[k] == m[k]
    ensures Keyed(m) ==> Keyed(r)
  {
    InsertAll(if removeOk then m - Ids(items) else m, items)
  }

  /** An empty batch changes nothing. */
  lemma ApplyEmpty(m: map<string, Record>, removeOk: bool)
    ensures Apply(m, [], removeOk) == m
  {
    assert Ids([]) == {};
    assert m - {} == m;
  }

  /** Flushing a batch that has just been flushed changes nothing, whether or not the second remove succeeds. */
  lemma ReflushIsNoop(m: map<string, Record>, items: seq<Record>, removeOk: bool)
    ensures Apply(Apply(m, items, true), items, removeOk) == Apply(m, items, true)
  {
    var once := Apply(m, items, true);
    var twice := Apply(once, items, removeOk);
    assert twice.Keys == once.Keys;
    forall k | k in twice ensures twice[k] == once[k] {
      if k in Ids(items) {
        assert twice[k] == First(items, k);
      }
    }
  }

  /** A retried batch converges: after a successful flush, an earlier failed remove leaves no trace. */
  lemma RetryConverges(m: map<string, Record>, items: seq<Record>, removeOk: bool)
    ensures Apply(Apply(m, items, removeOk), items, true) == Apply(m, items, true)
  {
    var first := Apply(m, items, removeOk);
    var retried := Apply(first, items, true);
    var clean := Apply(m, items, true);
    assert retried.Keys == clean.Keys;
    forall k | k in retried ensures retried[k] == clean[k] {
      if k !in Ids(items) {
        assert retried[k] == first[k] == m[k];
      }
    }
  }

  /**
   * Applying the same batch twice is applying it once, with a remove that
   * succeeded if either of the two did.
   */
  lemma ApplyTwice(m: map<string, Record>, items: seq<Record>, a: bool, b: bool)
    ensures Apply(Apply(m, items, a), items, b) == Apply(m, items, a || b)
  {
    if a {
      ReflushIsNoop(m, items, b);
    } else if b {
      RetryConverges(m, items, false);
    } else {
      var once := Apply(m, items, false);
      var twice := Apply(once, items, false);
      assert twice.Keys == once.Keys;
    }
  }

  /** One flush of the batcher: the batch and whether its remove succeeded. */
  datatype Flush = Flush(items: seq<Record>, removeOk: bool)

  /** All records flushed, in order. */
  function Concat(fs: seq<Flush>): seq<Record>
  {
    if fs == [] then [] else Concat(fs[..|fs| - 1]) + fs[|fs| - 1].items
  }

  /** The collection after the flushes, in order. */
  function Replay(m: map<string, Record>, fs: seq<Flush>): (r: map<string, Record>)
    ensures r.Keys == m.Keys + Ids(Concat(fs))
    ensures Keyed(m) ==> Keyed(r)
  {
    if fs == [] then m else
      var n := |fs| - 1;
      IdsAppend(Concat(fs[..n]), fs[n].items);
      Apply(Replay(m, fs[..n]), fs[n].items, fs[n].removeOk)
  }

  predicate AllRemovesOk(fs: seq<Flush>)
  {
    forall i :: 0 <= i < |fs| ==> fs[i].removeOk
  }

  /** Two stores equal outside `s` agree on every key outside `s`. */
  lemma AgreeOutside(a: map<string, Record>, b: map<string, Record>, s: set<string>)
    requires a - s == b - s
    ensures forall k :: k !in s ==> (k in a <==> k in b) && (k in a ==> a[k] == b[k])
  {
    forall k | k !in s
      ensures (k in a <==> k in b) && (k in a ==> a[k] == b[k])
    {
      assert (k in a <==> k in (a - s)) && (k in b <==> k in (b - s));
      if k in a { assert a[k] == (a - s)[k]; }
      if k in b { assert b[k] == (b - s)[k]; }
    }
  }

  /** Stores that agree on every key outside `s` are equal outside `s`. */
  lemma EqualOutside(a: map<string, Record>, b: map<string, Record>, s: set<string>)
    requires forall k :: k !in s ==> (k in a <==> k in b) && (k in a ==> a[k] == b[k])
    ensures a - s == b - s
  {
    assert (a - s).Keys == (b - s).Keys;
  }

  /** Flushing two stores that agree outside `s` leaves them agreeing outside `s` minus the batch ids. */
  lemma ApplyAgrees(x: map<string, Record>, y: map<string, Record>, items: seq<Record>, s: set<string>)
    requires x - s == y - s
    ensures Apply(x, items, true) - (s - Ids(items)) == Apply(y, items, true) - (s - Ids(items))
  {
    AgreeOutside(x, y, s);
    EqualOutside(Apply(x, items, true), Apply(y, items, true), s - Ids(items));
  }

  /** Replaying the same successful flushes on stores that agree outside `s` keeps them agreeing there. */
  lemma {:induction false} ReplayAgrees(x: map<string, Record>, y: map<string, Record>, fs: seq<Flush>, s: set<string>)
    requires AllRemovesOk(fs) && x - s == y - s
    ensures Replay(x, fs) - (s - Ids(Concat(fs))) == Replay(y, fs) - (s - Ids(Concat(fs)))
  {
    if fs == [] {
      assert Ids(Concat(fs)) == {};
      assert s - {} == s;
    } else {
      var n := |fs| - 1;
      var ids' := Ids(Concat(fs[..n]));
      ReplayAgrees(x, y, fs[..n], s);
      ApplyAgrees(Replay(x, fs[..n]), Replay(y, fs[..n]), fs[n].items, s - ids');
      IdsAppend(Concat(fs[..n]), fs[n].items);
      assert s - ids' - Ids(fs[n].items) == s - Ids(Concat(fs));
    }
  }

  /** Successful flushes leave every record outside their ids as it was. */
  lemma {:induction false} ReplayOutside(m: map<string, Record>, fs: seq<Flush>)
    requires AllRemovesOk(fs)
    ensures Replay(m, fs) - Ids(Concat(fs)) == m - Ids(Concat(fs))
  {
    if fs != [] {
      var n := |fs| - 1;
      var prev, r := Replay(m, fs[..n]), Replay(m, fs);
      ReplayOutside(m, fs[..n]);
      AgreeOutside(prev, m, Ids(Concat(fs[..n])));
      IdsAppend(Concat(fs[..n]), fs[n].items);
      EqualOutside(r, m, Ids(Concat(fs)));
    }
  }

  /**
   * Re-running a job over unchanged source data, with the same batches and
   * every remove succeeding, leaves the collection exactly as the first run did.
   */
  lemma RerunIsIdempotent(m: map<string, Record>, fs: seq<Flush>)
    requires AllRemovesOk(fs)
    ensures Replay(Replay(m, fs), fs) == Replay(m, fs)
  {
    var ids := Ids(Concat(fs));
    ReplayOutside(m, fs);
    ReplayAgrees(Replay(m, fs), m, fs, ids);
    assert ids - ids == {};
    assert Replay(Replay(m, fs), fs) - {} == Replay(Replay(m, fs), fs);
    assert Replay(m, fs) - {} == Replay(m, fs);
  }

  /**
   * Successful flushes of the same records with pairwise different ids end
   * in the same collection however the batcher cut them into batches.
   */
  lemma ReplaySameConcat(m: map<string, Record>, fs1: seq<Flush>, fs2: seq<Flush>)
    requires AllRemovesOk(fs1) && AllRemovesOk(fs2)
    requires Concat(fs1) == Concat(fs2) && DistinctIds(Concat(fs1))
    ensures Replay(m, fs1) == Replay(m, fs2)
  {
    var all := Concat(fs1);
    var a, b := Replay(m, fs1), Replay(m, fs2);
    ReplayOutside(m, fs1);
    ReplayOutside(m, fs2);
    AgreeOutside(a, b, Ids(all));
    forall k | k in Ids(all)
      ensures a[k] == b[k]
    {
      var i := FirstIndex(all, k);
      ReplayStoresRecords(m, fs1, i);
      ReplayStoresRecords(m, fs2, i);
    }
    assert a.Keys == b.Keys;
  }

  /**
   * Re-running a job over unchanged source data, every remove succeeding,
   * leaves the collection as the first run did, even when the re-run cuts
   * its batches differently.
   */
  lemma RerunAnyBatches(m: map<string, Record>, fs1: seq<Flush>, fs2: seq<Flush>)
    requires AllRemovesOk(fs1) && AllRemovesOk(fs2)
    requires Concat(fs1) == Concat(fs2) && DistinctIds(Concat(fs1))
    ensures Replay(Replay(m, fs1), fs2) == Replay(m, fs1)
  {
    ReplaySameConcat(Replay(m, fs1), fs2, fs1);
    RerunIsIdempotent(m, fs1);
  }

  /**
   * After successful flushes of records with pairwise different ids, every
   * flushed record is stored under its id.
   */
  lemma {:induction false} ReplayStoresRecords(m: map<string, Record>, fs: seq<Flush>, k: nat)
    requires AllRemovesOk(fs) && DistinctIds(Concat(fs)) && k < |Concat(fs)|
    ensures Concat(fs)[k].id in Replay(m, fs) && Replay(m, fs)[Concat(fs)[k].id] == Concat(fs)[k]
  {
    var n := |fs| - 1;
    var prefix, last := Concat(fs[..n]), fs[n].items;
    var all := Concat(fs);
    assert all == prefix + last;
    DistinctSplit(prefix, last);
    if k < |prefix| {
      ReplayStoresRecords(m, fs[..n], k);
      assert all[k] == prefix[k];
    } else {
      FirstOfDistinct(last, k - |prefix|);
      assert all[k] == last[k - |prefix|];
    }
  }

  /** The stored output collection. */
  class Collection {
    const name: string
    var docs: map<string, Record>

    ghost predicate Valid()
      reads this
    {
      Keyed(docs)
    }

    constructor (name: string, existing: map<string, Record>)
      requires Keyed(existing)
      ensures Valid() && this.name == name && docs == existing
    {
      this.name := name;
      docs := existing;
    }

    /** `remove({_id: {$in: ids}})`; `ok` is false when the call fails, which leaves the store as it was. */
    method Remove(ids: set<string>, ok: bool)
      requires Valid()
      modifies this
      ensures Valid()
      ensures docs == if ok then old(docs) - ids else old(docs)
    {
      if ok {
        docs := docs - ids;
      }
    }

    /** `insert(items, {continueOnError: true})`: each record goes in unless its id is already stored. */
    method Insert(items: seq<Record>)
      requires Valid()
      modifies this
      ensures Valid()
      ensures docs == InsertAll(old(docs), items)
    {
      var i := 0;
      while i < |items|
        invariant 0 <= i <= |items|
        invariant docs == InsertAll(old(docs), items[..i])
      {
        var r := items[i];
        InsertAllStep(old(docs), items, i);
        if r.id !in docs {
          docs := docs[r.id := r];
        }
        i := i + 1;
      }
      assert items[..i] == items;
    }

    /** The batcher's `transform`: remove the batch's ids, then insert the batch whatever the remove reported. */
    method Transform(items: seq<Record>, removeOk: bool)
      requires Valid()
      modifies this
      ensures Valid()
      ensures docs == Apply(old(docs), items, removeOk)
    {
      var ids := Ids(items);
      Remove(ids, removeOk);
      Insert(items);
    }
  }
}
