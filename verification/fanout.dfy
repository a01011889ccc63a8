/**
 * The per-document fan-out of the two `update_tags_coll` functions: a
 * source document becomes the ordered records `{_id: sid + '::' + i,
 * tagname, count}`, one per entry of its tag list.
 */
module FanOut {
  import opened Wrappers
  import opened Text
  import opened Json

  /** A source document: the string form of its `_id` and its other top-level fields. */
  datatype Doc = Doc(id: string, fields: map<string, Json>)

  /** An output record; `tagname` and `count` are copied as read, `undefined` included. */
  datatype Record = Record(id: string, tagname: Option<Json>, count: Option<Json>)

  /**
   * What the navigation hands to `update_tags_coll`: nothing (the document is
   * skipped), an array, or a truthy value that is not an array, on which
   * `forEach` throws.
   */
  datatype TagList = Absent | Tags(items: seq<Json>) | NotIterable

  /** The two job variants: per user (with its `<ns>_stats` key and status) and per subject. */
  datatype Variant = Users(nsStats: string, statsStatus: string) | Subjects

  /** `doc[key]` */
  function Field(doc: Doc, key: string): Option<Json>
  {
    if key in doc.fields then Some(doc.fields[key]) else None
  }

  /** `if (top_tags) update_tags_coll(..., top_tags)`, with `forEach` defined on arrays only. */
  function AsTagList(v: Option<Json>): TagList
  {
    if !Truthy(v) then Absent
    else if v.value.Arr? then Tags(v.value.items)
    else NotIterable
  }

  /** `doc[ns_stats][stats_status].top_tags`, guarded as the user `data` handler guards it. */
  function UserTopTags(doc: Doc, nsStats: string, statsStatus: string): (r: TagList)
    ensures !Truthy(Field(doc, nsStats)) ==> r == Absent
  {
    var stats := Field(doc, nsStats);
    if !Truthy(stats) then Absent
    else
      var result := Get(stats, statsStatus);
      var topTags := if Truthy(result) then Get(result, "top_tags") else result;
      AsTagList(topTags)
  }

  /**
   * The guarded navigation finds a list exactly when every link of the path
   * is an object and `top_tags` is an array; it reports a non-list exactly
   * when the path exists and ends in a truthy non-array; otherwise the
   * document is skipped.
   */
  lemma UserTopTagsPath(doc: Doc, nsStats: string, statsStatus: string)
    ensures var r := UserTopTags(doc, nsStats, statsStatus);
      && (r.Tags? <==>
           && nsStats in doc.fields && doc.fields[nsStats].Obj?
           && statsStatus in doc.fields[nsStats].fields
           && doc.fields[nsStats].fields[statsStatus].Obj?
           && "top_tags" in doc.fields[nsStats].fields[statsStatus].fields
           && doc.fields[nsStats].fields[statsStatus].fields["top_tags"].Arr?)
      && (r.Tags? ==> doc.fields[nsStats].fields[statsStatus].fields["top_tags"] == Arr(r.items))
      && (r.NotIterable? <==>
           && nsStats in doc.fields && doc.fields[nsStats].Obj?
           && statsStatus in doc.fields[nsStats].fields
           && doc.fields[nsStats].fields[statsStatus].Obj?
           && "top_tags" in doc.fields[nsStats].fields[statsStatus].fields
           && Truthy(Some(doc.fields[nsStats].fields[statsStatus].fields["top_tags"]))
           && !doc.fields[nsStats].fields[statsStatus].fields["top_tags"].Arr?)
  {
  }

  /** `doc.tags`, guarded as the subject `data` handler guards it. */
  function SubjectTags(doc: Doc): (r: TagList)
    ensures r.Tags? <==> "tags" in doc.fields && doc.fields["tags"].Arr?
    ensures r.Tags? ==> doc.fields["tags"] == Arr(r.items)
    ensures r.NotIterable? <==>
      "tags" in doc.fields && Truthy(Some(doc.fields["tags"])) && !doc.fields["tags"].Arr?
  {
    AsTagList(Field(doc, "tags"))
  }

  function TagListOf(v: Variant, doc: Doc): TagList
  {
    match v
    case Users(nsStats, statsStatus) => UserTopTags(doc, nsStats, statsStatus)
    case Subjects => SubjectTags(doc)
  }

  /** The property a tag entry's key is read from: `item._id` for users, `item.name` for subjects. */
  function Label(v: Variant): string
  {
    if v.Users? then "_id" else "name"
  }

  /** The output id `sid + '::' + i`. */
  function MakeId(sid: string, i: nat): string
  {
    sid + "::" + Decimal(i)
  }

  /** An output id starts with the source id, then `::`, then digits that read back as the index. */
  lemma MakeIdParts(sid: string, i: nat)
    ensures var r := MakeId(sid, i);
      && |sid| + 2 < |r| && r[..|sid|] == sid && r[|sid|..|sid| + 2] == "::"
      && DecimalValue(r[|sid| + 2..]) == i
  {
    var r := MakeId(sid, i);
    assert r[|sid| + 2..] == Decimal(i);
    DecimalRoundTrip(i);
  }

  /** An output id determines the source id and the position it was made from. */
  lemma MakeIdInjective(s1: string, i1: nat, s2: string, i2: nat)
    requires MakeId(s1, i1) == MakeId(s2, i2)
    ensures s1 == s2 && i1 == i2
  {
    var d1, d2 := Decimal(i1), Decimal(i2);
    assert (s1 + ":") + [':'] + d1 == MakeId(s1, i1);
    assert (s2 + ":") + [':'] + d2 == MakeId(s2, i2);
    assert ':' !in d1 && ':' !in d2;
    SplitAtLast(s1 + ":", d1, s2 + ":", d2, ':');
    assert s1 == (s1 + ":")[..|s1|];
    assert s2 == (s2 + ":")[..|s2|];
    DecimalInjective(i1, i2);
  }

  /** The record the `i`-th `forEach` step writes. */
  function Emit(sid: string, i: nat, item: Json, key: string): Record
  {
    Record(MakeId(sid, i), Get(Some(item), key), Get(Some(item), "count"))
  }

  /** The records `update_tags_coll(sid, items)` writes, in `forEach` order. */
  function TagRecords(sid: string, items: seq<Json>, key: string): (r: seq<Record>)
    ensures |r| == |items|
  {
    if items == [] then []
    else
      var n := |items| - 1;
      TagRecords(sid, items[..n], key) + [Emit(sid, n, items[n], key)]
  }

  /** One more `forEach` step writes one more record. */
  lemma TagRecordsStep(sid: string, items: seq<Json>, key: string, i: nat)
    requires i < |items|
    ensures TagRecords(sid, items[..i + 1], key) == TagRecords(sid, items[..i], key) + [Emit(sid, i, items[i], key)]
  {
    assert items[..i + 1][..i] == items[..i];
  }

  /** The `i`-th record carries id `sid::i`, the entry's `key` property as its label and its `count`. */
  lemma {:induction false} TagRecordsAt(sid: string, items: seq<Json>, key: string, i: nat)
    requires i < |items|
    ensures TagRecords(sid, items, key)[i].id == sid + "::" + Decimal(i)
    ensures TagRecords(sid, items, key)[i].tagname == Get(Some(items[i]), key)
    ensures TagRecords(sid, items, key)[i].count == Get(Some(items[i]), "count")
  {
    var n := |items| - 1;
    if i < n {
      TagRecordsAt(sid, items[..n], key, i);
    }
  }

  /** Every record one source document contributes: none unless its tag list is an array. */
  function DocRecords(v: Variant, doc: Doc): (r: seq<Record>)
    ensures |r| == if TagListOf(v, doc).Tags? then |TagListOf(v, doc).items| else 0
  {
    match TagListOf(v, doc)
    case Tags(items) => TagRecords(doc.id, items, Label(v))
    case _ => []
  }

  /**
   * The `i`-th record of a document: id `<doc id>::i`; `tagname` is the
   * entry's `_id` (users) or `name` (subjects) and `count` its `count`,
   * each present exactly when the entry is an object holding that property.
   */
  lemma DocRecordsAt(v: Variant, doc: Doc, i: nat)
    requires i < |DocRecords(v, doc)|
    ensures TagListOf(v, doc).Tags?
    ensures var item := TagListOf(v, doc).items[i];
      var key := if v.Users? then "_id" else "name";
      && DocRecords(v, doc)[i].id == doc.id + "::" + Decimal(i)
      && DocRecords(v, doc)[i].tagname == (if item.Obj? && key in item.fields then Some(item.fields[key]) else None)
      && DocRecords(v, doc)[i].count == (if item.Obj? && "count" in item.fields then Some(item.fields["count"]) else None)
  {
    TagRecordsAt(doc.id, TagListOf(v, doc).items, Label(v), i);
  }

  /** The `i`-th record of a document carries id `<doc id>::i`. */
  lemma DocRecordIdAt(v: Variant, doc: Doc, i: nat)
    requires i < |DocRecords(v, doc)|
    ensures DocRecords(v, doc)[i].id == MakeId(doc.id, i)
  {
    TagRecordsAt(doc.id, TagListOf(v, doc).items, Label(v), i);
  }

  /** Within one document the ids are pairwise different. */
  lemma DocIdsDistinct(v: Variant, doc: Doc, i: nat, j: nat)
    requires i < j < |DocRecords(v, doc)|
    ensures DocRecords(v, doc)[i].id != DocRecords(v, doc)[j].id
  {
    DocRecordIdAt(v, doc, i);
    DocRecordIdAt(v, doc, j);
    if DocRecords(v, doc)[i].id == DocRecords(v, doc)[j].id {
      MakeIdInjective(doc.id, i, doc.id, j);
    }
  }

  /** The records of a sequence of documents, in delivery order. */
  function AllRecords(v: Variant, docs: seq<Doc>): seq<Record>
  {
    if docs == [] then []
    else AllRecords(v, docs[..|docs| - 1]) + DocRecords(v, docs[|docs| - 1])
  }

  /** The sum of the tag-list lengths of the documents that have a `tags` array. */
  function TagTotal(docs: seq<Doc>): nat
  {
    if docs == [] then 0
    else
      var last := docs[|docs| - 1];
      TagTotal(docs[..|docs| - 1]) + (if SubjectTags(last).Tags? then |SubjectTags(last).items| else 0)
  }

  /** The subject job's `total` counts exactly the records its documents fan out to. */
  lemma {:induction false} TagTotalCountsRecords(docs: seq<Doc>)
    ensures |AllRecords(Subjects, docs)| == TagTotal(docs)
  {
    if docs != [] {
      TagTotalCountsRecords(docs[..|docs| - 1]);
    }
  }

  /** One more document adds its own records at the end. */
  lemma AllRecordsSnoc(v: Variant, docs: seq<Doc>, doc: Doc)
    ensures AllRecords(v, docs + [doc]) == AllRecords(v, docs) + DocRecords(v, doc)
    ensures TagTotal(docs + [doc]) == TagTotal(docs) + (if SubjectTags(doc).Tags? then |SubjectTags(doc).items| else 0)
  {
    assert (docs + [doc])[..|docs|] == docs;
  }

  predicate DistinctDocIds(docs: seq<Doc>)
  {
    forall i, j :: 0 <= i < j < |docs| ==> docs[i].id != docs[j].id
  }

  predicate DistinctIds(rs: seq<Record>)
  {
    forall i, j :: 0 <= i < j < |rs| ==> rs[i].id != rs[j].id
  }

  /** Every record of a run carries the id of one of the run's documents. */
  lemma {:induction false} RecordsOwned(v: Variant, docs: seq<Doc>, k: nat)
    requires k < |AllRecords(v, docs)|
    ensures exists i: nat, j: nat :: i < |docs| && AllRecords(v, docs)[k].id == MakeId(docs[i].id, j)
  {
    var n := |docs| - 1;
    var prefix := AllRecords(v, docs[..n]);
    if k < |prefix| {
      RecordsOwned(v, docs[..n], k);
      var i: nat, j: nat :| i < n && prefix[k].id == MakeId(docs[..n][i].id, j);
      assert AllRecords(v, docs)[k].id == MakeId(docs[i].id, j);
    } else {
      DocRecordIdAt(v, docs[n], k - |prefix|);
      assert AllRecords(v, docs)[k].id == MakeId(docs[n].id, k - |prefix|);
    }
  }

  /** A record of the earlier documents and one of the last document carry different ids. */
  lemma OwnersDiffer(v: Variant, docs: seq<Doc>, a: nat, b: nat)
    requires DistinctDocIds(docs) && docs != []
    requires a < |AllRecords(v, docs[..|docs| - 1])| && b < |DocRecords(v, docs[|docs| - 1])|
    ensures AllRecords(v, docs[..|docs| - 1])[a].id != DocRecords(v, docs[|docs| - 1])[b].id
  {
    var n := |docs| - 1;
    RecordsOwned(v, docs[..n], a);
    var i: nat, j: nat :| i < n && AllRecords(v, docs[..n])[a].id == MakeId(docs[..n][i].id, j);
    DocRecordIdAt(v, docs[n], b);
    if AllRecords(v, docs[..n])[a].id == DocRecords(v, docs[n])[b].id {
      MakeIdInjective(docs[i].id, j, docs[n].id, b);
    }
  }

  /** Documents with different ids fan out to records with pairwise different ids. */
  lemma {:induction false} AllRecordsDistinct(v: Variant, docs: seq<Doc>)
    requires DistinctDocIds(docs)
    ensures DistinctIds(AllRecords(v, docs))
  {
    if docs != [] {
      var n := |docs| - 1;
      var prefix := AllRecords(v, docs[..n]);
      var last := DocRecords(v, docs[n]);
      var all := AllRecords(v, docs);
      assert all == prefix + last;
      AllRecordsDistinct(v, docs[..n]);
      forall a, b | 0 <= a < b < |all|
        ensures all[a].id != all[b].id
      {
        if b < |prefix| {
          assert all[a] == prefix[a] && all[b] == prefix[b];
        } else if |prefix| <= a {
          assert all[a] == last[a - |prefix|] && all[b] == last[b - |prefix|];
          DocIdsDistinct(v, docs[n], a - |prefix|, b - |prefix|);
        } else {
          assert all[a] == prefix[a] && all[b] == last[b - |prefix|];
          OwnersDiffer(v, docs, a, b - |prefix|);
        }
      }
    }
  }
}
