/**
 * Two concrete runs: one user document with two top tags, and one subject
 * document with one tag, each from its job's arguments to the records the
 * job stores; and the pause for an overfull batch that nothing undoes.
 */
module Scenarios {
  import opened Wrappers
  import opened Json
  import opened FanOut
  import opened Sink
  import opened Params
  import opened Pipeline

  /** A tag entry of a user's `top_tags`: `{_id: name, count: n}`. */
  function UserTag(name: string, n: int): Json
  {
    Obj(map["_id" := Str(name), "count" := Num(n)])
  }

  /** A tag entry of a subject's `tags`: `{name: name, count: n}`. */
  function SubjectTag(name: string, n: int): Json
  {
    Obj(map["name" := Str(name), "count" := Num(n)])
  }

  /** `{_id: "u1", book_stats: {all: {top_tags: [{_id: "scifi", count: 5}, {_id: "drama", count: 2}]}}}` */
  function UserU1(): Doc
  {
    Doc("u1", map["book_stats" := Obj(map["all" := Obj(map["top_tags" := Arr([UserTag("scifi", 5), UserTag("drama", 2)])])])])
  }

  /** `{_id: "s1", tags: [{name: "fiction", count: 30}]}` */
  function SubjectS1(): Doc
  {
    Doc("s1", map["tags" := Arr([SubjectTag("fiction", 30)])])
  }

  lemma BookStats()
    ensures "book" + "_stats" == "book_stats"
  {
  }

  /** The user job for `book`/`all` reads `book_stats.all` and writes to `top_book_all_user_by_tag`. */
  lemma UserScenarioPlan()
    ensures UsersByTag(Some("book"), Some("all")).Success?
    ensures UsersByTag(Some("book"), Some("all")).value.outColl == "top_book_all_user_by_tag"
    ensures UsersByTag(Some("book"), Some("all")).value.variant == Users("book_stats", "all")
  {
    assert "top_" + "book" + "_" + "all" + "_user_by_tag" == "top_book_all_user_by_tag";
    BookStats();
  }

  /** The user job turns `u1` into `u1::0 scifi 5` and `u1::1 drama 2`, in that order. */
  lemma UserScenario()
    ensures DocRecords(Users("book_stats", "all"), UserU1()) == [
      Record("u1::0", Some(Str("scifi")), Some(Num(5))),
      Record("u1::1", Some(Str("drama")), Some(Num(2)))]
  {
    var items := [UserTag("scifi", 5), UserTag("drama", 2)];
    assert UserTopTags(UserU1(), "book_stats", "all") == Tags(items);
    DocRecordsAt(Users("book_stats", "all"), UserU1(), 0);
    DocRecordsAt(Users("book_stats", "all"), UserU1(), 1);
    assert "u1" + "::" + "0" == "u1::0" && "u1" + "::" + "1" == "u1::1";
  }

  /** The subject job for `book` reads collection `book` and writes to `top_book_by_tag`. */
  lemma SubjectScenarioPlan()
    ensures SubjectsByTag(Some("book")).Success?
    ensures SubjectsByTag(Some("book")).value.outColl == "top_book_by_tag"
    ensures SubjectsByTag(Some("book")).value.sourceColl == "book"
  {
    assert "top_" + "book" + "_by_tag" == "top_book_by_tag";
  }

  /** The subject job turns `s1` into `s1::0 fiction 30`. */
  lemma SubjectScenario()
    ensures DocRecords(Subjects, SubjectS1()) == [Record("s1::0", Some(Str("fiction")), Some(Num(30)))]
  {
    var items := [SubjectTag("fiction", 30)];
    assert SubjectTags(SubjectS1()) == Tags(items);
    DocRecordsAt(Subjects, SubjectS1(), 0);
    assert "s1" + "::" + "0" == "s1::0";
  }

  /** Flushing one record into an empty collection stores exactly that record. */
  lemma FlushOneIntoEmpty(rec: Record)
    ensures Apply(map[], [rec], true) == map[rec.id := rec]
  {
    assert Ids([rec]) == {rec.id};
    assert First([rec], rec.id) == rec;
  }

  /** Flushing two records with different ids into an empty collection stores exactly those two. */
  lemma FlushTwoIntoEmpty(a: Record, b: Record)
    requires a.id != b.id
    ensures Apply(map[], [a, b], true) == map[a.id := a, b.id := b]
  {
    assert Ids([a, b]) == {a.id, b.id} by {
      assert [a, b][..1] == [a];
      assert Ids([a]) == {a.id};
    }
    assert First([a, b], a.id) == a;
    assert First([a, b], b.id) == b;
  }

  /** Flushing the records of `u1` into an empty collection stores `u1::0 scifi 5` and `u1::1 drama 2` alone. */
  lemma UserU1Stored()
    ensures Apply(map[], DocRecords(Users("book_stats", "all"), UserU1()), true)
         == map["u1::0" := Record("u1::0", Some(Str("scifi")), Some(Num(5))),
                "u1::1" := Record("u1::1", Some(Str("drama")), Some(Num(2)))]
  {
    UserScenario();
    FlushTwoIntoEmpty(Record("u1::0", Some(Str("scifi")), Some(Num(5))), Record("u1::1", Some(Str("drama")), Some(Num(2))));
  }

  /** `users_by_tag('book', 'all')` on an empty output collection starts a job. */
  method StartUserScenario() returns (job: Job)
    ensures fresh(job) && fresh(job.out) && job.Valid()
    ensures job.variant == Users("book_stats", "all") && job.out.docs == map[]
    ensures job.batch == [] && job.outcomes == []
  {
    var r := StartUsersByTag(Some("book"), Some("all"), map[]);
    BookStats();
    job := r.value;
  }

  /**
   * The whole user job on an empty output collection: start with
   * `book`/`all`, one `data` event for `u1` with every write accepted, then
   * `end` with a successful remove. `done` is called once without an error
   * and the collection holds exactly the two records.
   */
  method UserRun() returns (stored: map<string, Record>, outcomes: seq<Option<string>>)
    ensures stored == map["u1::0" := Record("u1::0", Some(Str("scifi")), Some(Num(5))),
                          "u1::1" := Record("u1::1", Some(Str("drama")), Some(Num(2)))]
    ensures outcomes == [None]
  {
    var job := StartUserScenario();
    var threw := job.OnUserData(UserU1(), (i: nat) => true);
    assert job.batch == DocRecords(Users("book_stats", "all"), UserU1());
    UserU1Stored();
    job.OnEnd(true);
    stored, outcomes := job.out.docs, job.outcomes;
  }

  /** Flushing the records of `s1` into an empty collection stores `s1::0 fiction 30` alone. */
  lemma SubjectS1Stored()
    ensures |DocRecords(Subjects, SubjectS1())| == 1
    ensures Apply(map[], DocRecords(Subjects, SubjectS1()), true)
         == map["s1::0" := Record("s1::0", Some(Str("fiction")), Some(Num(30)))]
  {
    SubjectScenario();
    FlushOneIntoEmpty(Record("s1::0", Some(Str("fiction")), Some(Num(30))));
  }

  /** `subjects_by_tag('book')` on an empty output collection starts a job. */
  method StartSubjectScenario() returns (job: Job)
    ensures fresh(job) && fresh(job.out) && job.Valid()
    ensures job.variant == Subjects && job.out.docs == map[]
    ensures job.batch == [] && job.total == 0 && job.outcomes == []
  {
    var r := StartSubjectsByTag(Some("book"), map[]);
    job := r.value;
  }

  /**
   * The whole subject job on an empty output collection: start, one `data`
   * event for `s1` with every write accepted, then `end` with a successful
   * remove. `done` is called once without an error, `total` is 1 and the
   * collection holds exactly the one record.
   */
  method SubjectRun() returns (stored: map<string, Record>, outcomes: seq<Option<string>>, total: nat)
    ensures stored == map["s1::0" := Record("s1::0", Some(Str("fiction")), Some(Num(30)))]
    ensures outcomes == [None]
    ensures total == 1
  {
    var job := StartSubjectScenario();
    var threw := job.OnSubjectData(SubjectS1(), (i: nat) => true);
    assert job.batch == DocRecords(Subjects, SubjectS1());
    SubjectS1Stored();
    job.OnEnd(true);
    stored, outcomes, total := job.out.docs, job.outcomes, job.total;
  }

  /**
   * A user job whose pending batch is over the limit while no `highWater`
   * listener waits: the 10000-record check pauses the cursor, and the
   * batcher's `drain` does not resume it (a flush leaves `paused` and the
   * listeners alone, as `Job.FlushBatch`'s frame says).
   */
  method OverfullPauseSticks(job: Job)
    requires job.variant.Users? && |job.batch| > MaxPending && job.drainListeners == 0 && !job.paused
    modifies job`paused, job`drainListeners
    ensures job.paused && job.drainListeners == 0
  {
    job.PauseIfOverfull();
    job.OnDrain();
  }
}
