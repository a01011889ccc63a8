/**
 * The argument checks and the names `users_by_tag` and `subjects_by_tag`
 * derive before queueing their job: output collection, source collection,
 * query filter and projection.
 */
module Params {
  import opened Wrappers
  import opened Text
  import opened Json
  import opened FanOut

  /** A string argument that passes `!x`: present and not empty. */
  predicate Given(x: Option<string>)
  {
    x.Some? && x.value != ""
  }

  /** One condition of a MongoDB query filter. */
  datatype Cond = Equals(path: string, value: Json) | GreaterThan(path: string, bound: int)

  /** What a job is started with once its arguments are accepted. */
  datatype Plan = Plan(
    variant: Variant,
    outColl: string,
    sourceColl: string,
    filter: seq<Cond>,
    projection: seq<string>)

  /** A user needs more than this many finished items (`<ns>_stats.n_done`) to be read. */
  const MinDone := 20
  /** A subject needs more than this many raters to be read. */
  const MinRaters := 10

  /** The two names `users_by_tag` joins, written out. */
  lemma UsersNames(ns: string, status: string)
    ensures Join(["top", ns, status, "user_by_tag"], "_") == "top_" + ns + "_" + status + "_user_by_tag"
    ensures Join([ns + "_stats", status, "top_tags"], ".") == ns + "_stats." + status + ".top_tags"
  {
    Join4("top", ns, status, "user_by_tag", "_");
    Join3(ns + "_stats", status, "top_tags", ".");
    assert "top" + "_" + ns + "_" + status + "_" + "user_by_tag" == "top_" + ns + "_" + status + "_user_by_tag";
    assert ns + "_stats" + "." + status + "." + "top_tags" == ns + "_stats." + status + ".top_tags";
  }

  /** `users_by_tag(ns, status)` up to `mongo.queue`. */
  function UsersByTag(ns: Option<string>, status: Option<string>): (r: Result<Plan, string>)
    ensures r.Failure? <==> !Given(ns) || !Given(status)
    ensures r.Failure? ==> r.error == "Namespace and status needed"
    ensures r.Success? ==>
      && r.value.outColl == "top_" + ns.value + "_" + status.value + "_user_by_tag"
      && r.value.variant == Users(ns.value + "_stats", status.value)
      && r.value.projection == [ns.value + "_stats." + status.value + ".top_tags"]
      && r.value.sourceColl == "user"
      && r.value.filter == [Equals("last_synced_status", Str("succeed")), GreaterThan(ns.value + "_stats.n_done", 20)]
  {
    if !Given(ns) || !Given(status) then Failure("Namespace and status needed")
    else
      var statsStatus := if Given(status) then status.value else "all";
      var nsStats := ns.value + "_stats";
      UsersNames(ns.value, status.value);
      Success(Plan(
        Users(nsStats, statsStatus),
        Join(["top", ns.value, status.value, "user_by_tag"], "_"),
        "user",
        [Equals("last_synced_status", Str("succeed")), GreaterThan(ns.value + "_stats.n_done", MinDone)],
        [Join([nsStats, statsStatus, "top_tags"], ".")]))
  }

  /** `subjects_by_tag(ns)` up to `mongo.queue`. */
  function SubjectsByTag(ns: Option<string>): (r: Result<Plan, string>)
    ensures r.Failure? <==> !Given(ns)
    ensures r.Failure? ==> r.error == "Namespace needed"
    ensures r.Success? ==>
      && r.value.outColl == "top_" + ns.value + "_by_tag"
      && r.value.variant == Subjects
      && r.value.sourceColl == ns.value
      && r.value.filter == [GreaterThan("raters", 10)]
      && r.value.projection == ["tags"]
  {
    if !Given(ns) then Failure("Namespace needed")
    else
      Join3("top", ns.value, "by_tag", "_");
      Success(Plan(Subjects, Join(["top", ns.value, "by_tag"], "_"), ns.value, [GreaterThan("raters", MinRaters)], ["tags"]))
  }

  /** Equal strings with a common prefix and suffix have equal middles. */
  lemma StripAffixes(pre: string, x: string, y: string, post: string)
    requires pre + x + post == pre + y + post
    ensures x == y
  {
    var s := pre + x + post;
    assert x == s[|pre|..|s| - |post|];
    assert y == (pre + y + post)[|pre|..|s| - |post|];
  }

  /**
   * Two accepted user jobs write to the same collection only if they have
   * the same arguments, provided statuses contain no underscore.
   */
  lemma UsersOutCollUnique(ns1: string, st1: string, ns2: string, st2: string)
    requires ns1 != "" && st1 != "" && ns2 != "" && st2 != ""
    requires '_' !in st1 && '_' !in st2
    requires UsersByTag(Some(ns1), Some(st1)).value.outColl == UsersByTag(Some(ns2), Some(st2)).value.outColl
    ensures ns1 == ns2 && st1 == st2
  {
    var x1, x2 := ns1 + ['_'] + st1, ns2 + ['_'] + st2;
    assert "top_" + ns1 + "_" + st1 + "_user_by_tag" == "top_" + x1 + "_user_by_tag";
    assert "top_" + ns2 + "_" + st2 + "_user_by_tag" == "top_" + x2 + "_user_by_tag";
    StripAffixes("top_", x1, x2, "_user_by_tag");
    SplitAtLast(ns1, st1, ns2, st2, '_');
  }

  /** Without that proviso, different arguments can share an output collection. */
  lemma UsersOutCollCollision()
    ensures UsersByTag(Some("a_b"), Some("c")).value.outColl == UsersByTag(Some("a"), Some("b_c")).value.outColl
  {
  }
}
