/**
 * The periodic stale-run sweep: for every query that is not deleted, each
 * participant's run pointer is classified against the query's doclist
 * modification time and the age threshold, and one notification is emitted
 * per stale pointer. The sweep reads the store and never writes it.
 */
module Cleanup {
  import opened Wrappers
  import opened Store

  const SecondsPerDay: int := 86400

  /** Why a participant is told that a run is old. */
  datatype Reason = OlderThanDoclist | OlderThanThreshold

  /** A notification to a participant about one of its runs. */
  datatype Notice = Notice(userid: string, runid: string, reason: Reason)

  /** The notifications sent, and the exception that ended the sweep early, if any. */
  datatype SweepResult = SweepResult(sent: seq<Notice>, failure: Option<Error>)

  /**
   * The per-binding decision. A bare id cannot be checked. A pointer older
   * than the doclist is reported for that reason alone; otherwise it is
   * reported when it is older than the age threshold.
   */
  function Classify(p: RunPointer, doclistTime: Option<int>, threshold: int): (r: Option<Reason>)
    ensures r == Some(OlderThanDoclist) <==> p.Paired? && doclistTime.Some? && p.time < doclistTime.value
    ensures r == Some(OlderThanThreshold) <==>
      p.Paired? && !(doclistTime.Some? && p.time < doclistTime.value) && p.time < threshold
    ensures r.None? <==> p.Bare? || (p.time >= threshold && (doclistTime.Some? ==> p.time >= doclistTime.value))
  {
    match p
    case Bare(_) => None
    case Paired(_, t) =>
      if doclistTime.Some? && t < doclistTime.value then Some(OlderThanDoclist)
      else if t < threshold then Some(OlderThanThreshold)
      else None
  }

  /** The notice, if any, that one binding produces. */
  function NoticeFor(b: Binding, doclistTime: Option<int>, threshold: int): seq<Notice>
  {
    match Classify(b.pointer, doclistTime, threshold)
    case None => []
    case Some(reason) => [Notice(b.userid, b.pointer.runid, reason)]
  }

  /** The notices for a query's bindings, in the order of its `runs` map. */
  function BindingNotices(bs: seq<Binding>, doclistTime: Option<int>, threshold: int): seq<Notice>
    decreases |bs|
  {
    if bs == [] then []
    else BindingNotices(bs[..|bs| - 1], doclistTime, threshold) + NoticeFor(bs[|bs| - 1], doclistTime, threshold)
  }

  /**
   * What the sweep's loop iterates over: a query document, or (as written
   * in the source) the list of all queries.
   */
  datatype Item = QueryDoc(query: Query) | QueryList(queries: seq<Query>)

  /** `item["runs"]`: a missing key raises KeyError; a list cannot be subscripted by a string. */
  function ItemRuns(item: Item): Result<seq<Binding>, Error>
  {
    match item
    case QueryList(_) => Err(NotSubscriptable("runs"))
    case QueryDoc(q) => if q.runs.Some? then Ok(q.runs.value) else Err(KeyMissing("runs"))
  }

  function ItemDoclistTime(item: Item): Option<int>
  {
    if item.QueryDoc? then item.query.doclistModifiedTime else None
  }

  /** The sweep over a sequence of items; an exception ends it, keeping what was sent. */
  function SweepItems(items: seq<Item>, threshold: int): SweepResult
    decreases |items|
  {
    if items == [] then SweepResult([], None)
    else
      var prev := SweepItems(items[..|items| - 1], threshold);
      var item := items[|items| - 1];
      if prev.failure.Some? then prev
      else match ItemRuns(item)
        case Err(e) => SweepResult(prev.sent, Some(e))
        case Ok(bs) => SweepResult(prev.sent + BindingNotices(bs, ItemDoclistTime(item), threshold), None)
  }

  /** One item per query: the intended iteration. */
  function QueryDocs(qs: seq<Query>): (r: seq<Item>)
    ensures |r| == |qs| && forall i :: 0 <= i < |qs| ==> r[i] == QueryDoc(qs[i])
  {
    seq(|qs|, i requires 0 <= i < |qs| => QueryDoc(qs[i]))
  }

  /** `db.query.find({"deleted": {"$ne": True}})`, in store order. */
  function LiveQueries(queries: seq<Query>): (r: seq<Query>)
    ensures forall q :: q in r <==> q in queries && !q.deleted
  {
    if queries == [] then []
    else if queries[0].deleted then LiveQueries(queries[1..])
    else [queries[0]] + LiveQueries(queries[1..])
  }

  /** The sweep as the source writes it: the loop runs over `[queries]`. */
  function SweepAsWritten(queries: seq<Query>, threshold: int): SweepResult
  {
    SweepItems([QueryList(queries)], threshold)
  }

  /** Once the sweep has raised, later items change nothing. */
  lemma {:induction false} FailureSticks(items: seq<Item>, n: nat, threshold: int)
    requires n <= |items|
    requires SweepItems(items[..n], threshold).failure.Some?
    ensures SweepItems(items, threshold) == SweepItems(items[..n], threshold)
    decreases |items| - n
  {
    if n < |items| {
      assert items[..|items| - 1][..n] == items[..n];
      FailureSticks(items[..|items| - 1], n, threshold);
    } else {
      assert items[..n] == items;
    }
  }

  /**
   * `db_cleanup` (with the intended per-query iteration): the sweep over the
   * non-deleted queries against the threshold `now - thresholdDays` days.
   * It has no `modifies` clause: the store is not written.
   */
  method Sweep(db: Db, now: int, thresholdDays: int) returns (r: SweepResult)
    ensures r == SweepItems(QueryDocs(LiveQueries(db.query)), now - thresholdDays * SecondsPerDay)
  {
    var threshold := now - thresholdDays * SecondsPerDay;
    var live := LiveQueries(db.query);
    ghost var items := QueryDocs(live);
    var sent: seq<Notice> := [];
    var i := 0;
    while i < |live|
      invariant 0 <= i <= |live|
      invariant SweepItems(items[..i], threshold) == SweepResult(sent, None)
    {
      var query := live[i];
      assert items[..i + 1][..i] == items[..i] && items[..i + 1][i] == QueryDoc(query);
      if query.runs.None? {
        r := SweepResult(sent, Some(KeyMissing("runs")));
        FailureSticks(items, i + 1, threshold);
        return;
      }
      var bindings := query.runs.value;
      ghost var before := sent;
      var j := 0;
      while j < |bindings|
        invariant 0 <= j <= |bindings|
        invariant sent == before + BindingNotices(bindings[..j], query.doclistModifiedTime, threshold)
      {
        var b := bindings[j];
        assert bindings[..j + 1][..j] == bindings[..j];
        var decision := Classify(b.pointer, query.doclistModifiedTime, threshold);
        if decision.Some? {
          sent := sent + [Notice(b.userid, b.pointer.runid, decision.value)];
        }
        j := j + 1;
      }
      assert bindings[..j] == bindings;
      i := i + 1;
    }
    assert items[..i] == items;
    r := SweepResult(sent, None);
  }

  // ------------------------------------------------------------ properties

  /** Every notice comes from a checkable binding and carries that binding's classification. */
  lemma {:induction false} NoticeOrigin(bs: seq<Binding>, d: Option<int>, a: int, n: Notice)
    requires n in BindingNotices(bs, d, a)
    ensures exists i :: (0 <= i < |bs| && bs[i].userid == n.userid && bs[i].pointer.Paired?
      && bs[i].pointer.runid == n.runid && Classify(bs[i].pointer, d, a) == Some(n.reason))
  {
    var m := |bs| - 1;
    if n in BindingNotices(bs[..m], d, a) {
      NoticeOrigin(bs[..m], d, a, n);
      var i :| 0 <= i < m && bs[..m][i].userid == n.userid && bs[..m][i].pointer.Paired?
        && bs[..m][i].pointer.runid == n.runid && Classify(bs[..m][i].pointer, d, a) == Some(n.reason);
      assert bs[..m][i] == bs[i];
    } else {
      assert n in NoticeFor(bs[m], d, a);
    }
  }

  /** Every stale binding is notified. */
  lemma {:induction false} StaleBindingNotified(bs: seq<Binding>, d: Option<int>, a: int, i: int)
    requires 0 <= i < |bs| && Classify(bs[i].pointer, d, a).Some?
    ensures Notice(bs[i].userid, bs[i].pointer.runid, Classify(bs[i].pointer, d, a).value) in BindingNotices(bs, d, a)
  {
    var m := |bs| - 1;
    if i < m {
      StaleBindingNotified(bs[..m], d, a, i);
      assert bs[..m][i] == bs[i];
    }
  }

  /** The positions of the stale bindings. */
  function StaleIndices(bs: seq<Binding>, d: Option<int>, a: int): set<int>
  {
    set i | 0 <= i < |bs| && Classify(bs[i].pointer, d, a).Some?
  }

  lemma StaleIndicesSplit(bs: seq<Binding>, d: Option<int>, a: int)
    requires bs != []
    ensures var m := |bs| - 1;
      StaleIndices(bs, d, a) == StaleIndices(bs[..m], d, a) + (if Classify(bs[m].pointer, d, a).Some? then {m} else {})
  {
    var m := |bs| - 1;
    assert forall i :: 0 <= i < m ==> bs[..m][i] == bs[i];
  }

  /**
   * Each binding yields at most one notice; fresh and bare bindings yield
   * none: there are exactly as many notices as stale bindings.
   */
  lemma {:induction false} AtMostOneNoticePerBinding(bs: seq<Binding>, d: Option<int>, a: int)
    ensures |BindingNotices(bs, d, a)| == |StaleIndices(bs, d, a)|
    ensures |BindingNotices(bs, d, a)| <= |bs|
    ensures (forall i :: 0 <= i < |bs| ==> Classify(bs[i].pointer, d, a).None?) ==> BindingNotices(bs, d, a) == []
  {
    if bs == [] {
      assert StaleIndices(bs, d, a) == {};
    } else {
      var m := |bs| - 1;
      AtMostOneNoticePerBinding(bs[..m], d, a);
      assert forall i :: 0 <= i < m ==> bs[..m][i] == bs[i];
      StaleIndicesSplit(bs, d, a);
      assert m !in StaleIndices(bs[..m], d, a);
    }
  }

  /** The sweep raises exactly when a non-deleted query has no `runs` field. */
  lemma {:induction false} SweepFailsOnMissingRuns(qs: seq<Query>, a: int)
    ensures SweepItems(QueryDocs(qs), a).failure.Some? <==> exists i :: 0 <= i < |qs| && qs[i].runs.None?
    ensures SweepItems(QueryDocs(qs), a).failure.Some? ==> SweepItems(QueryDocs(qs), a).failure == Some(KeyMissing("runs"))
  {
    if qs != [] {
      var m := |qs| - 1;
      assert QueryDocs(qs)[..m] == QueryDocs(qs[..m]);
      SweepFailsOnMissingRuns(qs[..m], a);
      assert forall i :: 0 <= i < m ==> qs[..m][i] == qs[i];
    }
  }

  /** What a sweep has sent over a prefix of the items stays sent over all of them. */
  lemma {:induction false} SentPrefix(items: seq<Item>, n: nat, a: int)
    requires n <= |items|
    ensures SweepItems(items[..n], a).sent <= SweepItems(items, a).sent
    decreases |items| - n
  {
    if n < |items| {
      var m := |items| - 1;
      SentPrefix(items[..m], n, a);
      assert items[..m][..n] == items[..n];
    } else {
      assert items[..n] == items;
    }
  }

  /**
   * Every notice of the sweep comes from a stale binding of one of the swept
   * queries, and every query up to that one has a `runs` field.
   */
  lemma {:induction false} SweepNoticeOrigin(qs: seq<Query>, a: int, n: Notice)
    requires n in SweepItems(QueryDocs(qs), a).sent
    ensures exists i :: (0 <= i < |qs| && qs[i].runs.Some?
      && n in BindingNotices(qs[i].runs.value, qs[i].doclistModifiedTime, a)
      && forall k :: 0 <= k <= i ==> qs[k].runs.Some?)
  {
    var m := |qs| - 1;
    assert QueryDocs(qs)[..m] == QueryDocs(qs[..m]);
    var prev := SweepItems(QueryDocs(qs[..m]), a);
    if n in prev.sent {
      SweepNoticeOrigin(qs[..m], a, n);
      var i :| 0 <= i < m && qs[..m][i].runs.Some?
        && n in BindingNotices(qs[..m][i].runs.value, qs[..m][i].doclistModifiedTime, a)
        && forall k :: 0 <= k <= i ==> qs[..m][k].runs.Some?;
      assert forall k :: 0 <= k <= i ==> qs[..m][k] == qs[k];
    } else {
      assert QueryDocs(qs)[m] == QueryDoc(qs[m]);
      SweepFailsOnMissingRuns(qs[..m], a);
      assert forall k :: 0 <= k < m ==> qs[..m][k] == qs[k];
    }
  }

  /** Every notice `db_cleanup` sends is for a stale binding of a query of the store that is not deleted. */
  lemma SweepSkipsDeleted(queries: seq<Query>, a: int, n: Notice)
    requires n in SweepItems(QueryDocs(LiveQueries(queries)), a).sent
    ensures exists q :: (q in queries && !q.deleted && q.runs.Some?
      && n in BindingNotices(q.runs.value, q.doclistModifiedTime, a))
  {
    var live := LiveQueries(queries);
    SweepNoticeOrigin(live, a, n);
    var i :| 0 <= i < |live| && live[i].runs.Some?
      && n in BindingNotices(live[i].runs.value, live[i].doclistModifiedTime, a)
      && forall k :: 0 <= k <= i ==> live[k].runs.Some?;
    assert live[i] in live;
  }

  /**
   * A stale binding of a query is notified whenever no query up to that one
   * lacks a `runs` field; in particular, a sweep that does not raise
   * notifies every stale binding of every swept query.
   */
  lemma {:induction false} SweepNotifiesStale(qs: seq<Query>, a: int, i: int, j: int)
    requires 0 <= i < |qs| && forall k :: 0 <= k <= i ==> qs[k].runs.Some?
    requires 0 <= j < |qs[i].runs.value|
    requires Classify(qs[i].runs.value[j].pointer, qs[i].doclistModifiedTime, a).Some?
    ensures var b := qs[i].runs.value[j];
      Notice(b.userid, b.pointer.runid, Classify(b.pointer, qs[i].doclistModifiedTime, a).value)
        in SweepItems(QueryDocs(qs), a).sent
  {
    var b := qs[i].runs.value[j];
    var n := Notice(b.userid, b.pointer.runid, Classify(b.pointer, qs[i].doclistModifiedTime, a).value);
    var items := QueryDocs(qs);
    assert items[..i + 1][..i] == items[..i] == QueryDocs(qs[..i]);
    assert items[..i + 1][i] == QueryDoc(qs[i]);
    SweepFailsOnMissingRuns(qs[..i], a);
    assert forall k :: 0 <= k < i ==> qs[..i][k] == qs[k];
    StaleBindingNotified(qs[i].runs.value, qs[i].doclistModifiedTime, a, j);
    assert n in SweepItems(items[..i + 1], a).sent;
    SentPrefix(items, i + 1, a);
  }

  /**
   * Nothing records that a notice was sent: a later sweep over the same
   * store repeats every notice of an earlier one.
   */
  lemma LaterSweepRepeatsNotices(qs: seq<Query>, a: int, a': int, n: Notice)
    requires a <= a'
    requires n in SweepItems(QueryDocs(qs), a).sent
    ensures n in SweepItems(QueryDocs(qs), a').sent
  {
    SweepNoticeOrigin(qs, a, n);
    var i :| 0 <= i < |qs| && qs[i].runs.Some? && n in BindingNotices(qs[i].runs.value, qs[i].doclistModifiedTime, a)
      && forall k :: 0 <= k <= i ==> qs[k].runs.Some?;
    var bs := qs[i].runs.value;
    var d := qs[i].doclistModifiedTime;
    NoticeOrigin(bs, d, a, n);
    var j :| 0 <= j < |bs| && bs[j].userid == n.userid && bs[j].pointer.Paired?
      && bs[j].pointer.runid == n.runid && Classify(bs[j].pointer, d, a) == Some(n.reason);
    assert Classify(bs[j].pointer, d, a') == Some(n.reason);
    SweepNotifiesStale(qs, a', i, j);
  }

  // ------------------------------------------- the iteration over [queries]

  /** As written, the sweep raises before it sends anything, whatever the store holds. */
  lemma AsWrittenSendsNothing(queries: seq<Query>, a: int)
    ensures SweepAsWritten(queries, a) == SweepResult([], Some(NotSubscriptable("runs")))
  {
    var items := [QueryList(queries)];
    assert items[..0] == [];
    assert SweepItems(items[..0], a) == SweepResult([], None);
    assert ItemRuns(items[0]) == Err(NotSubscriptable("runs"));
  }

  /** A store with one run older than its doclist: the intended sweep reports it, the written one does not. */
  lemma AsWrittenMissesStaleRun()
    ensures var q := Query("q1", "s1", "sq1", None, false, Some(100), Some([Binding("u1", Paired("r1", 50))]));
      && SweepItems(QueryDocs([q]), 0).sent == [Notice("u1", "r1", OlderThanDoclist)]
      && SweepAsWritten([q], 0).sent == []
  {
    var q := Query("q1", "s1", "sq1", None, false, Some(100), Some([Binding("u1", Paired("r1", 50))]));
    var bs := [Binding("u1", Paired("r1", 50))];
    assert bs[..0] == [];
    assert BindingNotices(bs, Some(100), 0) == [Notice("u1", "r1", OlderThanDoclist)];
    assert QueryDocs([q])[..0] == [];
    AsWrittenSendsNothing([q], 0);
  }
}
