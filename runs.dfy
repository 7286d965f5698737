/**
 * Run submission and ranking selection: choosing the run to serve for a
 * query (a random participant's latest run), recording the feedback session
 * for it, and submitting a new run.
 */
module Runs {
  import opened Wrappers
  import opened Store

  /** The run handed out for a ranking request, tagged with its session id. */
  datatype Ranking = Ranking(run: Run, sid: string)

  /** The participants that own at least one run for the query. */
  function Owners(runs: seq<Run>, qid: string): set<string>
  {
    set i | 0 <= i < |runs| && runs[i].qid == qid :: runs[i].userid
  }

  /** `runs[i]` is one of `user`'s runs for query `qid`. */
  predicate RunOf(runs: seq<Run>, qid: string, user: string, i: int)
  {
    0 <= i < |runs| && runs[i].qid == qid && runs[i].userid == user
  }

  /**
   * `runs[k]` is `user`'s run for `qid` with the greatest creation time, and
   * the first such run in store order.
   */
  predicate IsLatest(runs: seq<Run>, qid: string, user: string, k: int)
  {
    RunOf(runs, qid, user, k)
    && (forall j :: 0 <= j < |runs| && RunOf(runs, qid, user, j) ==> runs[j].creationTime <= runs[k].creationTime)
    && (forall j :: 0 <= j < k && RunOf(runs, qid, user, j) ==> runs[j].creationTime < runs[k].creationTime)
  }

  /** Every owner has exactly one latest run: the selection is well defined. */
  lemma {:induction false} LatestExists(runs: seq<Run>, qid: string, user: string)
    requires user in Owners(runs, qid)
    ensures exists k :: IsLatest(runs, qid, user, k)
  {
    var n := |runs| - 1;
    var init := runs[..n];
    if user in Owners(init, qid) {
      LatestExists(init, qid, user);
      var k :| IsLatest(init, qid, user, k);
      assert RunOf(runs, qid, user, k);
      if RunOf(runs, qid, user, n) && runs[n].creationTime > runs[k].creationTime {
        assert IsLatest(runs, qid, user, n) by {
          forall j | RunOf(runs, qid, user, j)
            ensures runs[j].creationTime <= runs[n].creationTime
          {
            if j < n { assert RunOf(init, qid, user, j); }
          }
          forall j | 0 <= j < n && RunOf(runs, qid, user, j)
            ensures runs[j].creationTime < runs[n].creationTime
          {
            assert RunOf(init, qid, user, j);
          }
        }
      } else {
        assert IsLatest(runs, qid, user, k) by {
          forall j | RunOf(runs, qid, user, j)
            ensures runs[j].creationTime <= runs[k].creationTime
          {
            if j < n { assert RunOf(init, qid, user, j); }
          }
          forall j | 0 <= j < k && RunOf(runs, qid, user, j)
            ensures runs[j].creationTime < runs[k].creationTime
          {
            assert RunOf(init, qid, user, j);
          }
        }
      }
    } else {
      assert forall j :: RunOf(runs, qid, user, j) ==> j == n;
      var i :| 0 <= i < |runs| && runs[i].qid == qid && runs[i].userid == user;
      assert RunOf(runs, qid, user, i);
      assert IsLatest(runs, qid, user, n);
    }
  }

  /** At most one run is the latest: two candidates are the same run. */
  lemma LatestUnique(runs: seq<Run>, qid: string, user: string, k1: int, k2: int)
    requires IsLatest(runs, qid, user, k1) && IsLatest(runs, qid, user, k2)
    ensures k1 == k2
  {
  }

  /** The participants loop: the set of userids of the query's runs. */
  method Participants(runs: seq<Run>, qid: string) returns (ps: set<string>)
    ensures ps == Owners(runs, qid)
  {
    ps := {};
    for i := 0 to |runs|
      invariant ps == Owners(runs[..i], qid)
    {
      assert runs[..i + 1][..i] == runs[..i];
      if runs[i].qid == qid {
        ps := ps + {runs[i].userid};
      }
      assert Owners(runs[..i + 1], qid) == Owners(runs[..i], qid) + (if runs[i].qid == qid then {runs[i].userid} else {}) by {
        var pre := runs[..i + 1];
        forall u | u in Owners(pre, qid)
          ensures u in Owners(runs[..i], qid) || (runs[i].qid == qid && u == runs[i].userid)
        {
          var j :| 0 <= j < |pre| && pre[j].qid == qid && pre[j].userid == u;
          if j < i { assert runs[..i][j] == pre[j]; }
        }
        forall u | u in Owners(runs[..i], qid)
          ensures u in Owners(pre, qid)
        {
          var j :| 0 <= j < i && runs[..i][j].qid == qid && runs[..i][j].userid == u;
          assert pre[j] == runs[..i][j];
        }
        if runs[i].qid == qid { assert pre[i] == runs[i]; }
      }
    }
    assert runs[..|runs|] == runs;
  }

  /**
   * The selection loop: the run with the greatest creation time among
   * `user`'s runs for `qid`; a later run with an equal time does not replace
   * an earlier one.
   */
  method LatestRun(runs: seq<Run>, qid: string, user: string) returns (k: Option<nat>)
    ensures k.Some? ==> IsLatest(runs, qid, user, k.value)
    ensures k.None? <==> user !in Owners(runs, qid)
  {
    var last: Option<int> := None;
    k := None;
    for i := 0 to |runs|
      invariant last.Some? <==> k.Some?
      invariant k.Some? ==> k.value < i && RunOf(runs, qid, user, k.value)
      invariant k.Some? ==> last.value == runs[k.value].creationTime
      invariant k.Some? ==> forall j :: 0 <= j < i && RunOf(runs, qid, user, j) ==> runs[j].creationTime <= last.value
      invariant k.Some? ==> forall j :: 0 <= j < k.value && RunOf(runs, qid, user, j) ==> runs[j].creationTime < last.value
      invariant k.None? ==> forall j :: 0 <= j < i ==> !RunOf(runs, qid, user, j)
    {
      if runs[i].qid == qid && runs[i].userid == user {
        if last.None? || runs[i].creationTime > last.value {
          last := Some(runs[i].creationTime);
          k := Some(i);
        }
      }
    }
    if k.None? {
      if user in Owners(runs, qid) {
        var j :| 0 <= j < |runs| && runs[j].qid == qid && runs[j].userid == user;
        assert RunOf(runs, qid, user, j);
      }
    }
  }

  /**
   * `get_run`: fails when the query has no run; otherwise picks any
   * participant owning a run for it (the random choice) and returns that
   * participant's latest run.
   */
  method GetRun(runs: seq<Run>, qid: string) returns (r: Result<Run, Error>)
    ensures r.Err? <==> Owners(runs, qid) == {}
    ensures r.Err? ==> r.error == NoRunsForQuery(qid)
    ensures r.Ok? ==> r.value.qid == qid && r.value.userid in Owners(runs, qid)
    ensures r.Ok? ==> exists k :: IsLatest(runs, qid, r.value.userid, k) && runs[k] == r.value
  {
    var ps := Participants(runs, qid);
    if ps == {} {
      return Err(NoRunsForQuery(qid));
    }
    var participant :| participant in ps;
    var k := LatestRun(runs, qid, participant);
    r := Ok(runs[k.value]);
  }

  /** The feedback session record written for a served ranking. */
  function SessionRecord(sid: string, siteQid: string, siteId: string, qid: string, run: Run, now: int): Record
  {
    map["_id" := Str(sid), "site_qid" := Str(siteQid), "site_id" := Str(siteId), "qid" := Str(qid),
        "runid" := Str(run.runid), "userid" := Str(run.userid), "creation_time" := Time(now)]
  }

  /**
   * `get_ranking`: looks the query up by its site id, selects a run with
   * `GetRun`, saves exactly one feedback session with id `sid` (the id the
   * site hands out next) and returns the run tagged with `sid`.
   */
  method GetRanking(db: Db, siteId: string, siteQid: string, sid: string, now: int) returns (r: Result<Ranking, Error>)
    requires db.Valid()
    modifies db
    ensures db.Valid()
    ensures db.query == old(db.query) && db.doc == old(db.doc) && db.run == old(db.run)
    ensures db.historical == old(db.historical)
    ensures r.Err? ==> db.feedback == old(db.feedback)
    ensures QueryBySite(db.query, siteId, siteQid).None? ==> r == Err(QueryNotFound(siteQid))
    ensures QueryBySite(db.query, siteId, siteQid).Some? ==>
      var q := db.query[QueryBySite(db.query, siteId, siteQid).value];
      && (r.Err? <==> Owners(db.run, q.id) == {})
      && (r.Err? ==> r.error == NoRunsForQuery(q.id))
      && (r.Ok? ==>
        && r.value.sid == sid
        && r.value.run.qid == q.id
        && (exists k :: IsLatest(db.run, q.id, r.value.run.userid, k) && db.run[k] == r.value.run)
        && db.feedback == Save(old(db.feedback), SessionRecord(sid, siteQid, siteId, q.id, r.value.run, now))
        && SessionRecord(sid, siteQid, siteId, q.id, r.value.run, now) in db.feedback
        && (forall x :: x in db.feedback && "_id" in x && x["_id"] == Str(sid) ==>
              x == SessionRecord(sid, siteQid, siteId, q.id, r.value.run, now)))
  {
    var qi := QueryBySite(db.query, siteId, siteQid);
    if qi.None? {
      return Err(QueryNotFound(siteQid));
    }
    var query := db.query[qi.value];
    var run := GetRun(db.run, query.id);
    if run.Err? {
      return Err(run.error);
    }
    var session := SessionRecord(sid, siteQid, siteId, query.id, run.value, now);
    SaveStoresOnce(db.feedback, session);
    db.feedback := Save(db.feedback, session);
    r := Ok(Ranking(run.value, sid));
  }

  /** A doclist entry whose document exists. */
  predicate Known(docs: seq<Doc>, e: RunEntry)
  {
    DocById(docs, e.docid).Some?
  }

  /** A doclist entry with `site_docid` copied from its document. */
  function Enrich(docs: seq<Doc>, e: RunEntry): (r: RunEntry)
    requires Known(docs, e)
    ensures r.docid == e.docid
    ensures exists i :: 0 <= i < |docs| && docs[i].id == e.docid && r.siteDocid == Some(docs[i].siteDocid)
  {
    var i := DocById(docs, e.docid).value;
    e.(siteDocid := Some(docs[i].siteDocid))
  }

  /**
   * `add_run`: fails when the query does not exist, and at the first entry
   * whose document is unknown, after enriching the entries before it in
   * place; otherwise enriches every entry and appends one run record. No
   * check is made for an existing run with the same runid.
   */
  method AddRun(db: Db, key: string, qid: string, runid: string, doclist: array<RunEntry>, now: int)
    returns (r: Result<Run, Error>)
    modifies db, doclist
    ensures db.query == old(db.query) && db.doc == old(db.doc)
    ensures db.feedback == old(db.feedback) && db.historical == old(db.historical)
    ensures r.Err? ==> db.run == old(db.run)
    ensures QueryById(db.query, qid).None? ==> r == Err(QueryDoesNotExist(qid)) && doclist[..] == old(doclist[..])
    ensures QueryById(db.query, qid).Some? ==>
      (r.Ok? <==> forall i :: 0 <= i < doclist.Length ==> Known(db.doc, old(doclist[..])[i]))
    ensures QueryById(db.query, qid).Some? && r.Err? ==>
      exists k :: 0 <= k < doclist.Length && !Known(db.doc, old(doclist[..])[k])
        && r.error == DocumentNotFound(old(doclist[..])[k].docid)
        && (forall i :: 0 <= i < k ==> Known(db.doc, old(doclist[..])[i]) && doclist[i] == Enrich(db.doc, old(doclist[..])[i]))
        && (forall i :: k <= i < doclist.Length ==> doclist[i] == old(doclist[..])[i])
    ensures r.Ok? ==>
      && QueryById(db.query, qid).Some?
      && (forall i :: 0 <= i < doclist.Length ==> doclist[i] == Enrich(db.doc, old(doclist[..])[i]))
      && r.value == Run(key, qid, db.query[QueryById(db.query, qid).value].siteQid, runid, doclist[..], now)
      && db.run == old(db.run) + [r.value]
  {
    var qi := QueryById(db.query, qid);
    if qi.None? {
      return Err(QueryDoesNotExist(qid));
    }
    ghost var before := doclist[..];
    for i := 0 to doclist.Length
      invariant unchanged(db)
      invariant forall j :: 0 <= j < i ==> Known(db.doc, before[j]) && doclist[j] == Enrich(db.doc, before[j])
      invariant forall j :: i <= j < doclist.Length ==> doclist[j] == before[j]
    {
      var found := DocById(db.doc, doclist[i].docid);
      if found.None? {
        return Err(DocumentNotFound(doclist[i].docid));
      }
      doclist[i] := doclist[i].(siteDocid := Some(db.doc[found.value].siteDocid));
    }
    r := Ok(Run(key, qid, db.query[qi.value].siteQid, runid, doclist[..], now));
    db.run := db.run + [r.value];
  }
}
