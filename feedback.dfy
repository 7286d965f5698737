/**
 * Feedback recording and retrieval: merging submitted click feedback into a
 * feedback session, storing historical feedback for a query, and the
 * filtered reads and deletes over the feedback collections.
 */
module Feedback {
  import opened Wrappers
  import opened Store

  // ------------------------------------------------------ optional arguments

  /** Python truthiness of an optional string argument: not None and not empty. */
  predicate Truthy(arg: Option<string>)
  {
    arg.Some? && arg.value != ""
  }

  function LowerChar(c: char): char
  {
    if 'A' <= c <= 'Z' then (c as int + 32) as char else c
  }

  /** `s.lower()` on ASCII letters. */
  function Lower(s: string): (r: string)
    ensures |r| == |s| && forall i :: 0 <= i < |s| ==> r[i] == LowerChar(s[i])
  {
    seq(|s|, i requires 0 <= i < |s| => LowerChar(s[i]))
  }

  /** `s.lower() == "all"`: the argument asks for no constraint. */
  predicate IsAll(s: string)
  {
    Lower(s) == "all"
  }

  /** The filter `q` constrains `key` to `arg` exactly when `active`. */
  predicate Constrains(q: Record, key: string, arg: Option<string>, active: bool)
  {
    (key in q <==> active) && (key in q ==> arg.Some? && q[key] == Str(arg.value))
  }

  /** Adds `key: arg` to the filter when `active`. */
  function AddIf(q: Record, active: bool, key: string, arg: Option<string>): Record
    requires active ==> arg.Some?
  {
    if active then q[key := Str(arg.value)] else q
  }

  // ---------------------------------------------------------- filter builders

  /** The filter of `reset_feedback`: each argument constrains its key when it is truthy. */
  function ResetFilter(userid: Option<string>, siteId: Option<string>, sid: Option<string>, qid: Option<string>): (q: Record)
    ensures q.Keys <= {"userid", "site_id", "sid", "qid"}
    ensures Constrains(q, "userid", userid, Truthy(userid))
    ensures Constrains(q, "site_id", siteId, Truthy(siteId))
    ensures Constrains(q, "sid", sid, Truthy(sid))
    ensures Constrains(q, "qid", qid, Truthy(qid))
  {
    var q := AddIf(map[], Truthy(userid), "userid", userid);
    var q := AddIf(q, Truthy(siteId), "site_id", siteId);
    var q := AddIf(q, Truthy(sid), "sid", sid);
    AddIf(q, Truthy(qid), "qid", qid)
  }

  /**
   * The filter of `get_feedback`: as for `reset_feedback`, except that a
   * `qid` reading "all" in any case constrains nothing, and `runid` is added.
   */
  function FeedbackFilter(userid: Option<string>, siteId: Option<string>, sid: Option<string>,
                          qid: Option<string>, runid: Option<string>): (q: Record)
    ensures q.Keys <= {"userid", "site_id", "sid", "qid", "runid"}
    ensures Constrains(q, "userid", userid, Truthy(userid))
    ensures Constrains(q, "site_id", siteId, Truthy(siteId))
    ensures Constrains(q, "sid", sid, Truthy(sid))
    ensures Constrains(q, "qid", qid, Truthy(qid) && !IsAll(qid.value))
    ensures Constrains(q, "runid", runid, Truthy(runid))
  {
    var q := AddIf(map[], Truthy(userid), "userid", userid);
    var q := AddIf(q, Truthy(siteId), "site_id", siteId);
    var q := AddIf(q, Truthy(sid), "sid", sid);
    var q := AddIf(q, Truthy(qid) && !IsAll(qid.value), "qid", qid);
    AddIf(q, Truthy(runid), "runid", runid)
  }

  /** The filter of `get_historical_feedback`: "all" is a wildcard for `site_qid` and for `qid`. */
  function HistoricalFilter(siteId: Option<string>, qid: Option<string>, siteQid: Option<string>): (q: Record)
    ensures q.Keys <= {"site_id", "site_qid", "qid"}
    ensures Constrains(q, "site_id", siteId, Truthy(siteId))
    ensures Constrains(q, "site_qid", siteQid, Truthy(siteQid) && !IsAll(siteQid.value))
    ensures Constrains(q, "qid", qid, Truthy(qid) && !IsAll(qid.value))
  {
    var q := AddIf(map[], Truthy(siteId), "site_id", siteId);
    var q := AddIf(q, Truthy(siteQid) && !IsAll(siteQid.value), "site_qid", siteQid);
    AddIf(q, Truthy(qid) && !IsAll(qid.value), "qid", qid)
  }

  /** An argument reads "all" in any case exactly when it is three letters a, l, l, each small or capital. */
  lemma IsAllCases(s: string)
    ensures IsAll(s) <==> |s| == 3 && s[0] in {'a', 'A'} && s[1] in {'l', 'L'} && s[2] in {'l', 'L'}
  {
    if |s| == 3 {
      assert Lower(s) == [LowerChar(s[0]), LowerChar(s[1]), LowerChar(s[2])];
    }
  }

  /** A `qid` reading "all" in any case selects every query, exactly as leaving `qid` out does. */
  lemma AllSelectsEveryQuery(userid: Option<string>, siteId: Option<string>, sid: Option<string>,
                             qid: Option<string>, runid: Option<string>)
    requires qid.Some? && IsAll(qid.value)
    ensures FeedbackFilter(userid, siteId, sid, qid, runid) == FeedbackFilter(userid, siteId, sid, None, runid)
  {
  }

  /** `reset_feedback()` without arguments deletes every feedback record. */
  lemma ResetWithoutArgumentsClearsAll(coll: seq<Record>)
    ensures RemoveMatching(coll, ResetFilter(None, None, None, None)) == []
  {
    assert ResetFilter(None, None, None, None) == map[];
    RemoveAllForEmptyFilter(coll);
  }

  // ------------------------------------------------------ doclist enrichment

  /**
   * One doclist entry of submitted feedback, with `docid` set to the id of
   * the document that has the entry's `site_docid` at the site.
   */
  function EnrichEntry(docs: seq<Doc>, siteId: string, item: Value): (r: Result<Value, Error>)
    ensures r.Ok? ==> item.Object? && "site_docid" in item.fields
    ensures r.Ok? ==> exists i :: (0 <= i < |docs| && docs[i].siteId == siteId
      && item.fields["site_docid"] == Str(docs[i].siteDocid)
      && r.value == Object(item.fields["docid" := Str(docs[i].id)]))
    ensures r.Err? && !item.Object? ==> r.error == NotSubscriptable("site_docid")
    ensures r.Err? && item.Object? && "site_docid" !in item.fields ==> r.error == KeyMissing("site_docid")
    ensures r.Err? && item.Object? && "site_docid" in item.fields ==>
      && r.error == SiteDocumentNotFound(item.fields["site_docid"])
      && forall j :: 0 <= j < |docs| ==> !(docs[j].siteId == siteId && item.fields["site_docid"] == Str(docs[j].siteDocid))
  {
    if !item.Object? then Err(NotSubscriptable("site_docid"))
    else if "site_docid" !in item.fields then Err(KeyMissing("site_docid"))
    else match DocBySite(docs, siteId, item.fields["site_docid"])
      case None => Err(SiteDocumentNotFound(item.fields["site_docid"]))
      case Some(i) => Ok(Object(item.fields["docid" := Str(docs[i].id)]))
  }

  /**
   * What `for doc in feedback["doclist"]` visits. A list yields its items; an
   * empty string or dict yields nothing; a non-empty string or dict yields
   * strings, whose subscripting raises; anything else cannot be iterated.
   */
  function DoclistItems(v: Value): Result<seq<Value>, Error>
  {
    match v
    case List(items) => Ok(items)
    case Str(s) => if s == "" then Ok([]) else Err(NotSubscriptable("site_docid"))
    case Object(m) => if m == map[] then Ok([]) else Err(NotSubscriptable("site_docid"))
    case _ => Err(NotIterable("doclist"))
  }

  /** `out` is `items` with every entry enriched. */
  predicate EnrichedFrom(docs: seq<Doc>, siteId: string, items: seq<Value>, out: seq<Value>)
  {
    |out| == |items| && forall i :: 0 <= i < |items| ==> EnrichEntry(docs, siteId, items[i]) == Ok(out[i])
  }

  /** The enrichment loop: stops at the first entry that raises. */
  method EnrichDoclist(docs: seq<Doc>, siteId: string, items: seq<Value>) returns (r: Result<seq<Value>, Error>)
    ensures r.Ok? <==> forall i :: 0 <= i < |items| ==> EnrichEntry(docs, siteId, items[i]).Ok?
    ensures r.Ok? ==> EnrichedFrom(docs, siteId, items, r.value)
    ensures r.Err? ==> exists k :: (0 <= k < |items| && EnrichEntry(docs, siteId, items[k]) == Err(r.error)
      && forall i :: 0 <= i < k ==> EnrichEntry(docs, siteId, items[i]).Ok?)
  {
    var out: seq<Value> := [];
    for i := 0 to |items|
      invariant |out| == i
      invariant forall j :: 0 <= j < i ==> EnrichEntry(docs, siteId, items[j]) == Ok(out[j])
    {
      var e := EnrichEntry(docs, siteId, items[i]);
      if e.Err? {
        return Err(e.error);
      }
      out := out + [e.value];
    }
    r := Ok(out);
  }

  /** The submission is accepted: it has a doclist and every entry of it resolves. */
  predicate Accepted(docs: seq<Doc>, siteId: string, feedback: Record)
  {
    && "doclist" in feedback
    && DoclistItems(feedback["doclist"]).Ok?
    && forall i :: 0 <= i < |DoclistItems(feedback["doclist"]).value| ==>
         EnrichEntry(docs, siteId, DoclistItems(feedback["doclist"]).value[i]).Ok?
  }

  /** The exception a submission raises: no doclist, a doclist that cannot be walked, or its first bad entry. */
  predicate RaisedBy(docs: seq<Doc>, siteId: string, feedback: Record, e: Error)
  {
    || ("doclist" !in feedback && e == KeyMissing("doclist"))
    || ("doclist" in feedback && DoclistItems(feedback["doclist"]) == Err(e))
    || ("doclist" in feedback && DoclistItems(feedback["doclist"]).Ok? &&
        var items := DoclistItems(feedback["doclist"]).value;
        exists k :: 0 <= k < |items| && EnrichEntry(docs, siteId, items[k]) == Err(e)
          && forall i :: 0 <= i < k ==> EnrichEntry(docs, siteId, items[i]).Ok?)
  }

  /**
   * `sub` is the submission after enrichment: every key kept, and a list
   * doclist replaced by its enriched entries.
   */
  predicate EnrichedSubmission(docs: seq<Doc>, siteId: string, feedback: Record, sub: Record)
  {
    && "doclist" in feedback
    && DoclistItems(feedback["doclist"]).Ok?
    && sub.Keys == feedback.Keys
    && (forall k :: k in feedback && k != "doclist" ==> sub[k] == feedback[k])
    && (feedback["doclist"].List? ==>
          sub["doclist"].List? && EnrichedFrom(docs, siteId, feedback["doclist"].items, sub["doclist"].items))
    && (!feedback["doclist"].List? ==> sub["doclist"] == feedback["doclist"])
  }

  /** The doclist loop shared by `add_feedback` and `add_historical_feedback`. */
  method EnrichSubmission(docs: seq<Doc>, siteId: string, feedback: Record) returns (r: Result<Record, Error>)
    ensures r.Ok? <==> Accepted(docs, siteId, feedback)
    ensures r.Ok? ==> EnrichedSubmission(docs, siteId, feedback, r.value)
    ensures r.Err? ==> RaisedBy(docs, siteId, feedback, r.error)
  {
    if "doclist" !in feedback {
      return Err(KeyMissing("doclist"));
    }
    var items := DoclistItems(feedback["doclist"]);
    if items.Err? {
      return Err(items.error);
    }
    var enriched := EnrichDoclist(docs, siteId, items.value);
    if enriched.Err? {
      return Err(enriched.error);
    }
    if feedback["doclist"].List? {
      r := Ok(feedback["doclist" := List(enriched.value)]);
    } else {
      assert enriched.value == [];
      r := Ok(feedback);
    }
  }

  // ------------------------------------------------------------------ merge

  /** `merged` is `existing` with every key of `submitted` written over it, then `modified_time` set. */
  predicate MergedFrom(existing: Record, submitted: Record, now: int, merged: Record)
  {
    && merged.Keys == existing.Keys + submitted.Keys + {"modified_time"}
    && merged["modified_time"] == Time(now)
    && (forall k :: k in submitted && k != "modified_time" ==> merged[k] == submitted[k])
    && (forall k :: k in existing && k !in submitted && k != "modified_time" ==> merged[k] == existing[k])
  }

  /** The key-by-key merge of `add_feedback`. */
  method MergeFeedback(existing: Record, submitted: Record, now: int) returns (merged: Record)
    ensures MergedFrom(existing, submitted, now, merged)
  {
    merged := existing;
    var pending := submitted.Keys;
    while pending != {}
      invariant pending <= submitted.Keys
      invariant merged.Keys == existing.Keys + (submitted.Keys - pending)
      invariant forall k :: k in submitted && k !in pending ==> merged[k] == submitted[k]
      invariant forall k :: k in existing && (k !in submitted || k in pending) ==> merged[k] == existing[k]
      decreases pending
    {
      var k :| k in pending;
      merged := merged[k := submitted[k]];
      pending := pending - {k};
    }
    merged := merged["modified_time" := Time(now)];
  }

  /** The session `find_one({"site_id": site_id, "_id": sid})` returns. */
  function SessionIndex(coll: seq<Record>, siteId: string, sid: string): (r: Option<nat>)
    ensures r.Some? ==> r.value < |coll| && Matches(coll[r.value], map["site_id" := Str(siteId), "_id" := Str(sid)])
    ensures r.None? ==> forall j :: 0 <= j < |coll| ==> !Matches(coll[j], map["site_id" := Str(siteId), "_id" := Str(sid)])
  {
    FindFirst(coll, (x: Record) => Matches(x, map["site_id" := Str(siteId), "_id" := Str(sid)]))
  }

  /**
   * `add_feedback`: fails for an unknown session and for a submission that
   * raises; otherwise merges the enriched submission over the session, sets
   * `modified_time` and saves the result in the session's place.
   */
  method AddFeedback(db: Db, siteId: string, sid: string, feedback: Record, now: int) returns (r: Result<Record, Error>)
    requires db.Valid()
    modifies db
    ensures db.Valid()
    ensures db.query == old(db.query) && db.doc == old(db.doc) && db.run == old(db.run)
    ensures db.historical == old(db.historical)
    ensures r.Err? ==> db.feedback == old(db.feedback)
    ensures SessionIndex(old(db.feedback), siteId, sid).None? ==> r == Err(SessionNotFound(sid))
    ensures SessionIndex(old(db.feedback), siteId, sid).Some? ==>
      && (r.Ok? <==> Accepted(db.doc, siteId, feedback))
      && (r.Err? ==> RaisedBy(db.doc, siteId, feedback, r.error))
    ensures r.Ok? ==>
      && SessionIndex(old(db.feedback), siteId, sid).Some?
      && (exists sub :: EnrichedSubmission(db.doc, siteId, feedback, sub)
            && MergedFrom(old(db.feedback)[SessionIndex(old(db.feedback), siteId, sid).value], sub, now, r.value))
      && db.feedback == Save(old(db.feedback), r.value)
      && ("_id" !in feedback ==> r.value["_id"] == Str(sid) && |db.feedback| == |old(db.feedback)|)
  {
    var si := SessionIndex(db.feedback, siteId, sid);
    if si.None? {
      return Err(SessionNotFound(sid));
    }
    var existing := db.feedback[si.value];
    var sub := EnrichSubmission(db.doc, siteId, feedback);
    if sub.Err? {
      return Err(sub.error);
    }
    var merged := MergeFeedback(existing, sub.value, now);
    SaveStoresOnce(db.feedback, merged);
    if "_id" !in feedback {
      assert merged["_id"] == existing["_id"] == Str(sid);
      assert IdIndex(db.feedback, merged["_id"]).Some?;
    }
    db.feedback := Save(db.feedback, merged);
    r := Ok(merged);
  }

  // ----------------------------------------------------- historical feedback

  /** The fields `add_historical_feedback` stamps onto the submission. */
  function Stamp(sub: Record, siteId: string, siteQid: string, qid: string, now: int): (r: Record)
    ensures r.Keys == sub.Keys + {"site_id", "site_qid", "qid", "creation_time", "modified_time"}
    ensures r["site_id"] == Str(siteId) && r["site_qid"] == Str(siteQid) && r["qid"] == Str(qid)
    ensures r["creation_time"] == Time(now) && r["modified_time"] == Time(now)
    ensures forall k :: k in sub && k !in {"site_id", "site_qid", "qid", "creation_time", "modified_time"} ==> r[k] == sub[k]
  {
    sub["site_id" := Str(siteId)]["site_qid" := Str(siteQid)]["qid" := Str(qid)]
       ["creation_time" := Time(now)]["modified_time" := Time(now)]
  }

  /**
   * `add_historical_feedback`: fails for an unknown query and for a
   * submission that raises; otherwise saves the enriched submission stamped
   * with the site, the query and the time.
   */
  method AddHistoricalFeedback(db: Db, siteId: string, siteQid: string, feedback: Record, now: int)
    returns (r: Result<Record, Error>)
    requires db.Valid()
    modifies db
    ensures db.Valid()
    ensures db.query == old(db.query) && db.doc == old(db.doc) && db.run == old(db.run)
    ensures db.feedback == old(db.feedback)
    ensures r.Err? ==> db.historical == old(db.historical)
    ensures QueryBySite(db.query, siteId, siteQid).None? ==> r == Err(QueryNotFound(siteQid))
    ensures QueryBySite(db.query, siteId, siteQid).Some? ==>
      && (r.Ok? <==> Accepted(db.doc, siteId, feedback))
      && (r.Err? ==> RaisedBy(db.doc, siteId, feedback, r.error))
    ensures r.Ok? ==>
      && QueryBySite(db.query, siteId, siteQid).Some?
      && (exists sub :: EnrichedSubmission(db.doc, siteId, feedback, sub)
            && r.value == Stamp(sub, siteId, siteQid, db.query[QueryBySite(db.query, siteId, siteQid).value].id, now))
      && db.historical == Save(old(db.historical), r.value)
  {
    var qi := QueryBySite(db.query, siteId, siteQid);
    if qi.None? {
      return Err(QueryNotFound(siteQid));
    }
    var sub := EnrichSubmission(db.doc, siteId, feedback);
    if sub.Err? {
      return Err(sub.error);
    }
    var stamped := Stamp(sub.value, siteId, siteQid, db.query[qi.value].id, now);
    SaveStoresOnce(db.historical, stamped);
    db.historical := Save(db.historical, stamped);
    r := Ok(stamped);
  }

  // ------------------------------------------------------- reads and deletes

  /** `reset_feedback`: deletes the feedback records matching its filter and keeps the rest in order. */
  method ResetFeedback(db: Db, userid: Option<string>, siteId: Option<string>, sid: Option<string>, qid: Option<string>)
    requires db.Valid()
    modifies db
    ensures db.Valid()
    ensures db.query == old(db.query) && db.doc == old(db.doc) && db.run == old(db.run)
    ensures db.historical == old(db.historical)
    ensures db.feedback == RemoveMatching(old(db.feedback), ResetFilter(userid, siteId, sid, qid))
  {
    RemoveKeepsUniqueIds(db.feedback, ResetFilter(userid, siteId, sid, qid));
    db.feedback := RemoveMatching(db.feedback, ResetFilter(userid, siteId, sid, qid));
  }

  /** The record has a doclist that is not None. */
  predicate HasDoclist(rec: Record)
  {
    "doclist" in rec && rec["doclist"] != Null
  }

  /** The value names a query whose type is "test". */
  predicate IsTestQuery(queries: seq<Query>, v: Value)
  {
    v.Str? && QueryById(queries, v.s).Some? && queries[QueryById(queries, v.s).value].qtype == Some("test")
  }

  /** A record `get_feedback` returns: it has a doclist and, under the test check, is not for a test query. */
  predicate Ready(queries: seq<Query>, rec: Record, testCheck: bool)
  {
    HasDoclist(rec) && !(testCheck && "qid" in rec && IsTestQuery(queries, rec["qid"]))
  }

  /** The ready records, in store order. */
  function ReadyOnly(queries: seq<Query>, recs: seq<Record>, testCheck: bool): seq<Record>
    decreases |recs|
  {
    if recs == [] then []
    else
      var last := recs[|recs| - 1];
      ReadyOnly(queries, recs[..|recs| - 1], testCheck) + (if Ready(queries, last, testCheck) then [last] else [])
  }

  /** `ReadyOnly` keeps exactly the ready records. */
  lemma {:induction false} ReadyOnlyMembers(queries: seq<Query>, recs: seq<Record>, testCheck: bool)
    ensures forall x :: x in ReadyOnly(queries, recs, testCheck) <==> x in recs && Ready(queries, x, testCheck)
  {
    if recs != [] {
      var m := |recs| - 1;
      ReadyOnlyMembers(queries, recs[..m], testCheck);
      assert recs == recs[..m] + [recs[m]];
    }
  }

  /** `ReadyOnly` keeps store order: filtering a concatenation concatenates the filtered parts. */
  lemma {:induction false} ReadyOnlyAppend(queries: seq<Query>, a: seq<Record>, b: seq<Record>, testCheck: bool)
    ensures ReadyOnly(queries, a + b, testCheck) == ReadyOnly(queries, a, testCheck) + ReadyOnly(queries, b, testCheck)
    decreases |b|
  {
    if b == [] {
      assert a + b == a;
    } else {
      var m := |b| - 1;
      ReadyOnlyAppend(queries, a, b[..m], testCheck);
      assert (a + b)[..|a + b| - 1] == a + b[..m];
    }
  }

  /**
   * The post-filter loop of `get_feedback`: under the test check a record
   * without `qid` raises; otherwise the ready records are kept in order.
   */
  method SelectReady(queries: seq<Query>, recs: seq<Record>, testCheck: bool) returns (r: Result<seq<Record>, Error>)
    ensures r.Err? <==> testCheck && exists i :: 0 <= i < |recs| && "qid" !in recs[i]
    ensures r.Err? ==> r.error == KeyMissing("qid")
    ensures r.Ok? ==> r.value == ReadyOnly(queries, recs, testCheck)
  {
    var ready: seq<Record> := [];
    for i := 0 to |recs|
      invariant ready == ReadyOnly(queries, recs[..i], testCheck)
      invariant testCheck ==> forall j :: 0 <= j < i ==> "qid" in recs[j]
    {
      var rec := recs[i];
      assert recs[..i + 1][..i] == recs[..i];
      if testCheck {
        if "qid" !in rec {
          return Err(KeyMissing("qid"));
        }
        if IsTestQuery(queries, rec["qid"]) {
          continue;
        }
      }
      if HasDoclist(rec) {
        ready := ready + [rec];
      }
    }
    assert recs[..|recs|] == recs;
    r := Ok(ready);
  }

  /**
   * `get_feedback`: the feedback records matching the filter, in store
   * order, restricted to the ready ones. The three index-hint branches of
   * the source read with the same filter; the hints do not change the result.
   */
  method GetFeedback(db: Db, userid: Option<string>, siteId: Option<string>, sid: Option<string>,
                     qid: Option<string>, runid: Option<string>, testCheck: bool)
    returns (r: Result<seq<Record>, Error>)
    ensures r.Err? <==> testCheck && exists x :: (x in db.feedback
      && Matches(x, FeedbackFilter(userid, siteId, sid, qid, runid)) && "qid" !in x)
    ensures r.Err? ==> r.error == KeyMissing("qid")
    ensures r.Ok? ==> r.value == ReadyOnly(db.query, FindAll(db.feedback, FeedbackFilter(userid, siteId, sid, qid, runid)), testCheck)
    ensures r.Ok? ==> forall x :: x in r.value <==>
      x in db.feedback && Matches(x, FeedbackFilter(userid, siteId, sid, qid, runid)) && Ready(db.query, x, testCheck)
  {
    var q := FeedbackFilter(userid, siteId, sid, qid, runid);
    var feedbacks := FindAll(db.feedback, q);
    r := SelectReady(db.query, feedbacks, testCheck);
    ReadyOnlyMembers(db.query, feedbacks, testCheck);
    if r.Err? {
      var i :| 0 <= i < |feedbacks| && "qid" !in feedbacks[i];
      assert feedbacks[i] in feedbacks;
    }
  }

  /** `get_historical_feedback`: the historical records matching its filter, in store order. */
  method GetHistoricalFeedback(db: Db, siteId: Option<string>, qid: Option<string>, siteQid: Option<string>)
    returns (r: seq<Record>)
    ensures forall x :: x in r <==> x in db.historical && Matches(x, HistoricalFilter(siteId, qid, siteQid))
    ensures r == FindAll(db.historical, HistoricalFilter(siteId, qid, siteQid))
  {
    r := FindAll(db.historical, HistoricalFilter(siteId, qid, siteQid));
  }

  // ------------------------------------------------ the index-hint branches

  /**
   * The read as the source writes it: the two hinted branches name
   * `pymongo`, which the module does not import.
   */
  function FeedbackCursorAsWritten(coll: seq<Record>, q: Record): Result<seq<Record>, Error>
  {
    if "qid" in q && "site_id" in q && "userid" in q then Err(NameUnbound("pymongo"))
    else if "site_id" in q && "userid" in q then Err(NameUnbound("pymongo"))
    else Ok(FindAll(coll, q))
  }

  /**
   * Asking for one participant's feedback at one site reaches a hinted
   * branch and raises as written, once the test date is configured (without
   * it the test-date lookup raises before); the intended read returns it.
   */
  lemma HintedReadRaises(coll: seq<Record>)
    ensures FeedbackCursorAsWritten(coll, FeedbackFilter(Some("u1"), Some("s1"), None, None, None)) == Err(NameUnbound("pymongo"))
    ensures FeedbackFilter(Some("u1"), Some("s1"), None, None, None) == map["userid" := Str("u1"), "site_id" := Str("s1")]
  {
  }
}
