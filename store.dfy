/**
 * The document store the core works on: the records of the `query`, `doc`,
 * `run`, `feedback` and `historical` collections, and the store operations
 * the core calls (`find`, `find_one`, `save`, `remove`). A collection is a
 * sequence in the store's natural order.
 */
module Store {
  import opened Wrappers

  /** A field value of an open (schema-less) stored document. */
  datatype Value =
    | Null
    | Bool(b: bool)
    | Int(i: int)
    | Str(s: string)
    | Time(t: int)
    | List(items: seq<Value>)
    | Object(fields: map<string, Value>)

  /** An open document: feedback sessions and historical feedback are kept as such. */
  type Record = map<string, Value>

  /** A document of a site: its store id and its site-local id. */
  datatype Doc = Doc(id: string, siteId: string, siteDocid: string)

  /**
   * What a query's `runs` map holds for a participant: the newer format is a
   * `[runid, time]` pair, the older one a bare run id.
   */
  datatype RunPointer = Paired(runid: string, time: int) | Bare(runid: string)

  /** One entry of a query's `runs` map, in the map's order. */
  datatype Binding = Binding(userid: string, pointer: RunPointer)

  /**
   * A query. An absent `type`, `doclist_modified_time` or `runs` field is
   * `None`; an absent `deleted` flag is `false`.
   */
  datatype Query = Query(
    id: string,
    siteId: string,
    siteQid: string,
    qtype: Option<string>,
    deleted: bool,
    doclistModifiedTime: Option<int>,
    runs: Option<seq<Binding>>)

  /** An entry of a submitted run's doclist; `siteDocid` is filled in on submission. */
  datatype RunEntry = RunEntry(docid: string, siteDocid: Option<string>)

  /** A submitted run. */
  datatype Run = Run(
    userid: string,
    qid: string,
    siteQid: string,
    runid: string,
    doclist: seq<RunEntry>,
    creationTime: int)

  /** The exceptions the core raises. */
  datatype Error =
    | QueryNotFound(siteQid: string)        // LookupError: no query for (site_id, site_qid)
    | QueryDoesNotExist(qid: string)        // Exception: add_run with an unknown query id
    | NoRunsForQuery(qid: string)           // LookupError: no run for the query
    | DocumentNotFound(docid: string)       // LookupError: unknown docid in a run
    | SiteDocumentNotFound(siteDocid: Value) // LookupError: unknown site_docid in feedback
    | SessionNotFound(sid: string)          // LookupError: unknown feedback session
    | KeyMissing(key: string)               // KeyError
    | NotIterable(key: string)              // TypeError: iterating a value that is not a list
    | NotSubscriptable(key: string)         // TypeError: subscripting a value by a string key
    | NameUnbound(name: string)             // NameError

  /** The database: one collection per field, updated in place by the core. */
  class Db {
    var query: seq<Query>
    var doc: seq<Doc>
    var run: seq<Run>
    var feedback: seq<Record>
    var historical: seq<Record>

    /** The store keeps `_id` unique within a collection of open documents. */
    ghost predicate Valid()
      reads this
    {
      UniqueIds(feedback) && UniqueIds(historical)
    }

    constructor (query: seq<Query>, doc: seq<Doc>, run: seq<Run>, feedback: seq<Record>, historical: seq<Record>)
      requires UniqueIds(feedback) && UniqueIds(historical)
      ensures Valid()
      ensures this.query == query && this.doc == doc && this.run == run
      ensures this.feedback == feedback && this.historical == historical
    {
      this.query := query;
      this.doc := doc;
      this.run := run;
      this.feedback := feedback;
      this.historical := historical;
    }
  }

  // ---------------------------------------------------------------- find_one

  /** `find_one`: the first element, in store order, that satisfies `p`. */
  function FindFirst<T>(s: seq<T>, p: T -> bool): (r: Option<nat>)
    ensures r.Some? ==> r.value < |s| && p(s[r.value])
    ensures r.Some? ==> forall j :: 0 <= j < r.value ==> !p(s[j])
    ensures r.None? ==> forall j :: 0 <= j < |s| ==> !p(s[j])
  {
    if |s| == 0 then None
    else if p(s[0]) then Some(0)
    else match FindFirst(s[1..], p)
      case None => None
      case Some(k) => Some(k + 1)
  }

  /** `db.query.find_one({"_id": qid})`. */
  function QueryById(queries: seq<Query>, qid: string): (r: Option<nat>)
    ensures r.Some? ==> r.value < |queries| && queries[r.value].id == qid
    ensures r.Some? ==> forall j :: 0 <= j < r.value ==> queries[j].id != qid
    ensures r.None? ==> forall j :: 0 <= j < |queries| ==> queries[j].id != qid
  {
    FindFirst(queries, (q: Query) => q.id == qid)
  }

  /** `db.query.find_one({"site_id": site_id, "site_qid": site_qid})`. */
  function QueryBySite(queries: seq<Query>, siteId: string, siteQid: string): (r: Option<nat>)
    ensures r.Some? ==> r.value < |queries| && queries[r.value].siteId == siteId && queries[r.value].siteQid == siteQid
    ensures r.Some? ==> forall j :: 0 <= j < r.value ==> !(queries[j].siteId == siteId && queries[j].siteQid == siteQid)
    ensures r.None? ==> forall j :: 0 <= j < |queries| ==> !(queries[j].siteId == siteId && queries[j].siteQid == siteQid)
  {
    FindFirst(queries, (q: Query) => q.siteId == siteId && q.siteQid == siteQid)
  }

  /** `db.doc.find_one({"_id": docid})`. */
  function DocById(docs: seq<Doc>, docid: string): (r: Option<nat>)
    ensures r.Some? ==> r.value < |docs| && docs[r.value].id == docid
    ensures r.None? ==> forall j :: 0 <= j < |docs| ==> docs[j].id != docid
  {
    FindFirst(docs, (d: Doc) => d.id == docid)
  }

  /**
   * `db.doc.find_one({"site_id": site_id, "site_docid": v})`, with the filter
   * value compared by equality: a stored site document id is a string, so
   * only that string matches.
   */
  function DocBySite(docs: seq<Doc>, siteId: string, v: Value): (r: Option<nat>)
    ensures r.Some? ==> r.value < |docs| && docs[r.value].siteId == siteId && v == Str(docs[r.value].siteDocid)
    ensures r.None? ==> forall j :: 0 <= j < |docs| ==> !(docs[j].siteId == siteId && v == Str(docs[j].siteDocid))
  {
    FindFirst(docs, (d: Doc) => d.siteId == siteId && v == Str(d.siteDocid))
  }

  // ------------------------------------------------- filters over open records

  /**
   * A record matches an equality filter when it holds every filtered key with
   * the filtered value. Query operators and matching inside arrays are not modelled.
   */
  predicate Matches(rec: Record, filter: Record)
  {
    forall k :: k in filter ==> k in rec && rec[k] == filter[k]
  }

  /** `find(filter)`: the matching records, in store order. */
  function FindAll(coll: seq<Record>, filter: Record): (r: seq<Record>)
    ensures forall x :: x in r <==> x in coll && Matches(x, filter)
    ensures |r| <= |coll|
  {
    if coll == [] then []
    else if Matches(coll[0], filter) then [coll[0]] + FindAll(coll[1..], filter)
    else FindAll(coll[1..], filter)
  }

  /** `remove(filter)`: what is left of the collection, in store order. */
  function RemoveMatching(coll: seq<Record>, filter: Record): (r: seq<Record>)
    ensures forall x :: x in r <==> x in coll && !Matches(x, filter)
    ensures |r| <= |coll|
  {
    if coll == [] then []
    else if Matches(coll[0], filter) then RemoveMatching(coll[1..], filter)
    else [coll[0]] + RemoveMatching(coll[1..], filter)
  }

  /** `find` and `remove` on the same filter split a collection in two. */
  lemma {:induction false} FindRemovePartition(coll: seq<Record>, filter: Record)
    ensures multiset(FindAll(coll, filter)) + multiset(RemoveMatching(coll, filter)) == multiset(coll)
  {
    if coll != [] {
      FindRemovePartition(coll[1..], filter);
      assert coll == [coll[0]] + coll[1..];
    }
  }

  /** `remove({})` empties the collection. */
  lemma {:induction false} RemoveAllForEmptyFilter(coll: seq<Record>)
    ensures RemoveMatching(coll, map[]) == []
  {
    if coll != [] {
      assert Matches(coll[0], map[]);
      RemoveAllForEmptyFilter(coll[1..]);
    }
  }

  // ------------------------------------------------------------------ save

  /** No two records of the collection carry the same `_id`. */
  ghost predicate UniqueIds(coll: seq<Record>)
  {
    forall i, j :: 0 <= i < j < |coll| && "_id" in coll[i] && "_id" in coll[j] ==> coll[i]["_id"] != coll[j]["_id"]
  }

  /** The position of the record with the given `_id`. */
  function IdIndex(coll: seq<Record>, id: Value): (r: Option<nat>)
    ensures r.Some? ==> r.value < |coll| && "_id" in coll[r.value] && coll[r.value]["_id"] == id
    ensures r.None? ==> forall j :: 0 <= j < |coll| ==> !("_id" in coll[j] && coll[j]["_id"] == id)
  {
    FindFirst(coll, (x: Record) => "_id" in x && x["_id"] == id)
  }

  /**
   * `save(rec)`: a record with an `_id` replaces the stored record with that
   * `_id`, or is inserted when there is none; a record without `_id` is inserted.
   */
  function Save(coll: seq<Record>, rec: Record): seq<Record>
  {
    if "_id" in rec then
      match IdIndex(coll, rec["_id"])
      case Some(i) => coll[i := rec]
      case None => coll + [rec]
    else coll + [rec]
  }

  /**
   * After `save(rec)` the record is stored, it is the only record with its
   * `_id`, every record with another `_id` is kept, and ids stay unique.
   */
  lemma SaveStoresOnce(coll: seq<Record>, rec: Record)
    requires UniqueIds(coll)
    ensures UniqueIds(Save(coll, rec))
    ensures rec in Save(coll, rec)
    ensures "_id" in rec ==> forall x :: x in Save(coll, rec) && "_id" in x && x["_id"] == rec["_id"] ==> x == rec
    ensures forall x :: x in coll && !("_id" in rec && "_id" in x && x["_id"] == rec["_id"]) ==> x in Save(coll, rec)
    ensures "_id" in rec && IdIndex(coll, rec["_id"]).Some? ==> |Save(coll, rec)| == |coll|
    ensures !("_id" in rec && IdIndex(coll, rec["_id"]).Some?) ==> Save(coll, rec) == coll + [rec]
  {
    var r := Save(coll, rec);
    if "_id" in rec {
      match IdIndex(coll, rec["_id"])
      case Some(i) =>
        assert r == coll[i := rec] && r[i] == rec;
        forall x | x in coll && !("_id" in x && x["_id"] == rec["_id"])
          ensures x in r
        {
          var j :| 0 <= j < |coll| && coll[j] == x;
          assert j != i && r[j] == x;
        }
        forall x | x in r && "_id" in x && x["_id"] == rec["_id"]
          ensures x == rec
        {
          var j :| 0 <= j < |r| && r[j] == x;
          assert j == i;
        }
      case None =>
    }
  }

  /** Removing records keeps ids unique. */
  lemma {:induction false} RemoveKeepsUniqueIds(coll: seq<Record>, filter: Record)
    requires UniqueIds(coll)
    ensures UniqueIds(RemoveMatching(coll, filter))
  {
    if coll != [] {
      var rest := coll[1..];
      assert UniqueIds(rest) by {
        forall i, j | 0 <= i < j < |rest| && "_id" in rest[i] && "_id" in rest[j]
          ensures rest[i]["_id"] != rest[j]["_id"]
        {
          assert rest[i] == coll[i + 1] && rest[j] == coll[j + 1];
        }
      }
      RemoveKeepsUniqueIds(rest, filter);
      var tail := RemoveMatching(rest, filter);
      if !Matches(coll[0], filter) {
        var r := [coll[0]] + tail;
        forall i, j | 0 <= i < j < |r| && "_id" in r[i] && "_id" in r[j]
          ensures r[i]["_id"] != r[j]["_id"]
        {
          if i == 0 {
            assert r[j] == tail[j - 1] && tail[j - 1] in rest;
            var m :| 0 <= m < |rest| && rest[m] == r[j];
            assert coll[m + 1] == r[j];
          } else {
            assert r[i] == tail[i - 1] && r[j] == tail[j - 1];
          }
        }
      }
    }
  }
}
