# Living Labs run lifecycle and feedback: a Dafny model

This project models the core of the Living Labs evaluation API. Participants
upload runs: ranked document lists for the standing queries of a site. When a
site asks for a ranking for one of its queries, the API serves the latest run
of a randomly chosen participant and opens a feedback session for it. Sites
then post click feedback into that session, or upload historical feedback
for a query. A periodic sweep warns participants whose runs are older than
the query's current document list, or older than a configured age threshold.

The model has five modules.

- `Wrappers` holds `Option` and `Result`. An `Err` stands for the Python
  exception that the source raises.
- `Store` holds the collections of the document store and the store
  operations the core uses:
  - the collections `query`, `doc`, `run`, `feedback` and `historical`, as
    `seq` fields of the class `Db`;
  - `find_one`, `find`, `remove` and `save`.

  Queries, documents and runs are typed datatypes. Feedback and historical
  records are open dictionaries (`Record = map<string, Value>`), because
  `add_feedback` merges them key by key.
- `Runs` models `ll/core/run.py`: `get_ranking`, `get_run` and `add_run`.
- `Cleanup` models `db_cleanup` of `ll/api/__init__.py`. The sweep reads the
  store and returns the notifications it would send.
- `Feedback` models `ll/core/feedback.py`. Its filter builders are functions.
  The operations that write the store are methods that modify `Db`.

In `add_run` the submitted doclist is an `array` and is enriched in place.
In `get_run` the loops over runs are methods whose contracts refer to
specification predicates. `Owners` is the set of participants with a run for
the query. `IsLatest` says a run is a participant's latest, with the first
one winning a tie on creation time.

Time is a count of seconds; a day is 86400 seconds. These values become
parameters of the model:

- the current time (`now`);
- the session id that `site.next_sid` hands out (`sid`);
- the configured threshold in days (`thresholdDays`);
- whether the test-period check is on (`testCheck`).

## Model

| member | source | states |
|---|---|---|
| Store.FindFirst | ll/core/run.py:23 | `find_one` returns the first record in store order that satisfies the filter, or none when no record does |
| Store.QueryBySite | ll/core/run.py:23-26 | the query found by site and site query id matches both; none means no query of the store matches |
| Store.QueryById | ll/core/run.py:68-70 | the query found by id has that id and is the first one; none means no query has it |
| Store.DocById | ll/core/run.py:73-74 | the document found has the requested id; none means no document has it |
| Store.DocBySite | ll/core/feedback.py:27-30 | the document found belongs to the site and its site document id equals the submitted value; none means no document of the site does |
| Store.FindAll | ll/core/feedback.py:107 | `find` returns exactly the stored records that match every filtered key, and never more records than the collection holds |
| Store.RemoveMatching | ll/core/feedback.py:79 | `remove` keeps exactly the records that do not match the filter |
| Store.FindRemovePartition | ll/core/feedback.py:79 | `find` and `remove` on one filter split the collection: their multisets add up to the collection |
| Store.RemoveAllForEmptyFilter | ll/core/feedback.py:70-79 | `remove({})` deletes every record |
| Store.IdIndex | ll/core/run.py:38 | the position `save` replaces holds a record with the given `_id`; none means no record has it |
| Store.SaveStoresOnce | ll/core/run.py:38 | after `save` the record is stored and is the only one with its `_id`; records with other ids are kept; ids stay unique; replacing keeps the length; a new `_id` or no `_id` appends |
| Store.RemoveKeepsUniqueIds | ll/core/feedback.py:79 | removing records keeps `_id`s unique |
| Store.Db.constructor | ll/core/run.py:16 | a store built from five collections holds exactly them |
| Runs.LatestExists | ll/core/run.py:53-58 | every participant with a run for the query has a latest run |
| Runs.LatestUnique | ll/core/run.py:56 | the latest run is unique: a strict `>` keeps the first run among equal creation times |
| Runs.Participants | ll/core/run.py:47-49 | the participant set is exactly the set of owners of the query's runs |
| Runs.LatestRun | ll/core/run.py:51-59 | the selected run is the participant's latest run for the query; none exactly when the participant has no run for it |
| Runs.GetRun | ll/core/run.py:43-59 | raises exactly when the query has no runs; otherwise returns, for some participant of the query, that participant's latest run |
| Runs.GetRanking | ll/core/run.py:22-40 | an unknown query raises and writes nothing; no runs raises and writes nothing; otherwise the ranking is a latest run tagged with `sid`, and the session record is saved as the only record with `_id == sid`; no other collection changes |
| Runs.Enrich | ll/core/run.py:73-78 | an enriched entry keeps its document id and takes the site document id of the document with that id |
| Runs.AddRun | ll/core/run.py:62-88 | an unknown query raises with the doclist untouched; success holds exactly when every entry's document exists; on failure at the first unknown entry, the entries before it are enriched in place and the rest are untouched; on success every entry is enriched and exactly one run record is appended |
| Cleanup.Classify | ll/api/__init__.py:47-69 | a bare run id is never reported; a pointer older than the doclist is reported for that reason only; otherwise it is reported when older than the threshold; nothing is reported exactly when the pointer is fresh against both |
| Cleanup.LiveQueries | ll/api/__init__.py:40-41 | exactly the queries not flagged deleted are swept |
| Cleanup.FailureSticks | ll/api/__init__.py:44 | once a query without runs raises, the later queries change nothing |
| Cleanup.Sweep | ll/api/__init__.py:35-69 | the nested loop over queries and bindings sends exactly the notices, and raises exactly the error, of the sweep over live queries with threshold `now - days * 86400` |
| Cleanup.NoticeOrigin | ll/api/__init__.py:45-66 | every notice names a binding's participant and run id, with that binding's classification |
| Cleanup.StaleBindingNotified | ll/api/__init__.py:52-66 | every binding classified stale is notified |
| Cleanup.AtMostOneNoticePerBinding | ll/api/__init__.py:45-69 | the number of notices equals the number of stale bindings: the `continue` after each send stops a second notice, and fresh or bare bindings get none |
| Cleanup.SweepFailsOnMissingRuns | ll/api/__init__.py:44 | the sweep fails exactly when some swept query lacks `runs`, and then with a missing-key error |
| Cleanup.SentPrefix | ll/api/__init__.py:43-69 | the notices of a prefix of the sweep are a prefix of the sweep's notices |
| Cleanup.SweepNoticeOrigin | ll/api/__init__.py:43-69 | every notice comes from a stale binding of a swept query, and every query up to it had `runs` |
| Cleanup.SweepSkipsDeleted | ll/api/__init__.py:40-41 | every notice is for a query of the store that is not deleted |
| Cleanup.SweepNotifiesStale | ll/api/__init__.py:43-69 | a stale binding is notified whenever no query up to its own lacks `runs` |
| Cleanup.LaterSweepRepeatsNotices | ll/api/__init__.py:35-69 | nothing records a sent notice: a later sweep, with a later threshold, repeats every notice of an earlier one |
| Cleanup.AsWrittenSendsNothing | ll/api/__init__.py:43-44 | as written, the loop subscripts the list of queries by `"runs"`, raises and sends nothing |
| Cleanup.AsWrittenMissesStaleRun | ll/api/__init__.py:43-53 | for a store with one query whose run predates its doclist, the intended sweep sends one notice and the sweep as written sends none |
| Feedback.IsAllCases | ll/core/feedback.py:90 | an argument reads "all" after lower-casing exactly when it is the three letters a, l, l, each small or capital |
| Feedback.ResetFilter | ll/core/feedback.py:69-78 | each of `userid`, `site_id`, `sid` and `qid` is constrained, to its argument, exactly when the argument is truthy; no other key is |
| Feedback.FeedbackFilter | ll/core/feedback.py:82-93 | as for reset, plus `runid`; `qid` is constrained only when it is truthy and not "all" in any case |
| Feedback.HistoricalFilter | ll/core/feedback.py:119-126 | `site_id` is constrained when truthy; `site_qid` and `qid` only when truthy and not "all" |
| Feedback.AllSelectsEveryQuery | ll/core/feedback.py:90 | a `qid` reading "all" in any case gives the same filter as no `qid` |
| Feedback.ResetWithoutArgumentsClearsAll | ll/core/feedback.py:69-79 | a reset without arguments deletes every feedback record |
| Feedback.EnrichEntry | ll/core/feedback.py:26-34 | an entry resolves to itself with `docid` set to the id of a site document with that site document id; otherwise the error says why: not a dictionary, no `site_docid`, or no such document at the site |
| Feedback.EnrichDoclist | ll/core/feedback.py:26-34 | succeeds exactly when every entry resolves, then entry by entry; otherwise fails with the first failing entry's error |
| Feedback.EnrichSubmission | ll/core/feedback.py:26-34 | succeeds exactly when the submission has a doclist that can be walked and whose entries all resolve; the result keeps every key and replaces a list doclist by its enriched entries; a failure is the first exception raised |
| Feedback.MergeFeedback | ll/core/feedback.py:36-38 | the merged record has the keys of both plus `modified_time`; submitted values win; other stored values are kept; `modified_time` is now |
| Feedback.SessionIndex | ll/core/feedback.py:23-25 | the session found matches the site and the session id; none means no stored record does |
| Feedback.AddFeedback | ll/core/feedback.py:22-40 | an unknown session raises and writes nothing; otherwise success holds exactly when the submission is accepted, and an error is the first exception; on success the enriched submission is merged over the session and saved; without `_id` in the submission it replaces the session in place; only the feedback collection changes |
| Feedback.Stamp | ll/core/feedback.py:59-63 | the stored record gets site, site query id, query id and both times, and keeps every other submitted key |
| Feedback.AddHistoricalFeedback | ll/core/feedback.py:43-66 | an unknown query raises and writes nothing; otherwise success holds exactly when the submission is accepted; on success the enriched, stamped submission is saved to the historical collection; only that collection changes |
| Feedback.ResetFeedback | ll/core/feedback.py:69-79 | the feedback collection becomes the records not matching the reset filter, in order; ids stay unique; nothing else changes |
| Feedback.ReadyOnlyMembers | ll/core/feedback.py:109-115 | the ready records are exactly those with a non-None doclist that are not, under the test check, for a test query |
| Feedback.ReadyOnlyAppend | ll/core/feedback.py:109-116 | readiness filtering keeps store order: filtering a concatenation concatenates the filtered parts |
| Feedback.SelectReady | ll/core/feedback.py:109-116 | under the test check, a record without `qid` raises; otherwise the result is the ready records in order |
| Feedback.GetFeedback | ll/core/feedback.py:82-116 | raises exactly when the test check is on and some matching record lacks `qid`; otherwise returns exactly the matching ready records, in store order |
| Feedback.GetHistoricalFeedback | ll/core/feedback.py:119-127 | returns exactly the historical records matching the historical filter, in store order |
| Feedback.HintedReadRaises | ll/core/feedback.py:97-105 | as written, a read for one participant at one site reaches a hinted branch, which names the unbound `pymongo` and raises; with the configuration as it stands, the `TEST_DATE` lookup at line 95 raises first |

## Left out

- E-mail delivery, user lookup (`get_user`) and the log lines of `db_cleanup`. The sweep returns the notices it would send. A failing user lookup is not modelled.
- The scheduler that runs `db_cleanup`, and the Flask application, rate limiter and error reporter of `ll/api/__init__.py`. They are not part of this model.
- The clock. The current time is the parameter `now`. `add_historical_feedback` reads the clock twice; the model uses one value for both times.
- `site.next_sid`. Here it is the parameter `sid`.
- `random.choice`. Here it is an arbitrary participant, chosen with `:|`. The contract of `GetRun` holds for every choice.
- `config["RUN_AGE_THRESHOLD_DAYS"]`. Here it is the parameter `thresholdDays`.
- `config["TEST_DATE"]`. The configuration file defines no such key, so in the source the lookup would raise. The model takes the comparison's outcome as the parameter `testCheck`.
- The `_id` the store generates when a record is saved without one. `Save` appends the record without an `_id`.
- Object identity. `add_run` stores the doclist list object itself, and `get_ranking` adds `sid` to the run dictionary it returns. The model copies values, so later changes to the list are not shared.
- Runs.AddRun: every doclist entry is a record with a `docid`. An entry without `docid` (a KeyError) or one that is not a dictionary (a TypeError) is not modelled; in the source the entries before it are then already enriched in place. The run record's doclist keeps only the `docid` and `site_docid` of each entry; any other keys of a submitted entry are not modelled.
- Feedback.AddFeedback and Feedback.AddHistoricalFeedback: when an entry fails, the source has already enriched the entries before it in the caller's dictionary. The model returns an error and does not show that partial change.
- Feedback.EnrichSubmission: the same dictionary object listed twice in a doclist is treated as two entries.
- Binding pointers that are lists of other lengths than two. A binding is either a pair (run id, time) or a bare run id.
- Query operators and array matching. `find`, `find_one` and `remove` compare every filter value by equality. A submitted `site_docid` that is an operator document such as `{"$ne": ""}`, and a filter value matching an element of an array field, are not modelled.
- Index hints. The corrected `GetFeedback` reads with the same filter on every branch, because a hint does not change which records `find` returns.
- Features this code does not implement: deleting runs, reactivation, notification timestamps that stop repeat notices, and skipping one failed query without aborting the sweep. The model follows the code: a later sweep repeats notices (`Cleanup.LaterSweepRepeatsNotices`), and a query without `runs` ends the sweep.
- `reset_feedback` filters on a `sid` key, while sessions keep the session id in `_id`. The model follows the code, so a reset by `sid` matches only records that hold a `sid` key.

## Findings

| source | as written | input that shows it | evidently intended | confidence | as-written member | corrected member |
|---|---|---|---|---|---|---|
| ll/api/__init__.py:43 | `for query in [queries]` loops once, over the list of all queries. `query["runs"]` then subscripts a list with a string, which raises a TypeError. | One live query `q1` with doclist time 100 and binding `u1 → ("r1", 50)`: no notice is sent. | Loop over `queries` and notify `u1` that run `r1` is older than the doclist. | not executed | Cleanup.AsWrittenMissesStaleRun | Cleanup.Sweep |
| ll/core/feedback.py:97-105 | The hinted branches use `pymongo.ASCENDING`, but `pymongo` is never imported. | `get_feedback(userid="u1", site_id="s1")` raises NameError once `TEST_DATE` is configured; with ll/core/config.py as it stands, line 95 raises KeyError first. | Return the matching ready records; the hint only picks an index. | not executed | Feedback.HintedReadRaises | Feedback.GetFeedback |
