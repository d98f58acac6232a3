/**
 * The activity log handler: `GET` filters the logs by user and action, keeps
 * the first `limit` matches in stored order and only then sorts that slice
 * newest first; `POST` stamps a body and appends it.
 */
module ActivityLogs {
  import opened Http
  import opened Json
  import opened Records
  import opened Seqs

  /** The `user_id`, `action` and `limit` query parameters; an empty `limit` counts as absent. */
  datatype LogQuery = LogQuery(userId: Option<string>, action: Option<string>, limit: Option<nat>)

  /** `Number.parseInt(searchParams.get("limit") || "50")` */
  function Limit(q: LogQuery): (n: nat)
    ensures q.limit.None? ==> n == 50
    ensures q.limit.Some? ==> n == q.limit.value
  {
    q.limit.GetOr(50)
  }

  /** The log passes the user and action filters the query turns on. */
  predicate Matches(log: Object, q: LogQuery)
  {
    && (Given(q.userId) ==> FieldIs(log, "user_id", Str(q.userId.value)))
    && (Given(q.action) ==> FieldIs(log, "action", Str(q.action.value)))
  }

  /** The two optional filters, in the handler's order. */
  function FilterLogs(logs: seq<Object>, q: LogQuery): seq<Object>
  {
    var byUser := FilterIf(logs, Given(q.userId), FieldTest("user_id", q.userId.GetOr("")));
    FilterIf(byUser, Given(q.action), FieldTest("action", q.action.GetOr("")))
  }

  /** The filters keep exactly the matching logs, each as often as it is stored. */
  lemma FilterLogsKeepsMatches(logs: seq<Object>, q: LogQuery)
    ensures multiset(FilterLogs(logs, q)) <= multiset(logs)
    ensures forall x <- FilterLogs(logs, q) :: Matches(x, q)
    ensures forall x <- logs :: Matches(x, q) ==> multiset(FilterLogs(logs, q))[x] == multiset(logs)[x]
  {
    FilterIfTwice(logs, Given(q.userId), FieldTest("user_id", q.userId.GetOr("")),
      Given(q.action), FieldTest("action", q.action.GetOr("")));
  }

  /** `filtered.slice(0, limit).sort(newest first)` */
  function Select(logs: seq<Object>, q: LogQuery): (r: seq<Object>)
    ensures |r| <= Limit(q)
    ensures multiset(r) == multiset(Take(FilterLogs(logs, q), Limit(q)))
    ensures multiset(r) <= multiset(logs)
    ensures forall x <- r :: Matches(x, q)
    ensures forall i, j :: 0 <= i < j < |r| ==> DateOf(r[i], "created_at") >= DateOf(r[j], "created_at")
  {
    var page := Take(FilterLogs(logs, q), Limit(q));
    PageMatches(logs, q);
    var r := NewestFirst(page, "created_at");
    assert forall x <- r :: x in multiset(page);
    r
  }

  /** The first `limit` matches are matches, and are among the stored logs. */
  lemma PageMatches(logs: seq<Object>, q: LogQuery)
    ensures var page := Take(FilterLogs(logs, q), Limit(q));
      multiset(page) <= multiset(logs) && forall x <- page :: Matches(x, q)
  {
    var filtered := FilterLogs(logs, q);
    var page := Take(filtered, Limit(q));
    FilterLogsKeepsMatches(logs, q);
    TakeIsSubMultiset(filtered, Limit(q));
    forall x <- page
      ensures Matches(x, q)
    {
      assert x in multiset(filtered);
    }
  }

  /** When no more logs match than the limit, every matching log is answered. */
  lemma FewMatchesAllAnswered(logs: seq<Object>, q: LogQuery)
    requires |FilterLogs(logs, q)| <= Limit(q)
    ensures forall x <- logs :: Matches(x, q) ==> multiset(Select(logs, q))[x] == multiset(logs)[x]
  {
    FilterLogsKeepsMatches(logs, q);
    assert Take(FilterLogs(logs, q), Limit(q)) == FilterLogs(logs, q);
  }

  /**
   * The limit applies before the sort: of two matching logs stored oldest
   * first, a limit of 1 answers the older one.
   */
  lemma LimitPicksStoredOrder(older: Object, newer: Object)
    requires DateOf(older, "created_at") < DateOf(newer, "created_at")
    ensures Select([older, newer], LogQuery(None, None, Some(1))) == [older]
  {
    var q := LogQuery(None, None, Some(1));
    assert FilterLogs([older, newer], q) == [older, newer];
    assert Take([older, newer], 1) == [older];
    assert multiset(Select([older, newer], q)) == multiset{older};
  }

  /** The module-level log list. */
  class LogStore {
    var logs: seq<Object>

    constructor (seed: seq<Object>)
      ensures logs == seed
    {
      logs := seed;
    }

    /** `GET`: sorts a fresh slice, so the stored list keeps its order. */
    method Get(q: LogQuery) returns (r: Response<seq<Object>>)
      ensures r == Ok(200, Select(logs, q))
    {
      r := Ok(200, Select(logs, q));
    }

    /** `POST`: `{ id: "log-<now>", ...body, created_at: now }`, appended and answered. */
    method Post(body: Object, now: nat) returns (r: Response<Object>)
      modifies this
      ensures r == Ok(200, Stamped("log-", body, now))
      ensures logs == old(logs) + [r.body]
    {
      var log := Stamped("log-", body, now);
      logs := logs + [log];
      r := Ok(200, log);
    }
  }
}
