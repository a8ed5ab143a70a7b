/** What executing one task decides, as a pure table over the outcomes of the
    client-library calls `Database::DoExecute` makes, and the first-failure
    search shared by the connect loop and the charset loop. */
module Execution {
  import opened Common

  /** The outcomes of the client calls made while one task runs:
      `mysql_real_query` on the leased connection and `mysql_error` right
      after it, `mysql_ping`, `mysql_real_connect` on a new handle, the retried
      `mysql_real_query`, `mysql_store_result` and `mysql_insert_id`. Only the
      ones the path taken consults matter. */
  datatype ExecOutcomes = ExecOutcomes(
    queryCode: int,
    queryError: string,
    pingCode: int,
    reconnected: bool,
    retryCode: int,
    stored: Option<StoredResult>,
    insertId: nat)

  const RECONNECT_ERROR: string := "Unable to reconnect to database"

  /** The path one execution takes through the decision tree. */
  datatype Path =
    | FirstTry          // the first query returned 0
    | StillAlive        // it failed, and the ping reported the connection alive
    | ReconnectFailed   // the connection was dead and could not be reopened
    | Retried           // reopened, and the single retry returned 0
    | RetryFailed       // reopened, and the retry failed too
    | NoVerdict         // a negative code: neither branch of the source fires

  function PathOf(o: ExecOutcomes): Path
  {
    if o.queryCode == 0 then FirstTry
    else if o.queryCode < 0 then NoVerdict
    else if o.pingCode <= 0 then StillAlive
    else if !o.reconnected then ReconnectFailed
    else if o.retryCode == 0 then Retried
    else if o.retryCode > 0 then RetryFailed
    else NoVerdict
  }

  /** The leased handle is closed and replaced exactly when the first query
      failed and the ping said the connection is dead. */
  predicate Replaces(o: ExecOutcomes)
  {
    o.queryCode > 0 && o.pingCode > 0
  }

  /** The query as the engine hands it to the completion queue: the
      decision tree of `DoExecute`, one branch per path. Only the outcome
      fields are written. */
  function Executed(q: Query, o: ExecOutcomes): (r: Query)
    ensures r.id == q.id && r.text == q.text && r.flags == q.flags
    ensures r.callback == q.callback && r.callbackRef == q.callbackRef
  {
    match PathOf(o)
    case FirstTry | Retried =>
      var s := q.(status := Success, result := o.stored);
      if HasFlag(q.flags, QUERY_FLAG_LASTID) then s.(lastId := o.insertId) else s
    case StillAlive | RetryFailed => q.(status := Fail, error := o.queryError, result := None)
    case ReconnectFailed => q.(status := Fail, error := RECONNECT_ERROR, result := None)
    case NoVerdict => q
  }

  /** What the engine decides for a query as constructed (status `Unset`,
      the only kind it is given), stated on the outcomes rather than on the
      paths: success exactly when the first query or, after a reconnect,
      the single retry returned 0; then the stored result and, with the
      LASTID flag, the insert id. Failure exactly when the first query
      failed and the connection was alive, could not be reopened, or the
      retry failed too; then no result and the text captured after the
      FIRST attempt, except when reopening failed. A negative code leaves
      the query as it was. */
  lemma ExecutedTable(q: Query, o: ExecOutcomes)
    requires q.status == Unset
    ensures var r := Executed(q, o);
      && (r.status == Success <==> o.queryCode == 0 || (Replaces(o) && o.reconnected && o.retryCode == 0))
      && (r.status == Fail <==> o.queryCode > 0 && (o.pingCode <= 0 || !o.reconnected || o.retryCode > 0))
      && (r.status == Success ==>
            && r.result == o.stored && r.error == q.error
            && r.lastId == (if HasFlag(q.flags, QUERY_FLAG_LASTID) then o.insertId else q.lastId))
      && (r.status == Fail ==>
            && r.result == None && r.lastId == q.lastId
            && r.error == (if Replaces(o) && !o.reconnected then RECONNECT_ERROR else o.queryError))
      && (r.status == Unset ==> r == q)
  {
  }

  /** A retry happens exactly when the connection was reopened, and never twice:
      the retry's own outcome decides success, while a failed retry reports
      the first attempt's error text. */
  lemma RetryFailureKeepsFirstError(q: Query, o: ExecOutcomes)
    requires q.status == Unset && Replaces(o) && o.reconnected && o.retryCode > 0
    ensures Executed(q, o).status == Fail && Executed(q, o).error == o.queryError
  {
  }

  /** A query whose codes are all non-negative always leaves with a status set,
      so no such task reaches the host without a verdict. */
  lemma StatusAlwaysSet(q: Query, o: ExecOutcomes)
    requires q.status == Unset && o.queryCode >= 0 && o.retryCode >= 0
    ensures Executed(q, o).status == Success || Executed(q, o).status == Fail
  {
  }

  /** Executing a list of tasks in order, the i-th execution seeing outcome
      `env(k + i)`. */
  function ExecutedAll(qs: seq<Query>, env: nat -> ExecOutcomes, k: nat): (r: seq<Query>)
    ensures |r| == |qs| && Ids(r) == Ids(qs)
  {
    if qs == [] then []
    else
      var front := qs[..|qs| - 1];
      assert qs == front + [qs[|qs| - 1]];
      IdsConcat(front, [qs[|qs| - 1]]);
      IdsConcat(ExecutedAll(front, env, k), [Executed(qs[|qs| - 1], env(k + |qs| - 1))]);
      ExecutedAll(front, env, k) + [Executed(qs[|qs| - 1], env(k + |qs| - 1))]
  }

  /** The i-th task executed is the i-th task given, run on the i-th outcome. */
  lemma {:induction false} ExecutedAllAt(qs: seq<Query>, env: nat -> ExecOutcomes, k: nat, i: nat)
    requires i < |qs|
    ensures ExecutedAll(qs, env, k)[i] == Executed(qs[i], env(k + i))
  {
    if i < |qs| - 1 {
      ExecutedAllAt(qs[..|qs| - 1], env, k, i);
    }
  }

  /** The index of the first element `bad` picks, or the length when there is
      none: how far a loop that stops at the first failure gets. */
  function FirstWhere<T>(s: seq<T>, bad: T -> bool): (k: nat)
    ensures k <= |s|
    ensures forall i :: 0 <= i < k ==> !bad(s[i])
    ensures k < |s| ==> bad(s[k])
  {
    if s == [] then 0
    else if bad(s[0]) then 0
    else 1 + FirstWhere(s[1..], bad)
  }

  /** The outcome of one `mysql_real_connect`: opened, or refused with the
      text `mysql_error` reports. */
  datatype ConnectAttempt = Opened | Refused(error: string)

  predicate IsRefused(a: ConnectAttempt)
  {
    a.Refused?
  }

  /** The return code of a client call and the `mysql_error` text after it. */
  datatype CallResult = CallResult(code: int, message: string)

  /** `mysql_set_character_set` failed: the source tests `> 0`. */
  predicate Rejects(c: CallResult)
  {
    c.code > 0
  }
}
