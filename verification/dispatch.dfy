/** Delivering completed queries to the host (`DispatchCompletedQueries` and
    `HandleQueryCallback` in gm_tmysql.cpp). What the host does is recorded
    as a list of events: references released, callbacks called with their
    arguments, results freed and queries deleted. What a callback does is an
    input: whether the reference names a function, and whether the call
    raises. */
module Dispatch {
  import opened Common
  import opened Engine
  import opened Rows

  /** One argument passed to a callback. */
  datatype Arg =
    | Context(ref: int)                             // the user-context reference
    | RowsArg(table: map<nat, map<Key, Cell>>)      // the result table
    | StatusArg(ok: bool)
    | LastIdArg(id: nat)
    | ErrorArg(text: string)

  /** What the host did, in order. */
  datatype Event =
    | Unref(ref: int)
    | Called(id: nat, args: seq<Arg>)
    | Freed(id: nat)
    | Deleted(id: nat)

  /** How the host side behaves for one query's callback reference: whether
      it names a function, and the error message when calling it raises. */
  datatype Reaction = Reaction(isFunction: bool, raises: Option<string>)

  /** The events of a step and the error it rethrew, if any. */
  datatype Outcome = Outcome(events: seq<Event>, thrown: Option<string>)

  /** The callback's arguments: the context when one was given, the result
      table, the status, then the insert id on success or the error text
      otherwise. Only `Success` counts as a true status. */
  function CallbackArgs(q: Query): (args: seq<Arg>)
    ensures |args| == if q.callbackRef >= 0 then 4 else 3
    ensures q.callbackRef >= 0 ==> args[0] == Context(q.callbackRef)
    ensures args[|args| - 3] == RowsArg(ResultTable(q.result, HasFlag(q.flags, QUERY_FLAG_ASSOC)))
    ensures args[|args| - 2] == StatusArg(q.status == Success)
    ensures args[|args| - 1] == if q.status == Success then LastIdArg(q.lastId) else ErrorArg(q.error)
  {
    (if q.callbackRef >= 0 then [Context(q.callbackRef)] else [])
      + [RowsArg(ResultTable(q.result, HasFlag(q.flags, QUERY_FLAG_ASSOC))),
         StatusArg(q.status == Success),
         if q.status == Success then LastIdArg(q.lastId) else ErrorArg(q.error)]
  }

  /** What `HandleQueryCallback` does for a query, as a value. */
  function CallbackOutcome(q: Query, r: Reaction, inShutdown: bool): Outcome
  {
    if !r.isFunction then Outcome([Unref(q.callback), Unref(q.callbackRef)], None)
    else
      var refs := if q.callbackRef >= 0 then [Unref(q.callback), Unref(q.callbackRef)] else [Unref(q.callback)];
      Outcome(refs + [Called(q.id, CallbackArgs(q))], if inShutdown then None else r.raises)
  }

  /** The callback reference is released first, and the context too when
      it is set or the callback is not a function; only a function is
      called, exactly once; an error surfaces only when the call raised and
      the host is not shutting down. */
  lemma CallbackShape(q: Query, r: Reaction, inShutdown: bool)
    ensures var out := CallbackOutcome(q, r, inShutdown);
      && out.events[0] == Unref(q.callback)
      && (q.callbackRef >= 0 || !r.isFunction ==> Unref(q.callbackRef) in out.events)
      && (r.isFunction <==> Called(q.id, CallbackArgs(q)) in out.events)
      && multiset(out.events)[Called(q.id, CallbackArgs(q))] == (if r.isFunction then 1 else 0)
      && (forall e :: e in out.events ==> e.Unref? || e == Called(q.id, CallbackArgs(q)))
      && (out.thrown.Some? <==> r.isFunction && !inShutdown && r.raises.Some?)
  {
  }

  /** `HandleQueryCallback`: releases the callback reference, gives up on a
      non-function (releasing the context too), otherwise pushes the
      arguments and calls it; an error is rethrown unless shutting down. */
  method HandleQueryCallback(q: Query, r: Reaction, inShutdown: bool) returns (out: Outcome)
    ensures out == CallbackOutcome(q, r, inShutdown)
  {
    var events := [Unref(q.callback)];
    if !r.isFunction {
      events := events + [Unref(q.callbackRef)];
      return Outcome(events, None);
    }
    var args: seq<Arg> := [];
    if q.callbackRef >= 0 {
      args := args + [Context(q.callbackRef)];
      events := events + [Unref(q.callbackRef)];
    }
    var table := PopulateTableFromQuery(q);
    args := args + [RowsArg(table)];
    args := args + [StatusArg(q.status == Success)];
    if q.status == Success {
      args := args + [LastIdArg(q.lastId)];
    } else {
      args := args + [ErrorArg(q.error)];
    }
    assert args == CallbackArgs(q);
    events := events + [Called(q.id, args)];
    if r.raises.Some? && !inShutdown {
      return Outcome(events, r.raises);
    }
    return Outcome(events, None);
  }

  /** One query of the completed list: its callback when it has one; then,
      unless that raised, its result freed when there is one and the query
      deleted. */
  function QueryOutcome(q: Query, r: Reaction, inShutdown: bool): Outcome
  {
    var cb := if q.callback >= 0 then CallbackOutcome(q, r, inShutdown) else Outcome([], None);
    if cb.thrown.Some? then cb
    else Outcome(cb.events + (if q.result.Some? then [Freed(q.id)] else []) + [Deleted(q.id)], None)
  }

  /** The whole list in link order; a rethrown error ends the walk, so the
      queries after it are never visited. */
  function DispatchList(list: seq<Query>, react: nat -> Reaction, inShutdown: bool): Outcome
  {
    if list == [] then Outcome([], None)
    else
      var before := DispatchList(list[..|list| - 1], react, inShutdown);
      if before.thrown.Some? then before
      else
        var last := list[|list| - 1];
        var o := QueryOutcome(last, react(last.id), inShutdown);
        Outcome(before.events + o.events, o.thrown)
  }

  /** Walking one more query of a list the walk got through so far appends
      that query's events. */
  lemma DispatchListStep(list: seq<Query>, react: nat -> Reaction, inShutdown: bool, i: nat)
    requires i < |list| && DispatchList(list[..i], react, inShutdown).thrown.None?
    ensures var o := QueryOutcome(list[i], react(list[i].id), inShutdown);
      DispatchList(list[..i + 1], react, inShutdown)
        == Outcome(DispatchList(list[..i], react, inShutdown).events + o.events, o.thrown)
  {
    assert list[..i + 1][..i] == list[..i];
  }

  /** The ids of the queries an event list deletes, in order. */
  function Deletions(events: seq<Event>): (ids: seq<nat>)
    ensures |ids| <= |events|
  {
    if events == [] then []
    else Deletions(events[..|events| - 1]) + (if events[|events| - 1].Deleted? then [events[|events| - 1].id] else [])
  }

  lemma {:induction false} DeletionsConcat(a: seq<Event>, b: seq<Event>)
    ensures Deletions(a + b) == Deletions(a) + Deletions(b)
    decreases |b|
  {
    if b != [] {
      var front := b[..|b| - 1];
      assert (a + b)[..|a + b| - 1] == a + front;
      assert (a + b)[|a + b| - 1] == b[|b| - 1];
      DeletionsConcat(a, front);
    } else {
      assert a + b == a;
    }
  }

  /** An event list without deletions deletes nothing. */
  lemma {:induction false} NoDeletions(events: seq<Event>)
    requires forall e :: e in events ==> !e.Deleted?
    ensures Deletions(events) == []
    decreases |events|
  {
    if events != [] {
      assert events[|events| - 1] in events;
      NoDeletions(events[..|events| - 1]);
    }
  }

  /** A callback only releases references and calls: it neither frees nor
      deletes anything. */
  lemma CallbackDeletesNothing(q: Query, r: Reaction, inShutdown: bool)
    ensures Deletions(CallbackOutcome(q, r, inShutdown).events) == []
    ensures Freed(q.id) !in CallbackOutcome(q, r, inShutdown).events
  {
    CallbackShape(q, r, inShutdown);
    NoDeletions(CallbackOutcome(q, r, inShutdown).events);
  }

  /** A query whose callback did not raise is deleted exactly once, as its
      last event; one whose callback raised is not deleted at all. */
  lemma QueryDeletions(q: Query, r: Reaction, inShutdown: bool)
    ensures var out := QueryOutcome(q, r, inShutdown);
      && (out.thrown.None? ==> Deletions(out.events) == [q.id] && out.events[|out.events| - 1] == Deleted(q.id))
      && (out.thrown.Some? ==> Deletions(out.events) == [])
  {
    var cb := if q.callback >= 0 then CallbackOutcome(q, r, inShutdown) else Outcome([], None);
    assert Deletions(cb.events) == [] by {
      if q.callback >= 0 {
        CallbackDeletesNothing(q, r, inShutdown);
      }
    }
    if cb.thrown.None? {
      var freed := if q.result.Some? then [Freed(q.id)] else [];
      DeletionsConcat(cb.events + freed, [Deleted(q.id)]);
      DeletionsConcat(cb.events, freed);
      assert Deletions(freed) == [] by {
        if q.result.Some? {
          assert freed[..0] == [];
        }
      }
      assert Deletions([Deleted(q.id)]) == [q.id] by {
        assert [Deleted(q.id)][..0] == [];
      }
    }
  }

  /** A query that gets past its callback has its result freed exactly when
      it has one; one whose callback raised keeps its result. */
  lemma QueryFrees(q: Query, r: Reaction, inShutdown: bool)
    ensures var out := QueryOutcome(q, r, inShutdown);
      && (out.thrown.None? ==> (Freed(q.id) in out.events <==> q.result.Some?))
      && (out.thrown.Some? ==> Freed(q.id) !in out.events)
  {
    var cb := if q.callback >= 0 then CallbackOutcome(q, r, inShutdown) else Outcome([], None);
    assert Freed(q.id) !in cb.events by {
      if q.callback >= 0 {
        CallbackDeletesNothing(q, r, inShutdown);
      }
    }
  }

  /** The callback runs exactly when the query's reference is set and names a
      function; an error surfaces exactly when that call raised outside
      shutdown. */
  lemma QueryCalls(q: Query, r: Reaction, inShutdown: bool)
    ensures var out := QueryOutcome(q, r, inShutdown);
      && (Called(q.id, CallbackArgs(q)) in out.events <==> q.callback >= 0 && r.isFunction)
      && (out.thrown.Some? <==> q.callback >= 0 && r.isFunction && !inShutdown && r.raises.Some?)
  {
    var cb := if q.callback >= 0 then CallbackOutcome(q, r, inShutdown) else Outcome([], None);
    if q.callback >= 0 {
      CallbackShape(q, r, inShutdown);
    }
    assert Called(q.id, CallbackArgs(q)) in cb.events <==> q.callback >= 0 && r.isFunction;
  }

  /** A walk that got through its whole list deletes what the walk of all
      but the last query deleted, then the last query. */
  lemma LastDeleted(list: seq<Query>, react: nat -> Reaction, inShutdown: bool)
    requires list != [] && DispatchList(list, react, inShutdown).thrown.None?
    ensures DispatchList(list[..|list| - 1], react, inShutdown).thrown.None?
    ensures Deletions(DispatchList(list, react, inShutdown).events)
              == Deletions(DispatchList(list[..|list| - 1], react, inShutdown).events) + [list[|list| - 1].id]
  {
    var last := list[|list| - 1];
    var before := DispatchList(list[..|list| - 1], react, inShutdown);
    var o := QueryOutcome(last, react(last.id), inShutdown);
    QueryDeletions(last, react(last.id), inShutdown);
    DeletionsConcat(before.events, o.events);
  }

  /** The identities of a non-empty list end with its last query's. */
  lemma IdsLast(list: seq<Query>)
    requires list != []
    ensures Ids(list) == Ids(list[..|list| - 1]) + [list[|list| - 1].id]
  {
    assert list == list[..|list| - 1] + [list[|list| - 1]];
    IdsConcat(list[..|list| - 1], [list[|list| - 1]]);
    assert Ids([list[|list| - 1]]) == [list[|list| - 1].id];
  }

  /** When nothing is rethrown, every query of the list is deleted exactly
      once, in link order. */
  lemma {:induction false} DeletesEachOnce(list: seq<Query>, react: nat -> Reaction, inShutdown: bool)
    requires DispatchList(list, react, inShutdown).thrown.None?
    ensures Deletions(DispatchList(list, react, inShutdown).events) == Ids(list)
    decreases |list|
  {
    if list != [] {
      LastDeleted(list, react, inShutdown);
      DeletesEachOnce(list[..|list| - 1], react, inShutdown);
      IdsLast(list);
    }
  }

  /** During shutdown no callback error escapes, so every query is deleted. */
  lemma {:induction false} ShutdownNeverThrows(list: seq<Query>, react: nat -> Reaction)
    ensures DispatchList(list, react, true).thrown.None?
    decreases |list|
  {
    if list != [] {
      ShutdownNeverThrows(list[..|list| - 1], react);
      var last := list[|list| - 1];
      QueryCalls(last, react(last.id), true);
    }
  }

  /** A rethrown error comes from the first query whose callback raised
      outside shutdown: the queries before it were all deleted, it and the
      rest were not. */
  lemma {:induction false} ThrowStopsWalk(list: seq<Query>, react: nat -> Reaction, inShutdown: bool)
    requires DispatchList(list, react, inShutdown).thrown.Some?
    ensures !inShutdown
    ensures exists j :: 0 <= j < |list| && Deletions(DispatchList(list, react, inShutdown).events) == Ids(list[..j])
    decreases |list|
  {
    var front, last := list[..|list| - 1], list[|list| - 1];
    var before := DispatchList(front, react, inShutdown);
    if before.thrown.Some? {
      ThrowStopsWalk(front, react, inShutdown);
      var j :| 0 <= j < |front| && Deletions(before.events) == Ids(front[..j]);
      assert front[..j] == list[..j];
    } else {
      DeletesEachOnce(front, react, inShutdown);
      QueryDeletions(last, react(last.id), inShutdown);
      QueryCalls(last, react(last.id), inShutdown);
      DeletionsConcat(before.events, QueryOutcome(last, react(last.id), inShutdown).events);
      assert list[..|list| - 1] == front;
    }
  }

  /** After the walk stopped at position `i`, later queries change nothing. */
  lemma {:induction false} StoppedStaysStopped(list: seq<Query>, react: nat -> Reaction, inShutdown: bool, i: nat)
    requires i <= |list| && DispatchList(list[..i], react, inShutdown).thrown.Some?
    ensures DispatchList(list, react, inShutdown) == DispatchList(list[..i], react, inShutdown)
    decreases |list| - i
  {
    if i < |list| {
      var front := list[..|list| - 1];
      assert front[..i] == list[..i];
      StoppedStaysStopped(front, react, inShutdown, i);
    } else {
      assert list[..i] == list;
    }
  }

  /** The body of the walk for one query: its callback when it has one;
      unless that raised, its result freed when there is one and the query
      deleted. */
  method DispatchQuery(query: Query, r: Reaction, inShutdown: bool) returns (o: Outcome)
    ensures o == QueryOutcome(query, r, inShutdown)
  {
    var events: seq<Event> := [];
    if query.callback >= 0 {
      var cb := HandleQueryCallback(query, r, inShutdown);
      events := cb.events;
      if cb.thrown.Some? {
        return cb;
      }
    }
    if query.result.Some? {
      events := events + [Freed(query.id)];
    }
    events := events + [Deleted(query.id)];
    return Outcome(events, None);
  }

  /** The walk of `DispatchCompletedQueries` over the detached list, in
      link order. A callback error rethrown on the way ends the walk at
      once: the rest of the list is never visited. */
  method WalkCompleted(completed: seq<Query>, react: nat -> Reaction, inShutdown: bool) returns (out: Outcome)
    ensures out == DispatchList(completed, react, inShutdown)
  {
    var events: seq<Event> := [];
    var i := 0;
    while i < |completed|
      invariant i <= |completed|
      invariant Outcome(events, None) == DispatchList(completed[..i], react, inShutdown)
    {
      DispatchListStep(completed, react, inShutdown, i);
      var o := DispatchQuery(completed[i], react(completed[i].id), inShutdown);
      events := events + o.events;
      if o.thrown.Some? {
        StoppedStaysStopped(completed, react, inShutdown, i + 1);
        return Outcome(events, o.thrown);
      }
      i := i + 1;
    }
    assert completed[..i] == completed;
    return Outcome(events, None);
  }

  /** `DispatchCompletedQueries`: detaches the completed list under the
      lock, then walks it. */
  method DispatchCompletedQueries(db: Database, react: nat -> Reaction, inShutdown: bool) returns (out: Outcome)
    modifies db`completed, db`drained
    ensures out == DispatchList(old(db.completed), react, inShutdown)
    ensures db.Tasks() == Drain(old(db.Tasks()))
  {
    var completed := db.GetCompletedQueries();
    out := WalkCompleted(completed, react, inShutdown);
  }
}
