/** The host binding of tmysql4 (gm_tmysql.cpp): the registry of open
    databases by name, the handles scripts hold, and the functions scripts
    call on a handle. A handle whose engine pointer was nulled by
    `Disconnect` turns every later call into a no-op.

    The scripting host is not modelled: its numbers arrive as `real`s, its
    reference numbers come from a counter, and what a callback does is an
    input (a `Reaction` per query, and the queries callbacks queue while a
    database is being disconnected). */
module Binding {
  import opened Common
  import opened Execution
  import opened Engine
  import opened Rows
  import opened Dispatch

  const DEFAULT_PORT: int := 3306

  /** C's conversion of a `double` to `int`: truncation toward zero. A value
      outside the range of `int` is undefined behaviour in the source. */
  function TruncateToInt(x: real): (n: int)
    ensures 0.0 <= x ==> 0 <= n && n as real <= x < n as real + 1.0
    ensures x < 0.0 ==> n <= 0 && n as real - 1.0 < x <= n as real
  {
    if x >= 0.0 then x.Floor else -((-x).Floor)
  }

  /** The port `initialize` connects to: argument 5 truncated when it is a
      number, 3306 otherwise. */
  function PortOf(arg: Option<real>): (port: int)
    ensures arg.None? ==> port == DEFAULT_PORT
    ensures arg.Some? && 0.0 <= arg.value ==> port as real <= arg.value < port as real + 1.0
    ensures arg.Some? && arg.value < 0.0 ==> port as real - 1.0 < arg.value <= port as real
  {
    match arg
    case None => DEFAULT_PORT
    case Some(x) => TruncateToInt(x)
  }

  /** The userdata a script holds: the engine, or null once disconnected. */
  class Handle {
    var db: Database?

    constructor (db: Database)
      ensures this.db == db
    {
      this.db := db;
    }
  }

  /** The engine a handle still points to, as a frame. */
  function Live(h: Handle): (s: set<Database>)
    reads h
    ensures h.db != null <==> h.db in s
    ensures forall d :: d in s ==> d == h.db
  {
    if h.db == null then {} else {h.db}
  }

  /** What `initialize` hands back: the handle already registered under the
      name, the error of a refused connect, or a new handle. */
  datatype Opened = Existing(handle: Handle) | Failed(error: string) | Connected(handle: Handle)

  /** A `query` call a callback makes, with the references it created. */
  datatype Submission = Submission(text: string, callback: int, flags: int, callbackRef: int)

  /** The task state after the submissions were queued one after another. */
  function EnqueueAll(t: TaskState, subs: seq<Submission>): (r: TaskState)
    ensures r.completed == t.completed && r.drained == t.drained
    ensures |r.pending| == |t.pending| + |subs|
    ensures t.submitted <= r.submitted
  {
    if subs == [] then t
    else
      var s := subs[|subs| - 1];
      Enqueue(EnqueueAll(t, subs[..|subs| - 1]), s.text, s.callback, s.flags, s.callbackRef)
  }

  lemma {:induction false} EnqueueAllKeepsTasks(t: TaskState, subs: seq<Submission>)
    requires TaskInv(t)
    ensures TaskInv(EnqueueAll(t, subs))
  {
    if subs != [] {
      var s := subs[|subs| - 1];
      EnqueueAllKeepsTasks(t, subs[..|subs| - 1]);
      EnqueueKeepsTasks(EnqueueAll(t, subs[..|subs| - 1]), s.text, s.callback, s.flags, s.callbackRef);
    }
  }

  /** One round of the drain on the task state: the host takes the
      completion list, the callbacks' queries are queued, and everything
      queued runs. Nothing is left queued, and nothing is left completed
      when there was nothing to run. */
  function Round(t: TaskState, subs: seq<Submission>, env: nat -> ExecOutcomes, k: nat): (r: TaskState)
    ensures r.pending == [] && r.drained == t.drained + Ids(t.completed)
    ensures |t.pending| + |subs| == 0 ==> r.completed == []
    ensures t.submitted <= r.submitted
  {
    RunAll(EnqueueAll(Drain(t), subs), env, k)
  }

  lemma RoundKeepsTasks(t: TaskState, subs: seq<Submission>, env: nat -> ExecOutcomes, k: nat)
    requires TaskInv(t)
    ensures TaskInv(Round(t, subs, env, k))
  {
    DrainKeepsTasks(t);
    EnqueueAllKeepsTasks(Drain(t), subs);
    RunAllKeepsTasks(EnqueueAll(Drain(t), subs), env, k);
  }

  /** The queries callbacks queue during the `n`-th dispatch of a drain;
      none once the script is used up. */
  function Queued(script: seq<seq<Submission>>, n: nat): (subs: seq<Submission>)
    ensures n >= |script| ==> subs == []
  {
    if n < |script| then script[n] else []
  }

  /** What the drain of `DisconnectDB` moves: the engine's tasks, the events
      of the dispatches so far with the callback error that escaped, if any,
      and how many tasks have run. */
  datatype DrainState = DrainState(tasks: TaskState, out: Outcome, executed: nat)

  /** One round of the drain: the completion list is dispatched and the
      queries the callbacks made are queued; unless a callback error
      escaped, everything queued runs. Every query taken is deleted once,
      in delivery order, unless an error escaped, which happens only
      outside shutdown; then what the callbacks queued before it stays
      queued. */
  function Step(s: DrainState, subs: seq<Submission>, env: nat -> ExecOutcomes,
                react: nat -> Reaction, inShutdown: bool): (r: DrainState)
    ensures r.tasks.drained == s.tasks.drained + Ids(s.tasks.completed)
    ensures s.tasks.submitted <= r.tasks.submitted
    ensures r.out.thrown.Some? ==> !inShutdown && r.executed == s.executed
    ensures r.out.thrown.None? ==>
      && r.tasks.pending == [] && (|s.tasks.pending| + |subs| == 0 ==> r.tasks.completed == [])
      && Deletions(r.out.events) == Deletions(s.out.events) + Ids(s.tasks.completed)
  {
    var o := DispatchList(s.tasks.completed, react, inShutdown);
    var out := Outcome(s.out.events + o.events, o.thrown);
    if o.thrown.Some? then
      ThrowStopsWalk(s.tasks.completed, react, inShutdown);
      DrainState(EnqueueAll(Drain(s.tasks), subs), out, s.executed)
    else
      DeletesEachOnce(s.tasks.completed, react, inShutdown);
      DeletionsConcat(s.out.events, o.events);
      DrainState(Round(s.tasks, subs, env, s.executed), out, s.executed + |s.tasks.pending| + |subs|)
  }

  /** A round keeps the task bookkeeping consistent, whether or not a
      callback error escaped it. */
  lemma StepKeepsTasks(s: DrainState, subs: seq<Submission>, env: nat -> ExecOutcomes,
                       react: nat -> Reaction, inShutdown: bool)
    ensures TaskInv(s.tasks) ==> TaskInv(Step(s, subs, env, react, inShutdown).tasks)
  {
    if TaskInv(s.tasks) {
      if DispatchList(s.tasks.completed, react, inShutdown).thrown.None? {
        RoundKeepsTasks(s.tasks, subs, env, s.executed);
      } else {
        DrainKeepsTasks(s.tasks);
        EnqueueAllKeepsTasks(Drain(s.tasks), subs);
      }
    }
  }

  /** A round a callback error escapes runs nothing, but the queries the
      callbacks made before the error stay queued behind what was queued
      already. */
  lemma StepRaised(s: DrainState, subs: seq<Submission>, env: nat -> ExecOutcomes,
                   react: nat -> Reaction, inShutdown: bool)
    ensures var r := Step(s, subs, env, react, inShutdown);
      r.out.thrown.Some? ==>
        && r.tasks == EnqueueAll(Drain(s.tasks), subs)
        && r.tasks.pending[..|s.tasks.pending|] == s.tasks.pending
        && |r.tasks.pending| == |s.tasks.pending| + |subs|
  {
  }

  /** Two stretches of a log, each appending to the identities taken and
      to the deletions alike, append the same to both together. */
  lemma Chain(taken0: seq<nat>, taken1: seq<nat>, taken2: seq<nat>,
              deleted0: seq<nat>, deleted1: seq<nat>, deleted2: seq<nat>)
    requires taken0 <= taken1 <= taken2
    requires deleted1 == deleted0 + taken1[|taken0|..]
    requires deleted2 == deleted1 + taken2[|taken1|..]
    ensures deleted2 == deleted0 + taken2[|taken0|..]
  {
    SliceSplit(taken0, taken1[|taken0|..], taken2);
    assert taken0 + taken1[|taken0|..] == taken1;
  }

  /** What follows a prefix `a + b` of `r` once `a` is dropped. */
  lemma SliceSplit<T>(a: seq<T>, b: seq<T>, r: seq<T>)
    requires a + b <= r
    ensures r[|a|..] == b + r[|a + b|..]
  {
    assert r == a + b + r[|a + b|..];
  }

  /** The loop of `DisconnectDB`: while the last run did some work (`count`
      tasks), one more round, the `pass`-th; a callback error ends it. It
      ends with nothing queued or completed; the identities it takes are
      appended to those taken before, each query it takes is deleted once,
      in delivery order, unless a callback error escaped, which happens
      only outside shutdown. */
  function Rounds(s: DrainState, script: seq<seq<Submission>>, pass: nat, count: nat,
                  env: nat -> ExecOutcomes, react: nat -> Reaction, inShutdown: bool): (r: DrainState)
    requires s.tasks.pending == [] && (count == 0 ==> s.tasks.completed == [])
    ensures r.out.thrown.None? ==> r.tasks.pending == [] && r.tasks.completed == []
    ensures s.tasks.drained <= r.tasks.drained && s.tasks.submitted <= r.tasks.submitted
    ensures r.out.thrown.Some? ==> s.out.thrown.Some? || !inShutdown
    ensures r.out.thrown.None? ==>
      Deletions(r.out.events) == Deletions(s.out.events) + r.tasks.drained[|s.tasks.drained|..]
    decreases if count == 0 then 0 else if pass < |script| then |script| - pass + 1 else 1
  {
    if count == 0 then s
    else
      var subs := Queued(script, pass);
      var n := Step(s, subs, env, react, inShutdown);
      if n.out.thrown.Some? then n
      else
        var r := Rounds(n, script, pass + 1, |subs|, env, react, inShutdown);
        if r.out.thrown.Some? then r
        else
          assert n.tasks.drained[|s.tasks.drained|..] == Ids(s.tasks.completed);
          Chain(s.tasks.drained, n.tasks.drained, r.tasks.drained,
                Deletions(s.out.events), Deletions(n.out.events), Deletions(r.out.events));
          r
  }

  /** The loop keeps the task bookkeeping consistent, unless a callback
      error escaped it. */
  lemma {:induction false} RoundsKeepsTasks(s: DrainState, script: seq<seq<Submission>>, pass: nat, count: nat,
                                            env: nat -> ExecOutcomes, react: nat -> Reaction, inShutdown: bool)
    requires s.tasks.pending == [] && (count == 0 ==> s.tasks.completed == [])
    requires TaskInv(s.tasks)
    ensures var r := Rounds(s, script, pass, count, env, react, inShutdown);
      r.out.thrown.None? ==> TaskInv(r.tasks)
    decreases if count == 0 then 0 else if pass < |script| then |script| - pass + 1 else 1
  {
    if count > 0 {
      var subs := Queued(script, pass);
      var n := Step(s, subs, env, react, inShutdown);
      StepKeepsTasks(s, subs, env, react, inShutdown);
      RoundsUnfold(s, script, pass, count, env, react, inShutdown);
      if n.out.thrown.None? {
        RoundsKeepsTasks(n, script, pass + 1, |subs|, env, react, inShutdown);
        assert Rounds(s, script, pass, count, env, react, inShutdown)
            == Rounds(n, script, pass + 1, |subs|, env, react, inShutdown);
      }
    }
  }

  /** One more round of the loop: it ends where a round a callback error
      escapes ends, and otherwise goes on from that round with its count. */
  lemma RoundsUnfold(s: DrainState, script: seq<seq<Submission>>, pass: nat, count: nat,
                     env: nat -> ExecOutcomes, react: nat -> Reaction, inShutdown: bool)
    requires s.tasks.pending == [] && count > 0
    ensures var n := Step(s, Queued(script, pass), env, react, inShutdown);
      && (n.out.thrown.Some? ==> Rounds(s, script, pass, count, env, react, inShutdown) == n)
      && (n.out.thrown.None? ==>
            Rounds(s, script, pass, count, env, react, inShutdown)
              == Rounds(n, script, pass + 1, |Queued(script, pass)|, env, react, inShutdown))
  {
  }

  /** The task state once `Shutdown` joined the workers: those started
      finished everything queued. */
  function Joined(t: TaskState, k: nat, started: bool, env: nat -> ExecOutcomes): (s: DrainState)
    ensures s.out == Outcome([], None) && s.tasks.drained == t.drained && s.tasks.submitted == t.submitted
    ensures started ==> s.tasks.pending == [] && s.executed == k + |t.pending|
    ensures !started ==> s.tasks == t && s.executed == k
  {
    if started then DrainState(RunAll(t, env, k), Outcome([], None), k + |t.pending|)
    else DrainState(t, Outcome([], None), k)
  }

  /** The drain after its first round `s1`, whose run did `count` tasks. */
  function AfterFirst(s1: DrainState, count: nat, script: seq<seq<Submission>>,
                      env: nat -> ExecOutcomes, react: nat -> Reaction, inShutdown: bool): (r: DrainState)
    requires s1.out.thrown.None? ==> s1.tasks.pending == [] && (count == 0 ==> s1.tasks.completed == [])
    ensures s1.tasks.drained <= r.tasks.drained && s1.tasks.submitted <= r.tasks.submitted
    ensures r.out.thrown.Some? ==> s1.out.thrown.Some? || !inShutdown
    ensures r.out.thrown.None? ==>
      && r.tasks.pending == [] && r.tasks.completed == []
      && Deletions(r.out.events) == Deletions(s1.out.events) + r.tasks.drained[|s1.tasks.drained|..]
  {
    if s1.out.thrown.Some? then s1 else Rounds(s1, script, 1, count, env, react, inShutdown)
  }

  /** How many tasks the run of the first round does: those no worker took,
      and the queries the first dispatch queued. */
  function FirstCount(t: TaskState, started: bool, script: seq<seq<Submission>>): nat
  {
    (if started then 0 else |t.pending|) + |Queued(script, 0)|
  }

  /** The workers, if any were started, finish what is queued; then a first
      round, whose run also takes what no worker ran. */
  function FirstRound(t: TaskState, k: nat, started: bool, script: seq<seq<Submission>>,
                      env: nat -> ExecOutcomes, react: nat -> Reaction, inShutdown: bool): (r: DrainState)
    ensures t.drained <= r.tasks.drained && t.submitted <= r.tasks.submitted
    ensures r.out.thrown.Some? ==> !inShutdown
    ensures r.out.thrown.None? ==>
      && r.tasks.pending == [] && (FirstCount(t, started, script) == 0 ==> r.tasks.completed == [])
      && Deletions(r.out.events) == r.tasks.drained[|t.drained|..]
  {
    var j := Joined(t, k, started, env);
    var r := Step(j, Queued(script, 0), env, react, inShutdown);
    assert r.tasks.drained[|t.drained|..] == Ids(j.tasks.completed);
    r
  }

  /** The whole of `DisconnectDB` on the task state: the first round, then
      the loop. No callback error escapes it while the module shuts down;
      when none escapes, nothing is left queued or completed, and each
      query it delivers is deleted exactly once, in delivery order. */
  function Disconnected(t: TaskState, k: nat, started: bool, script: seq<seq<Submission>>,
                        env: nat -> ExecOutcomes, react: nat -> Reaction, inShutdown: bool): (r: DrainState)
    ensures r.out.thrown.Some? ==> !inShutdown
    ensures t.drained <= r.tasks.drained && t.submitted <= r.tasks.submitted
    ensures r.out.thrown.None? ==>
      && r.tasks.pending == [] && r.tasks.completed == []
      && Deletions(r.out.events) == r.tasks.drained[|t.drained|..]
  {
    var s1 := FirstRound(t, k, started, script, env, react, inShutdown);
    var r := AfterFirst(s1, FirstCount(t, started, script), script, env, react, inShutdown);
    assert t.drained + s1.tasks.drained[|t.drained|..] == s1.tasks.drained;
    SliceSplit(t.drained, s1.tasks.drained[|t.drained|..], r.tasks.drained);
    r
  }

  /** With nothing queued or completed, every identity ever queued was
      taken exactly once. */
  lemma AllTaken(t: TaskState)
    requires TaskInv(t) && t.pending == [] && t.completed == []
    ensures forall id :: multiset(t.drained)[id] == if id in t.submitted then 1 else 0
  {
    forall id
      ensures multiset(t.drained)[id] == if id in t.submitted then 1 else 0
    {
      QuiescentTookAll(t, id);
    }
  }

  /** Joining the workers and the first round keep the task bookkeeping
      consistent. */
  lemma FirstRoundKeepsTasks(t: TaskState, k: nat, started: bool, script: seq<seq<Submission>>,
                             env: nat -> ExecOutcomes, react: nat -> Reaction, inShutdown: bool)
    requires TaskInv(t)
    ensures TaskInv(FirstRound(t, k, started, script, env, react, inShutdown).tasks)
  {
    var j := Joined(t, k, started, env);
    if started {
      RunAllKeepsTasks(t, env, k);
    }
    StepKeepsTasks(j, Queued(script, 0), env, react, inShutdown);
  }

  /** Unless a callback error escapes `DisconnectDB`, every task ever
      queued on the engine was taken off the completion list exactly once,
      by this drain or by an earlier `poll`. A query an earlier `poll` took
      and left on its list after a callback error is counted as taken,
      though it was never called back or deleted. */
  lemma DisconnectedTakesAll(t: TaskState, k: nat, started: bool, script: seq<seq<Submission>>,
                                env: nat -> ExecOutcomes, react: nat -> Reaction, inShutdown: bool)
    requires TaskInv(t)
    ensures var r := Disconnected(t, k, started, script, env, react, inShutdown);
      && (r.out.thrown.None? ==> forall id :: multiset(r.tasks.drained)[id] == if id in r.tasks.submitted then 1 else 0)
      && (r.out.thrown.None? ==> forall id :: id in t.submitted ==> multiset(r.tasks.drained)[id] == 1)
  {
    FirstRoundKeepsTasks(t, k, started, script, env, react, inShutdown);
    var s1 := FirstRound(t, k, started, script, env, react, inShutdown);
    var r := AfterFirst(s1, FirstCount(t, started, script), script, env, react, inShutdown);
    assert Disconnected(t, k, started, script, env, react, inShutdown) == r;
    if s1.out.thrown.None? {
      RoundsKeepsTasks(s1, script, 1, FirstCount(t, started, script), env, react, inShutdown);
    }
    if r.out.thrown.None? {
      AllTaken(r.tasks);
    }
  }

  /** An engine a script may use and shut down: running, and its task
      and connection bookkeeping consistent. */
  ghost predicate Ready(db: Database)
    reads db
  {
    db.Valid() && db.phase == Running && TaskInv(db.Tasks()) && PoolInv(db.Pool())
  }

  /** The engine's pool is what running its tasks number `k0`, `k0 + 1`,
      ... up to its execution counter made of `p0`: with no idle connection
      in `p0` nothing ran. */
  ghost predicate RanFrom(db: Database, p0: PoolState, env: nat -> ExecOutcomes, k0: nat)
    reads db
  {
    && k0 <= db.executed && |db.available| == |p0.available|
    && (|p0.available| > 0 || db.executed == k0)
    && db.Pool() == RunPool(p0, env, k0, db.executed - k0)
  }

  /** The engine's pool is the release of what running its tasks number
      `k0` up to its execution counter made of `p0`. */
  ghost predicate ReleasedFrom(db: Database, p0: PoolState, env: nat -> ExecOutcomes, k0: nat)
    reads db
  {
    && k0 <= db.executed
    && (|p0.available| > 0 || db.executed == k0)
    && db.Pool() == AfterRelease(RunPool(p0, env, k0, db.executed - k0))
  }

  /** The `tmysql` module state. */
  class Host {
    /** NUM_CON_DEFAULT and NUM_THREADS_DEFAULT, given to every engine. */
    const poolSize: nat
    const threadCount: nat

    /** The table of open databases, keyed by database name. */
    var registry: map<string, Handle>
    var inShutdown: bool
    /** The next reference number the host hands out. */
    var nextRef: nat

    constructor (poolSize: nat, threadCount: nat)
      ensures this.poolSize == poolSize && this.threadCount == threadCount
      ensures registry == map[] && !inShutdown && nextRef == 0
    {
      this.poolSize, this.threadCount := poolSize, threadCount;
      registry, inShutdown, nextRef := map[], false, 0;
    }

    /** `initialize`: create-or-fetch by database name. A name already
        registered gives its handle back without building an engine. Else
        an engine is built and initialised; when a connect is refused the
        registry is left alone and the error is returned, and only a
        successful engine is registered, under its name. */
    method Initialize(host: string, user: string, pass: string, name: string,
                      portArg: Option<real>, socket: Option<string>, attempts: seq<ConnectAttempt>)
      returns (r: Opened)
      requires |attempts| == poolSize
      modifies this`registry
      ensures name in old(registry) ==> r == Existing(old(registry)[name]) && registry == old(registry)
      ensures name !in old(registry) ==> var k := FirstWhere(attempts, IsRefused);
        && !r.Existing?
        && (r.Failed? <==> k < poolSize)
        && (r.Failed? ==> k < |attempts| && r.error == attempts[k].error && registry == old(registry))
        && (r.Connected? ==>
              && fresh(r.handle) && fresh(r.handle.db) && registry == old(registry)[name := r.handle]
              && r.handle.db != null && Ready(r.handle.db)
              && r.handle.db.config == Config(host, user, pass, name, PortOf(portArg), socket)
              && r.handle.db.Pool() == AfterInitialize(PoolState([], [], [], 0), poolSize, true)
              && r.handle.db.Tasks() == TaskState([], [], [], [], 0)
              && r.handle.db.workers == threadCount)
    {
      if name in registry {
        return Existing(registry[name]);
      }
      var db := new Database(Config(host, user, pass, name, PortOf(portArg), socket), poolSize, threadCount);
      var ok, error := db.Initialize(attempts);
      if !ok {
        return Failed(error);
      }
      InitializeKeepsPool(PoolState([], [], [], 0), poolSize, true);
      var h := new Handle(db);
      registry := registry[name := h];
      return Connected(h);
    }

    /** `getdatabase`: the handle registered under a name, if any. */
    function GetDatabase(name: string): (r: Option<Handle>)
      reads this
      ensures r.Some? <==> name in registry
      ensures r.Some? ==> r.value == registry[name]
    {
      if name in registry then Some(registry[name]) else None
    }

    /** `query`: on a live handle, takes a reference to the callback when
        argument 3 is a function and to the context when argument 5 is not
        nil, and queues the task; argument 4 (0 when it is not a number)
        gives the flags. */
    method Query(h: Handle, text: string, callbackIsFunction: bool, flagsArg: real, contextIsNil: bool)
      requires h.db != null ==> h.db.phase == Running || h.db.phase == Draining
      requires h.db != null ==> -0x8000_0000 <= TruncateToInt(flagsArg) < 0x8000_0000
      modifies this`nextRef, Live(h)`pending, Live(h)`nextQueryId, Live(h)`submitted
      ensures h.db == null ==> nextRef == old(nextRef)
      ensures h.db != null ==>
        var cb := if callbackIsFunction then old(nextRef) else -1;
        var ctx := if contextIsNil then -1 else if callbackIsFunction then old(nextRef) + 1 else old(nextRef);
        && nextRef == old(nextRef) + (if callbackIsFunction then 1 else 0) + (if contextIsNil then 0 else 1)
        && h.db.Tasks() == Enqueue(old(h.db.Tasks()), text, cb, TruncateToInt(flagsArg), ctx)
    {
      var mysqldb := h.db;
      if mysqldb == null {
        return;
      }
      var callbackfunc: int := -1;
      if callbackIsFunction {
        callbackfunc := nextRef;
        nextRef := nextRef + 1;
      }
      var flags := TruncateToInt(flagsArg);
      var callbackref: int := -1;
      if !contextIsNil {
        callbackref := nextRef;
        nextRef := nextRef + 1;
      }
      mysqldb.QueueQuery(text, callbackfunc, flags, callbackref);
    }

    /** `poll`: dispatches the handle's completed queries. */
    method Poll(h: Handle, react: nat -> Reaction) returns (out: Outcome)
      modifies Live(h)`completed, Live(h)`drained
      ensures h.db == null ==> out == Outcome([], None)
      ensures h.db != null ==>
        && out == DispatchList(old(h.db.completed), react, inShutdown)
        && h.db.Tasks() == Drain(old(h.db.Tasks()))
    {
      var mysqldb := h.db;
      if mysqldb == null {
        return Outcome([], None);
      }
      out := DispatchCompletedQueries(mysqldb, react, inShutdown);
    }

    /** `dbescape`, for its effect on the pool: leases a connection for good. */
    method DbEscape(h: Handle)
      requires h.db != null ==> h.db.Valid() && (h.db.phase == Running || h.db.phase == Draining) && |h.db.available| > 0
      modifies Live(h)`available, Live(h)`escapeHeld
      ensures h.db != null ==> h.db.Valid() && h.db.Pool() == AfterEscape(old(h.db.Pool()))
    {
      var mysqldb := h.db;
      if mysqldb == null {
        return;
      }
      mysqldb.Escape();
    }

    /** `setcharset`: switches the handle's connections; the outcome is
        dropped. */
    method SetCharset(h: Handle, charset: string, codes: seq<CallResult>)
      requires h.db != null ==> |codes| == |h.db.available|
      modifies Live(h)`charsets
      ensures h.db != null ==>
        h.db.charsets == Switched(old(h.db.charsets), h.db.available[..FirstWhere(codes, Rejects)], charset)
    {
      var mysqldb := h.db;
      if mysqldb == null {
        return;
      }
      var _, _ := mysqldb.SetCharacterSet(charset, codes);
    }

    /** The queries callbacks queue through `query` during a dispatch. */
    method Resubmit(db: Database, subs: seq<Submission>)
      requires db.phase == Running || db.phase == Draining
      modifies db`pending, db`nextQueryId, db`submitted
      ensures db.Tasks() == EnqueueAll(old(db.Tasks()), subs)
    {
      var i := 0;
      while i < |subs|
        invariant i <= |subs|
        invariant db.Tasks() == EnqueueAll(old(db.Tasks()), subs[..i])
        modifies db`pending, db`nextQueryId, db`submitted
      {
        assert subs[..i + 1][..i] == subs[..i];
        var s := subs[i];
        db.QueueQuery(s.text, s.callback, s.flags, s.callbackRef);
        i := i + 1;
      }
      assert subs[..i] == subs;
    }

    /** One dispatch of `DisconnectDB` with the queries its callbacks
        queue: each `query` a callback makes is posted at once, so those
        made before a callback error escaped stay queued. */
    method DispatchPass(db: Database, react: nat -> Reaction, subs: seq<Submission>) returns (o: Outcome)
      requires db.phase == Draining
      modifies db`completed, db`drained, db`pending, db`nextQueryId, db`submitted
      ensures o == DispatchList(old(db.completed), react, inShutdown)
      ensures db.Tasks() == EnqueueAll(Drain(old(db.Tasks())), subs)
      ensures db.Pool() == old(db.Pool())
    {
      o := DispatchCompletedQueries(db, react, inShutdown);
      Resubmit(db, subs);
    }

    /** The `RunShutdownWork` of a drain round, which keeps the pool what
        the runs since `k0` made of `p0`. */
    method RunDrained(db: Database, env: nat -> ExecOutcomes, ghost p0: PoolState, ghost k0: nat) returns (count: nat)
      requires db.Valid() && db.phase == Draining && RanFrom(db, p0, env, k0)
      requires db.pending == [] || |db.available| > 0
      modifies db`available, db`closed, db`nextHandle, db`completed, db`pending, db`executed
      ensures db.Valid() && count == |old(db.pending)| && db.executed == old(db.executed) + count
      ensures db.Tasks() == RunAll(old(db.Tasks()), env, old(db.executed))
      ensures RanFrom(db, p0, env, k0)
    {
      ghost var a, q := db.executed - k0, db.Pool();
      assert q == RunPool(p0, env, k0, a);
      count := db.RunShutdownWork(env);
      assert db.Pool() == RunPool(q, env, k0 + a, count);
      RunPoolConcat(p0, env, k0, a, count);
      assert db.executed - k0 == a + count;
    }

    /** One round of the drain in `DisconnectDB`: a dispatch with the
        queries its callbacks queued, then, when no error escaped it, a
        `RunShutdownWork`, whose count is returned. `prev` is what the
        earlier rounds produced. */
    method DrainRound(db: Database, env: nat -> ExecOutcomes, react: nat -> Reaction, subs: seq<Submission>, prev: Outcome,
                      ghost p0: PoolState, ghost k0: nat)
      returns (out: Outcome, count: nat)
      requires db.Valid() && db.phase == Draining && RanFrom(db, p0, env, k0)
      requires |db.available| > 0 || (db.pending == [] && subs == [])
      modifies db`completed, db`drained, db`pending, db`nextQueryId, db`submitted,
               db`available, db`closed, db`nextHandle, db`executed
      ensures db.Valid() && db.phase == Draining && |db.available| == |old(db.available)|
      ensures DrainState(db.Tasks(), out, db.executed)
                == Step(DrainState(old(db.Tasks()), prev, old(db.executed)), subs, env, react, inShutdown)
      ensures out.thrown.None? ==> count == |old(db.pending)| + |subs|
      ensures out.thrown.Some? ==> count == 0
      ensures db.executed == old(db.executed) + count && RanFrom(db, p0, env, k0)
    {
      ghost var s := DrainState(db.Tasks(), prev, db.executed);
      var o := DispatchPass(db, react, subs);
      out := Outcome(prev.events + o.events, o.thrown);
      if o.thrown.Some? {
        return out, 0;
      }
      count := RunDrained(db, env, p0, k0);
      assert db.Tasks() == Round(s.tasks, subs, env, s.executed);
    }

    /** The `pass`-th round of the loop of `DisconnectDB`: it ends the loop
        where a callback error escapes and otherwise leaves the rest of the
        loop to do. */
    method NextRound(db: Database, env: nat -> ExecOutcomes, react: nat -> Reaction, script: seq<seq<Submission>>,
                     pass: nat, count: nat, prev: Outcome, ghost p0: PoolState, ghost k0: nat)
      returns (out: Outcome, next: nat)
      requires db.Valid() && db.phase == Draining && RanFrom(db, p0, env, k0) && |db.available| > 0
      requires db.pending == [] && count > 0
      modifies db`completed, db`drained, db`pending, db`nextQueryId, db`submitted,
               db`available, db`closed, db`nextHandle, db`executed
      ensures db.Valid() && db.phase == Draining && RanFrom(db, p0, env, k0) && |db.available| > 0
      ensures out.thrown.Some? ==>
        DrainState(db.Tasks(), out, db.executed)
          == Rounds(DrainState(old(db.Tasks()), prev, old(db.executed)), script, pass, count, env, react, inShutdown)
      ensures out.thrown.None? ==>
        && db.pending == [] && (next == 0 ==> db.completed == []) && next == |Queued(script, pass)|
        && Rounds(DrainState(db.Tasks(), out, db.executed), script, pass + 1, next, env, react, inShutdown)
          == Rounds(DrainState(old(db.Tasks()), prev, old(db.executed)), script, pass, count, env, react, inShutdown)
    {
      RoundsUnfold(DrainState(db.Tasks(), prev, db.executed), script, pass, count, env, react, inShutdown);
      out, next := DrainRound(db, env, react, Queued(script, pass), prev, p0, k0);
    }

    /** The loop of `DisconnectDB`: while the last run did some work, one
        more round; the queries callbacks queue during the `pass`-th round
        are `Queued(script, pass)`. */
    method DrainLoop(db: Database, env: nat -> ExecOutcomes, react: nat -> Reaction, script: seq<seq<Submission>>,
                     out0: Outcome, count0: nat, ghost p0: PoolState, ghost k0: nat)
      returns (out: Outcome)
      requires db.Valid() && db.phase == Draining && RanFrom(db, p0, env, k0)
      requires |db.available| > 0 || count0 == 0
      requires db.pending == [] && (count0 == 0 ==> db.completed == [])
      modifies db`completed, db`drained, db`pending, db`nextQueryId, db`submitted,
               db`available, db`closed, db`nextHandle, db`executed
      ensures db.Valid() && db.phase == Draining
      ensures DrainState(db.Tasks(), out, db.executed)
                == Rounds(DrainState(old(db.Tasks()), out0, old(db.executed)), script, 1, count0, env, react, inShutdown)
      ensures RanFrom(db, p0, env, k0)
    {
      ghost var goal := Rounds(DrainState(db.Tasks(), out0, db.executed), script, 1, count0, env, react, inShutdown);
      out := out0;
      var count := count0;
      var pass := 1;
      while count > 0
        invariant db.Valid() && db.phase == Draining && RanFrom(db, p0, env, k0)
        invariant |db.available| > 0 || count == 0
        invariant db.pending == [] && (count == 0 ==> db.completed == [])
        invariant Rounds(DrainState(db.Tasks(), out, db.executed), script, pass, count, env, react, inShutdown) == goal
        decreases if count == 0 then 0 else if pass < |script| then |script| - pass + 1 else 1
      {
        out, count := NextRound(db, env, react, script, pass, count, out, p0, k0);
        if out.thrown.Some? {
          return;
        }
        pass := pass + 1;
      }
    }

    /** The `Release` that ends a drain. */
    method ReleaseDrained(db: Database, ghost p0: PoolState, ghost env: nat -> ExecOutcomes, ghost k0: nat)
      requires db.Valid() && db.phase == Draining && db.pending == [] && RanFrom(db, p0, env, k0)
      modifies db`closed, db`available, db`phase
      ensures db.phase == Released && db.available == [] && db.Tasks() == old(db.Tasks())
      ensures ReleasedFrom(db, p0, env, k0)
      ensures PoolInv(p0) ==> PoolInv(db.Pool()) && db.escapeHeld == p0.held && p0.closed <= db.closed
    {
      ghost var r := db.Pool();
      db.Release();
      assert db.Pool() == AfterRelease(r);
      if PoolInv(p0) {
        DrainedPoolReleased(p0, env, k0, db.executed - k0);
      }
    }

    /** The first round of `DisconnectDB`, once the workers are joined. */
    method FirstDrain(db: Database, env: nat -> ExecOutcomes, react: nat -> Reaction, script: seq<seq<Submission>>,
                      ghost t: TaskState, ghost k: nat, ghost started: bool, ghost p0: PoolState)
      returns (out: Outcome, count: nat)
      requires db.Valid() && db.phase == Draining && RanFrom(db, p0, env, k)
      requires DrainState(db.Tasks(), Outcome([], None), db.executed) == Joined(t, k, started, env)
      requires |p0.available| > 0 || (db.pending == [] && forall n :: 0 <= n < |script| ==> script[n] == [])
      modifies db`completed, db`drained, db`pending, db`nextQueryId, db`submitted,
               db`available, db`closed, db`nextHandle, db`executed
      ensures db.Valid() && db.phase == Draining && RanFrom(db, p0, env, k)
      ensures DrainState(db.Tasks(), out, db.executed) == FirstRound(t, k, started, script, env, react, inShutdown)
      ensures out.thrown.None? ==> count == FirstCount(t, started, script)
      ensures |db.available| > 0 || count == 0
    {
      out, count := DrainRound(db, env, react, Queued(script, 0), Outcome([], None), p0, k);
    }

    /** What `DisconnectDB` does once the workers are joined: the first
        round, the loop, then `Release`, unless a callback error escapes. */
    method DrainJoined(db: Database, env: nat -> ExecOutcomes, react: nat -> Reaction, script: seq<seq<Submission>>,
                       ghost t: TaskState, ghost k: nat, ghost started: bool, ghost p0: PoolState)
      returns (out: Outcome)
      requires db.Valid() && db.phase == Draining && RanFrom(db, p0, env, k)
      requires DrainState(db.Tasks(), Outcome([], None), db.executed) == Joined(t, k, started, env)
      requires |p0.available| > 0 || (db.pending == [] && forall n :: 0 <= n < |script| ==> script[n] == [])
      modifies db`completed, db`drained, db`pending, db`nextQueryId, db`submitted,
               db`available, db`closed, db`nextHandle, db`executed, db`phase
      ensures DrainState(db.Tasks(), out, db.executed) == Disconnected(t, k, started, script, env, react, inShutdown)
      ensures out.thrown.Some? ==> db.phase == Draining && RanFrom(db, p0, env, k)
      ensures out.thrown.None? ==> db.phase == Released && db.available == [] && ReleasedFrom(db, p0, env, k)
      ensures out.thrown.None? && PoolInv(p0) ==> PoolInv(db.Pool()) && db.escapeHeld == p0.held && p0.closed <= db.closed
    {
      var count;
      out, count := FirstDrain(db, env, react, script, t, k, started, p0);
      ghost var s1 := DrainState(db.Tasks(), out, db.executed);
      assert AfterFirst(s1, count, script, env, react, inShutdown) == Disconnected(t, k, started, script, env, react, inShutdown);
      if out.thrown.Some? {
        return;
      }
      out := DrainRest(db, env, react, script, out, count, p0, k);
    }

    /** The loop of `DisconnectDB`, then `Release` unless a callback error
        escaped. */
    method DrainRest(db: Database, env: nat -> ExecOutcomes, react: nat -> Reaction, script: seq<seq<Submission>>,
                     out0: Outcome, count0: nat, ghost p0: PoolState, ghost k0: nat)
      returns (out: Outcome)
      requires db.Valid() && db.phase == Draining && RanFrom(db, p0, env, k0)
      requires |db.available| > 0 || count0 == 0
      requires db.pending == [] && (count0 == 0 ==> db.completed == [])
      modifies db`completed, db`drained, db`pending, db`nextQueryId, db`submitted,
               db`available, db`closed, db`nextHandle, db`executed, db`phase
      ensures DrainState(db.Tasks(), out, db.executed)
                == Rounds(DrainState(old(db.Tasks()), out0, old(db.executed)), script, 1, count0, env, react, inShutdown)
      ensures out.thrown.Some? ==> db.phase == Draining && RanFrom(db, p0, env, k0)
      ensures out.thrown.None? ==> db.phase == Released && db.available == [] && ReleasedFrom(db, p0, env, k0)
      ensures out.thrown.None? && PoolInv(p0) ==> PoolInv(db.Pool()) && db.escapeHeld == p0.held && p0.closed <= db.closed
    {
      out := DrainLoop(db, env, react, script, out0, count0, p0, k0);
      if out.thrown.Some? {
        return;
      }
      ReleaseDrained(db, p0, env, k0);
    }

    /** `DisconnectDB`: shuts the engine down, dispatches what completed,
        then runs and dispatches whatever the callbacks queued until a run
        finds nothing to do; only then are the connections closed. The
        queries callbacks queue during the `n`-th dispatch are `script[n]`.
        A callback error that escapes ends it at once, before `Release`.

        The source lines each helper stands for, in gm_tmysql4/src/gm_tmysql.cpp:
        - `Shutdown`: line 226;
        - `DrainJoined`: lines 227-234, everything after `Shutdown`;
        - `FirstDrain`: the dispatch at line 227 and the first
          `RunShutdownWork` test at line 229;
        - `DrainRound`: one dispatch (line 227 or 231) and the
          `RunShutdownWork` that follows it (line 229);
        - `RunDrained`: one `RunShutdownWork` call at line 229;
        - `DrainRest`: lines 229-234, the loop and then `Release`;
        - `DrainLoop`: the loop, lines 229-232;
        - `NextRound`: one iteration of it, the dispatch at line 231 and the
          next test at line 229;
        - `ReleaseDrained`: the `Release` at line 234. */
    method DisconnectDB(db: Database, env: nat -> ExecOutcomes, react: nat -> Reaction, script: seq<seq<Submission>>)
      returns (out: Outcome)
      requires db.Valid() && db.phase == Running
      requires |db.available| > 0 || (db.pending == [] && forall n :: 0 <= n < |script| ==> script[n] == [])
      modifies db
      ensures DrainState(db.Tasks(), out, db.executed)
                == Disconnected(old(db.Tasks()), old(db.executed), old(db.workers) > 0, script, env, react, inShutdown)
      ensures old(db.executed) <= db.executed && (|old(db.available)| == 0 ==> db.executed == old(db.executed))
      ensures out.thrown.Some? ==> db.phase == Draining && RanFrom(db, old(db.Pool()), env, old(db.executed))
      ensures out.thrown.None? ==> db.phase == Released && db.available == []
      ensures out.thrown.None? ==> ReleasedFrom(db, old(db.Pool()), env, old(db.executed))
      ensures out.thrown.None? && PoolInv(old(db.Pool())) ==>
        PoolInv(db.Pool()) && db.escapeHeld == old(db.escapeHeld) && old(db.closed) <= db.closed
    {
      ghost var t, k, started, p0 := db.Tasks(), db.executed, db.workers > 0, db.Pool();
      db.Shutdown(env);
      assert DrainState(db.Tasks(), Outcome([], None), db.executed) == Joined(t, k, started, env);
      out := DrainJoined(db, env, react, script, t, k, started, p0);
    }

    /** `disconnect`: on a live handle, removes its name from the registry,
        runs `DisconnectDB` and nulls the handle, so that every later call
        on it, `Disconnect` included, does nothing. A callback error escaping
        `DisconnectDB` leaves the handle as it was; none escapes while the
        module shuts down. Otherwise every task ever queued on the engine
        was taken off the completion list exactly once, each query this
        drain took was deleted once, in order, and the idle connections are
        closed. */
    method Disconnect(h: Handle, env: nat -> ExecOutcomes, react: nat -> Reaction, script: seq<seq<Submission>>)
      returns (out: Outcome)
      requires h.db != null ==> Ready(h.db)
      requires h.db != null ==> |h.db.available| > 0 || (h.db.pending == [] && forall n :: 0 <= n < |script| ==> script[n] == [])
      modifies this`registry, h, h.db
      ensures old(h.db) == null ==> registry == old(registry) && h.db == null && out == Outcome([], None)
      ensures old(h.db) != null ==>
        && registry == old(registry) - {old(h.db).config.db}
        && (h.db == null <==> out.thrown.None?)
        && (out.thrown.Some? ==> h.db == old(h.db) && !inShutdown)
        && (out.thrown.None? ==>
              var db := old(h.db);
              && db.phase == Released && db.available == [] && db.pending == [] && db.completed == []
              && old(db.drained) <= db.drained && old(db.submitted) <= db.submitted
              && Deletions(out.events) == db.drained[|old(db.drained)|..]
              && (forall id :: multiset(db.drained)[id] == if id in db.submitted then 1 else 0)
              && (forall id :: id in old(db.submitted) ==> multiset(db.drained)[id] == 1)
              && PoolInv(db.Pool()) && db.escapeHeld == old(db.escapeHeld) && old(db.closed) <= db.closed
              && ReleasedFrom(db, old(db.Pool()), env, old(db.executed)))
    {
      var mysqldb := h.db;
      if mysqldb == null {
        return Outcome([], None);
      }
      ghost var t, k, started := mysqldb.Tasks(), mysqldb.executed, mysqldb.workers > 0;
      registry := registry - {mysqldb.config.db};
      out := DisconnectDB(mysqldb, env, react, script);
      DisconnectedTakesAll(t, k, started, script, env, react, inShutdown);
      if out.thrown.Some? {
        return;
      }
      h.db := null;
    }
  }
}
