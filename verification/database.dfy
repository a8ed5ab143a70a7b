/** The query engine of tmysql4 (`Database` in database.cpp): a pool of
    connections opened once, a task queue run by worker steps, a completion
    list drained by the host, and the shutdown sequence.

    Threads are not modelled: a worker step runs one queued task from start
    to end, and the draining that happens while `Shutdown` joins its threads
    is a loop over the queue. The mutex becomes nothing, since every step is
    atomic.

    The class's state has two abstract views, `PoolState` and `TaskState`.
    Every operation is proved to move them by a transition function below,
    or to leave them alone; the runs of `RunPending`, `Shutdown` and
    `RunShutdownWork` move the pool by `RunPool`, one `AfterExecute` per
    task. The lemmas below prove that those functions keep `PoolInv` and
    `TaskInv`. */
module Engine {
  import opened Common
  import opened Execution

  /** Running after a successful `Initialize`; Draining once `Shutdown` has
      dropped the work guard and joined the workers; Released after
      `Release`. A Database whose `Initialize` failed stays Created. */
  datatype Phase = Created | Running | Draining | Released

  /** The connect parameters the Database keeps for every (re)connect. */
  datatype Config = Config(host: string, user: string, pass: string, db: string, port: int, socket: Option<string>)

  /** The handles `lo`, `lo + 1`, ..., `hi - 1`. */
  function Range(lo: nat, hi: nat): (r: seq<ConnId>)
    requires lo <= hi
    ensures |r| == hi - lo
    ensures forall i :: 0 <= i < |r| ==> r[i] == lo + i
    decreases hi - lo
  {
    if lo == hi then [] else [lo] + Range(lo + 1, hi)
  }

  /** One more handle at the top of a range. */
  lemma RangeSnoc(lo: nat, hi: nat)
    requires lo <= hi
    ensures Range(lo, hi + 1) == Range(lo, hi) + [hi]
  {
    assert forall i :: 0 <= i < hi + 1 - lo ==> Range(lo, hi + 1)[i] == (Range(lo, hi) + [hi])[i];
  }

  /** The character sets after the connections `conns` were switched to
      `cs`, one after another. */
  function Switched(m: map<ConnId, string>, conns: seq<ConnId>, cs: string): map<ConnId, string>
  {
    if conns == [] then m else Switched(m, conns[..|conns| - 1], cs)[conns[|conns| - 1] := cs]
  }

  /** Exactly the switched connections change, each to the new set. */
  lemma {:induction false} SwitchedSets(m: map<ConnId, string>, conns: seq<ConnId>, cs: string, c: ConnId)
    ensures c in Switched(m, conns, cs) <==> c in m || c in conns
    ensures c in conns ==> Switched(m, conns, cs)[c] == cs
    ensures c !in conns && c in m ==> Switched(m, conns, cs)[c] == m[c]
  {
    if conns != [] {
      var front := conns[..|conns| - 1];
      SwitchedSets(m, front, cs, c);
      assert conns == front + [conns[|conns| - 1]];
    }
  }

  // ---------------------------------------------------------------------
  // The connection pool

  /** Idle connections (leased from the back), connections `Escape` took and
      never gave back, every handle given to `mysql_close` in order, and the
      next handle `mysql_init` yields. */
  datatype PoolState = PoolState(available: seq<ConnId>, held: seq<ConnId>, closed: seq<ConnId>, next: nat)

  /** No handle is live twice, a live handle was never closed, nothing was
      closed twice, and every handle came from `mysql_init`. */
  ghost predicate PoolInv(p: PoolState)
  {
    && Distinct(p.available) && Distinct(p.held) && Distinct(p.closed)
    && (forall c :: c in p.available ==> c !in p.held && c !in p.closed && c < p.next)
    && (forall c :: c in p.held ==> c !in p.closed && c < p.next)
    && (forall c :: c in p.closed ==> c < p.next)
  }

  /** The pool after `Initialize` saw `k` connects succeed; on a refusal the
      handle initialised for it is used up too. */
  function AfterInitialize(p: PoolState, k: nat, ok: bool): PoolState
  {
    p.(available := p.available + Range(p.next, p.next + k), next := p.next + (if ok then k else k + 1))
  }

  /** The pool after one task: the leased (last) connection comes back, or,
      when it was found dead, is closed and its slot gets a new handle. */
  function AfterExecute(p: PoolState, o: ExecOutcomes): PoolState
    requires |p.available| > 0
  {
    var n := |p.available|;
    if Replaces(o) then
      p.(available := p.available[..n - 1] + [p.next], closed := p.closed + [p.available[n - 1]], next := p.next + 1)
    else p
  }

  /** The pool after `Escape`: the last idle connection is leased for good. */
  function AfterEscape(p: PoolState): PoolState
    requires |p.available| > 0
  {
    var n := |p.available|;
    p.(available := p.available[..n - 1], held := p.held + [p.available[n - 1]])
  }

  /** The pool after `Release`: every idle connection closed, the list empty. */
  function AfterRelease(p: PoolState): PoolState
  {
    p.(available := [], closed := p.closed + p.available)
  }

  lemma InitializeKeepsPool(p: PoolState, k: nat, ok: bool)
    requires PoolInv(p) && p.available == []
    ensures PoolInv(AfterInitialize(p, k, ok))
  {
    var r := AfterInitialize(p, k, ok);
    assert r.available == Range(p.next, p.next + k);
    forall i, j | 0 <= i < j < |r.available| ensures r.available[i] != r.available[j] {
    }
  }

  /** A task keeps the pool size and its validity: the replacement handle is
      new, and the dead one is closed once. */
  lemma ExecuteKeepsPool(p: PoolState, o: ExecOutcomes)
    requires PoolInv(p) && |p.available| > 0
    ensures PoolInv(AfterExecute(p, o))
    ensures |AfterExecute(p, o).available| == |p.available| && AfterExecute(p, o).held == p.held
  {
    if Replaces(o) {
      var n := |p.available|;
      var rest, c := p.available[..n - 1], p.available[n - 1];
      assert p.available == rest + [c];
      DistinctConcat(rest, [c]);
      DistinctConcat(rest, [p.next]);
      DistinctConcat(p.closed, [c]);
      assert c in p.available;
      var r := AfterExecute(p, o);
      assert forall d :: d in r.available ==> d in rest || d == p.next;
      assert forall d :: d in rest ==> d in p.available;
    }
  }

  lemma EscapeKeepsPool(p: PoolState)
    requires PoolInv(p) && |p.available| > 0
    ensures PoolInv(AfterEscape(p))
  {
    var n := |p.available|;
    var rest, c := p.available[..n - 1], p.available[n - 1];
    assert p.available == rest + [c];
    DistinctConcat(rest, [c]);
    DistinctConcat(p.held, [c]);
    assert c in p.available;
    assert forall d :: d in rest ==> d in p.available;
  }

  /** `Release` closes each idle connection exactly once: afterwards the
      closed list still has no repetitions. */
  lemma ReleaseKeepsPool(p: PoolState)
    requires PoolInv(p)
    ensures PoolInv(AfterRelease(p))
  {
    DistinctConcat(p.closed, p.available);
  }

  /** The pool after the `n` tasks run on outcomes `env(k)`, ...,
      `env(k + n - 1)`, one after another. */
  function RunPool(p: PoolState, env: nat -> ExecOutcomes, k: nat, n: nat): (r: PoolState)
    requires n == 0 || |p.available| > 0
    ensures |r.available| == |p.available| && r.held == p.held
    ensures p.closed <= r.closed && p.next <= r.next
  {
    if n == 0 then p
    else
      var q := RunPool(p, env, k, n - 1);
      ExecuteKeepsSize(q, env(k + n - 1));
      AfterExecute(q, env(k + n - 1))
  }

  /** One more task after `n` is the `n + 1`-th. */
  lemma RunPoolStep(p: PoolState, env: nat -> ExecOutcomes, k: nat, n: nat)
    requires |p.available| > 0
    ensures RunPool(p, env, k, n + 1) == AfterExecute(RunPool(p, env, k, n), env(k + n))
  {
  }

  /** A task leaves the pool size and the held connections alone, and only
      appends to the closed record. */
  lemma ExecuteKeepsSize(p: PoolState, o: ExecOutcomes)
    requires |p.available| > 0
    ensures var r := AfterExecute(p, o);
      |r.available| == |p.available| && r.held == p.held && p.closed <= r.closed && p.next <= r.next
  {
  }

  /** However many tasks run, the pool stays valid: no handle is live twice
      and none is closed twice. */
  lemma {:induction false} RunPoolKeepsPool(p: PoolState, env: nat -> ExecOutcomes, k: nat, n: nat)
    requires PoolInv(p) && (n == 0 || |p.available| > 0)
    ensures PoolInv(RunPool(p, env, k, n))
  {
    if n > 0 {
      RunPoolKeepsPool(p, env, k, n - 1);
      ExecuteKeepsPool(RunPool(p, env, k, n - 1), env(k + n - 1));
    }
  }

  /** Running `a` tasks and then `b` more is running `a + b`. */
  lemma {:induction false} RunPoolConcat(p: PoolState, env: nat -> ExecOutcomes, k: nat, a: nat, b: nat)
    requires a + b == 0 || |p.available| > 0
    ensures RunPool(RunPool(p, env, k, a), env, k + a, b) == RunPool(p, env, k, a + b)
  {
    if b > 0 {
      RunPoolConcat(p, env, k, a, b - 1);
    }
  }

  /** A drain that runs `n` tasks on a consistent pool and then releases
      it leaves a consistent pool with no idle connection: every connection
      it found idle, or created to replace a broken one, is closed exactly
      once, those `Escape` holds are untouched, and nothing closed before
      is forgotten. */
  lemma DrainedPoolReleased(p: PoolState, env: nat -> ExecOutcomes, k: nat, n: nat)
    requires PoolInv(p) && (n == 0 || |p.available| > 0)
    ensures var r := AfterRelease(RunPool(p, env, k, n));
      && PoolInv(r) && r.available == [] && r.held == p.held && p.closed <= r.closed
  {
    RunPoolKeepsPool(p, env, k, n);
    ReleaseKeepsPool(RunPool(p, env, k, n));
  }

  // ---------------------------------------------------------------------
  // The task queue and the completion list

  /** Tasks posted and not yet run, the completion list in push order, and,
      as bookkeeping, the identities the host has taken and of every task
      ever queued. */
  datatype TaskState = TaskState(pending: seq<Query>, completed: seq<Query>, drained: seq<nat>, submitted: seq<nat>, nextId: nat)

  /** Every queued task is in exactly one place (queued, completed, or taken
      by the host), identities are never reused, and a queued task has not
      run yet. */
  ghost predicate TaskInv(t: TaskState)
  {
    && Distinct(t.submitted)
    && (forall i :: i in t.submitted ==> i < t.nextId)
    && (forall q :: q in t.pending ==> q.status == Unset)
    && multiset(Ids(t.pending)) + multiset(Ids(t.completed)) + multiset(t.drained) == multiset(t.submitted)
  }

  function Enqueue(t: TaskState, text: string, callback: int, flags: int, callbackRef: int): TaskState
  {
    t.(pending := t.pending + [NewQuery(t.nextId, text, callback, flags, callbackRef)],
       submitted := t.submitted + [t.nextId],
       nextId := t.nextId + 1)
  }

  /** One worker step: the oldest queued task runs and is pushed. */
  function RunFirst(t: TaskState, o: ExecOutcomes): TaskState
    requires t.pending != []
  {
    t.(pending := t.pending[1..], completed := t.completed + [Executed(t.pending[0], o)])
  }

  /** Every queued task runs, in order, the i-th seeing `env(k + i)`. */
  function RunAll(t: TaskState, env: nat -> ExecOutcomes, k: nat): TaskState
  {
    t.(pending := [], completed := t.completed + ExecutedAll(t.pending, env, k))
  }

  /** The queue after its first `n` tasks ran. */
  function RunPrefix(t: TaskState, env: nat -> ExecOutcomes, k: nat, n: nat): TaskState
    requires n <= |t.pending|
  {
    t.(pending := t.pending[n..], completed := t.completed + ExecutedAll(t.pending[..n], env, k))
  }

  /** Running the front task after `n` ran is running the first `n + 1`. */
  lemma RunPrefixStep(t: TaskState, env: nat -> ExecOutcomes, k: nat, n: nat)
    requires n < |t.pending|
    ensures RunFirst(RunPrefix(t, env, k, n), env(k + n)) == RunPrefix(t, env, k, n + 1)
  {
    assert t.pending[..n + 1][..n] == t.pending[..n];
    assert t.pending[n..][1..] == t.pending[n + 1..];
  }

  /** Running them one by one is running them all. */
  lemma RunPrefixAll(t: TaskState, env: nat -> ExecOutcomes, k: nat, n: nat)
    requires n <= |t.pending| && RunPrefix(t, env, k, n).pending == []
    ensures RunPrefix(t, env, k, n) == RunAll(t, env, k)
  {
    assert t.pending[..n] == t.pending;
  }

  /** `GetCompletedQueries`: the host takes the whole completion list. */
  function Drain(t: TaskState): TaskState
  {
    t.(completed := [], drained := t.drained + Ids(t.completed))
  }

  /** The identity `Enqueue` hands out is new and is recorded once. */
  lemma EnqueueFreshId(t: TaskState, text: string, callback: int, flags: int, callbackRef: int)
    requires Distinct(t.submitted) && forall i :: i in t.submitted ==> i < t.nextId
    ensures var n := Enqueue(t, text, callback, flags, callbackRef);
      Distinct(n.submitted) && forall i :: i in n.submitted ==> i < n.nextId
  {
    assert t.nextId !in t.submitted;
    DistinctConcat(t.submitted, [t.nextId]);
  }

  /** The task `Enqueue` queues is counted once among the queued tasks and
      once among the identities handed out. */
  lemma EnqueueCounts(t: TaskState, text: string, callback: int, flags: int, callbackRef: int)
    ensures var n := Enqueue(t, text, callback, flags, callbackRef);
      && multiset(Ids(n.pending)) == multiset(Ids(t.pending)) + multiset{t.nextId}
      && multiset(n.submitted) == multiset(t.submitted) + multiset{t.nextId}
  {
    var q := NewQuery(t.nextId, text, callback, flags, callbackRef);
    IdsConcat(t.pending, [q]);
    assert Ids([q]) == [t.nextId];
  }

  lemma EnqueueKeepsTasks(t: TaskState, text: string, callback: int, flags: int, callbackRef: int)
    requires TaskInv(t)
    ensures TaskInv(Enqueue(t, text, callback, flags, callbackRef))
  {
    EnqueueFreshId(t, text, callback, flags, callbackRef);
    EnqueueCounts(t, text, callback, flags, callbackRef);
  }

  lemma RunFirstKeepsTasks(t: TaskState, o: ExecOutcomes)
    requires TaskInv(t) && t.pending != []
    ensures TaskInv(RunFirst(t, o))
  {
    var q := t.pending[0];
    assert t.pending == [q] + t.pending[1..];
    IdsConcat([q], t.pending[1..]);
    IdsConcat(t.completed, [Executed(q, o)]);
    assert forall x :: x in t.pending[1..] ==> x in t.pending;
  }

  lemma RunAllKeepsTasks(t: TaskState, env: nat -> ExecOutcomes, k: nat)
    requires TaskInv(t)
    ensures TaskInv(RunAll(t, env, k))
  {
    IdsConcat(t.completed, ExecutedAll(t.pending, env, k));
  }

  lemma DrainKeepsTasks(t: TaskState)
    requires TaskInv(t)
    ensures TaskInv(Drain(t))
  {
  }

  /** No task is lost or duplicated: each identity ever queued is, at any
      moment, in exactly one of the queue, the completion list and what the
      host has taken, and an identity never queued is in none. */
  lemma ExactlyOnce(t: TaskState, id: nat)
    requires TaskInv(t)
    ensures multiset(Ids(t.pending))[id] + multiset(Ids(t.completed))[id] + multiset(t.drained)[id]
              == if id in t.submitted then 1 else 0
  {
    DistinctOccursOnce(t.submitted, id);
  }

  /** Once queue and completion list are empty, the host has taken every
      queued task exactly once. */
  lemma QuiescentTookAll(t: TaskState, id: nat)
    requires TaskInv(t) && t.pending == [] && t.completed == []
    ensures multiset(t.drained)[id] == if id in t.submitted then 1 else 0
  {
    ExactlyOnce(t, id);
  }

  // ---------------------------------------------------------------------
  // The Database object

  class Database {
    const config: Config
    /** NUM_CON_DEFAULT and NUM_THREADS_DEFAULT, declared in gm_tmysql.h; any
        values are allowed. */
    const poolSize: nat
    const threadCount: nat

    var phase: Phase
    /** Worker threads started and not yet joined. */
    var workers: nat
    /** `m_vecAvailableConnections`. */
    var available: seq<ConnId>
    var closed: seq<ConnId>
    var nextHandle: nat
    /** The character set each connection was last switched to. */
    var charsets: map<ConnId, string>
    /** Tasks posted to the io_service and not yet run, in posting order. */
    var pending: seq<Query>
    /** `m_completedQueries`, in push order. */
    var completed: seq<Query>
    /** How many tasks have run; the k-th run sees outcome `env(k)`. */
    var executed: nat
    var nextQueryId: nat

    ghost var escapeHeld: seq<ConnId>
    ghost var submitted: seq<nat>
    ghost var drained: seq<nat>

    ghost function Pool(): PoolState
      reads this
    {
      PoolState(available, escapeHeld, closed, nextHandle)
    }

    ghost function Tasks(): TaskState
      reads this
    {
      TaskState(pending, completed, drained, submitted, nextQueryId)
    }

    /** Before `Initialize` succeeds no worker runs; while the engine runs,
        every one of the `poolSize` connections is idle or held by `Escape`;
        after `Release` none is idle. `PoolInv` and `TaskInv` are not part
        of it: each method moves `Pool()` and `Tasks()` by a transition the
        lemmas above prove to keep them, and a caller that needs them
        carries them (`Binding.Ready`). */
    ghost predicate Valid()
      reads this
    {
      && (phase == Created ==> escapeHeld == [] && workers == 0)
      && (phase == Running || phase == Draining ==> |available| + |escapeHeld| == poolSize)
      && (phase == Released ==> available == [])
    }

    constructor (config: Config, poolSize: nat, threadCount: nat)
      ensures Valid() && phase == Created && workers == 0
      ensures this.config == config && this.poolSize == poolSize && this.threadCount == threadCount
      ensures Pool() == PoolState([], [], [], 0) && Tasks() == TaskState([], [], [], [], 0)
      ensures charsets == map[] && executed == 0
    {
      this.config, this.poolSize, this.threadCount := config, poolSize, threadCount;
      phase, workers := Created, 0;
      available, closed, nextHandle, charsets := [], [], 0, map[];
      pending, completed, executed, nextQueryId := [], [], 0, 0;
      escapeHeld, submitted, drained := [], [], [];
    }

    /** `mysql_init`: a handle never seen before. */
    method InitHandle() returns (c: ConnId)
      modifies this`nextHandle
      ensures c == old(nextHandle) && nextHandle == c + 1
    {
      c := nextHandle;
      nextHandle := nextHandle + 1;
    }

    /** `mysql_close`. */
    method CloseHandle(c: ConnId)
      modifies this`closed
      ensures closed == old(closed) + [c]
    {
      closed := closed + [c];
    }

    /** `GetAvailableConnection`, declared in gm_tmysql.h; assumed to take the last
        idle connection. */
    method GetAvailableConnection() returns (c: ConnId)
      requires |available| > 0
      modifies this`available
      ensures c == old(available)[|old(available)| - 1]
      ensures available == old(available)[..|old(available)| - 1]
    {
      c := available[|available| - 1];
      available := available[..|available| - 1];
    }

    /** `ReturnConnection`, declared in gm_tmysql.h; assumed to append the
        connection. */
    method ReturnConnection(c: ConnId)
      modifies this`available
      ensures available == old(available) + [c]
    {
      available := available + [c];
    }

    /** `Initialize`: opens `poolSize` connections one after another, the
        n-th seeing `attempts[n]`, and stops at the first refusal with its
        error; only when all opened are the workers started. The
        connections opened before a refusal stay in the list: nothing
        closes them. */
    method Initialize(attempts: seq<ConnectAttempt>) returns (ok: bool, error: string)
      requires Valid() && phase == Created && available == []
      requires |attempts| == poolSize
      modifies this`available, this`nextHandle, this`workers, this`phase
      ensures Valid()
      ensures var k := FirstWhere(attempts, IsRefused);
        && (ok <==> k == poolSize)
        && Pool() == AfterInitialize(old(Pool()), k, ok)
        && (ok ==> phase == Running && workers == threadCount && error == [])
        && (!ok ==> phase == Created && workers == 0 && error == attempts[k].error)
    {
      ok, error := OpenConnections(attempts);
      if !ok {
        return;
      }
      var t := 0;
      while t < threadCount
        invariant t <= threadCount && workers == old(workers) + t
        modifies this`workers
      {
        workers := workers + 1;
        t := t + 1;
      }
      phase := Running;
    }

    /** The connect loop of `Initialize`. */
    method OpenConnections(attempts: seq<ConnectAttempt>) returns (ok: bool, error: string)
      requires |attempts| == poolSize
      modifies this`available, this`nextHandle
      ensures var k := FirstWhere(attempts, IsRefused);
        && (ok <==> k == poolSize)
        && Pool() == AfterInitialize(old(Pool()), k, ok)
        && error == (if ok then [] else attempts[k].error)
    {
      ghost var p := Pool();
      ghost var k := FirstWhere(attempts, IsRefused);
      var i := poolSize;
      while i != 0
        invariant 0 <= i <= poolSize && poolSize - i <= k
        invariant Pool() == AfterInitialize(p, poolSize - i, true)
        modifies this`available, this`nextHandle
      {
        var n := poolSize - i;
        var mysql := InitHandle();
        if attempts[n].Refused? {
          return false, attempts[n].error;
        }
        available := available + [mysql];
        RangeSnoc(p.next, p.next + n);
        i := i - 1;
      }
      return true, [];
    }

    /** `Escape`, for its effect on the pool: it leases a connection and
        never gives it back. */
    method Escape()
      requires Valid() && (phase == Running || phase == Draining) && |available| > 0
      modifies this`available, this`escapeHeld
      ensures Valid() && Pool() == AfterEscape(old(Pool()))
    {
      var c := GetAvailableConnection();
      escapeHeld := escapeHeld + [c];
    }

    /** `SetCharacterSet`: switches the idle connections in pool order and
        stops at the first one that rejects the set, reporting its error;
        the earlier ones stay switched, the later ones are not touched. */
    method SetCharacterSet(charset: string, codes: seq<CallResult>) returns (ok: bool, error: string)
      requires |codes| == |available|
      modifies this`charsets
      ensures var k := FirstWhere(codes, Rejects);
        && (ok <==> k == |available|)
        && error == (if ok then [] else codes[k].message)
        && charsets == Switched(old(charsets), available[..k], charset)
    {
      ghost var k := FirstWhere(codes, Rejects);
      var i := 0;
      while i < |available|
        invariant i <= |available| && i <= k
        invariant charsets == Switched(old(charsets), available[..i], charset)
        modifies this`charsets
      {
        if Rejects(codes[i]) {
          return false, codes[i].message;
        }
        assert available[..i + 1][..i] == available[..i];
        charsets := charsets[available[i] := charset];
        i := i + 1;
      }
      return true, [];
    }

    /** `QueueQuery`: posts a new task. */
    method QueueQuery(text: string, callback: int, flags: int, callbackRef: int)
      requires phase == Running || phase == Draining
      modifies this`pending, this`nextQueryId, this`submitted
      ensures Tasks() == Enqueue(old(Tasks()), text, callback, flags, callbackRef)
    {
      pending := pending + [NewQuery(nextQueryId, text, callback, flags, callbackRef)];
      submitted := submitted + [nextQueryId];
      nextQueryId := nextQueryId + 1;
    }

    /** `PushCompleted`. */
    method PushCompleted(q: Query)
      modifies this`completed
      ensures completed == old(completed) + [q]
    {
      completed := completed + [q];
    }

    /** `GetCompletedQueries`: detaches everything pushed so far. The
        `pop_all` it calls is declared in gm_tmysql.h; assumed to hand the
        list back in push order. */
    method GetCompletedQueries() returns (list: seq<Query>)
      modifies this`completed, this`drained
      ensures list == old(completed) && Tasks() == Drain(old(Tasks()))
    {
      list := completed;
      drained := drained + Ids(list);
      completed := [];
    }

    /** `DoExecute`: runs one task on a leased connection, following the
        decision tree `Executed`, pushes it to the completion list once and
        returns exactly one connection: the leased one, or the handle that
        replaced it when the ping found it dead. */
    method DoExecute(q: Query, o: ExecOutcomes)
      requires |available| > 0
      modifies this`available, this`closed, this`nextHandle, this`completed
      ensures completed == old(completed) + [Executed(q, o)]
      ensures Pool() == AfterExecute(old(Pool()), o)
    {
      ghost var p := Pool();
      var pMYSQL := GetAvailableConnection();
      var query := q;
      var err := o.queryCode;
      var error := o.queryError;
      if err > 0 {
        var ping := o.pingCode;
        if ping > 0 {
          CloseHandle(pMYSQL);
          pMYSQL := InitHandle();
          if o.reconnected {
            err := o.retryCode;
            if err > 0 {
              query := query.(error := error, status := Fail, result := None);
            }
          } else {
            query := query.(error := RECONNECT_ERROR, status := Fail, result := None);
          }
        } else {
          query := query.(error := error, status := Fail, result := None);
        }
      }
      if err == 0 {
        query := query.(status := Success, result := o.stored);
        if HasFlag(query.flags, QUERY_FLAG_LASTID) {
          query := query.(lastId := o.insertId);
        }
      }
      PushCompleted(query);
      ReturnConnection(pMYSQL);
      assert !Replaces(o) ==> available == p.available;
    }

    /** One queued task taken off the front and run to completion. */
    method RunOne(o: ExecOutcomes)
      requires pending != [] && |available| > 0
      modifies this`available, this`closed, this`nextHandle, this`completed, this`pending, this`executed
      ensures |available| == |old(available)| && executed == old(executed) + 1
      ensures Tasks() == RunFirst(old(Tasks()), o)
      ensures Pool() == AfterExecute(old(Pool()), o)
    {
      var q := pending[0];
      pending := pending[1..];
      DoExecute(q, o);
      executed := executed + 1;
    }

    /** Runs every queued task in posting order, as the workers do while
        `Shutdown` joins them and as `RunShutdownWork` does on the caller. */
    method RunPending(env: nat -> ExecOutcomes) returns (count: nat)
      requires pending == [] || |available| > 0
      modifies this`available, this`closed, this`nextHandle, this`completed, this`pending, this`executed
      ensures count == |old(pending)| && executed == old(executed) + count
      ensures Tasks() == RunAll(old(Tasks()), env, old(executed))
      ensures Pool() == RunPool(old(Pool()), env, old(executed), count)
    {
      ghost var t0, p0, k0 := Tasks(), Pool(), executed;
      count := 0;
      while pending != []
        invariant count <= |t0.pending| && executed == k0 + count
        invariant Tasks() == RunPrefix(t0, env, k0, count)
        invariant Pool() == RunPool(p0, env, k0, count)
        decreases |t0.pending| - count
      {
        RunNext(env, t0, p0, k0, count);
        count := count + 1;
      }
      RunPrefixAll(t0, env, k0, count);
    }

    /** The `n + 1`-th task of a run that started from tasks `t0` and pool
        `p0` after `k0` executions. */
    method RunNext(env: nat -> ExecOutcomes, ghost t0: TaskState, ghost p0: PoolState, ghost k0: nat, ghost n: nat)
      requires n < |t0.pending| && |p0.available| > 0 && executed == k0 + n
      requires Tasks() == RunPrefix(t0, env, k0, n) && Pool() == RunPool(p0, env, k0, n)
      modifies this`available, this`closed, this`nextHandle, this`completed, this`pending, this`executed
      ensures executed == k0 + n + 1
      ensures Tasks() == RunPrefix(t0, env, k0, n + 1) && Pool() == RunPool(p0, env, k0, n + 1)
    {
      RunPrefixStep(t0, env, k0, n);
      RunPoolStep(p0, env, k0, n);
      RunOne(env(executed));
    }

    /** One worker step: a worker dequeues the oldest task and runs it. No
        step happens when the queue is empty, when no worker runs, or when
        no connection is idle (a worker would block in the lease). */
    method WorkerStep(env: nat -> ExecOutcomes) returns (ran: bool)
      requires Valid() && phase == Running
      modifies this`available, this`closed, this`nextHandle, this`completed, this`pending, this`executed
      ensures Valid()
      ensures ran <==> old(pending) != [] && workers > 0 && |old(available)| > 0
      ensures ran ==> && Tasks() == RunFirst(old(Tasks()), env(old(executed)))
                      && Pool() == AfterExecute(old(Pool()), env(old(executed)))
                      && executed == old(executed) + 1
      ensures !ran ==> Tasks() == old(Tasks()) && Pool() == old(Pool()) && executed == old(executed)
    {
      if pending == [] || workers == 0 || |available| == 0 {
        return false;
      }
      RunOne(env(executed));
      return true;
    }

    /** `Shutdown`: drops the work guard, so that the workers finish every
        queued task, and joins them. With no worker started, the queue is
        left for `RunShutdownWork`. */
    method Shutdown(env: nat -> ExecOutcomes)
      requires Valid() && phase == Running
      requires pending == [] || |available| > 0
      modifies this`available, this`closed, this`nextHandle, this`completed, this`pending, this`executed,
               this`phase, this`workers
      ensures Valid() && phase == Draining && workers == 0
      ensures old(workers) > 0 ==>
                Tasks() == RunAll(old(Tasks()), env, old(executed)) && executed == old(executed) + |old(pending)|
      ensures old(workers) == 0 ==> Tasks() == old(Tasks()) && executed == old(executed)
      ensures Pool() == RunPool(old(Pool()), env, old(executed), executed - old(executed))
    {
      phase := Draining;
      if workers > 0 {
        var _ := RunPending(env);
      }
      while workers > 0
        modifies this`workers
      {
        workers := workers - 1;
      }
    }

    /** `RunShutdownWork`: runs, on the caller, whatever was queued after
        the workers were joined, and reports how many tasks ran. */
    method RunShutdownWork(env: nat -> ExecOutcomes) returns (count: nat)
      requires Valid() && phase == Draining
      requires pending == [] || |available| > 0
      modifies this`available, this`closed, this`nextHandle, this`completed, this`pending, this`executed
      ensures Valid() && count == |old(pending)| && executed == old(executed) + count
      ensures Tasks() == RunAll(old(Tasks()), env, old(executed))
      ensures Pool() == RunPool(old(Pool()), env, old(executed), count)
    {
      count := RunPending(env);
    }

    /** `Release`: with nothing left to run, closes every idle connection
        once and empties the list. Connections `Escape` kept stay open. */
    method Release()
      requires Valid() && phase == Draining && pending == []
      modifies this`closed, this`available, this`phase
      ensures Valid() && phase == Released && Pool() == AfterRelease(old(Pool()))
      ensures Tasks() == old(Tasks())
    {
      var i := 0;
      while i < |available|
        invariant i <= |available|
        invariant closed == old(closed) + available[..i]
        modifies this`closed
      {
        assert available[..i + 1] == available[..i] + [available[i]];
        CloseHandle(available[i]);
        i := i + 1;
      }
      assert available[..i] == available;
      available := [];
      phase := Released;
    }
  }
}
