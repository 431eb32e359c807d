/** The derived indexes of unfinished tasks and of pending DAGs: which durable writes
    each operation makes, in which order, and why no crash between them loses an entry. */
module IndexDiscipline {
  import opened Basics
  import opened Traces

  type TaskId = nat
  type RunId = nat
  type Turn = nat

  datatype TaskState = Queued | Active | Unclosed | Closed | Abandoned | Lost

  datatype Task = Task(state: TaskState, intent: Option<Turn>, rollback: Option<Turn>, runner: Option<nat>,
      turns: seq<Turn>)

  /** What an operation reads besides the record: the turns of tasks in the queue and the
      tasks whose integration is pending, unless they cannot be read. */
  datatype Environment = Environment(queued: Option<set<Turn>>, integrating: Option<set<TaskId>>)

  /** `task_record_needs_active_index` */
  predicate NeedsIndex(t: Task) {
    t.state in {Queued, Active, Unclosed} || t.intent.Some? || t.rollback.Some? || t.runner.Some?
  }

  predicate Refers(t: Task, turn: Turn) { turn in t.turns || t.intent == Some(turn) || t.rollback == Some(turn) }

  /** `should_keep_active_index_locked`; what cannot be read keeps the entry. */
  predicate Keep(id: TaskId, t: Task, env: Environment) {
    || NeedsIndex(t)
    || (t.state == Closed && (env.integrating.None? || id in env.integrating.value))
    || env.queued.None? || (exists turn :: turn in env.queued.value && Refers(t, turn))
  }

  /** A node of a DAG of tasks. */
  datatype Node = Waiting | Claimed(owner: nat) | Submitted | Blocked

  type Dag = seq<Node>

  predicate Settled(n: Node) { n == Submitted || n == Blocked }

  /** `dag_run_is_quiescent` */
  predicate Quiescent(d: Dag) { forall i :: 0 <= i < |d| ==> Settled(d[i]) }

  datatype Disk = Disk(tasks: map<TaskId, Task>, active: set<TaskId>, dags: map<RunId, Dag>, pending: set<RunId>,
      runs: set<RunId>)

  /** One durable write. */
  datatype Write =
    | PutTask(task: TaskId, record: Task)
    | AddActive(task: TaskId)
    | DropActive(task: TaskId)
    | PutDag(run: RunId, dag: Dag)
    | AddPending(run: RunId)
    | DropPending(run: RunId)
    | PutRun(run: RunId)

  function Done(d: Disk, w: Write): Disk {
    match w
    case PutTask(t, r) => d.(tasks := d.tasks[t := r])
    case AddActive(t) => d.(active := d.active + {t})
    case DropActive(t) => d.(active := d.active - {t})
    case PutDag(r, g) => d.(dags := d.dags[r := g])
    case AddPending(r) => d.(pending := d.pending + {r})
    case DropPending(r) => d.(pending := d.pending - {r})
    case PutRun(r) => d.(runs := d.runs + {r})
  }

  function Replay(d: Disk, script: seq<Write>): Disk
    decreases |script|
  {
    if script == [] then d else Replay(Done(d, script[0]), script[1..])
  }

  // ---- The scheduling pass over a DAG -----------------------------------------------------------

  datatype Action = MarkSubmitted | Continue | Retake | SkipLive

  /** What the pass finds out about each node: parents failed, parents ready, what to do
      with a claim, and whether the commit to run is known. */
  datatype Gates = Gates(failed: set<nat>, ready: set<nat>, actions: map<nat, Action>, bound: set<nat>, caller: nat)

  function ActionFor(g: Gates, k: nat): Action { if k in g.actions then g.actions[k] else SkipLive }

  /** One pass in the order of names: the new states and the node handed out. */
  function Scan(d: Dag, k: nat, g: Gates): (r: (Dag, Option<nat>))
    requires k <= |d|
    ensures |r.0| == |d|
    decreases |d| - k
  {
    if k == |d| then (d, None)
    else if Settled(d[k]) then Scan(d, k + 1, g)
    else if k in g.failed then Scan(d[k := Blocked], k + 1, g)
    else if d[k].Waiting? then (if k in g.ready then (d[k := Claimed(g.caller)], Some(k)) else Scan(d, k + 1, g))
    else match ActionFor(g, k)
      case MarkSubmitted => Scan(d[k := Submitted], k + 1, g)
      case SkipLive => Scan(d, k + 1, g)
      case Continue => if k in g.bound then (d, Some(k)) else Scan(d, k + 1, g)
      case Retake => if k in g.bound then (d[k := Claimed(g.caller)], Some(k)) else Scan(d, k + 1, g)
  }

  /** Settled nodes stay settled. */
  predicate Advances(a: Dag, b: Dag) { |a| == |b| && forall i :: 0 <= i < |a| && Settled(a[i]) ==> Settled(b[i]) }

  lemma {:induction false} ScanAdvances(d: Dag, k: nat, g: Gates)
    requires k <= |d|
    ensures Advances(d, Scan(d, k, g).0)
    decreases |d| - k
  {
    if k < |d| {
      ScanAdvances(d, k + 1, g);
      if !Settled(d[k]) {
        ScanAdvances(d[k := Blocked], k + 1, g);
        ScanAdvances(d[k := Submitted], k + 1, g);
        SetAdvances(d, d[k := Blocked], k, Scan(d[k := Blocked], k + 1, g).0);
        SetAdvances(d, d[k := Submitted], k, Scan(d[k := Submitted], k + 1, g).0);
      }
    }
  }

  lemma {:induction false} SetAdvances(d: Dag, e: Dag, k: nat, f: Dag)
    requires
      && k < |d| && !Settled(d[k]) && |e| == |d| && (forall i :: 0 <= i < |d| && i != k ==> e[i] == d[i])
      && Advances(e, f)
    ensures Advances(d, f)
  {
    forall i | 0 <= i < |d| && Settled(d[i]) ensures Settled(f[i]) {
      assert e[i] == d[i];
    }
  }

  /** The node can be handed out: its parents have not failed, and it waits with its parents
      ready, or it is claimed by somebody who may be continued or replaced and its commit is
      known. */
  predicate CanRun(d: Dag, k: nat, g: Gates)
    requires k < |d|
  {
    && k !in g.failed
    && match d[k]
      case Waiting => k in g.ready
      case Claimed(_) => k in g.bound && (ActionFor(g, k) == Continue || ActionFor(g, k) == Retake)
      case _ => false
  }

  /** A node that the pass goes by: an open one with failed parents is blocked, a claimed one
      whose submission is complete is submitted, any other stays as it is. */
  function Passed(d: Dag, k: nat, g: Gates): Node
    requires k < |d|
  {
    match d[k]
    case Submitted => Submitted
    case Blocked => Blocked
    case Waiting => if k in g.failed then Blocked else Waiting
    case Claimed(owner) =>
      if k in g.failed then Blocked else if ActionFor(g, k) == MarkSubmitted then Submitted else Claimed(owner)
  }

  /** A node handed out is the caller's, unless its claimant goes on. */
  function HandedOut(d: Dag, k: nat, g: Gates): Node
    requires k < |d|
  {
    if d[k].Claimed? && ActionFor(g, k) == Continue then d[k] else Claimed(g.caller)
  }

  /** The pass from `k` on hands out the first node that can run; it goes by those before
      it and leaves those behind it. */
  lemma {:induction false} ScanLaw(d: Dag, k: nat, g: Gates)
    requires k <= |d|
    ensures var (after, claim) := Scan(d, k, g);
      var end := if claim.Some? then claim.value else |d|;
      && |after| == |d| && k <= end && (claim.Some? ==> end < |d| && CanRun(d, end, g))
      && (forall j :: k <= j < end ==> !CanRun(d, j, g) && after[j] == Passed(d, j, g))
      && (claim.Some? ==> after[end] == HandedOut(d, end, g))
      && (forall j :: 0 <= j < |d| && (j < k || j > end) ==> after[j] == d[j])
    decreases |d| - k
  {
    if k < |d| && !CanRun(d, k, g) {
      var e := d[k := Passed(d, k, g)];
      ScanLaw(e, k + 1, g);
      forall j | k < j < |d| ensures CanRun(e, j, g) == CanRun(d, j, g) && Passed(e, j, g) == Passed(d, j, g) {
        assert e[j] == d[j];
      }
      assert d[k] == Passed(d, k, g) ==> e == d;
    }
  }

  /** The loop of `claim_next_eligible_dag_node`. */
  method ClaimNode(dag: Dag, g: Gates) returns (d: Dag, claim: Option<nat>)
    ensures (d, claim) == Scan(dag, 0, g)
  {
    d := dag;
    var k := 0;
    while k < |d|
      invariant k <= |d| && Scan(dag, 0, g) == Scan(d, k, g)
      decreases |dag| - k
      invariant |d| == |dag|
    {
      if !Settled(d[k]) {
        if k in g.failed {
          d := d[k := Blocked];
        } else if d[k].Waiting? {
          if k in g.ready { return d[k := Claimed(g.caller)], Some(k); }
        } else {
          match ActionFor(g, k) {
            case MarkSubmitted => d := d[k := Submitted];
            case SkipLive =>
            case Continue => if k in g.bound { return d, Some(k); }
            case Retake => if k in g.bound { return d[k := Claimed(g.caller)], Some(k); }
          }
        }
      }
      k := k + 1;
    }
    claim := None;
  }

  // ---- Operations and their writes ---------------------------------------------------------------

  datatype Operation =
    | CreateTask(task: TaskId, record: Task)
    | ReplaceTask(task: TaskId, record: Task, expected: Option<Task>, skipSame: bool)
    | Refresh(page: seq<TaskId>)
    | CreateDag(run: RunId, dag: Dag)
    | ClaimDag(run: RunId, gates: Gates)
    | SubmitNode(run: RunId, node: nat)
    | Bind(run: RunId)

  function SyncActive(id: TaskId, t: Task, env: Environment): seq<Write> {
    [if Keep(id, t, env) then AddActive(id) else DropActive(id)]
  }

  function SyncPending(r: RunId, d: Dag): seq<Write> { [if Quiescent(d) then DropPending(r) else AddPending(r)] }

  /** `persist_dag_locked`: the record first, then the index. */
  function Persist(r: RunId, was: Dag, d: Dag): seq<Write> {
    (if was == d then [] else [PutDag(r, d)]) + SyncPending(r, d)
  }

  function RefreshScript(disk: Disk, page: seq<TaskId>, env: Environment): seq<Write> {
    if page == [] then [] else
      (if page[0] in disk.tasks then SyncActive(page[0], disk.tasks[page[0]], env) else []) +
          RefreshScript(disk, page[1..], env)
  }

  /** The durable writes of an operation, in order. */
  function Script(disk: Disk, op: Operation, env: Environment): seq<Write> {
    match op
    case CreateTask(id, t) =>
      if id in disk.tasks then (if disk.tasks[id] == t then SyncActive(id, t, env) else [])
      else (if Keep(id, t, env) then [AddActive(id)] else []) + [PutTask(id, t)]
    case ReplaceTask(id, t, expected, skipSame) =>
      if id !in disk.tasks then []
      else if expected.Some? && expected.value != disk.tasks[id]
      then (if Keep(id, disk.tasks[id], env) then [AddActive(id)] else [])
      else if skipSame && t == disk.tasks[id] then SyncActive(id, t, env)
      else if Keep(id, t, env) then [AddActive(id), PutTask(id, t)]
      else [PutTask(id, t), DropActive(id)]
    case Refresh(page) => if env.queued.None? then [] else RefreshScript(disk, page, env)
    case CreateDag(r, d) =>
      (if Quiescent(d) then [] else [AddPending(r)])
      + (if r in disk.dags then (if disk.dags[r] == d then [PutRun(r)] else []) else [PutDag(r, d), PutRun(r)])
    case ClaimDag(r, g) =>
      if r !in disk.dags then []
      else
        var d := disk.dags[r];
        var (after, claim) := Scan(d, 0, g);
        (if r in disk.runs then [] else [PutRun(r)]) + SyncPending(r, d) +
            (if after == d && claim.None? then [] else Persist(r, d, after))
    case SubmitNode(r, k) =>
      if r !in disk.dags || k >= |disk.dags[r]| then []
      else [PutRun(r)] + if disk.dags[r][k] == Submitted then []
      else Persist(r, disk.dags[r], disk.dags[r][k := Submitted])
    case Bind(r) => if r !in disk.dags then [] else Persist(r, disk.dags[r], disk.dags[r])
  }

  // ---- No entry is ever missing --------------------------------------------------------------------

  /** Every stored task that is to be kept, and every DAG with an unfinished node, is indexed. */
  ghost predicate Indexed(d: Disk, env: Environment) {
    && (forall t :: t in d.tasks && Keep(t, d.tasks[t], env) ==> t in d.active)
    && (forall r :: r in d.dags && !Quiescent(d.dags[r]) ==> r in d.pending)
  }

  /** What an operation sees is the truth, or that it cannot be read. */
  predicate Sees(truth: Environment, seen: Environment) {
    && truth.queued.Some? && truth.integrating.Some?
    && (seen.queued.Some? ==> seen.queued == truth.queued)
    && (seen.integrating.Some? ==> seen.integrating == truth.integrating)
  }

  /** Seeing less keeps more. */
  lemma {:induction false} SeenKeeps(id: TaskId, t: Task, truth: Environment, seen: Environment)
    requires Sees(truth, seen)
    ensures Keep(id, t, truth) ==> Keep(id, t, seen)
  {
  }

  /** A write that keeps the indexes complete whatever else is on the disk. */
  predicate SafeWrite(d: Disk, w: Write, env: Environment) {
    match w
    case PutTask(t, r) => Keep(t, r, env) ==> t in d.active
    case AddActive(_) => true
    case DropActive(t) => t in d.tasks ==> !Keep(t, d.tasks[t], env)
    case PutDag(r, g) => !Quiescent(g) ==> r in d.pending
    case AddPending(_) => true
    case DropPending(r) => r in d.dags ==> Quiescent(d.dags[r])
    case PutRun(_) => true
  }

  lemma {:induction false} SafeWriteKeeps(d: Disk, w: Write, env: Environment)
    requires Indexed(d, env) && SafeWrite(d, w, env)
    ensures Indexed(Done(d, w), env)
  {
  }

  predicate SafeScript(d: Disk, script: seq<Write>, env: Environment)
    decreases |script|
  {
    script == [] || (SafeWrite(d, script[0], env) && SafeScript(Done(d, script[0]), script[1..], env))
  }

  lemma {:induction false} PrefixSafe(d: Disk, script: seq<Write>, n: nat, env: Environment)
    requires Indexed(d, env) && SafeScript(d, script, env) && n <= |script|
    ensures Indexed(Replay(d, script[..n]), env)
    decreases |script|
  {
    if n > 0 {
      SafeWriteKeeps(d, script[0], env);
      PrefixSafe(Done(d, script[0]), script[1..], n - 1, env);
      assert script[..n][1..] == script[1..][..n - 1];
    }
  }

  lemma {:induction false} SyncSafe(d: Disk, id: TaskId, truth: Environment, seen: Environment)
    requires Sees(truth, seen) && id in d.tasks
    ensures SafeWrite(d, SyncActive(id, d.tasks[id], seen)[0], truth)
  {
    SeenKeeps(id, d.tasks[id], truth, seen);
  }

  lemma {:induction false} RefreshSafe(d: Disk, page: seq<TaskId>, truth: Environment, seen: Environment, now: Disk)
    requires Sees(truth, seen) && now.tasks == d.tasks
    ensures SafeScript(now, RefreshScript(d, page, seen), truth)
    decreases |page|
  {
    if page != [] {
      var script := RefreshScript(d, page, seen);
      if page[0] in d.tasks {
        assert script[1..] == RefreshScript(d, page[1..], seen);
        SyncSafe(now, page[0], truth, seen);
        RefreshSafe(d, page[1..], truth, seen, Done(now, script[0]));
      } else {
        assert script == RefreshScript(d, page[1..], seen);
        RefreshSafe(d, page[1..], truth, seen, now);
      }
    }
  }

  lemma {:induction false} PersistSafe(d: Disk, r: RunId, was: Dag, dag: Dag, env: Environment)
    requires Indexed(d, env) && r in d.dags && d.dags[r] == was && Advances(was, dag)
    ensures SafeScript(d, Persist(r, was, dag), env)
  {
    var script := Persist(r, was, dag);
    assert Quiescent(was) ==> Quiescent(dag);
    if was == dag {
      assert script == SyncPending(r, dag) && script[1..] == [];
    } else {
      assert script[1..] == SyncPending(r, dag) && script[1..][1..] == [];
    }
  }

  /** A safe start followed by a rest that is safe from there. */
  lemma {:induction false} SafeJoin(d: Disk, a: seq<Write>, b: seq<Write>, env: Environment)
    requires SafeScript(d, a, env) && SafeScript(Replay(d, a), b, env)
    ensures SafeScript(d, a + b, env)
    decreases |a|
  {
    if a == [] {
      assert a + b == b;
    } else {
      assert (a + b)[1..] == a[1..] + b;
      SafeJoin(Done(d, a[0]), a[1..], b, env);
    }
  }

  lemma {:induction false} OneReplay(d: Disk, w: Write)
    ensures Replay(d, [w]) == Done(d, w)
  {
    assert [w][1..] == [];
  }

  lemma {:induction false} TwoReplay(d: Disk, v: Write, w: Write)
    ensures Replay(d, [v, w]) == Done(Done(d, v), w)
  {
    assert [v, w][1..] == [w];
    OneReplay(Done(d, v), w);
  }

  lemma {:induction false} OneSafe(d: Disk, w: Write, env: Environment)
    requires SafeWrite(d, w, env)
    ensures SafeScript(d, [w], env) && Replay(d, [w]) == Done(d, w)
  {
    assert [w][1..] == [];
  }

  lemma {:induction false} TwoSafe(d: Disk, v: Write, w: Write, env: Environment)
    requires SafeWrite(d, v, env) && SafeWrite(Done(d, v), w, env)
    ensures SafeScript(d, [v, w], env) && Replay(d, [v, w]) == Done(Done(d, v), w)
  {
    TwoReplay(d, v, w);
    assert [v, w][1..] == [w] && [w][1..] == [];
  }

  lemma {:induction false} TaskScriptSafe(d: Disk, op: Operation, truth: Environment, seen: Environment)
    requires Indexed(d, truth) && Sees(truth, seen) && (op.CreateTask? || op.ReplaceTask? || op.Refresh?)
    ensures SafeScript(d, Script(d, op, seen), truth)
  {
    match op {
      case CreateTask(id, t) => CreateTaskSafe(d, id, t, truth, seen);
      case ReplaceTask(id, t, expected, skipSame) =>
        if id in d.tasks {
          OneSafe(d, AddActive(id), truth);
          SyncSafe(d, id, truth, seen);
          OneSafe(d, SyncActive(id, d.tasks[id], seen)[0], truth);
          SeenKeeps(id, t, truth, seen);
          if Keep(id, t, seen) {
            TwoSafe(d, AddActive(id), PutTask(id, t), truth);
          } else {
            TwoSafe(d, PutTask(id, t), DropActive(id), truth);
          }
        }
      case Refresh(page) => RefreshSafe(d, page, truth, seen, d);
    }
  }

  lemma {:induction false} CreateTaskSafe(d: Disk, id: TaskId, t: Task, truth: Environment, seen: Environment)
    requires Indexed(d, truth) && Sees(truth, seen)
    ensures SafeScript(d, Script(d, CreateTask(id, t), seen), truth)
  {
    SeenKeeps(id, t, truth, seen);
    if id in d.tasks {
      SyncSafe(d, id, truth, seen);
      OneSafe(d, SyncActive(id, d.tasks[id], seen)[0], truth);
    } else if Keep(id, t, seen) {
      TwoSafe(d, AddActive(id), PutTask(id, t), truth);
      assert [AddActive(id)] + [PutTask(id, t)] == [AddActive(id), PutTask(id, t)];
    } else {
      OneSafe(d, PutTask(id, t), truth);
      assert [] + [PutTask(id, t)] == [PutTask(id, t)];
    }
  }

  lemma {:induction false} CreateDagSafe(d: Disk, r: RunId, dag: Dag, env: Environment, seen: Environment)
    requires Indexed(d, env)
    ensures SafeScript(d, Script(d, CreateDag(r, dag), seen), env)
  {
    var front: seq<Write> := if Quiescent(dag) then [] else [AddPending(r)];
    var back: seq<Write> :=
      if r in d.dags then (if d.dags[r] == dag then [PutRun(r)] else [])
      else [PutDag(r, dag), PutRun(r)];
    OneSafe(d, AddPending(r), env);
    var d1 := Replay(d, front);
    if r in d.dags {
      OneSafe(d1, PutRun(r), env);
    } else {
      TwoSafe(d1, PutDag(r, dag), PutRun(r), env);
    }
    SafeJoin(d, front, back, env);
  }

  lemma {:induction false} ClaimDagSafe(d: Disk, r: RunId, g: Gates, env: Environment, seen: Environment)
    requires Indexed(d, env) && r in d.dags
    ensures SafeScript(d, Script(d, ClaimDag(r, g), seen), env)
  {
    var dag := d.dags[r];
    var (after, claim) := Scan(dag, 0, g);
    var a: seq<Write> := if r in d.runs then [] else [PutRun(r)];
    OneSafe(d, PutRun(r), env);
    var d1 := Replay(d, a);
    var sync := SyncPending(r, dag);
    OneSafe(d1, sync[0], env);
    SafeJoin(d, a, sync, env);
    var d2 := Replay(d1, sync);
    ReplayJoin(d, a, sync);
    if !(after == dag && claim.None?) {
      ScanAdvances(dag, 0, g);
      SafeWriteKeeps(d, PutRun(r), env);
      SafeWriteKeeps(d1, sync[0], env);
      PersistSafe(d2, r, dag, after, env);
      SafeJoin(d, a + sync, Persist(r, dag, after), env);
    } else {
      assert a + sync + [] == a + sync;
    }
  }

  lemma {:induction false} ReplayJoin(d: Disk, a: seq<Write>, b: seq<Write>)
    ensures Replay(d, a + b) == Replay(Replay(d, a), b)
    decreases |a|
  {
    if a == [] {
      assert a + b == b;
    } else {
      assert (a + b)[1..] == a[1..] + b;
      ReplayJoin(Done(d, a[0]), a[1..], b);
    }
  }

  lemma {:induction false} SubmitSafe(d: Disk, r: RunId, k: nat, env: Environment, seen: Environment)
    requires Indexed(d, env) && r in d.dags && k < |d.dags[r]|
    ensures SafeScript(d, Script(d, SubmitNode(r, k), seen), env)
  {
    var dag := d.dags[r];
    OneSafe(d, PutRun(r), env);
    SafeWriteKeeps(d, PutRun(r), env);
    if dag[k] == Submitted {
      assert [PutRun(r)] + [] == [PutRun(r)];
    } else {
      PersistSafe(Done(d, PutRun(r)), r, dag, dag[k := Submitted], env);
      SafeJoin(d, [PutRun(r)], Persist(r, dag, dag[k := Submitted]), env);
    }
  }

  lemma {:induction false} ScriptSafe(d: Disk, op: Operation, truth: Environment, seen: Environment)
    requires Indexed(d, truth) && Sees(truth, seen)
    ensures SafeScript(d, Script(d, op, seen), truth)
  {
    match op {
      case CreateTask(_, _) => TaskScriptSafe(d, op, truth, seen);
      case ReplaceTask(_, _, _, _) => TaskScriptSafe(d, op, truth, seen);
      case Refresh(_) => TaskScriptSafe(d, op, truth, seen);
      case CreateDag(r, dag) => CreateDagSafe(d, r, dag, truth, seen);
      case ClaimDag(r, g) => if r in d.dags { ClaimDagSafe(d, r, g, truth, seen); }
      case SubmitNode(r, k) => if r in d.dags && k < |d.dags[r]| { SubmitSafe(d, r, k, truth, seen); }
      case Bind(r) => if r in d.dags { PersistSafe(d, r, d.dags[r], d.dags[r], truth); }
    }
  }

  // ---- Runs ------------------------------------------------------------------------------------------

  /** An operation that got as far as `writes` writes, and what it could read; a turn that
      enters or leaves the queue; an integration that becomes pending or ends. */
  datatype Event =
    | Performs(op: Operation, writes: nat, queue: bool, integrations: bool)
    | Enters(turn: Turn)
    | Leaves(turn: Turn)
    | Pends(task: TaskId)
    | Ends(task: TaskId)

  datatype World = World(disk: Disk, queued: set<Turn>, integrating: set<TaskId>)

  function Truth(w: World): Environment { Environment(Some(w.queued), Some(w.integrating)) }

  function Seen(w: World, queue: bool, integrations: bool): Environment {
    Environment(if queue then Some(w.queued) else None, if integrations then Some(w.integrating) else None)
  }

  function Next(w: World, e: Event): World {
    match e
    case Performs(op, n, queue, integrations) =>
      w.(disk := Replay(w.disk, Cut(Script(w.disk, op, Seen(w, queue, integrations)), n)))
    case Enters(turn) => w.(queued := w.queued + {turn})
    case Leaves(turn) => w.(queued := w.queued - {turn})
    case Pends(task) => w.(integrating := w.integrating + {task})
    case Ends(task) => w.(integrating := w.integrating - {task})
  }

  /** What the submission paths ensure before they enqueue: a record that refers to the
      turn is queued, active or open, or carries the turn's intent or rollback marker. */
  predicate MayEnter(tasks: map<TaskId, Task>, turn: Turn) {
    forall t :: t in tasks && Refers(tasks[t], turn) ==> NeedsIndex(tasks[t])
  }

  /** An integration starts before its task is closed, or while something else is under way. */
  predicate MayPend(tasks: map<TaskId, Task>, task: TaskId) {
    task in tasks && tasks[task].state == Closed ==> NeedsIndex(tasks[task])
  }

  predicate Allowed(w: World, e: Event) {
    match e
    case Enters(turn) => MayEnter(w.disk.tasks, turn)
    case Pends(task) => MayPend(w.disk.tasks, task)
    case _ => true
  }

  lemma {:induction false} EventKeeps(w: World, e: Event)
    requires Indexed(w.disk, Truth(w)) && Allowed(w, e)
    ensures Indexed(Next(w, e).disk, Truth(Next(w, e)))
  {
    match e {
      case Performs(op, writes, queue, integrations) =>
        var script := Script(w.disk, op, Seen(w, queue, integrations));
        ScriptSafe(w.disk, op, Truth(w), Seen(w, queue, integrations));
        PrefixSafe(w.disk, script, if writes <= |script| then writes else |script|, Truth(w));
        assert script[..|script|] == script;
      case Enters(turn) => EnqueuedTurnLaw(w, turn);
      case Leaves(turn) => LeavingKeeps(w, w.(queued := w.queued - {turn}));
      case Pends(task) => PendingLaw(w, task);
      case Ends(task) => LeavingKeeps(w, w.(integrating := w.integrating - {task}));
    }
  }

  /** At every instant of every run, with any number of crashes between any two writes and
      whatever could be read, no entry is missing from either index. */
  lemma {:induction false} NeverMissing(w: World, events: seq<Event>)
    requires Indexed(w.disk, Truth(w)) && AllowedRun(w, events)
    ensures Indexed(Run(w, events).disk, Truth(Run(w, events)))
    decreases |events|
  {
    if events != [] {
      EventKeeps(w, events[0]);
      NeverMissing(Next(w, events[0]), events[1..]);
    }
  }

  function Run(w: World, events: seq<Event>): World
    decreases |events|
  {
    if events == [] then w else Run(Next(w, events[0]), events[1..])
  }

  predicate AllowedRun(w: World, events: seq<Event>)
    decreases |events|
  {
    events == [] || (Allowed(w, events[0]) && AllowedRun(Next(w, events[0]), events[1..]))
  }

  /** Turns that leave the queue, and integrations that finish, select nothing new. */
  lemma {:induction false} LeavingKeeps(w: World, v: World)
    requires Indexed(w.disk, Truth(w)) && v.disk == w.disk && v.queued <= w.queued && v.integrating <= w.integrating
    ensures Indexed(v.disk, Truth(v))
  {
    forall t | t in w.disk.tasks && Keep(t, w.disk.tasks[t], Truth(v)) ensures Keep(t, w.disk.tasks[t], Truth(w)) {}
  }

  /** A turn that enters the queue keeps the index complete exactly when every stored
      record that refers to it is indexed; what the submission paths ensure is enough. */
  lemma {:induction false} EnqueuedTurnLaw(w: World, turn: Turn)
    requires Indexed(w.disk, Truth(w))
    ensures Indexed(w.disk, Truth(Next(w, Enters(turn)))) <==>
      forall t :: t in w.disk.tasks && Refers(w.disk.tasks[t], turn) ==> t in w.disk.active
    ensures MayEnter(w.disk.tasks, turn) ==> Indexed(w.disk, Truth(Next(w, Enters(turn))))
  {
    var truth, after := Truth(w), Truth(Next(w, Enters(turn)));
    forall t | t in w.disk.tasks
      ensures Keep(t, w.disk.tasks[t], after) <==> Keep(t, w.disk.tasks[t], truth) || Refers(w.disk.tasks[t], turn)
    {
      EnqueuedKeep(t, w.disk.tasks[t], truth, after, turn);
    }
  }

  lemma {:induction false} EnqueuedKeep(id: TaskId, t: Task, env: Environment, env': Environment, turn: Turn)
    requires env.queued.Some? && env' == env.(queued := Some(env.queued.value + {turn}))
    ensures Keep(id, t, env') <==> Keep(id, t, env) || Refers(t, turn)
  {
    if Refers(t, turn) {
      assert turn in env'.queued.value;
    }
    if exists x :: x in env.queued.value && Refers(t, x) {
      var x :| x in env.queued.value && Refers(t, x);
      assert x in env'.queued.value;
    }
  }

  /** An integration that becomes pending keeps the index complete exactly when the record
      of its task, if closed, is indexed. */
  lemma {:induction false} PendingLaw(w: World, task: TaskId)
    requires Indexed(w.disk, Truth(w))
    ensures Indexed(w.disk, Truth(Next(w, Pends(task)))) <==>
      (task in w.disk.tasks && w.disk.tasks[task].state == Closed ==> task in w.disk.active)
    ensures MayPend(w.disk.tasks, task) ==> Indexed(w.disk, Truth(Next(w, Pends(task))))
  {
    var truth, after := Truth(w), Truth(Next(w, Pends(task)));
    forall t | t in w.disk.tasks
      ensures Keep(t, w.disk.tasks[t], after) <==>
        Keep(t, w.disk.tasks[t], truth) || (t == task && w.disk.tasks[t].state == Closed)
    {
      assert after.queued == truth.queued;
    }
  }

  /** The record of a submission, written whole before its turn is enqueued, is what lets
      the turn enter, if no other record refers to it. */
  lemma {:induction false} IntentFirst(w: World, id: TaskId, t: Task, turn: Turn, queue: bool, integrations: bool,
      writes: nat)
    requires t.intent == Some(turn) || t.rollback == Some(turn) || t.state in {Queued, Active, Unclosed}
    requires writes >= 2 && forall x :: x in w.disk.tasks && x != id ==> !Refers(w.disk.tasks[x], turn)
    ensures var op := if id in w.disk.tasks then ReplaceTask(id, t, None, false) else CreateTask(id, t);
      Allowed(Next(w, Performs(op, writes, queue, integrations)), Enters(turn))
  {
    var op := if id in w.disk.tasks then ReplaceTask(id, t, None, false) else CreateTask(id, t);
    assert Keep(id, t, Seen(w, queue, integrations));
    TwoReplay(w.disk, AddActive(id), PutTask(id, t));
    assert Script(w.disk, op, Seen(w, queue, integrations)) == [AddActive(id), PutTask(id, t)];
    assert Cut([AddActive(id), PutTask(id, t)], writes) == [AddActive(id), PutTask(id, t)];
  }

  /** Without that, the entry is missing as soon as the turn enters: a closed record that
      refers to it and is not indexed. */
  lemma {:induction false} EnqueuedTooSoon(w: World, id: TaskId, turn: Turn)
    requires Indexed(w.disk, Truth(w)) && id in w.disk.tasks && turn in w.disk.tasks[id].turns && id !in w.disk.active
    ensures !Indexed(Next(w, Enters(turn)).disk, Truth(Next(w, Enters(turn))))
  {
    EnqueuedTurnLaw(w, turn);
    assert Refers(w.disk.tasks[id], turn);
  }

  /** A write that was not interrupted leaves exactly the right entry for its record. */
  lemma {:induction false} ReplacedIsExact(d: Disk, id: TaskId, t: Task, env: Environment)
    requires Indexed(d, env) && id in d.tasks
    ensures var d' := Replay(d, Script(d, ReplaceTask(id, t, None, false), env));
      id in d'.tasks && d'.tasks[id] == t && (id in d'.active <==> Keep(id, t, env))
  {
    if Keep(id, t, env) {
      TwoReplay(d, AddActive(id), PutTask(id, t));
    } else {
      TwoReplay(d, PutTask(id, t), DropActive(id));
    }
  }

  /** Writing the record first would be unsafe if a settled DAG could become unsettled. */
  lemma {:induction false} UnsettlingLosesEntry(d: Disk, r: RunId, was: Dag, dag: Dag, env: Environment)
    requires r in d.dags && d.dags[r] == was && Quiescent(was) && !Quiescent(dag) && r !in d.pending
    ensures !Indexed(Replay(d, Persist(r, was, dag)[..1]), env)
  {
    var script := Persist(r, was, dag);
    assert script[..1] == [PutDag(r, dag)];
    OneReplay(d, PutDag(r, dag));
    var d' := Done(d, PutDag(r, dag));
    assert r in d'.dags && d'.dags[r] == dag && r !in d'.pending;
  }

  // ---- The store itself ------------------------------------------------------------------------------

  lemma {:induction false} ReplayCut(d: Disk, a: seq<Write>, b: seq<Write>, n: nat)
    ensures Replay(d, Cut(a + b, n)) == Replay(Replay(d, Cut(a, n)), Cut(b, if n <= |a| then 0 else n - |a|))
  {
    if n <= |a| {
      assert Cut(a + b, n) == a[..n] && Cut(b, 0) == [];
    } else {
      assert Cut(a + b, n) == a + Cut(b, n - |a|);
      ReplayJoin(d, a, Cut(b, n - |a|));
    }
  }

  lemma {:induction false} CutOne(d: Disk, w: Write, n: nat)
    ensures Replay(d, Cut([w], n)) == if n == 0 then d else Done(d, w)
  {
    OneReplay(d, w);
    assert n == 0 ==> Cut([w], n) == [];
    assert n > 0 ==> Cut([w], n) == [w];
  }

  class ClientDisk {
    var disk: Disk
    /** Writes left before the process is killed. */
    var left: nat

    constructor (disk: Disk, left: nat)
      ensures this.disk == disk && this.left == left
    {
      this.disk, this.left := disk, left;
    }

    /** One durable write, unless the process is dead. */
    method Write(w: Write)
      modifies this
      ensures disk == Replay(old(disk), Cut([w], old(left)))
      ensures left == if old(left) == 0 then 0 else old(left) - 1
    {
      CutOne(disk, w, left);
      if left > 0 { disk, left := Done(disk, w), left - 1; }
    }

    method SyncActiveIndex(id: TaskId, t: Task, env: Environment)
      modifies this
      ensures disk == Replay(old(disk), Cut(SyncActive(id, t, env), old(left)))
      ensures left == if old(left) == 0 then 0 else old(left) - 1
    {
      if Keep(id, t, env) { Write(AddActive(id)); } else { Write(DropActive(id)); }
    }

    method CreateTaskFile(id: TaskId, t: Task, env: Environment)
      modifies this
      ensures disk == Replay(old(disk), Cut(Script(old(disk), CreateTask(id, t), env), old(left)))
    {
      if id in disk.tasks {
        if disk.tasks[id] == t { SyncActiveIndex(id, t, env); }
        return;
      }
      ghost var d, n := disk, left;
      if Keep(id, t, env) {
        Write(AddActive(id));
        ReplayCut(d, [AddActive(id)], [PutTask(id, t)], n);
      } else {
        assert [] + [PutTask(id, t)] == [PutTask(id, t)];
      }
      Write(PutTask(id, t));
    }

    method ReplaceTaskFile(id: TaskId, t: Task, expected: Option<Task>, skipSame: bool,
        env: Environment) returns (replaced: bool)
      modifies this
      ensures disk == Replay(old(disk), Cut(Script(old(disk), ReplaceTask(id, t, expected, skipSame), env), old(left)))
      ensures replaced <==> id in old(disk).tasks && (expected.None? || expected.value == old(disk).tasks[id])
    {
      if id !in disk.tasks { return false; }
      var existing := disk.tasks[id];
      if expected.Some? && expected.value != existing {
        if Keep(id, existing, env) { Write(AddActive(id)); }
        return false;
      }
      if skipSame && t == existing {
        SyncActiveIndex(id, existing, env);
        return true;
      }
      ghost var d, n := disk, left;
      var keep := Keep(id, t, env);
      if keep { Write(AddActive(id)); }
      Write(PutTask(id, t));
      if !keep { Write(DropActive(id)); }
      assert [AddActive(id)] + [PutTask(id, t)] == [AddActive(id), PutTask(id, t)];
      assert [PutTask(id, t)] + [DropActive(id)] == [PutTask(id, t), DropActive(id)];
      ReplayCut(d, [AddActive(id)], [PutTask(id, t)], n);
      ReplayCut(d, [PutTask(id, t)], [DropActive(id)], n);
      return true;
    }

    method SyncPendingIndex(r: RunId, d: Dag)
      modifies this
      ensures disk == Replay(old(disk), Cut(SyncPending(r, d), old(left)))
    {
      if Quiescent(d) { Write(DropPending(r)); } else { Write(AddPending(r)); }
    }

    /** `persist_dag_locked` */
    method PersistDag(r: RunId, d: Dag)
      requires r in disk.dags
      modifies this
      ensures disk == Replay(old(disk), Cut(Persist(r, old(disk).dags[r], d), old(left)))
    {
      ghost var start, n, was := disk, left, disk.dags[r];
      if disk.dags[r] != d {
        Write(PutDag(r, d));
        ReplayCut(start, [PutDag(r, d)], SyncPending(r, d), n);
      } else {
        assert [] + SyncPending(r, d) == SyncPending(r, d);
      }
      SyncPendingIndex(r, d);
    }

    /** `refresh_active_task_index` */
    method RefreshIndex(page: seq<TaskId>, env: Environment)
      modifies this
      ensures disk == Replay(old(disk), Cut(Script(old(disk), Refresh(page), env), old(left)))
    {
      if env.queued.None? { return; }
      var k := 0;
      ghost var start, n := disk, left;
      while k < |page|
        invariant k <= |page| && disk.tasks == start.tasks
        invariant Replay(start, Cut(RefreshScript(start, page, env), n)) ==
          Replay(disk, Cut(RefreshScript(start, page[k..], env), left))
      {
        assert page[k..][1..] == page[k + 1..];
        if page[k] in disk.tasks {
          ghost var more := SyncActive(page[k], disk.tasks[page[k]], env);
          ReplayCut(disk, more, RefreshScript(start, page[k + 1..], env), left);
          CutOne(disk, more[0], left);
          SyncActiveIndex(page[k], disk.tasks[page[k]], env);
        } else {
          assert [] + RefreshScript(start, page[k + 1..], env) == RefreshScript(start, page[k + 1..], env);
        }
        k := k + 1;
      }
      assert Cut(RefreshScript(start, page[k..], env), left) == [];
    }
  }
}
