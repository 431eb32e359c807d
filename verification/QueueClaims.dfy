/** Claiming the next task turn: worker ceilings, the cap of a run, and rows that
    older rows hold back. */
module QueueClaims {
  import opened Basics
  import opened Queue

  /** A task record: the turns known to be its own, the run it belongs to and
      whether its status is Active. */
  datatype TaskRecord = TaskRecord(task: nat, turns: seq<Job>, run: Option<nat>, active: bool)

  /** A local job record: does it match its row, and was it accepted or is it running? */
  datatype JobRecord = JobRecord(matches: bool, busy: bool)

  /** What a claim reads besides the queue: observed capabilities of workers, task and
      job records, processes known to have exited, and which parked turns the process
      of a row could run. */
  datatype Environment = Environment(
    capabilities: map<Worker, set<nat>>,
    tasks: seq<TaskRecord>,
    records: map<Job, JobRecord>,
    gone: set<Process>,
    offers: set<(Job, Job)>)

  datatype Answer = Yes | No | Broken

  // ---- Eligibility and the cap of a run -------------------------------------------------------

  /** `eligible_for`: pinned workers must match, and requirements need an observation. */
  predicate Eligible(e: Entry, worker: Worker, env: Environment) {
    && (e.pinned.Some? ==> e.pinned.value == worker)
    && (e.requirements == {} || (worker in env.capabilities && e.requirements <= env.capabilities[worker]))
  }

  function AddTurns(m: map<Job, nat>, turns: seq<Job>, task: nat): map<Job, nat>
    decreases |turns|
  {
    if turns == [] then m else AddTurns(m[turns[0] := task], turns[1..], task)
  }

  /** Which task a turn belongs to; a later record wins. */
  function TurnToTask(tasks: seq<TaskRecord>): map<Job, nat> {
    if tasks == [] then map[] else
      var last := tasks[|tasks| - 1];
      AddTurns(TurnToTask(tasks[..|tasks| - 1]), last.turns, last.task)
  }

  /** Who takes up a place in a run: a task, or a turn no record knows. */
  datatype Occupant = OfTask(task: nat) | OfTurn(job: Job)

  function Who(owner: map<Job, nat>, job: Job): Occupant { if job in owner then OfTask(owner[job]) else OfTurn(job) }

  predicate InRun(e: Entry, run: nat) { e.run.Some? && e.run.value.id == run }

  /** A row of the run that shows its turn is under way. */
  predicate Busy(e: Entry, run: nat, env: Environment) {
    && e.kind == TaskTurn && InRun(e, run)
    && (e.state.Dispatching? || (e.job in env.records && env.records[e.job].busy))
  }

  function BusyRows(entries: seq<Entry>, run: nat, env: Environment): set<Occupant> {
    set i | 0 <= i < |entries| && Busy(entries[i], run, env) :: Who(TurnToTask(env.tasks), entries[i].job)
  }

  function ActiveTasks(tasks: seq<TaskRecord>, run: nat): set<Occupant> {
    set i | 0 <= i < |tasks| && tasks[i].run == Some(run) && tasks[i].active :: OfTask(tasks[i].task)
  }

  /** Everyone who takes up a place in the run, but for the candidate itself. */
  function Others(s: Snapshot, env: Environment, run: nat, candidate: Job): set<Occupant> {
    BusyRows(s.entries, run, env) + ActiveTasks(env.tasks, run) - {Who(TurnToTask(env.tasks), candidate)}
  }

  predicate Mismatched(e: Entry, run: nat, env: Environment) {
    InRun(e, run) && e.job in env.records && !env.records[e.job].matches
  }

  predicate AnyMismatched(entries: seq<Entry>, run: nat, env: Environment) {
    exists i :: 0 <= i < |entries| && Mismatched(entries[i], run, env)
  }

  /** `run_has_capacity` for a task turn, as a count of distinct occupants. */
  function Capacity(s: Snapshot, env: Environment, e: Entry): Answer {
    if e.run.None? then Yes
    else if AnyMismatched(s.entries, e.run.value.id, env) then Broken
    else if |Others(s, env, e.run.value.id, e.job)| < e.run.value.cap then Yes
    else No
  }

  // ---- The capacity loops --------------------------------------------------------------------

  method MapTurns(tasks: seq<TaskRecord>) returns (m: map<Job, nat>)
    ensures m == TurnToTask(tasks)
  {
    m := map[];
    var n := 0;
    while n < |tasks|
      invariant n <= |tasks| && m == TurnToTask(tasks[..n])
    {
      assert tasks[..n + 1][..n] == tasks[..n];
      ghost var before := m;
      var k := 0;
      while k < |tasks[n].turns|
        invariant
          && k <= |tasks[n].turns|
          && AddTurns(before, tasks[n].turns, tasks[n].task) == AddTurns(m, tasks[n].turns[k..], tasks[n].task)
      {
        assert tasks[n].turns[k..][1..] == tasks[n].turns[k + 1..];
        m := m[tasks[n].turns[k] := tasks[n].task];
        k := k + 1;
      }
      n := n + 1;
    }
    assert tasks[..n] == tasks;
  }

  /** The tasks and the unknown turns of a set of occupants. */
  function TasksOf(o: set<Occupant>): set<nat> { set x | x in o && x.OfTask? :: x.task }
  function TurnsOf(o: set<Occupant>): set<Job> { set x | x in o && x.OfTurn? :: x.job }

  lemma {:induction false} OccupantsCount(o: set<Occupant>)
    ensures |TasksOf(o)| + |TurnsOf(o)| == |o|
    decreases |o|
  {
    if o == {} {
      assert TasksOf(o) == {} && TurnsOf(o) == {};
    } else {
      var x :| x in o;
      OccupantsCount(o - {x});
      WithoutOne(o, x);
    }
  }

  lemma {:induction false} WithoutOne(o: set<Occupant>, x: Occupant)
    requires x in o
    ensures |TasksOf(o)| == |TasksOf(o - {x})| + if x.OfTask? then 1 else 0
    ensures |TurnsOf(o)| == |TurnsOf(o - {x})| + if x.OfTurn? then 1 else 0
  {
    if x.OfTask? {
      assert TasksOf(o) == TasksOf(o - {x}) + {x.task} && TurnsOf(o) == TurnsOf(o - {x});
      assert x.task !in TasksOf(o - {x});
    } else {
      assert TurnsOf(o) == TurnsOf(o - {x}) + {x.job} && TasksOf(o) == TasksOf(o - {x});
      assert x.job !in TurnsOf(o - {x});
    }
  }

  /** `run_has_capacity`: one pass over the rows of the run and one over all task
      records, with a set of tasks and a set of turns. */
  method RunHasCapacity(s: Snapshot, env: Environment, e: Entry) returns (r: Answer)
    ensures r == Capacity(s, env, e)
  {
    if e.run.None? { return Yes; }
    var run := e.run.value.id;
    var owner := MapTurns(env.tasks);
    var fine, tasks, jobs := OccupyRows(s.entries, env, run, owner, e.job);
    if !fine { return Broken; }
    tasks := OccupyActive(env.tasks, run, owner, e.job, BusyRows(s.entries, run, env), tasks, jobs);
    OccupantsCount(Others(s, env, run, e.job));
    return if |tasks| + |jobs| < e.run.value.cap then Yes else No;
  }

  method OccupyRows(entries: seq<Entry>, env: Environment, run: nat, owner: map<Job, nat>, candidate: Job)
      returns (fine: bool, tasks: set<nat>, jobs: set<Job>)
    requires owner == TurnToTask(env.tasks)
    ensures fine == !AnyMismatched(entries, run, env)
    ensures fine ==> var others := BusyRows(entries, run, env) - {Who(owner, candidate)};
      tasks == TasksOf(others) && jobs == TurnsOf(others)
  {
    var own := if candidate in owner then Some(owner[candidate]) else None;
    ghost var me := Who(owner, candidate);
    tasks, jobs := {}, {};
    var n := 0;
    while n < |entries|
      invariant n <= |entries| && !AnyMismatched(entries[..n], run, env)
      invariant tasks == TasksOf(BusyRows(entries[..n], run, env) - {me})
      invariant jobs == TurnsOf(BusyRows(entries[..n], run, env) - {me})
    {
      var row := entries[n];
      BusyStep(entries, n, run, env);
      MismatchStep(entries, n, run, env);
      if InRun(row, run) {
        if row.job in env.records && !env.records[row.job].matches { return false, tasks, jobs; }
        if row.kind == TaskTurn && (row.state.Dispatching? || (row.job in env.records && env.records[row.job].busy)) {
          OccupyStep(BusyRows(entries[..n], run, env), Who(owner, row.job), me);
          if row.job in owner {
            if own != Some(owner[row.job]) { tasks := tasks + {owner[row.job]}; }
          } else if candidate != row.job {
            jobs := jobs + {row.job};
          }
        }
      }
      n := n + 1;
    }
    assert entries[..n] == entries;
    fine := true;
  }

  method OccupyActive(records: seq<TaskRecord>, run: nat, owner: map<Job, nat>, candidate: Job,
                      ghost busy: set<Occupant>, before: set<nat>, ghost jobs: set<Job>) returns (tasks: set<nat>)
    requires before == TasksOf(busy - {Who(owner, candidate)}) && jobs == TurnsOf(busy - {Who(owner, candidate)})
    ensures var others := busy + ActiveTasks(records, run) - {Who(owner, candidate)};
      tasks == TasksOf(others) && jobs == TurnsOf(others)
  {
    var own := if candidate in owner then Some(owner[candidate]) else None;
    ghost var me := Who(owner, candidate);
    tasks := before;
    var n := 0;
    assert busy + ActiveTasks(records[..0], run) == busy;
    while n < |records|
      invariant n <= |records|
      invariant tasks == TasksOf(busy + ActiveTasks(records[..n], run) - {me})
      invariant jobs == TurnsOf(busy + ActiveTasks(records[..n], run) - {me})
    {
      var record := records[n];
      ActiveStep(records, n, run);
      if record.run == Some(run) && record.active {
        OccupyStep(busy + ActiveTasks(records[..n], run), OfTask(record.task), me);
        assert busy + ActiveTasks(records[..n + 1], run) == busy + ActiveTasks(records[..n],
            run) + {OfTask(record.task)};
        if own != Some(record.task) { tasks := tasks + {record.task}; }
      }
      n := n + 1;
    }
    assert records[..n] == records;
  }

  lemma {:induction false} OccupyStep(o: set<Occupant>, x: Occupant, me: Occupant)
    ensures TasksOf(o + {x} - {me}) == TasksOf(o - {me}) + if x.OfTask? && x != me then {x.task} else {}
    ensures TurnsOf(o + {x} - {me}) == TurnsOf(o - {me}) + if x.OfTurn? && x != me then {x.job} else {}
  {
  }

  lemma {:induction false} BusyStep(entries: seq<Entry>, n: nat, run: nat, env: Environment)
    requires n < |entries|
    ensures BusyRows(entries[..n + 1], run, env) ==
      BusyRows(entries[..n], run, env) +
      if Busy(entries[n], run, env) then {Who(TurnToTask(env.tasks), entries[n].job)} else {}
  {
    var xs, ys := entries[..n + 1], entries[..n];
    assert xs == ys + [entries[n]];
    assert xs[n] == entries[n];
    assert forall i :: 0 <= i < n ==> xs[i] == ys[i];
  }

  lemma {:induction false} ActiveStep(tasks: seq<TaskRecord>, n: nat, run: nat)
    requires n < |tasks|
    ensures ActiveTasks(tasks[..n + 1], run) ==
      ActiveTasks(tasks[..n], run) +
      if tasks[n].run == Some(run) && tasks[n].active then {OfTask(tasks[n].task)} else {}
  {
    var xs, ys := tasks[..n + 1], tasks[..n];
    assert xs[n] == tasks[n];
    assert forall i :: 0 <= i < n ==> xs[i] == ys[i];
  }

  lemma {:induction false} MismatchStep(entries: seq<Entry>, n: nat, run: nat, env: Environment)
    requires n < |entries| && !AnyMismatched(entries[..n], run, env)
    ensures AnyMismatched(entries[..n + 1], run, env) <==> Mismatched(entries[n], run, env)
    ensures Mismatched(entries[n], run, env) ==> AnyMismatched(entries, run, env)
  {
    var xs, ys := entries[..n + 1], entries[..n];
    assert xs[n] == entries[n];
    assert forall i :: 0 <= i < n ==> xs[i] == ys[i];
  }

  // ---- The claim ------------------------------------------------------------------------------

  /** Who claims, at what time, for which turn if only one is meant, and how many turns
      each worker may have under way. */
  datatype Claim = Claim(owner: Process, at: nat, turn: Option<Job>, ceilings: map<Worker, nat>)

  function Ceiling(c: Claim, worker: Worker): nat { if worker in c.ceilings then c.ceilings[worker] else 1 }

  predicate OnWorker(e: Entry, worker: Worker) {
    e.kind == TaskTurn && e.state.Dispatching? && e.state.worker == worker
  }

  /** How many task turns are under way on a worker. */
  function Load(entries: seq<Entry>, worker: Worker): nat {
    if entries == []
    then 0 else Load(entries[..|entries| - 1], worker) + if OnWorker(entries[|entries| - 1], worker) then 1 else 0
  }

  /** The row may be claimed for the worker, but for the cap of its run. */
  predicate Wanted(e: Entry, worker: Worker, c: Claim, env: Environment) {
    && e.kind == TaskTurn && (c.turn.Some? ==> e.job == c.turn.value)
    && e.state == Waiting(c.owner) && !e.cancelled && Eligible(e, worker, env)
  }

  /** `blocks_queue_claim`, but for the cap of the older row's run. */
  predicate Competes(older: Entry, candidate: Entry, worker: Worker, c: Claim, env: Environment) {
    && older.kind == TaskTurn && !older.cancelled && Eligible(older, worker, env)
    && match older.state
      case Waiting(o) => o == c.owner || o !in env.gone
      case Parked => (older.job, candidate.job) in env.offers
      case Dispatching(_, _, _) => false
  }

  function Blocks(s: Snapshot, older: Entry, candidate: Entry, worker: Worker, c: Claim, env: Environment): Answer {
    if older.kind != TaskTurn || older.cancelled || !Eligible(older, worker, env) then No
    else match Capacity(s, env, older)
      case Broken => Broken
      case No => No
      case Yes => if Competes(older, candidate, worker, c, env) then Yes else No
  }

  /** Does some row from `k` up to the candidate `i` hold it back? The first that does,
      or that cannot be judged, decides. */
  function HeldBack(s: Snapshot, i: nat, k: nat, worker: Worker, c: Claim, env: Environment): Answer
    requires k <= i < |s.entries|
    decreases i - k
  {
    if k == i then No
    else match Blocks(s, s.entries[k], s.entries[i], worker, c, env)
      case No => HeldBack(s, i, k + 1, worker, c, env)
      case a => a
  }

  /** Is row `i` granted to the worker? */
  function Grants(s: Snapshot, i: nat, worker: Worker, c: Claim, env: Environment): Answer
    requires i < |s.entries|
  {
    if !Wanted(s.entries[i], worker, c, env) then No
    else match Capacity(s, env, s.entries[i])
      case Broken => Broken
      case No => No
      case Yes =>
        match HeldBack(s, i, 0, worker, c, env)
        case Broken => Broken
        case Yes => No
        case No => Yes
  }

  datatype Pick = Picked(worker: Worker, index: nat) | Nothing | Unjudged

  function PickRow(s: Snapshot, i: nat, worker: Worker, c: Claim, env: Environment): (p: Pick)
    requires i <= |s.entries|
    ensures p.Picked? ==> p.worker == worker && i <= p.index < |s.entries|
    decreases |s.entries| - i
  {
    if i == |s.entries| then Nothing
    else match Grants(s, i, worker, c, env)
      case Yes => Picked(worker, i)
      case No => PickRow(s, i + 1, worker, c, env)
      case Broken => Unjudged
  }

  function PickWorker(s: Snapshot, workers: seq<Worker>, c: Claim, env: Environment): (p: Pick)
    ensures p.Picked? ==> p.index < |s.entries|
  {
    if workers == [] then Nothing
    else if Load(s.entries, workers[0]) >= Ceiling(c, workers[0]) then PickWorker(s, workers[1..], c, env)
    else match PickRow(s, 0, workers[0], c, env)
      case Nothing => PickWorker(s, workers[1..], c, env)
      case p => p
  }

  function Dispatched(e: Entry, worker: Worker, c: Claim): Entry { e.(state := Dispatching(c.owner, worker, c.at)) }

  /** `claim_next_matching` */
  function ClaimNext(s: Snapshot, workers: seq<Worker>, c: Claim, env: Environment): (Snapshot, Result<Option<Entry>>) {
    if c.at == 0 || !Distinct(workers) then (s, Err(Invalid))
    else match PickWorker(s, workers, c, env)
      case Nothing => (s, Ok(None))
      case Unjudged => (s, Err(RecordMismatch))
      case Picked(worker, i) =>
        var e := Dispatched(s.entries[i], worker, c);
        Publish(s, s.(entries := s.entries[i := e]), Some(e))
  }

  predicate Distinct(workers: seq<Worker>) { forall i, j :: 0 <= i < j < |workers| ==> workers[i] != workers[j] }

  // ---- The claim loops ---------------------------------------------------------------------------

  method CountLoad(entries: seq<Entry>, worker: Worker) returns (n: nat)
    ensures n == Load(entries, worker)
  {
    n := 0;
    var k := 0;
    while k < |entries|
      invariant k <= |entries| && n == Load(entries[..k], worker)
    {
      assert entries[..k + 1][..k] == entries[..k];
      if entries[k].kind == TaskTurn && entries[k].state.Dispatching? && entries[k].state.worker == worker {
        n := n + 1;
      }
      k := k + 1;
    }
    assert entries[..k] == entries;
  }

  method BlocksClaim(s: Snapshot, older: Entry, candidate: Entry, worker: Worker, c: Claim,
      env: Environment) returns (r: Answer)
    ensures r == Blocks(s, older, candidate, worker, c, env)
  {
    if older.kind != TaskTurn || older.cancelled || !Eligible(older, worker, env) { return No; }
    var capacity := RunHasCapacity(s, env, older);
    if capacity != Yes { return capacity; }
    match older.state {
      case Waiting(o) => return if o == c.owner || o !in env.gone then Yes else No;
      case Parked => return if (older.job, candidate.job) in env.offers then Yes else No;
      case Dispatching(_, _, _) => return No;
    }
  }

  method ConsiderRow(s: Snapshot, i: nat, worker: Worker, c: Claim, env: Environment) returns (r: Answer)
    requires i < |s.entries|
    ensures r == Grants(s, i, worker, c, env)
  {
    if !Wanted(s.entries[i], worker, c, env) { return No; }
    var capacity := RunHasCapacity(s, env, s.entries[i]);
    if capacity != Yes { return capacity; }
    var k := 0;
    while k < i
      invariant k <= i && HeldBack(s, i, 0, worker, c, env) == HeldBack(s, i, k, worker, c, env)
    {
      var blocks := BlocksClaim(s, s.entries[k], s.entries[i], worker, c, env);
      if blocks == Broken { return Broken; }
      if blocks == Yes { return No; }
      k := k + 1;
    }
    return Yes;
  }

  method SelectRow(s: Snapshot, workers: seq<Worker>, c: Claim, env: Environment) returns (p: Pick)
    ensures p == PickWorker(s, workers, c, env)
  {
    var w := 0;
    while w < |workers|
      invariant w <= |workers| && PickWorker(s, workers, c, env) == PickWorker(s, workers[w..], c, env)
    {
      var worker := workers[w];
      assert workers[w..][0] == worker && workers[w..][1..] == workers[w + 1..];
      var load := CountLoad(s.entries, worker);
      if load < Ceiling(c, worker) {
        var i := 0;
        while i < |s.entries|
          invariant i <= |s.entries| && PickRow(s, 0, worker, c, env) == PickRow(s, i, worker, c, env)
        {
          var grants := ConsiderRow(s, i, worker, c, env);
          if grants == Broken { return Unjudged; }
          if grants == Yes { return Picked(worker, i); }
          i := i + 1;
        }
      }
      w := w + 1;
    }
    return Nothing;
  }

  /** `claim_next_matching` on the queue itself. */
  method ClaimNextMatching(q: QueueStore, workers: seq<Worker>, c: Claim,
      env: Environment) returns (r: Result<Option<Entry>>)
    modifies q
    ensures (q.Contents(), r) == ClaimNext(old(q.Contents()), workers, c, env)
  {
    if c.at == 0 { return Err(Invalid); }
    var distinct := AllDistinct(workers);
    if !distinct { return Err(Invalid); }
    var p := SelectRow(q.Contents(), workers, c, env);
    match p {
      case Nothing => return Ok(None);
      case Unjudged => return Err(RecordMismatch);
      case Picked(worker, i) =>
        var e := q.entries[i].(state := Dispatching(c.owner, worker, c.at));
        var published := q.PublishIfValid(Snapshot(q.nextId, q.entries[i := e]));
        return if published then Ok(Some(e)) else Err(Invalid);
    }
  }

  method AllDistinct(workers: seq<Worker>) returns (r: bool)
    ensures r == Distinct(workers)
  {
    var names: set<Worker>, n := {}, 0;
    while n < |workers|
      invariant n <= |workers| && names == (set i | 0 <= i < n :: workers[i]) && Distinct(workers[..n])
    {
      if workers[n] in names { return false; }
      names, n := names + {workers[n]}, n + 1;
    }
    assert workers[..n] == workers;
    return true;
  }

  // ---- What is granted ---------------------------------------------------------------------------

  predicate Room(s: Snapshot, worker: Worker, c: Claim) { Load(s.entries, worker) < Ceiling(c, worker) }

  /** The row waits for this owner, is eligible, within the cap of its run, and no
      older row that could itself run on the worker is held by a live process. */
  predicate Claimable(s: Snapshot, i: nat, worker: Worker, c: Claim, env: Environment)
    requires i < |s.entries|
  {
    && Wanted(s.entries[i], worker, c, env) && Capacity(s, env, s.entries[i]).Yes?
    && forall k :: 0 <= k < i ==>
        !(Competes(s.entries[k], s.entries[i], worker, c, env) && Capacity(s, env, s.entries[k]).Yes?)
  }

  lemma {:induction false} HeldBackMeans(s: Snapshot, i: nat, k: nat, worker: Worker, c: Claim, env: Environment)
    requires k <= i < |s.entries|
    ensures HeldBack(s, i, k, worker, c, env) == No ==>
      forall j :: k <= j < i ==> Blocks(s, s.entries[j], s.entries[i], worker, c, env) == No
    ensures HeldBack(s, i, k, worker, c, env) == Yes ==>
      exists j :: k <= j < i && Blocks(s, s.entries[j], s.entries[i], worker, c, env) == Yes
    decreases i - k
  {
    if k < i {
      HeldBackMeans(s, i, k + 1, worker, c, env);
    }
  }

  lemma {:induction false} GrantsMeans(s: Snapshot, i: nat, worker: Worker, c: Claim, env: Environment)
    requires i < |s.entries|
    ensures Grants(s, i, worker, c, env) == Yes ==> Claimable(s, i, worker, c, env)
    ensures Grants(s, i, worker, c, env) == No ==> !Claimable(s, i, worker, c, env)
  {
    HeldBackMeans(s, i, 0, worker, c, env);
    if Grants(s, i, worker, c, env) == Yes {
      forall k | 0 <= k < i
        ensures !(Competes(s.entries[k], s.entries[i], worker, c, env) && Capacity(s, env, s.entries[k]).Yes?)
      {
        assert Blocks(s, s.entries[k], s.entries[i], worker, c, env) == No;
      }
    }
  }

  lemma {:induction false} PickRowMeans(s: Snapshot, i: nat, worker: Worker, c: Claim, env: Environment)
    requires i <= |s.entries|
    ensures var p := PickRow(s, i, worker, c, env);
      && (p.Picked? ==> Claimable(s, p.index, worker, c, env) && forall j :: i <= j < p.index ==>
          !Claimable(s, j, worker, c, env))
      && (p.Nothing? ==> forall j :: i <= j < |s.entries| ==> !Claimable(s, j, worker, c, env))
    decreases |s.entries| - i
  {
    if i < |s.entries| {
      GrantsMeans(s, i, worker, c, env);
      PickRowMeans(s, i + 1, worker, c, env);
    }
  }

  /** Nothing can be granted to this worker. */
  ghost predicate Idle(s: Snapshot, worker: Worker, c: Claim, env: Environment) {
    Room(s, worker, c) ==> forall j :: 0 <= j < |s.entries| ==> !Claimable(s, j, worker, c, env)
  }

  lemma {:induction false} PickWorkerMeans(s: Snapshot, workers: seq<Worker>, c: Claim,
      env: Environment) returns (n: nat)
    ensures var p := PickWorker(s, workers, c, env);
      && (p.Picked? ==>
          && n < |workers| && workers[n] == p.worker && Room(s, p.worker, c) && Claimable(s, p.index, p.worker, c, env)
          && (forall m :: 0 <= m < n ==> Idle(s, workers[m], c, env))
          && (forall j :: 0 <= j < p.index ==> !Claimable(s, j, p.worker, c, env)))
      && (p.Nothing? ==> forall m :: 0 <= m < |workers| ==> Idle(s, workers[m], c, env))
    decreases |workers|
  {
    n := 0;
    if workers != [] {
      PickRowMeans(s, 0, workers[0], c, env);
      if Load(s.entries, workers[0]) >= Ceiling(c, workers[0]) || PickRow(s, 0, workers[0], c, env).Nothing? {
        var k := PickWorkerMeans(s, workers[1..], c, env);
        assert Idle(s, workers[0], c, env);
        assert forall m :: 0 < m < |workers| ==> workers[m] == workers[1..][m - 1];
        n := k + 1;
      }
    }
  }

  /** A claim that succeeds is the lexicographic minimum: the first ranked worker that
      has room and a claimable row, and its oldest such row; that row alone changes.
      A claim that finds nothing leaves no such pair. */
  lemma {:induction false} ClaimLaw(s: Snapshot, workers: seq<Worker>, c: Claim, env: Environment) returns (n: nat,
      i: nat)
    ensures var (after, r) := ClaimNext(s, workers, c, env);
      && (r == Ok(None) ==> after == s && forall m :: 0 <= m < |workers| ==> Idle(s, workers[m], c, env))
      && (r.Ok? && r.value.Some? ==>
          && n < |workers| && i < |s.entries| && Room(s, workers[n], c) && Claimable(s, i, workers[n], c, env)
          && (forall m :: 0 <= m < n ==> Idle(s, workers[m], c, env))
          && (forall j :: 0 <= j < i ==> !Claimable(s, j, workers[n], c, env))
          && r.value.value == Dispatched(s.entries[i], workers[n], c)
          && after == s.(entries := s.entries[i := r.value.value]))
      && (r.Err? ==> after == s)
  {
    n := PickWorkerMeans(s, workers, c, env);
    i := 0;
    var p := PickWorker(s, workers, c, env);
    if p.Picked? {
      i := p.index;
    }
  }

  /** A row is granted to a run of cap n only while fewer than n others, counted once
      each however many signs there are of them, are busy in the run. */
  lemma {:induction false} GrantWithinCap(s: Snapshot, workers: seq<Worker>, c: Claim, env: Environment)
    requires ClaimNext(s, workers, c, env).1.Ok? && ClaimNext(s, workers, c, env).1.value.Some?
    ensures var e := ClaimNext(s, workers, c, env).1.value.value;
      e.run.Some? ==> |Others(s, env, e.run.value.id, e.job)| < e.run.value.cap
  {
    var n, i := ClaimLaw(s, workers, c, env);
  }
}
