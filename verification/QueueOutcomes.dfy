/** What every queue operation answers and leaves behind, and exactly when a claim
    succeeds. */
module QueueOutcomes {
  import opened Basics
  import opened Queue
  import opened QueueClaims

  // ---- Rows -----------------------------------------------------------------------------

  predicate RowIs(s: Snapshot, job: Job, i: nat) { i < |s.entries| && s.entries[i].job == job }

  predicate NoRow(s: Snapshot, job: Job) { forall k :: 0 <= k < |s.entries| ==> s.entries[k].job != job }

  lemma {:induction false} FoundRow(s: Snapshot, job: Job, i: nat)
    requires Valid(s) && RowIs(s, job, i)
    ensures FindJob(s.entries, job) == Some(i)
  {
    forall k | 0 <= k < i ensures s.entries[k].job != job {
      assert Follows(s.entries[k], s.entries[i]);
    }
    assert FindJob(s.entries, job).Some?;
  }

  /** Row `i` alone has changed, and only in its state. */
  predicate OnlyState(s: Snapshot, after: Snapshot, i: nat, state: State)
    requires i < |s.entries|
  {
    && after.nextId == s.nextId && |after.entries| == |s.entries|
    && (forall k :: 0 <= k < |s.entries| && k != i ==> after.entries[k] == s.entries[k])
    && after.entries[i] == s.entries[i].(state := state)
  }

  /** Row `i` alone is gone. */
  predicate OnlyGone(s: Snapshot, after: Snapshot, i: nat)
    requires i < |s.entries|
  {
    && after.nextId == s.nextId && |after.entries| == |s.entries| - 1
    && (forall k :: 0 <= k < i ==> after.entries[k] == s.entries[k])
    && (forall k :: i <= k < |s.entries| - 1 ==> after.entries[k] == s.entries[k + 1])
  }

  lemma {:induction false} StateKeepsValid(s: Snapshot, i: nat, state: State)
    requires Valid(s) && i < |s.entries|
    ensures Valid(s.(entries := s.entries[i := s.entries[i].(state := state)])) <==>
      (state.Dispatching? ==> state.claimedAt != 0 && state.claimedAt >= s.entries[i].enqueuedAt)
  {
    var after := s.entries[i := s.entries[i].(state := state)];
    assert ValidEntry(s.entries[i]) && after[i] == s.entries[i].(state := state);
    forall j, k | 0 <= j < k < |after| ensures Follows(after[j], after[k]) {
      assert Follows(s.entries[j], s.entries[k]);
    }
  }

  lemma {:induction false} RemoveKeepsValid(s: Snapshot, i: nat)
    requires Valid(s) && i < |s.entries|
    ensures var after := s.(entries := Remove(s.entries, i)); Valid(after) && OnlyGone(s, after, i)
  {
    var rows, after := s.entries, Remove(s.entries, i);
    assert forall k :: 0 <= k < |after| ==> after[k] == rows[if k < i then k else k + 1];
  }

  /** The dispatch owner's row waits for it again, and nothing else has changed. */
  lemma {:induction false} RevertLaw(s: Snapshot, job: Job, owner: Process, i: nat)
    requires Valid(s) && RowIs(s, job, i)
    ensures var (after, r) := Revert(s, job, owner);
      if s.entries[i].state.Dispatching? && s.entries[i].state.dispatchOwner == owner
      then OnlyState(s, after, i, Waiting(owner)) && r == Ok(after.entries[i])
      else after == s && r == Err(OwnerMismatch)
  {
    FoundRow(s, job, i);
    StateKeepsValid(s, i, Waiting(owner));
  }

  /** Does the row belong to somebody else? A parked row belongs to nobody. */
  predicate OfAnother(e: Entry, owner: Process) {
    match e.state
    case Waiting(o) => o != owner
    case Dispatching(o, _, _) => o != owner
    case Parked => false
  }

  /** A task turn of that owner, or of nobody, is taken out, and nothing else has changed. */
  lemma {:induction false} FinishLaw(s: Snapshot, job: Job, owner: Process, i: nat)
    requires Valid(s) && RowIs(s, job, i)
    ensures var (after, r) := RemoveAfterTerminal(s, job, owner);
      if s.entries[i].kind != TaskTurn then after == s && r == Err(KindConflict)
      else if OfAnother(s.entries[i], owner) then after == s && r == Err(OwnerMismatch)
      else OnlyGone(s, after, i) && r == Ok(Some(s.entries[i]))
  {
    FoundRow(s, job, i);
    RemoveKeepsValid(s, i);
  }

  lemma {:induction false} RollBackLaw(s: Snapshot, job: Job, i: nat)
    requires Valid(s) && RowIs(s, job, i)
    ensures var (after, r) := RollBack(s, job);
      if s.entries[i].kind != TaskTurn then after == s && r == Err(KindConflict)
      else OnlyGone(s, after, i) && r == Ok(Some(s.entries[i]))
  {
    FoundRow(s, job, i);
    RemoveKeepsValid(s, i);
  }

  /** Without the row nothing happens, and only a revert is an error. */
  lemma {:induction false} NothingThere(s: Snapshot, job: Job, owner: Process)
    requires NoRow(s, job)
    ensures Revert(s, job, owner) == (s, Err(NotFound))
    ensures RollBack(s, job) == (s, Ok(None)) && RemoveAfterTerminal(s, job, owner) == (s, Ok(None))
  {
  }

  /** When a row is queued: not before the last one. */
  function QueueTime(s: Snapshot, e: Entry): nat {
    var n := |s.entries|;
    if n > 0 && s.entries[n - 1].enqueuedAt > e.enqueuedAt then s.entries[n - 1].enqueuedAt else e.enqueuedAt
  }

  /** A run has the same cap in both. */
  predicate OneCap(a: Option<Run>, b: Option<Run>) {
    a.Some? && b.Some? && a.value.id == b.value.id ==> a.value.cap == b.value.cap
  }

  /** The new row agrees with the cap that its run has in the queue, and it was not claimed
      before it is queued. */
  predicate Acceptable(s: Snapshot, e: Entry) {
    && (forall k :: 0 <= k < |s.entries| ==> OneCap(s.entries[k].run, e.run))
    && (e.state.Dispatching? ==> e.state.claimedAt >= QueueTime(s, e))
  }

  /** A row without an id whose turn is not queued yet goes last, under the next id and not
      before the last row in time; each refusal has its own cause. */
  lemma {:induction false} EnqueueLaw(s: Snapshot, e: Entry)
    requires Valid(s) && 0 < s.nextId
    ensures var (after, r) := Enqueue(s, e);
      var row := e.(id := s.nextId, enqueuedAt := QueueTime(s, e));
      var early := e.state.Dispatching? && (e.state.claimedAt == 0 || e.state.claimedAt < e.enqueuedAt);
      if e.enqueuedAt == 0 || early then after == s && r == Err(Invalid)
      else if e.id != 0 then after == s && r == Err(IdAssigned)
      else if !NoRow(s, e.job) then after == s && r == Err(JobConflict)
      else if s.nextId >= 0xFFFF_FFFF_FFFF_FFFF then after == s && r == Err(IdExhausted)
      else if !Acceptable(s, e) then after == s && r == Err(Invalid)
      else after == Snapshot(s.nextId + 1, s.entries + [row]) && r == Ok(row)
  {
    var row := e.(id := s.nextId, enqueuedAt := QueueTime(s, e));
    assert Placed(s, e) == row;
    if ValidEntry(e) && NoRow(s, e.job) {
      AppendValid(s, e, row);
    }
  }

  lemma {:induction false} AppendValid(s: Snapshot, e: Entry, row: Entry)
    requires Valid(s) && 0 < s.nextId && ValidEntry(e) && NoRow(s, e.job)
    requires row == e.(id := s.nextId, enqueuedAt := QueueTime(s, e))
    ensures Valid(Snapshot(s.nextId + 1, s.entries + [row])) <==> Acceptable(s, e)
  {
    var n, after := |s.entries|, s.entries + [row];
    assert after[n] == row && forall k :: 0 <= k < n ==> after[k] == s.entries[k];
    forall k | 0 <= k < n ensures s.entries[k].enqueuedAt <= row.enqueuedAt {
      if k < n - 1 {
        assert Follows(s.entries[k], s.entries[n - 1]);
      }
    }
    if Acceptable(s, e) {
      forall j, k | 0 <= j < k < |after| ensures Follows(after[j], after[k]) {
        if k < n {
          assert Follows(s.entries[j], s.entries[k]);
        }
      }
    }
    if Valid(Snapshot(s.nextId + 1, after)) {
      forall k | 0 <= k < n ensures !SameRunOtherCap(s.entries[k], row) {
        assert Follows(after[k], after[n]);
      }
    }
  }

  /** A row of a turn that is queued already is answered as it stands. */
  lemma {:induction false} EnqueueIfAbsentLaw(s: Snapshot, e: Entry, i: nat)
    requires Valid(s) && RowIs(s, e.job, i) && ValidEntry(e) && e.id == 0
    ensures EnqueueIfAbsent(s, e) == (s, Ok(s.entries[i]))
  {
    FoundRow(s, e.job, i);
  }

  // ---- Who takes up a place ---------------------------------------------------------------

  /** The last record that lists the turn is that task's. */
  predicate ListedBy(tasks: seq<TaskRecord>, job: Job, task: nat) {
    exists i :: 0 <= i < |tasks| && job in tasks[i].turns && tasks[i].task == task
      && forall j :: i < j < |tasks| ==> job !in tasks[j].turns
  }

  predicate Unlisted(tasks: seq<TaskRecord>, job: Job) { forall i :: 0 <= i < |tasks| ==> job !in tasks[i].turns }

  lemma {:induction false} AddTurnsLaw(m: map<Job, nat>, turns: seq<Job>, task: nat, job: Job)
    ensures var after := AddTurns(m, turns, task);
      if job in turns then job in after && after[job] == task
      else (job in after <==> job in m) && (job in m ==> after[job] == m[job])
    decreases |turns|
  {
    if turns != [] {
      AddTurnsLaw(m[turns[0] := task], turns[1..], task, job);
      assert turns == [turns[0]] + turns[1..];
    }
  }

  /** A turn counts for that task whose record lists it last. */
  lemma {:induction false} TurnToTaskLaw(tasks: seq<TaskRecord>, job: Job)
    ensures var owner := TurnToTask(tasks);
      if job in owner then ListedBy(tasks, job, owner[job]) else Unlisted(tasks, job)
  {
    if tasks != [] {
      var n := |tasks| - 1;
      var front, last := tasks[..n], tasks[n];
      TurnToTaskLaw(front, job);
      AddTurnsLaw(TurnToTask(front), last.turns, last.task, job);
      if job in last.turns {
        assert tasks[n].task == last.task;
      } else if job in TurnToTask(front) {
        var i :| 0 <= i < |front| && job in front[i].turns && front[i].task == TurnToTask(front)[job]
          && forall j :: i < j < |front| ==> job !in front[j].turns;
        assert tasks[i] == front[i] && forall j :: i < j < n ==> tasks[j] == front[j];
      } else {
        assert forall j :: 0 <= j < n ==> tasks[j] == front[j];
      }
    }
  }

  /** The occupant a turn stands for. */
  predicate StandsFor(o: Occupant, env: Environment, job: Job) {
    match o
    case OfTask(task) => ListedBy(env.tasks, job, task)
    case OfTurn(turn) => turn == job && Unlisted(env.tasks, job)
  }

  lemma {:induction false} WhoLaw(env: Environment, job: Job, o: Occupant)
    ensures o == Who(TurnToTask(env.tasks), job) <==> StandsFor(o, env, job)
  {
    TurnToTaskLaw(env.tasks, job);
    forall a, b | ListedBy(env.tasks, job, a) && ListedBy(env.tasks, job, b) ensures a == b {
      OneLister(env.tasks, job, a, b);
    }
  }

  lemma {:induction false} OneLister(tasks: seq<TaskRecord>, job: Job, a: nat, b: nat)
    requires ListedBy(tasks, job, a) && ListedBy(tasks, job, b)
    ensures a == b
  {
    var i :| 0 <= i < |tasks| && job in tasks[i].turns && tasks[i].task == a
      && forall j :: i < j < |tasks| ==> job !in tasks[j].turns;
    var k :| 0 <= k < |tasks| && job in tasks[k].turns && tasks[k].task == b
      && forall j :: k < j < |tasks| ==> job !in tasks[j].turns;
  }

  /** A task turn of the run that stands for the occupant is dispatching, or its job was
      accepted or is running. */
  predicate UnderWay(e: Entry, env: Environment, run: nat, o: Occupant) {
    && e.kind == TaskTurn && e.run.Some? && e.run.value.id == run && StandsFor(o, env, e.job)
    && (e.state.Dispatching? || (e.job in env.records && env.records[e.job].busy))
  }

  /** The occupant takes up a place in the run: a turn of it is under way, or its task is
      recorded as active in the run. */
  predicate Occupies(s: Snapshot, env: Environment, run: nat, o: Occupant) {
    || (exists k :: 0 <= k < |s.entries| && UnderWay(s.entries[k], env, run, o))
    || (exists k :: 0 <= k < |env.tasks| && o == OfTask(env.tasks[k].task) && IsActive(env.tasks[k], run))
  }

  predicate IsActive(record: TaskRecord, run: nat) { record.active && record.run == Some(run) }

  /** The places taken by others are those of the run's occupants without the candidate's own. */
  lemma {:induction false} OthersLaw(s: Snapshot, env: Environment, run: nat, candidate: Job, o: Occupant)
    ensures o in Others(s, env, run, candidate) <==> Occupies(s, env, run, o) && !StandsFor(o, env, candidate)
  {
    WhoLaw(env, candidate, o);
    forall k | 0 <= k < |s.entries|
      ensures o == Who(TurnToTask(env.tasks), s.entries[k].job) <==> StandsFor(o, env, s.entries[k].job)
    {
      WhoLaw(env, s.entries[k].job, o);
    }
    BusyLaw(s, env, run, o);
  }

  lemma {:induction false} BusyLaw(s: Snapshot, env: Environment, run: nat, o: Occupant)
    requires forall k :: 0 <= k < |s.entries| ==>
      (o == Who(TurnToTask(env.tasks), s.entries[k].job) <==> StandsFor(o, env, s.entries[k].job))
    ensures o in BusyRows(s.entries, run, env) + ActiveTasks(env.tasks, run) <==> Occupies(s, env, run, o)
  {
    if k :| 0 <= k < |s.entries| && UnderWay(s.entries[k], env, run, o) {
      assert Busy(s.entries[k], run, env);
    }
    if k :| 0 <= k < |s.entries| && Busy(s.entries[k], run, env) && o == Who(TurnToTask(env.tasks), s.entries[k].job) {
      assert UnderWay(s.entries[k], env, run, o);
    }
    forall k | 0 <= k < |env.tasks|
      ensures IsActive(env.tasks[k], run) <==> env.tasks[k].run == Some(run) && env.tasks[k].active
    {
    }
  }

  // ---- Claims ------------------------------------------------------------------------------

  /** Where the turns under way on a worker stand in the queue. */
  function TurnsOn(entries: seq<Entry>, worker: Worker): set<nat> {
    set k | 0 <= k < |entries| && entries[k].kind == TaskTurn
      && entries[k].state.Dispatching? && entries[k].state.worker == worker
  }

  lemma {:induction false} LoadLaw(entries: seq<Entry>, worker: Worker)
    ensures Load(entries, worker) == |TurnsOn(entries, worker)|
  {
    if entries == [] {
      assert TurnsOn(entries, worker) == {};
    } else {
      var n := |entries| - 1;
      LoadLaw(entries[..n], worker);
      TurnsOnStep(entries, worker, n);
    }
  }

  lemma {:induction false} TurnsOnStep(entries: seq<Entry>, worker: Worker, n: nat)
    requires n + 1 == |entries|
    ensures n !in TurnsOn(entries[..n], worker)
    ensures TurnsOn(entries, worker) ==
      TurnsOn(entries[..n], worker) + if OnWorker(entries[n], worker) then {n} else {}
  {
    var front := entries[..n];
    assert forall k :: 0 <= k < n ==> front[k] == entries[k];
  }

  /** The worker has fewer task turns under way than its ceiling, which is one if none is set. */
  predicate HasRoom(s: Snapshot, worker: Worker, c: Claim) {
    |TurnsOn(s.entries, worker)| < if worker in c.ceilings then c.ceilings[worker] else 1
  }

  /** The row may run on the worker: it is not pinned to another one, and what it requires
      was observed there. */
  predicate MayRunOn(e: Entry, worker: Worker, env: Environment) {
    && (e.pinned == None || e.pinned == Some(worker))
    && forall r :: r in e.requirements ==> worker in env.capabilities && r in env.capabilities[worker]
  }

  /** The run of the row, if any, has a place left besides those of others. */
  predicate HasPlace(s: Snapshot, env: Environment, e: Entry) {
    e.run.Some? ==> |Others(s, env, e.run.value.id, e.job)| < e.run.value.cap
  }

  /** The older row comes first: it could run on the worker, and it waits for the claimant,
      or for a process not known to have exited, or it is parked for one that could run it. */
  predicate ComesFirst(s: Snapshot, older: Entry, e: Entry, worker: Worker, c: Claim, env: Environment) {
    && older.kind == TaskTurn && !older.cancelled && MayRunOn(older, worker, env) && HasPlace(s, env, older)
    && match older.state
      case Waiting(p) => p == c.owner || p !in env.gone
      case Parked => (older.job, e.job) in env.offers
      case Dispatching(_, _, _) => false
  }

  /** The row waits for the claimant and nothing stands in its way on the worker. */
  predicate Ripe(s: Snapshot, i: nat, worker: Worker, c: Claim, env: Environment)
    requires i < |s.entries|
  {
    var e := s.entries[i];
    && e.kind == TaskTurn && e.state == Waiting(c.owner) && !e.cancelled && (c.turn == None || c.turn == Some(e.job))
    && MayRunOn(e, worker, env) && HasPlace(s, env, e)
    && forall k :: 0 <= k < i ==> !ComesFirst(s, s.entries[k], e, worker, c, env)
  }

  /** The local record of a queued turn of a run says something else than its row. */
  predicate Contradicted(s: Snapshot, env: Environment) {
    exists k :: 0 <= k < |s.entries| && s.entries[k].run.Some? && s.entries[k].job in env.records
      && !env.records[s.entries[k].job].matches
  }

  lemma {:induction false} CapacityIs(s: Snapshot, env: Environment, e: Entry)
    ensures Capacity(s, env, e) == Broken ==> Contradicted(s, env)
    ensures Capacity(s, env, e) != Broken ==> (Capacity(s, env, e) == Yes <==> HasPlace(s, env, e))
  {
    if Capacity(s, env, e) == Broken {
      var k :| 0 <= k < |s.entries| && Mismatched(s.entries[k], e.run.value.id, env);
      assert s.entries[k].run.Some?;
    }
  }

  lemma {:induction false} EligibleIs(e: Entry, worker: Worker, env: Environment)
    ensures Eligible(e, worker, env) <==> MayRunOn(e, worker, env)
  {
    if e.requirements != {} && MayRunOn(e, worker, env) {
      var r :| r in e.requirements;
      assert worker in env.capabilities;
    }
  }

  lemma {:induction false} ClaimableIs(s: Snapshot, i: nat, worker: Worker, c: Claim, env: Environment)
    requires i < |s.entries| && !Contradicted(s, env)
    ensures Claimable(s, i, worker, c, env) <==> Ripe(s, i, worker, c, env)
  {
    EligibleIs(s.entries[i], worker, env);
    CapacityIs(s, env, s.entries[i]);
    forall k | 0 <= k < i
      ensures Competes(s.entries[k], s.entries[i], worker, c, env) && Capacity(s, env, s.entries[k]).Yes? <==>
        ComesFirst(s, s.entries[k], s.entries[i], worker, c, env)
    {
      EligibleIs(s.entries[k], worker, env);
      CapacityIs(s, env, s.entries[k]);
    }
  }

  // ---- Errors ------------------------------------------------------------------------------

  lemma {:induction false} BrokenRow(s: Snapshot, i: nat, k: nat, worker: Worker, c: Claim, env: Environment)
    requires k <= i < |s.entries|
    ensures HeldBack(s, i, k, worker, c, env) == Broken ==> Contradicted(s, env)
    decreases i - k
  {
    if k < i {
      CapacityIs(s, env, s.entries[k]);
      BrokenRow(s, i, k + 1, worker, c, env);
    }
  }

  lemma {:induction false} BrokenPick(s: Snapshot, i: nat, worker: Worker, c: Claim, env: Environment)
    requires i <= |s.entries|
    ensures PickRow(s, i, worker, c, env) == Unjudged ==> Contradicted(s, env)
    decreases |s.entries| - i
  {
    if i < |s.entries| {
      CapacityIs(s, env, s.entries[i]);
      BrokenRow(s, i, 0, worker, c, env);
      BrokenPick(s, i + 1, worker, c, env);
    }
  }

  lemma {:induction false} BrokenClaim(s: Snapshot, workers: seq<Worker>, c: Claim, env: Environment)
    ensures PickWorker(s, workers, c, env) == Unjudged ==> Contradicted(s, env)
  {
    if workers != [] {
      BrokenPick(s, 0, workers[0], c, env);
      BrokenClaim(s, workers[1..], c, env);
    }
  }

  /** The worker and the row of a grant. */
  ghost predicate Match(s: Snapshot, workers: seq<Worker>, c: Claim, env: Environment, n: nat, i: nat) {
    n < |workers| && i < |s.entries| && HasRoom(s, workers[n], c) && Ripe(s, i, workers[n], c, env)
  }

  lemma {:induction false} RoomIs(s: Snapshot, worker: Worker, c: Claim)
    ensures Room(s, worker, c) <==> HasRoom(s, worker, c)
  {
    LoadLaw(s.entries, worker);
  }

  lemma {:induction false} IdleIs(s: Snapshot, workers: seq<Worker>, c: Claim, env: Environment, m: nat, j: nat)
    requires !Contradicted(s, env) && m < |workers| && j < |s.entries|
    ensures Match(s, workers, c, env, m, j) <==> Room(s, workers[m], c) && Claimable(s, j, workers[m], c, env)
  {
    RoomIs(s, workers[m], c);
    ClaimableIs(s, j, workers[m], c, env);
  }

  /** While no record contradicts its row, a claim with a time and different workers is
      judged: it grants the oldest ripe row of the first worker that has room and such a
      row, and that row alone changes; it grants nothing exactly when there is no such
      pair. Only a time before the row was queued is refused then. */
  lemma {:induction false} ClaimOutcome(s: Snapshot, workers: seq<Worker>, c: Claim, env: Environment)
      returns (n: nat, i: nat)
    requires Valid(s) && c.at > 0 && !Contradicted(s, env)
    requires forall a, b :: 0 <= a < b < |workers| ==> workers[a] != workers[b]
    ensures var (after, r) := ClaimNext(s, workers, c, env);
      && ((forall m, j :: !Match(s, workers, c, env, m, j)) ==> after == s && r == Ok(None))
      && (!(forall m, j :: !Match(s, workers, c, env, m, j)) ==>
          && Match(s, workers, c, env, n, i)
          && (forall m, j :: Match(s, workers, c, env, m, j) ==> n < m || (n == m && i <= j))
          && if c.at >= s.entries[i].enqueuedAt
             then OnlyState(s, after, i, Dispatching(c.owner, workers[n], c.at)) && r == Ok(Some(after.entries[i]))
             else after == s && r == Err(Invalid))
  {
    var p := PickWorker(s, workers, c, env);
    n := PickWorkerMeans(s, workers, c, env);
    i := if p.Picked? then p.index else 0;
    BrokenClaim(s, workers, c, env);
    forall m: nat, j: nat | m < |workers| && j < |s.entries|
      ensures Match(s, workers, c, env, m, j) <==> Room(s, workers[m], c) && Claimable(s, j, workers[m], c, env)
    {
      IdleIs(s, workers, c, env, m, j);
    }
    if p.Picked? {
      StateKeepsValid(s, i, Dispatching(c.owner, workers[n], c.at));
    }
  }

  /** A claim is refused for a record only when one contradicts its row. */
  lemma {:induction false} MismatchLaw(s: Snapshot, workers: seq<Worker>, c: Claim, env: Environment)
    requires ClaimNext(s, workers, c, env).1 == Err(RecordMismatch)
    ensures Contradicted(s, env)
  {
    BrokenClaim(s, workers, c, env);
  }

  /** A claim without a time, or with a worker named twice, is refused. */
  lemma {:induction false} RefusedClaim(s: Snapshot, workers: seq<Worker>, c: Claim, env: Environment)
    requires c.at == 0 || exists a, b :: 0 <= a < b < |workers| && workers[a] == workers[b]
    ensures ClaimNext(s, workers, c, env) == (s, Err(Invalid))
  {
  }

  /** Reverting undoes a claim. */
  lemma {:induction false} ClaimReverted(s: Snapshot, workers: seq<Worker>, c: Claim, env: Environment)
    requires Valid(s) && ClaimNext(s, workers, c, env).1.Ok? && ClaimNext(s, workers, c, env).1.value.Some?
    ensures var (after, r) := ClaimNext(s, workers, c, env); Revert(after, r.value.value.job, c.owner).0 == s
  {
    var n, i := ClaimLaw(s, workers, c, env);
    var (after, r) := ClaimNext(s, workers, c, env);
    RevertLaw(after, r.value.value.job, c.owner, i);
    assert Revert(after, r.value.value.job, c.owner).0.entries == s.entries;
  }
}
