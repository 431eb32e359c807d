/** What every call of the spawn-permit protocol answers and leaves behind, and that a
    bound child stands on record for as long as its permit does. */
module RunnerSlotOutcomes {
  import opened Basics
  import opened RunnerSlots
  import opened RunnerSlotLaws

  // ---- One call ---------------------------------------------------------------------

  /** Row `i` is the one queued for the turn. */
  predicate RowIs(s: Store, job: Turn, i: nat) {
    i < |s.rows| && s.rows[i].job == job && forall k :: 0 <= k < i ==> s.rows[k].job != job
  }

  /** Nothing is queued for the turn. */
  predicate NoRow(s: Store, job: Turn) { forall k :: 0 <= k < |s.rows| ==> s.rows[k].job != job }

  /** Only row `i` has changed, and only in its state and its reservation. */
  predicate OnlyRow(s: Store, after: Store, i: nat, state: QueueState, reservation: Option<Reservation>)
    requires i < |s.rows|
  {
    && after.tasks == s.tasks && |after.rows| == |s.rows|
    && (forall k :: 0 <= k < |s.rows| && k != i ==> after.rows[k] == s.rows[k])
    && after.rows[i] == Row(s.rows[i].job, s.rows[i].kind, s.rows[i].enqueueOwner, state, reservation)
  }

  lemma {:induction false} FoundRow(s: Store, job: Turn, i: nat)
    requires RowIs(s, job, i)
    ensures FindRow(s.rows, job) == Some(i)
  {
    assert FindRow(s.rows, job).Some?;
  }

  /** The turn is acted on by a process that is not known to have exited: its dispatch
      owner, or one that waits for it without having queued it. */
  predicate ActedOnBy(row: Row, p: Process, gone: set<Process>) {
    p !in gone && (row.state == Dispatching(p) || (row.state == Waiting(p) && p != row.enqueueOwner))
  }

  /** A record has the turn as its current one, and a runner not known to have exited. */
  predicate RunElsewhere(s: Store, job: Turn, gone: set<Process>) {
    exists k :: 0 <= k < |s.tasks| && s.tasks[k].current == Some(job) && s.tasks[k].runner.Some?
      && s.tasks[k].runner.value !in gone
  }

  /** Somebody else works on the turn. */
  predicate Busy(s: Store, row: Row, gone: set<Process>, request: Request) {
    RunElsewhere(s, request.job, gone) || match row.Owner()
      case Some(p) => p != request.reserver && ActedOnBy(row, p, gone)
      case None => false
  }

  lemma {:induction false} BusyIs(s: Store, row: Row, gone: set<Process>, request: Request)
    ensures HeldElsewhere(s, row, gone, request) <==> Busy(s, row, gone, request)
  {
    if RunElsewhere(s, request.job, gone) {
      var k :| 0 <= k < |s.tasks| && s.tasks[k].current == Some(request.job) && s.tasks[k].runner.Some?
        && s.tasks[k].runner.value !in gone;
      assert LiveRunnerOf(s.tasks[k], gone, request.job);
    }
    if LiveRunner(s.tasks, gone, request.job).Some? {
      var k :| 0 <= k < |s.tasks| && LiveRunnerOf(s.tasks[k], gone, request.job);
      assert RunElsewhere(s, request.job, gone);
    }
  }

  /** Nobody is left of a reservation: reserver and bound child have exited. */
  predicate Deserted(r: Reservation, gone: set<Process>) {
    r.reserver in gone && (r.child.Some? ==> r.child.value in gone)
  }

  /** Each answer of a request for a permit, with its exact cause; a permit given is the
      new token under the reserver's name, with no child, and nothing else has changed. */
  lemma {:induction false} ReserveLaw(s: Store, gone: set<Process>, request: Request, limit: nat, drawn: Token, i: nat)
    requires RowIs(s, request.job, i)
    ensures var (after, d) := Reserve(s, gone, request, limit, drawn);
      var row := s.rows[i];
      var busy := Busy(s, row, gone, request);
      && (d == Refused(KindConflict) <==> row.kind != TaskTurn)
      && (row.kind == TaskTurn ==> match row.reservation
          case Some(r) => d == if busy || !Deserted(r, gone) then Pending(r.token) else Acquired(drawn)
          case None =>
            d == if busy then Pending(0) else if Occupied(s, gone, request) >= limit then Saturated
                 else Acquired(drawn))
      && (if d.Acquired? then OnlyRow(s, after, i, row.state, Some(Reservation(request.reserver, drawn, None)))
          else after == s)
  {
    FoundRow(s, request.job, i);
    BusyIs(s, s.rows[i], gone, request);
  }

  /** A process that takes up a slot by the count: a recorded runner or one that acts on a
      task turn, except the reserver if it asks to be left out, or if it has just recovered
      the turn it asks for. */
  predicate Counted(s: Store, gone: set<Process>, request: Request, p: Process) {
    && !(request.excluded && p == request.reserver)
    && ((exists k :: 0 <= k < |s.tasks| && s.tasks[k].runner == Some(p) && p !in gone)
        || exists k :: 0 <= k < |s.rows| && s.rows[k].kind == TaskTurn && ActedOnBy(s.rows[k], p, gone)
            && !(s.rows[k].job == request.job && p == request.reserver && s.rows[k].reservation.None?
                && !RunElsewhere(s, request.job, gone)))
  }

  /** The occupancy is the number of those processes and of the reserved task turns. */
  lemma {:induction false} OccupiedLaw(s: Store, gone: set<Process>, request: Request, counted: set<Process>)
    requires forall p :: p in counted <==> Counted(s, gone, request, p)
    ensures Occupied(s, gone, request) ==
      |counted| + |set k | 0 <= k < |s.rows| && s.rows[k].kind == TaskTurn && s.rows[k].reservation.Some?|
  {
    var measured := Runners(s.tasks, gone, request) + Holders(s.rows, s.tasks, gone, request);
    forall p ensures p in measured <==> Counted(s, gone, request, p) {
      CountedIs(s, gone, request, p);
    }
    assert measured == counted;
    ReservedIs(s.rows);
  }

  lemma {:induction false} CountedIs(s: Store, gone: set<Process>, request: Request, p: Process)
    ensures p in Runners(s.tasks, gone, request) + Holders(s.rows, s.tasks, gone, request) <==>
      Counted(s, gone, request, p)
  {
    RunnerCounted(s, gone, request, p);
    RecoveredIs(s, gone, request);
    HolderIs(s, gone, request, p);
  }

  lemma {:induction false} RunnerCounted(s: Store, gone: set<Process>, request: Request, p: Process)
    ensures p in Runners(s.tasks, gone, request) <==>
      (!(request.excluded && p == request.reserver)
       && exists k :: 0 <= k < |s.tasks| && s.tasks[k].runner == Some(p) && p !in gone)
  {
    if k :| 0 <= k < |s.tasks| && s.tasks[k].runner == Some(p) && p !in gone {
      assert !(request.excluded && p == request.reserver) ==> CountedRunner(s.tasks[k], gone, request);
    }
  }

  lemma {:induction false} RecoveredIs(s: Store, gone: set<Process>, request: Request)
    ensures LiveRunner(s.tasks, gone, request.job).None? <==> !RunElsewhere(s, request.job, gone)
  {
    if RunElsewhere(s, request.job, gone) {
      var k :| 0 <= k < |s.tasks| && s.tasks[k].current == Some(request.job) && s.tasks[k].runner.Some?
        && s.tasks[k].runner.value !in gone;
      assert LiveRunnerOf(s.tasks[k], gone, request.job);
    }
    if k :| 0 <= k < |s.tasks| && LiveRunnerOf(s.tasks[k], gone, request.job) {
      assert RunElsewhere(s, request.job, gone);
    }
  }

  lemma {:induction false} HolderIs(s: Store, gone: set<Process>, request: Request, p: Process)
    requires LiveRunner(s.tasks, gone, request.job).None? <==> !RunElsewhere(s, request.job, gone)
    ensures p in Holders(s.rows, s.tasks, gone, request) <==>
      (!(request.excluded && p == request.reserver)
       && exists k :: 0 <= k < |s.rows| && s.rows[k].kind == TaskTurn && ActedOnBy(s.rows[k], p, gone)
           && !(s.rows[k].job == request.job && p == request.reserver && s.rows[k].reservation.None?
               && !RunElsewhere(s, request.job, gone)))
  {
    forall k | 0 <= k < |s.rows| ensures ActedOnBy(s.rows[k], p, gone) <==> ActingHolder(s.rows[k], gone) == Some(p) {
    }
  }

  lemma {:induction false} ReservedIs(rows: seq<Row>)
    ensures Reserved(rows) == |set k | 0 <= k < |rows| && rows[k].kind == TaskTurn && rows[k].reservation.Some?|
  {
    var all := set k | 0 <= k < |rows| && rows[k].kind == TaskTurn && rows[k].reservation.Some?;
    if rows == [] {
      assert all == {};
    } else {
      var n := |rows| - 1;
      var front := rows[..n];
      ReservedIs(front);
      var some := set k | 0 <= k < |front| && front[k].kind == TaskTurn && front[k].reservation.Some?;
      assert forall k :: 0 <= k < n ==> front[k] == rows[k];
      assert all == some + if Weight(rows[n]) == 1 then {n} else {};
    }
  }

  /** A permit is given back by the reserver that holds it while no child is bound, and
      by nobody else. */
  lemma {:induction false} ReleaseLaw(s: Store, job: Turn, token: Token, reserver: Process, i: nat)
    requires RowIs(s, job, i)
    ensures var (after, r) := Release(s, job, token, reserver);
      && (r == Done(s.rows[i].reservation == Some(Reservation(reserver, token, None))))
      && (if r == Done(true) then OnlyRow(s, after, i, s.rows[i].state, None) else after == s)
  {
    FoundRow(s, job, i);
  }

  /** A child is bound under the token that the row holds, whoever was bound before, and
      it is on record afterwards. */
  lemma {:induction false} BindLaw(s: Store, job: Turn, token: Token, child: Process, i: nat)
    requires RowIs(s, job, i)
    ensures var (after, r) := Bind(s, job, token, child);
      var held := s.rows[i].reservation;
      && (r == if token != 0 && held.Some? && held.value.token == token then Done(true) else Failed(TokenMismatch))
      && (if r.Done?
          then OnlyRow(s, after, i, s.rows[i].state, Some(Reservation(held.value.reserver, token, Some(child))))
          else after == s)
  {
    FoundRow(s, job, i);
  }

  /** May the child act under this token? It is the row's own, and no other child that may
      be alive is bound to it. */
  predicate Entitled(row: Row, gone: set<Process>, token: Token, child: Process) {
    && token != 0 && row.reservation.Some? && row.reservation.value.token == token
    && (row.reservation.value.child.Some? ==>
        row.reservation.value.child.value == child || row.reservation.value.child.value in gone)
  }

  /** A child that is told it is ready owns the row. It is told so exactly when it owns it
      already, under its token or with no reservation left, or when the owner has exited
      and it may have the row. */
  lemma {:induction false} TakeOverLaw(s: Store, gone: set<Process>, job: Turn, token: Token, child: Process, i: nat)
    requires RowIs(s, job, i)
    ensures var (after, r) := TakeOver(s, gone, job, token, child);
      var row := s.rows[i];
      var entitled := Entitled(row, gone, token, child);
      && (r == Ready ==> after.rows[i].Owner() == Some(child) && after.rows[i].reservation == row.reservation)
      && (r == Ready <==>
          || (row.Owner() == Some(child) && (entitled || (token != 0 && row.reservation.None?)))
          || (entitled && row.kind == TaskTurn && row.Owner().Some? && row.Owner().value in gone))
      && (r == WaitingForLiveOwner <==>
          entitled && row.Owner().Some? && row.Owner() != Some(child) && row.Owner().value !in gone)
      && (if r == Ready && row.Owner() != Some(child)
          then OnlyRow(s, after, i, if row.state.Waiting? then Waiting(child) else Dispatching(child), row.reservation)
          else after == s)
  {
    FoundRow(s, job, i);
  }

  /** No call finds a turn that is not queued. */
  lemma {:induction false} NothingQueued(s: Store, gone: set<Process>, request: Request, limit: nat, token: Token,
      p: Process, writes: nat)
    requires NoRow(s, request.job)
    ensures Reserve(s, gone, request, limit, token) == (s, Refused(NotFound))
    ensures Release(s, request.job, token, p) == (s, Failed(NotFound))
    ensures Bind(s, request.job, token, p) == (s, Failed(if token == 0 then TokenMismatch else NotFound))
    ensures TakeOver(s, gone, request.job, token, p) == (s, Denied(if token == 0 then TokenMismatch else NotFound))
    ensures Complete(s, request.job, token, p, writes) ==
      (s, Failed(if token == 0 then TokenMismatch else NotFound))
  {
  }

  // ---- A completed spawn ----------------------------------------------------------------

  /** The token is the row's own and no other child is bound to it; or the child owns the
      row with no reservation left. */
  predicate MayFinish(row: Row, token: Token, child: Process) {
    token != 0 && match row.reservation
      case Some(r) => r.token == token && (r.child == None || r.child == Some(child))
      case None => row.Owner() == Some(child)
  }

  /** The row in the child's hands. */
  function InHand(row: Row, child: Process): QueueState {
    match row.state
    case Waiting(_) => Waiting(child)
    case Dispatching(_) => Dispatching(child)
    case Parked => Parked
  }

  /** Only the first record of that task has changed: its runner is the child. */
  predicate RunnerRecorded(tasks: seq<TaskRecord>, after: seq<TaskRecord>, task: nat, child: Process) {
    |after| == |tasks| && forall k :: 0 <= k < |tasks| ==> after[k] == Rewritten(tasks, k, task, child)
  }

  function Rewritten(tasks: seq<TaskRecord>, k: nat, task: nat, child: Process): TaskRecord
    requires k < |tasks|
  {
    if tasks[k].task == task && (forall j :: 0 <= j < k ==> tasks[j].task != task)
    then TaskRecord(task, Some(child), tasks[k].current) else tasks[k]
  }

  lemma {:induction false} SetRunnerLaw(tasks: seq<TaskRecord>, task: nat, child: Process)
    ensures RunnerRecorded(tasks, SetRunner(tasks, task, child), task, child)
  {
    if tasks != [] && tasks[0].task != task {
      var rest, after := tasks[1..], SetRunner(tasks, task, child);
      SetRunnerLaw(rest, task, child);
      forall k | 0 <= k < |tasks| ensures after[k] == Rewritten(tasks, k, task, child) {
        if k > 0 {
          assert tasks[k] == rest[k - 1] && forall j :: 0 <= j < k - 1 ==> rest[j] == tasks[j + 1];
        }
      }
    }
  }

  /** A completed spawn leaves the child as the owner of the row and as the runner of its
      task, with no reservation. It is made in three writes, in this order: the row in the
      child's hands with the child bound, its task's runner, the row without the
      reservation. */
  lemma {:induction false} CompleteLaw(s: Store, job: Turn, token: Token, child: Process, writes: nat, i: nat)
    requires RowIs(s, job, i)
    ensures var (after, r) := Complete(s, job, token, child, writes);
      var row := s.rows[i];
      if !MayFinish(row, token, child) then after == s && r == Failed(TokenMismatch)
      else if row.Owner() != Some(child) && (row.kind != TaskTurn || row.state == Parked) then
        after == s && r == Failed(AdoptionRefused)
      else
        var known := exists k :: 0 <= k < |s.tasks| && s.tasks[k].task == job.task;
        var bound := match row.reservation
          case Some(held) => Some(Reservation(held.reserver, token, Some(child)))
          case None => None;
        && r == (if writes >= 2 && !known then Failed(NotFound) else if writes < 3 then Crashed else Done(true))
        && (if writes == 0 then after.rows == s.rows
            else OnlyRow(s, Store(after.rows, s.tasks), i, InHand(row, child), if r.Done? then None else bound))
        && (if writes >= 2 && known then RunnerRecorded(s.tasks, after.tasks, job.task, child)
            else after.tasks == s.tasks)
  {
    FoundRow(s, job, i);
    SetRunnerLaw(s.tasks, job.task, child);
  }

  lemma {:induction false} SetRunnerAgain(tasks: seq<TaskRecord>, task: nat, child: Process)
    ensures SetRunner(SetRunner(tasks, task, child), task, child) == SetRunner(tasks, task, child)
    ensures KnownTask(SetRunner(tasks, task, child), task) <==> KnownTask(tasks, task)
  {
    SetRunnerLaw(tasks, task, child);
    if tasks != [] && tasks[0].task != task {
      SetRunnerAgain(tasks[1..], task, child);
      assert SetRunner(tasks, task, child)[1..] == SetRunner(tasks[1..], task, child);
    }
  }

  /** A completion that crashed after any of its writes can be made again: the child gets
      what it would have got at once. */
  lemma {:induction false} CompleteResumes(s: Store, job: Turn, token: Token, child: Process, n: nat, m: nat)
    requires Complete(s, job, token, child, n).1.Crashed? && n <= m
    ensures Complete(Complete(s, job, token, child, n).0, job, token, child, m) == Complete(s, job, token, child, m)
  {
    var i := FindRow(s.rows, job).value;
    var row := s.rows[i];
    var claimed := Claimed(row, child);
    var s1 := Complete(s, job, token, child, n).0;
    if n > 0 {
      assert s1.rows == s.rows[i := claimed];
      FoundRow(s1, job, i);
      ClaimedAgain(row, token, child);
      SetRunnerAgain(s.tasks, job.task, child);
      assert s1.rows[i := claimed] == s1.rows;
      assert s1.rows[i := claimed.(reservation := None)] == s.rows[i := claimed.(reservation := None)];
    }
  }

  lemma {:induction false} ClaimedAgain(row: Row, token: Token, child: Process)
    requires MayComplete(row, token, child) && (row.Owner() == Some(child) || row.Adoptable())
    ensures var claimed := Claimed(row, child);
      && MayComplete(claimed, token, child) && claimed.Owner() == Some(child) && Claimed(claimed, child) == claimed
      && claimed.job == row.job
  {
  }

  // ---- Bound children over every run ---------------------------------------------------

  /** The row of the turn holds this token. */
  predicate HoldsToken(w: World, job: Turn, token: Token) {
    var row := RowOf(w.store.rows, job);
    row.Some? && row.value.reservation.Some? && row.value.reservation.value.token == token
  }

  /** The children bound so far, by the answers alone: one whose bind was accepted, or
      whose completion under the row's token went as far as a first write. */
  function Heard(w: World, step: Step, bound: map<Token, Process>): map<Token, Process> {
    match step
    case Binds(job, token, child) =>
      if Bind(w.store, job, token, child).1 == Done(true) then bound[token := child] else bound
    case Completes(job, token, child, writes) =>
      var r := Complete(w.store, job, token, child, writes).1;
      if writes > 0 && HoldsToken(w, job, token) && (r == Crashed || r == Failed(NotFound))
      then bound[token := child] else bound
    case _ => bound
  }

  function Bound(w: World, steps: seq<Step>, limit: nat, bound: map<Token, Process>): map<Token, Process>
    decreases |steps|
  {
    if steps == [] then bound else Bound(Next(w, steps[0], limit), steps[1..], limit, Heard(w, steps[0], bound))
  }

  /** The child on record under a token is the one last bound to it. */
  predicate OnRecord(row: Row, bound: map<Token, Process>) {
    match row.reservation
    case None => true
    case Some(r) => r.child == if r.token in bound then Some(bound[r.token]) else None
  }

  ghost predicate AllOnRecord(w: World, bound: map<Token, Process>) {
    && (forall i :: 0 <= i < |w.store.rows| ==> OnRecord(w.store.rows[i], bound))
    && (forall t :: t in bound ==> t in w.issued)
  }

  lemma {:induction false} HeardStep(w: World, step: Step, limit: nat, cap: nat, bound: map<Token, Process>)
    requires Inv(w, cap) && Allowed(w, step) && AllOnRecord(w, bound)
    ensures AllOnRecord(Next(w, step, limit), Heard(w, step, bound))
  {
    match step {
      case Reserves(gone, request, drawn) => ReserveHeard(w, gone, request, drawn, limit, bound);
      case Binds(job, token, child) => BindHeard(w, job, token, child, limit, bound);
      case Completes(job, token, child, writes) => CompleteHeard(w, job, token, child, writes, limit, bound);
      case Retires(job) => RetireHeard(w, job, limit, bound);
      case Submits(row) => SubmitHeard(w, row, limit, bound);
      case _ => OtherHeard(w, step, limit, bound);
    }
  }

  lemma {:induction false} SubmitHeard(w: World, row: Row, limit: nat, bound: map<Token, Process>)
    requires AllOnRecord(w, bound) && row.reservation.None?
    ensures AllOnRecord(Next(w, Submits(row), limit), bound)
  {
    var after := Next(w, Submits(row), limit).store.rows;
    assert forall i :: 0 <= i < |w.store.rows| ==> after[i] == w.store.rows[i];
  }

  lemma {:induction false} RetireHeard(w: World, job: Turn, limit: nat, bound: map<Token, Process>)
    requires AllOnRecord(w, bound)
    ensures AllOnRecord(Next(w, Retires(job), limit), bound)
  {
    var rows, after := w.store.rows, Next(w, Retires(job), limit).store.rows;
    forall k | 0 <= k < |after| ensures OnRecord(after[k], bound) {
      if FindRow(rows, job).Some? {
        var i := FindRow(rows, job).value;
        assert after[k] == rows[if k < i then k else k + 1];
      }
    }
  }

  lemma {:induction false} OtherHeard(w: World, step: Step, limit: nat, bound: map<Token, Process>)
    requires AllOnRecord(w, bound) && !step.Reserves? && !step.Binds? && !step.Completes?
    requires !step.Retires? && !step.Submits?
    ensures AllOnRecord(Next(w, step, limit), bound)
  {
    var rows, after := w.store.rows, Next(w, step, limit).store.rows;
    forall k | 0 <= k < |after| ensures OnRecord(after[k], bound) {
      assert OnRecord(rows[k], bound);
    }
  }

  lemma {:induction false} ReserveHeard(w: World, gone: set<Process>, request: Request, drawn: Token, limit: nat,
      bound: map<Token, Process>)
    requires AllOnRecord(w, bound) && drawn !in w.issued
    ensures AllOnRecord(Next(w, Reserves(gone, request, drawn), limit), bound)
  {
  }

  /** One row is bound; the others hold other tokens. */
  lemma {:induction false} RowHeard(w: World, w': World, i: nat, row: Row, token: Token, child: Process,
      bound: map<Token, Process>)
    requires Tokens(w) && AllOnRecord(w, bound) && i < |w.store.rows| && Holds(w.store.rows[i], token)
    requires w'.store.rows == w.store.rows[i := row] && w'.issued == w.issued
    requires row.reservation.Some? ==>
      row.reservation.value.token == token && row.reservation.value.child == Some(child)
    ensures AllOnRecord(w', bound[token := child])
  {
    forall k | 0 <= k < |w'.store.rows| ensures OnRecord(w'.store.rows[k], bound[token := child]) {
      assert OnRecord(w.store.rows[k], bound);
    }
  }

  lemma {:induction false} BindHeard(w: World, job: Turn, token: Token, child: Process, limit: nat,
      bound: map<Token, Process>)
    requires Tokens(w) && AllOnRecord(w, bound)
    ensures AllOnRecord(Next(w, Binds(job, token, child), limit), Heard(w, Binds(job, token, child), bound))
  {
    if Bind(w.store, job, token, child).1 == Done(true) {
      var i := FindRow(w.store.rows, job).value;
      BindLaw(w.store, job, token, child, i);
      var w' := Next(w, Binds(job, token, child), limit);
      assert w'.store.rows == w.store.rows[i := w'.store.rows[i]];
      RowHeard(w, w', i, w'.store.rows[i], token, child, bound);
    }
  }

  lemma {:induction false} CompleteHeard(w: World, job: Turn, token: Token, child: Process, writes: nat, limit: nat,
      bound: map<Token, Process>)
    requires Tokens(w) && AllOnRecord(w, bound)
    ensures var step := Completes(job, token, child, writes);
      AllOnRecord(Next(w, step, limit), Heard(w, step, bound))
  {
    var step := Completes(job, token, child, writes);
    var w' := Next(w, step, limit);
    if w'.store.rows != w.store.rows || Heard(w, step, bound) != bound {
      var i := FindRow(w.store.rows, job).value;
      CompleteLaw(w.store, job, token, child, writes, i);
      assert w'.store.rows == w.store.rows[i := w'.store.rows[i]];
      if HoldsToken(w, job, token) && Heard(w, step, bound) != bound {
        RowHeard(w, w', i, w'.store.rows[i], token, child, bound);
      }
    }
  }

  /** Over every run, the child that a reservation has on record is the one that was last
      bound under its token, and it has none exactly when none was. */
  lemma {:induction false} BoundIsOnRecord(w: World, steps: seq<Step>, limit: nat, bound: map<Token, Process>)
    requires Inv(w, limit + 1) && AllowedRun(w, steps, limit) && AllOnRecord(w, bound)
    ensures AllOnRecord(Run(w, steps, limit), Bound(w, steps, limit, bound)) && Inv(Run(w, steps, limit), limit + 1)
    decreases |steps|
  {
    if steps != [] {
      StepKeeps(w, steps[0], limit);
      HeardStep(w, steps[0], limit, limit + 1, bound);
      BoundIsOnRecord(Next(w, steps[0], limit), steps[1..], limit, Heard(w, steps[0], bound));
    }
  }

  /** From an empty queue, whatever happens: a permit is taken from its holder only when
      the child last bound under its token has exited, and with it the reserver, the
      runner of the turn and everybody else who acts on it. */
  lemma {:induction false} TakenOnlyFromTheGone(w: World, steps: seq<Step>, limit: nat, gone: set<Process>,
      request: Request, drawn: Token)
    requires Initial(w) && AllowedRun(w, steps, limit)
    requires var w' := Run(w, steps, limit);
      && Allowed(w', Reserves(gone, request, drawn)) && Reserve(w'.store, gone, request, limit, drawn).1.Acquired?
      && RowOf(w'.store.rows, request.job).Some? && RowOf(w'.store.rows, request.job).value.reservation.Some?
    ensures var w' := Run(w, steps, limit);
      var bound := Bound(w, steps, limit, map[]);
      var row := RowOf(w'.store.rows, request.job).value;
      var held := row.reservation.value;
      && (held.token in bound ==> bound[held.token] in w'.exited)
      && held.reserver in w'.exited
      && !RunElsewhere(w'.store, request.job, w'.exited)
      && (forall p :: p != request.reserver && ActedOnBy(row, p, {}) ==> p in w'.exited)
  {
    assert Running(w) == {};
    BoundIsOnRecord(w, steps, limit, map[]);
    var w' := Run(w, steps, limit);
    var i := FindRow(w'.store.rows, request.job).value;
    ReserveLaw(w'.store, gone, request, limit, drawn, i);
    assert OnRecord(w'.store.rows[i], Bound(w, steps, limit, map[]));
  }
}
