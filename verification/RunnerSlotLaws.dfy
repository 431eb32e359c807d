/** Safety of the spawn-permit protocol over every run: exactly when permits exceed the
    slot limit, never by more than one, and a replaced token is fenced off for good. */
module RunnerSlotLaws {
  import opened Basics
  import opened RunnerSlots

  /** The store and what is true of the processes around it: which have exited,
      which turn each runner was started for, which runners were admitted by a
      completed spawn, which tokens were drawn and which turns were ever queued. */
  datatype World = World(store: Store, exited: set<Process>, home: map<Process, Turn>,
                         admitted: set<Process>, issued: set<Token>, used: set<Turn>)

  datatype Step =
    | Reserves(gone: set<Process>, request: Request, drawn: Token)
    | Starts(child: Process, job: Turn)
    | Binds(job: Turn, token: Token, child: Process)
    | Releases(job: Turn, token: Token, reserver: Process)
    | TakesOver(gone: set<Process>, job: Turn, token: Token, child: Process)
    | Completes(job: Turn, token: Token, child: Process, writes: nat)
    | Exits(process: Process)
    | Submits(row: Row)
    | Retires(job: Turn)
    | Claims(job: Turn)
    | Reverts(job: Turn)
    | Parks(job: Turn)
    | Unparks(job: Turn, owner: Process)

  function RowOf(rows: seq<Row>, job: Turn): (r: Option<Row>)
    ensures r.Some? ==> r.value.job == job
  {
    match FindRow(rows, job)
    case Some(i) => Some(rows[i])
    case None => None
  }

  function RecordOf(tasks: seq<TaskRecord>, task: nat): (r: Option<TaskRecord>)
    ensures r.Some? ==> r.value in tasks && r.value.task == task
    ensures r.None? <==> !KnownTask(tasks, task)
  {
    if tasks == [] then None else if tasks[0].task == task then Some(tasks[0]) else
      assert KnownTask(tasks[1..], task) ==> KnownTask(tasks, task) by {
        if KnownTask(tasks[1..], task) {
          var i :| 0 <= i < |tasks[1..]| && tasks[1..][i].task == task;
          assert tasks[i + 1].task == task;
        }
      }
      assert KnownTask(tasks, task) ==> KnownTask(tasks[1..], task) by {
        if KnownTask(tasks, task) {
          var i :| 0 <= i < |tasks| && tasks[i].task == task;
          assert tasks[1..][i - 1].task == task;
        }
      }
      RecordOf(tasks[1..], task)
  }

  function RunnerOf(tasks: seq<TaskRecord>, task: nat): Option<Process> {
    match RecordOf(tasks, task)
    case Some(record) => record.runner
    case None => None
  }

  predicate Homed(home: map<Process, Turn>, p: Option<Process>, job: Turn) {
    p.Some? && p.value in home && home[p.value] == job
  }

  /** A started child that owns the row it was started for, with no reservation left. */
  predicate HoldsRow(rows: seq<Row>, p: Process, job: Turn) {
    var row := RowOf(rows, job);
    row.Some? && row.value.reservation.None? && row.value.Owner() == Some(p)
  }

  /** The runners that take up a slot without a reservation. */
  function Running(w: World): set<Process> {
    set p | p in w.home && p !in w.exited && (p in w.admitted || HoldsRow(w.store.rows, p, w.home[p]))
  }

  /** Slots taken up: reservations and the runners that need none any more. */
  function Permits(w: World): nat { Reserved(w.store.rows) + |Running(w)| }

  /** A new turn becomes its task's current one. */
  function SetCurrent(tasks: seq<TaskRecord>, job: Turn): seq<TaskRecord> {
    if tasks == [] then []
    else if tasks[0].task == job.task then [tasks[0].(current := Some(job))] + tasks[1..]
    else [tasks[0]] + SetCurrent(tasks[1..], job)
  }

  function Without(rows: seq<Row>, job: Turn): seq<Row> {
    match FindRow(rows, job)
    case Some(i) => rows[..i] + rows[i + 1..]
    case None => rows
  }

  /** A claim or its reversal: the row changes state and keeps its owner. */
  function Restate(s: Store, job: Turn, claim: bool): Store {
    match FindRow(s.rows, job)
    case Some(i) =>
      var row := s.rows[i];
      if claim && row.state.Waiting? then WithRow(s, i, row.(state := Dispatching(row.state.owner)))
      else if !claim && row.state.Dispatching? then WithRow(s, i, row.(state := Waiting(row.state.dispatchOwner)))
      else s
    case None => s
  }

  /** `park_row`: the row has no owner and loses its reservation. */
  function Park(s: Store, job: Turn): Store {
    match FindRow(s.rows, job)
    case Some(i) =>
      if s.rows[i].kind == TaskTurn && s.rows[i].state != Parked
      then WithRow(s, i, s.rows[i].(state := Parked, reservation := None)) else s
    case None => s
  }

  /** `unpark_oldest` and `unpark_row`: the row waits for its new owner. */
  function Unpark(s: Store, job: Turn, owner: Process): Store {
    match FindRow(s.rows, job)
    case Some(i) =>
      if s.rows[i].kind == TaskTurn && s.rows[i].state == Parked then WithRow(s, i, s.rows[i].(state := Waiting(owner)))
      else s
    case None => s
  }

  function Next(w: World, step: Step, limit: nat): World {
    match step
    case Reserves(gone, request, drawn) =>
      var (s, d) := Reserve(w.store, gone, request, limit, drawn);
      w.(store := s, issued := if d.Acquired? then w.issued + {drawn} else w.issued)
    case Starts(child, job) => w.(home := w.home[child := job])
    case Binds(job, token, child) => w.(store := Bind(w.store, job, token, child).0)
    case Releases(job, token, reserver) => w.(store := Release(w.store, job, token, reserver).0)
    case TakesOver(gone, job, token, child) => w.(store := TakeOver(w.store, gone, job, token, child).0)
    case Completes(job, token, child, writes) =>
      var (s, r) := Complete(w.store, job, token, child, writes);
      w.(store := s, admitted := if r.Done? then w.admitted + {child} else w.admitted)
    case Exits(p) => w.(exited := w.exited + {p})
    case Submits(row) =>
      var tasks := if row.kind == TaskTurn then SetCurrent(w.store.tasks, row.job) else w.store.tasks;
      w.(store := Store(w.store.rows + [row], tasks), used := w.used + {row.job})
    case Retires(job) => w.(store := w.store.(rows := Without(w.store.rows, job)))
    case Claims(job) => w.(store := Restate(w.store, job, true))
    case Reverts(job) => w.(store := Restate(w.store, job, false))
    case Parks(job) => w.(store := Park(w.store, job))
    case Unparks(job, owner) => w.(store := Unpark(w.store, job, owner))
  }

  predicate Mentioned(s: Store, p: Process) {
    || (exists i :: 0 <= i < |s.rows| && (s.rows[i].enqueueOwner == p || s.rows[i].Owner() == Some(p)))
    || (exists i :: 0 <= i < |s.tasks| && s.tasks[i].runner == Some(p))
  }

  /** What the environment guarantees: a reservation sees only truthful verdicts of
      exit and draws a fresh token; a started child is a new process, it does not
      unpark the turn it was started for, and a spawn is completed for that turn; a
      task has one queued turn at a time. */
  predicate Allowed(w: World, step: Step) {
    match step
    case Reserves(gone, request, drawn) => gone <= w.exited && drawn !in w.issued && drawn != 0
    case Unparks(job, owner) => !Homed(w.home, Some(owner), job)
    case Starts(child, job) =>
      && child !in w.home && child !in w.exited && child !in w.admitted && !Mentioned(w.store, child)
      && job in w.used && (RowOf(w.store.rows, job).Some? ==> RowOf(w.store.rows, job).value.kind == TaskTurn)
    case Completes(job, token, child, writes) => Homed(w.home, Some(child), job)
    case Submits(row) =>
      && row.job !in w.used && row.reservation.None? && row.state == Waiting(row.enqueueOwner)
      && (forall i :: 0 <= i < |w.store.rows| ==> w.store.rows[i].job.task != row.job.task)
      && (row.kind == TaskTurn ==> KnownTask(w.store.tasks, row.job.task))
    case _ => true
  }

  // ---- The invariant ------------------------------------------------------------------

  ghost predicate Shape(w: World) {
    && (forall i, j :: 0 <= i < j < |w.store.rows| ==> w.store.rows[i].job.task != w.store.rows[j].job.task)
    && (forall i :: 0 <= i < |w.store.rows| ==> w.store.rows[i].job in w.used)
    && (forall p :: p in w.home ==> w.home[p] in w.used)
  }

  /** The record of a queued turn's task has that turn as its current one. */
  ghost predicate Current(w: World) {
    forall i :: 0 <= i < |w.store.rows| && w.store.rows[i].kind == TaskTurn ==>
      RecordOf(w.store.tasks, w.store.rows[i].job.task).Some?
      && RecordOf(w.store.tasks, w.store.rows[i].job.task).value.current == Some(w.store.rows[i].job)
  }

  /** A started child is not the process that enqueued its row. */
  ghost predicate Homes(w: World) {
    forall i, p :: 0 <= i < |w.store.rows| && p in w.home && w.home[p] == w.store.rows[i].job ==>
      w.store.rows[i].kind == TaskTurn && w.store.rows[i].enqueueOwner != p
  }

  /** Live tokens were drawn, and no two rows share one. */
  ghost predicate Tokens(w: World) {
    && (forall i :: 0 <= i < |w.store.rows| && w.store.rows[i].reservation.Some? ==>
        w.store.rows[i].kind == TaskTurn && w.store.rows[i].reservation.value.token in w.issued)
    && 0 !in w.issued
    && (forall i, j ::
        0 <= i < j < |w.store.rows| && w.store.rows[i].reservation.Some? && w.store.rows[j].reservation.Some? ==>
        w.store.rows[i].reservation.value.token != w.store.rows[j].reservation.value.token)
  }

  /** A live admitted runner is on its task's record. */
  ghost predicate Tracked(w: World) {
    forall p :: p in w.admitted && p !in w.exited ==> p in w.home && RunnerOf(w.store.tasks, w.home[p].task) == Some(p)
  }

  /** A started child is recorded as runner of no task but its own. */
  ghost predicate Placed(w: World) {
    forall k :: 0 <= k < |w.store.tasks| && w.store.tasks[k].runner.Some? && w.store.tasks[k].runner.value in w.home ==>
      w.home[w.store.tasks[k].runner.value].task == w.store.tasks[k].task
  }

  /** While an admitted runner lives, its task's queued turn holds no reservation and
      no other started child owns it. */
  predicate SettledRow(w: World, row: Row) {
    var r := RunnerOf(w.store.tasks, row.job.task);
    row.kind == TaskTurn && r.Some? && r.value in w.admitted && r.value !in w.exited ==>
      row.reservation.None? && (row.Owner() == r || !Homed(w.home, row.Owner(), row.job))
  }

  ghost predicate Settled(w: World) {
    forall i :: 0 <= i < |w.store.rows| ==> SettledRow(w, w.store.rows[i])
  }

  ghost predicate Inv(w: World, limit: nat) {
    Shape(w) && Current(w) && Homes(w) && Tokens(w) && Placed(w) && Tracked(w) && Settled(w) && Permits(w) <= limit
  }

  // ---- Counting ------------------------------------------------------------------------

  lemma {:induction false} ReservedJoin(xs: seq<Row>, ys: seq<Row>)
    ensures Reserved(xs + ys) == Reserved(xs) + Reserved(ys)
  {
    if ys == [] {
      assert xs + ys == xs;
    } else {
      var n := |ys| - 1;
      assert (xs + ys)[..|xs + ys| - 1] == xs + ys[..n];
      ReservedJoin(xs, ys[..n]);
    }
  }

  lemma {:induction false} ReservedUpdate(rows: seq<Row>, i: nat, row: Row)
    requires i < |rows|
    ensures Reserved(rows[i := row]) + Weight(rows[i]) == Reserved(rows) + Weight(row)
  {
    var front, back := rows[..i], rows[i + 1..];
    assert rows == front + ([rows[i]] + back);
    assert rows[i := row] == front + ([row] + back);
    ReservedJoin(front, [rows[i]] + back);
    ReservedJoin(front, [row] + back);
    ReservedJoin([rows[i]], back);
    ReservedJoin([row], back);
    ReservedOne(row);
    ReservedOne(rows[i]);
  }

  lemma {:induction false} ReservedOne(row: Row)
    ensures Reserved([row]) == Weight(row)
  {
    assert [row][..0] == [];
  }

  lemma {:induction false} RowOfAt(w: World, i: nat)
    requires Shape(w) && i < |w.store.rows|
    ensures FindRow(w.store.rows, w.store.rows[i].job) == Some(i)
  {
    assert FindRow(w.store.rows, w.store.rows[i].job).Some?;
  }

  lemma {:induction false} RowOfUpdate(w: World, w': World, i: nat, row: Row, job: Turn)
    requires Shape(w) && i < |w.store.rows| && row.job == w.store.rows[i].job
    requires w'.store.rows == w.store.rows[i := row] && Shape(w')
    ensures RowOf(w'.store.rows, job) == if job == row.job then Some(row) else RowOf(w.store.rows, job)
  {
    RowOfAt(w', i);
    var j := FindRow(w.store.rows, job);
    if j.Some? {
      RowOfAt(w', j.value);
    }
    if FindRow(w'.store.rows, job).Some? {
      RowOfAt(w, FindRow(w'.store.rows, job).value);
    }
  }

  /** The one child a row can add to those that take up a slot. */
  function Runs(w: World, row: Row): set<Process> {
    if row.reservation.None? && Homed(w.home, row.Owner(), row.job) && row.Owner().value !in w.exited
    then {row.Owner().value} else {}
  }

  lemma {:induction false} RunningUpdate(w: World, w': World, i: nat, row: Row)
    requires Shape(w) && i < |w.store.rows| && row.job == w.store.rows[i].job
    requires w'.store.rows == w.store.rows[i := row] && Shape(w')
    requires w'.home == w.home && w'.exited == w.exited && w'.admitted == w.admitted
    ensures Running(w') <= Running(w) + Runs(w, row)
    ensures Runs(w, w.store.rows[i]) <= Running(w)
  {
    forall p | p in Running(w') ensures p in Running(w) + Runs(w, row) {
      RowOfUpdate(w, w', i, row, w.home[p]);
    }
    RowOfAt(w, i);
  }

  lemma {:induction false} UnionSize<T>(a: set<T>, b: set<T>)
    ensures |a + b| <= |a| + |b|
  {
    assert a + b == a + (b - a) && a !! (b - a);
    SubsetSize(b - a, b);
  }

  /** Replacing one row never raises the permits by more than what the row adds. */
  lemma {:induction false} PermitsUpdate(w: World, w': World, i: nat, row: Row)
    requires Shape(w) && i < |w.store.rows| && row.job == w.store.rows[i].job
    requires w'.store.rows == w.store.rows[i := row] && Shape(w')
    requires w'.home == w.home && w'.exited == w.exited && w'.admitted == w.admitted
    ensures Runs(w, row) <= Running(w) ==> Permits(w') + Weight(w.store.rows[i]) <= Permits(w) + Weight(row)
    ensures Permits(w') + Weight(w.store.rows[i]) <= Permits(w) + Weight(row) + 1
    ensures Runs(w, w.store.rows[i]) <= Running(w)
  {
    ReservedUpdate(w.store.rows, i, row);
    RunningUpdate(w, w', i, row);
    SubsetSize(Running(w'), Running(w) + Runs(w, row));
    UnionSize(Running(w), Runs(w, row));
    if Runs(w, row) <= Running(w) {
      assert Running(w) + Runs(w, row) == Running(w);
    }
  }

  // ---- Steps that change one row ----------------------------------------------------------

  /** The tokens stay apart when the new one is the row's own or a fresh one. */
  predicate TokenKept(w: World, was: Row, row: Row) {
    row.reservation.Some? ==>
      row.kind == TaskTurn && (Holds(was, row.reservation.value.token)
          || (row.reservation.value.token !in w.issued && row.reservation.value.token != 0))
  }

  lemma {:induction false} RowChange(w: World, w': World, i: nat, row: Row, limit: nat)
    requires Inv(w, limit) && i < |w.store.rows|
    requires var was := w.store.rows[i];
      row.job == was.job && row.kind == was.kind && row.enqueueOwner == was.enqueueOwner && TokenKept(w, was, row)
    requires
      && w' == w.(store := WithRow(w.store, i, row), issued := w'.issued) && w.issued <= w'.issued && 0 !in w'.issued
    requires row.reservation.Some? ==> row.reservation.value.token in w'.issued
    requires SettledRow(w, row) && Permits(w') <= limit
    ensures Inv(w', limit)
  {
    ChangedTokens(w, w', i, row);
    ChangedSettled(w, w', i, row);
  }

  lemma {:induction false} ChangedTokens(w: World, w': World, i: nat, row: Row)
    requires Tokens(w) && i < |w.store.rows| && TokenKept(w, w.store.rows[i], row)
    requires
      && w' == w.(store := WithRow(w.store, i, row), issued := w'.issued) && w.issued <= w'.issued && 0 !in w'.issued
    requires row.reservation.Some? ==> row.reservation.value.token in w'.issued
    ensures Tokens(w')
  {
    forall k | 0 <= k < |w.store.rows| && k != i && row.reservation.Some? && w.store.rows[k].reservation.Some?
      ensures w.store.rows[k].reservation.value.token != row.reservation.value.token
    {
      assert w.store.rows[k].reservation.value.token in w.issued;
    }
  }

  lemma {:induction false} ChangedSettled(w: World, w': World, i: nat, row: Row)
    requires Settled(w) && i < |w.store.rows| && SettledRow(w, row)
    requires w' == w.(store := WithRow(w.store, i, row), issued := w'.issued)
    ensures Settled(w')
  {
    forall k | 0 <= k < |w.store.rows| ensures SettledRow(w', w'.store.rows[k]) {
      assert SettledRow(w, w.store.rows[k]);
    }
  }

  lemma {:induction false} SameShape(w: World, w': World, i: nat, row: Row)
    requires Shape(w) && i < |w.store.rows| && row.job == w.store.rows[i].job
    requires w'.store.rows == w.store.rows[i := row] && w'.home == w.home && w'.used == w.used
    ensures Shape(w')
  {
  }

  /** A row that keeps its owner, and its reservation or its want of one. */
  lemma {:induction false} QuietChange(w: World, w': World, i: nat, row: Row, limit: nat)
    requires Inv(w, limit) && i < |w.store.rows|
    requires var was := w.store.rows[i];
      row.job == was.job && row.kind == was.kind && row.enqueueOwner == was.enqueueOwner && TokenKept(w, was, row)
    requires
      && w' == w.(store := WithRow(w.store, i, row), issued := w'.issued) && w.issued <= w'.issued && 0 !in w'.issued
    requires row.reservation.Some? ==> row.reservation.value.token in w'.issued
    requires row.reservation.Some? == w.store.rows[i].reservation.Some?
    requires row.reservation.None? ==> row.Owner() == w.store.rows[i].Owner()
    ensures Inv(w', limit)
  {
    SameShape(w, w', i, row);
    PermitsUpdate(w, w', i, row);
    assert SettledRow(w, w.store.rows[i]);
    RowChange(w, w', i, row, limit);
  }

  /** The reserver may be the one runner that the count leaves out. */
  predicate Overlooked(w: World, request: Request) {
    request.reserver in Running(w) && (request.excluded || w.home[request.reserver] == request.job)
  }

  /** The measured occupancy bounds the slots taken up, but for a reserver it leaves out. */
  lemma {:induction false} OccupancyBounds(w: World, gone: set<Process>, request: Request, cap: nat)
    requires Inv(w, cap) && gone <= w.exited
    ensures Permits(w) <= Occupied(w.store, gone, request) + if Overlooked(w, request) then 1 else 0
  {
    var counted := Runners(w.store.tasks, gone, request) + Holders(w.store.rows, w.store.tasks, gone, request);
    var left := if Overlooked(w, request) then {request.reserver} else {};
    forall p | p in Running(w) - left ensures p in counted {
      if p in w.admitted {
        AdmittedCounted(w, gone, request, p);
      } else {
        HolderCounted(w, gone, request, p);
      }
    }
    SubsetSize(Running(w) - left, counted);
    assert Running(w) == (Running(w) - left) + left;
    UnionSize(Running(w) - left, left);
  }

  lemma {:induction false} AdmittedCounted(w: World, gone: set<Process>, request: Request, p: Process)
    requires
      && Tracked(w) && gone <= w.exited && p in w.admitted && p !in w.exited
      && (p == request.reserver ==> !request.excluded)
    ensures p in Runners(w.store.tasks, gone, request)
  {
    var record := RecordOf(w.store.tasks, w.home[p].task).value;
    var k :| 0 <= k < |w.store.tasks| && w.store.tasks[k] == record;
    assert CountedRunner(w.store.tasks[k], gone, request);
  }

  lemma {:induction false} HolderCounted(w: World, gone: set<Process>, request: Request, p: Process)
    requires Homes(w) && gone <= w.exited && p in w.home && p !in w.exited && HoldsRow(w.store.rows, p, w.home[p])
    requires p == request.reserver ==> !request.excluded && w.home[p] != request.job
    ensures p in Holders(w.store.rows, w.store.tasks, gone, request)
  {
    var k := FindRow(w.store.rows, w.home[p]).value;
    assert CountedHolder(w.store.rows[k], w.store.tasks, gone, request);
  }

  /** The current runner of a queued turn, when no live one is seen. */
  lemma {:induction false} RunnerGone(w: World, gone: set<Process>, i: nat)
    requires Current(w) && i < |w.store.rows| && w.store.rows[i].kind == TaskTurn
    requires LiveRunner(w.store.tasks, gone, w.store.rows[i].job).None?
    ensures var r := RunnerOf(w.store.tasks, w.store.rows[i].job.task); r.Some? ==> r.value in gone
  {
    var record := RecordOf(w.store.tasks, w.store.rows[i].job.task).value;
    var k :| 0 <= k < |w.store.tasks| && w.store.tasks[k] == record;
    assert !LiveRunnerOf(w.store.tasks[k], gone, w.store.rows[i].job);
  }

  /** A reservation is granted on a row that no other process holds: at most the
      reserver itself, which then needs the reservation in place of the row. */
  lemma {:induction false} GrantedRow(w: World, gone: set<Process>, request: Request, i: nat, cap: nat)
    requires Inv(w, cap) && gone <= w.exited && i < |w.store.rows| && w.store.rows[i].job == request.job
    requires w.store.rows[i].kind == TaskTurn && !HeldElsewhere(w.store, w.store.rows[i], gone, request)
    ensures Runs(w, w.store.rows[i]) <= {request.reserver} - w.admitted
    ensures request.reserver in Running(w) && w.home[request.reserver] == request.job ==>
      Runs(w, w.store.rows[i]) == {request.reserver}
  {
    var row := w.store.rows[i];
    RunnerGone(w, gone, i);
    RowOfAt(w, i);
    forall p | p in w.admitted && p !in w.exited ensures w.home[p] != row.job {
      assert RunnerOf(w.store.tasks, w.home[p].task) == Some(p);
    }
  }

  /** The runners after a grant, and what it adds to the permits. */
  lemma {:induction false} GrantAdds(w: World, w': World, gone: set<Process>, request: Request, drawn: Token, i: nat,
      cap: nat)
    requires Inv(w, cap) && gone <= w.exited && i < |w.store.rows| && w.store.rows[i].job == request.job
    requires w.store.rows[i].kind == TaskTurn && !HeldElsewhere(w.store, w.store.rows[i], gone, request)
    requires var row := w.store.rows[i].(reservation := Some(Reservation(request.reserver, drawn, None)));
      w' == w.(store := WithRow(w.store, i, row), issued := w'.issued)
    ensures Permits(w') + Weight(w.store.rows[i]) + |Runs(w, w.store.rows[i])| == Permits(w) + 1
  {
    var was := w.store.rows[i];
    var row := was.(reservation := Some(Reservation(request.reserver, drawn, None)));
    SameShape(w, w', i, row);
    GrantedRow(w, gone, request, i, cap);
    ReservedUpdate(w.store.rows, i, row);
    RunningUpdate(w, w', i, row);
    forall p | p in Running(w) - Runs(w, was) ensures p in Running(w') {
      RowOfUpdate(w, w', i, row, w.home[p]);
      RowOfAt(w, i);
    }
    forall p | p in Running(w') ensures p !in Runs(w, was) {
      RowOfUpdate(w, w', i, row, w.home[p]);
    }
    assert Running(w') == Running(w) - Runs(w, was);
  }

  /** A running reserver that asks not to be counted, for another turn than its own. */
  predicate Hidden(w: World, request: Request) {
    request.excluded && request.reserver in Running(w) && w.home[request.reserver] != request.job
  }

  /** The reservation is granted on a row that had none. */
  predicate Grants(w: World, gone: set<Process>, request: Request, drawn: Token, limit: nat) {
    && Reserve(w.store, gone, request, limit, drawn).1.Acquired?
    && RowOf(w.store.rows, request.job).Some? && RowOf(w.store.rows, request.job).value.reservation.None?
  }

  /** Exactly when a grant takes the permits past the limit: all slots are taken up, one
      of them by a reserver that is not counted. */
  lemma {:induction false} GrantLaw(w: World, gone: set<Process>, request: Request, drawn: Token, limit: nat)
    requires Inv(w, limit) && Allowed(w, Reserves(gone, request, drawn)) && Grants(w, gone, request, drawn, limit)
    ensures Permits(Next(w, Reserves(gone, request, drawn), limit)) > limit <==>
      Permits(w) == limit && Hidden(w, request)
  {
    var i := FindRow(w.store.rows, request.job).value;
    GrantedRow(w, gone, request, i, limit);
    GrantAdds(w, Next(w, Reserves(gone, request, drawn), limit), gone, request, drawn, i, limit);
    OccupancyBounds(w, gone, request, limit);
  }

  /** Whatever is excluded, a grant leaves at most one permit over the limit. */
  lemma {:induction false} GrantBound(w: World, gone: set<Process>, request: Request, drawn: Token, limit: nat,
      cap: nat)
    requires
      && Inv(w, cap) && Allowed(w, Reserves(gone, request, drawn))
      && Reserve(w.store, gone, request, limit, drawn).1.Acquired?
    ensures var w' := Next(w, Reserves(gone, request, drawn), limit);
      Permits(w') <= Permits(w) || (Grants(w, gone, request, drawn, limit) && Permits(w') <= limit + 1)
  {
    var i := FindRow(w.store.rows, request.job).value;
    GrantAdds(w, Next(w, Reserves(gone, request, drawn), limit), gone, request, drawn, i, cap);
    OccupancyBounds(w, gone, request, cap);
  }

  lemma {:induction false} ReserveKeeps(w: World, gone: set<Process>, request: Request, drawn: Token, limit: nat,
      cap: nat)
    requires Inv(w, cap) && Allowed(w, Reserves(gone, request, drawn))
    requires Permits(Next(w, Reserves(gone, request, drawn), limit)) <= cap
    ensures Inv(Next(w, Reserves(gone, request, drawn), limit), cap)
  {
    var w' := Next(w, Reserves(gone, request, drawn), limit);
    if Reserve(w.store, gone, request, limit, drawn).1.Acquired? {
      var i := FindRow(w.store.rows, request.job).value;
      var row := w.store.rows[i].(reservation := Some(Reservation(request.reserver, drawn, None)));
      RunnerGone(w, gone, i);
      SameShape(w, w', i, row);
      RowChange(w, w', i, row, cap);
    }
  }

  lemma {:induction false} ReleaseKeeps(w: World, job: Turn, token: Token, reserver: Process, limit: nat)
    requires Inv(w, limit)
    ensures Inv(Next(w, Releases(job, token, reserver), limit), limit)
  {
    var w' := Next(w, Releases(job, token, reserver), limit);
    if Release(w.store, job, token, reserver).1 == Done(true) {
      var i := FindRow(w.store.rows, job).value;
      var row := w.store.rows[i].(reservation := None);
      assert SettledRow(w, w.store.rows[i]);
      SameShape(w, w', i, row);
      PermitsUpdate(w, w', i, row);
      RowChange(w, w', i, row, limit);
    }
  }

  lemma {:induction false} ParkKeeps(w: World, job: Turn, limit: nat)
    requires Inv(w, limit)
    ensures Inv(Next(w, Parks(job), limit), limit)
  {
    var w' := Next(w, Parks(job), limit);
    if w'.store != w.store {
      var i := FindRow(w.store.rows, job).value;
      var row := w.store.rows[i].(state := Parked, reservation := None);
      SameShape(w, w', i, row);
      PermitsUpdate(w, w', i, row);
      RowChange(w, w', i, row, limit);
    }
  }

  lemma {:induction false} UnparkKeeps(w: World, job: Turn, owner: Process, limit: nat)
    requires Inv(w, limit) && !Homed(w.home, Some(owner), job)
    ensures Inv(Next(w, Unparks(job, owner), limit), limit)
  {
    var w' := Next(w, Unparks(job, owner), limit);
    if w'.store != w.store {
      var i := FindRow(w.store.rows, job).value;
      var row := w.store.rows[i].(state := Waiting(owner));
      assert SettledRow(w, w.store.rows[i]);
      SameShape(w, w', i, row);
      PermitsUpdate(w, w', i, row);
      RowChange(w, w', i, row, limit);
    }
  }

  lemma {:induction false} BindKeeps(w: World, job: Turn, token: Token, child: Process, limit: nat)
    requires Inv(w, limit)
    ensures Inv(Next(w, Binds(job, token, child), limit), limit)
  {
    if Bind(w.store, job, token, child).1.Done? {
      var i := FindRow(w.store.rows, job).value;
      QuietChange(w, Next(w, Binds(job, token, child), limit), i, WithChild(w.store.rows[i], child), limit);
    }
  }

  lemma {:induction false} TakeOverKeeps(w: World, gone: set<Process>, job: Turn, token: Token, child: Process,
      limit: nat)
    requires Inv(w, limit)
    ensures Inv(Next(w, TakesOver(gone, job, token, child), limit), limit)
  {
    var w' := Next(w, TakesOver(gone, job, token, child), limit);
    if w'.store != w.store {
      var i := FindRow(w.store.rows, job).value;
      QuietChange(w, w', i, w.store.rows[i].Adopt(child), limit);
    }
  }

  lemma {:induction false} RestateKeeps(w: World, job: Turn, claim: bool, limit: nat)
    requires Inv(w, limit)
    ensures Inv(w.(store := Restate(w.store, job, claim)), limit)
  {
    var w' := w.(store := Restate(w.store, job, claim));
    if w'.store != w.store {
      var i := FindRow(w.store.rows, job).value;
      QuietChange(w, w', i, w'.store.rows[i], limit);
    }
  }

  // ---- Completing a spawn ------------------------------------------------------------------

  lemma {:induction false} SetRunnerRecord(tasks: seq<TaskRecord>, task: nat, child: Process, other: nat)
    ensures RecordOf(SetRunner(tasks, task, child), other) ==
      if other == task && RecordOf(tasks, task).Some? then Some(RecordOf(tasks, task).value.(runner := Some(child)))
      else RecordOf(tasks, other)
  {
    if tasks != [] {
      var set_ := SetRunner(tasks, task, child);
      if tasks[0].task == task {
        assert set_[1..] == tasks[1..];
      } else {
        SetRunnerRecord(tasks[1..], task, child, other);
        assert set_[1..] == SetRunner(tasks[1..], task, child);
      }
    }
  }

  lemma {:induction false} SetRunnerAt(tasks: seq<TaskRecord>, task: nat, child: Process)
    ensures |SetRunner(tasks, task, child)| == |tasks|
    ensures forall k :: 0 <= k < |tasks| ==>
      var r := SetRunner(tasks, task, child)[k];
          r == tasks[k] || (tasks[k].task == task && r == tasks[k].(runner := Some(child)))
  {
    if tasks != [] && tasks[0].task != task {
      SetRunnerAt(tasks[1..], task, child);
    }
  }

  lemma {:induction false} RunnerIsPlaced(w: World, task: nat)
    requires Placed(w)
    ensures var r := RunnerOf(w.store.tasks, task); r.Some? && r.value in w.home ==> w.home[r.value].task == task
  {
    if RunnerOf(w.store.tasks, task).Some? {
      var record := RecordOf(w.store.tasks, task).value;
      var k :| 0 <= k < |w.store.tasks| && w.store.tasks[k] == record;
    }
  }

  /** The second write of a completion: the owner of the row is its task's runner. */
  lemma {:induction false} RunnerSet(w: World, w': World, i: nat, task: nat, child: Process, limit: nat)
    requires
      && Inv(w, limit) && i < |w.store.rows| && w.store.rows[i].Owner() == Some(child)
      && task == w.store.rows[i].job.task
    requires Homed(w.home, Some(child), w.store.rows[i].job)
    requires w' == w.(store := w.store.(tasks := SetRunner(w.store.tasks, task, child)))
    ensures Inv(w', limit) && RunnerOf(w'.store.tasks, task) == Some(child)
  {
    assert SettledRow(w, w.store.rows[i]);
    SetRunnerRecord(w.store.tasks, task, child, task);
    SetRunnerAt(w.store.tasks, task, child);
    RunnerSetCurrent(w, w', task, child);
    RunnerSetTracked(w, w', task, child);
    RunnerSetSettled(w, w', i, task, child);
    SameRunning(w, w');
  }

  lemma {:induction false} SameRunning(w: World, w': World)
    requires w'.store.rows == w.store.rows && w'.home == w.home && w'.exited == w.exited && w'.admitted == w.admitted
    ensures Running(w') == Running(w) && Permits(w') == Permits(w)
  {
  }

  lemma {:induction false} RunnerSetSettled(w: World, w': World, i: nat, task: nat, child: Process)
    requires
      && Shape(w) && Tracked(w) && Settled(w) && i < |w.store.rows| && w.store.rows[i].Owner() == Some(child)
      && task == w.store.rows[i].job.task
    requires Homed(w.home, Some(child), w.store.rows[i].job)
    requires w' == w.(store := w.store.(tasks := SetRunner(w.store.tasks, task, child)))
    ensures Settled(w')
  {
    forall k | 0 <= k < |w.store.rows| ensures SettledRow(w', w.store.rows[k]) {
      assert SettledRow(w, w.store.rows[k]);
      SetRunnerRecord(w.store.tasks, task, child, w.store.rows[k].job.task);
    }
  }

  lemma {:induction false} RunnerSetCurrent(w: World, w': World, task: nat, child: Process)
    requires Current(w) && w' == w.(store := w.store.(tasks := SetRunner(w.store.tasks, task, child)))
    ensures Current(w')
  {
    forall k | 0 <= k < |w.store.rows| && w.store.rows[k].kind == TaskTurn
      ensures RecordOf(w'.store.tasks, w.store.rows[k].job.task).Some?
        && RecordOf(w'.store.tasks, w.store.rows[k].job.task).value.current == Some(w.store.rows[k].job)
    {
      SetRunnerRecord(w.store.tasks, task, child, w.store.rows[k].job.task);
    }
  }

  lemma {:induction false} RunnerSetTracked(w: World, w': World, task: nat, child: Process)
    requires Tracked(w) && w' == w.(store := w.store.(tasks := SetRunner(w.store.tasks, task, child)))
    requires var r := RunnerOf(w.store.tasks, task);
      r.Some? && r.value in w.admitted && r.value !in w.exited ==> r.value == child
    ensures Tracked(w')
  {
    forall p | p in w.admitted && p !in w.exited ensures RunnerOf(w'.store.tasks, w.home[p].task) == Some(p) {
      SetRunnerRecord(w.store.tasks, task, child, w.home[p].task);
    }
  }

  /** The third write: the reservation goes and the runner is admitted. */
  lemma {:induction false} Admits(w: World, w': World, i: nat, child: Process, limit: nat)
    requires Inv(w, limit) && i < |w.store.rows| && w.store.rows[i].Owner() == Some(child)
    requires
      && Homed(w.home, Some(child), w.store.rows[i].job)
      && RunnerOf(w.store.tasks, w.store.rows[i].job.task) == Some(child)
    requires w' ==
      w.(store := WithRow(w.store, i, w.store.rows[i].(reservation := None)), admitted := w.admitted + {child})
    ensures Inv(w', limit)
  {
    var row := w.store.rows[i].(reservation := None);
    var w1 := w.(store := WithRow(w.store, i, row));
    Cleared(w, w1, i, row, child, limit);
    AdmitsChild(w1, w', i, child, limit);
  }

  lemma {:induction false} AdmitsChild(w: World, w': World, i: nat, child: Process, limit: nat)
    requires
      && Inv(w, limit) && i < |w.store.rows| && w.store.rows[i].reservation.None?
      && w.store.rows[i].Owner() == Some(child)
    requires
      && Homed(w.home, Some(child), w.store.rows[i].job)
      && RunnerOf(w.store.tasks, w.store.rows[i].job.task) == Some(child)
    requires w' == w.(admitted := w.admitted + {child})
    ensures Inv(w', limit)
  {
    RowOfAt(w, i);
    assert Running(w') == Running(w);
    AdmittedSettled(w, w', i, child);
  }

  lemma {:induction false} AdmittedSettled(w: World, w': World, i: nat, child: Process)
    requires Shape(w) && Placed(w) && Settled(w) && i < |w.store.rows| && w' == w.(admitted := w.admitted + {child})
    requires
      && w.store.rows[i].reservation.None? && w.store.rows[i].Owner() == Some(child)
      && Homed(w.home, Some(child), w.store.rows[i].job)
    ensures Settled(w')
  {
    forall k | 0 <= k < |w.store.rows| ensures SettledRow(w', w.store.rows[k]) {
      assert SettledRow(w, w.store.rows[k]);
      RunnerIsPlaced(w, w.store.rows[k].job.task);
    }
  }

  lemma {:induction false} Cleared(w: World, w': World, i: nat, row: Row, child: Process, limit: nat)
    requires
      && Inv(w, limit) && i < |w.store.rows| && row == w.store.rows[i].(reservation := None)
      && row.Owner() == Some(child)
    requires w' == w.(store := WithRow(w.store, i, row))
    ensures Inv(w', limit)
  {
    SameShape(w, w', i, row);
    PermitsUpdate(w, w', i, row);
    assert SettledRow(w, w.store.rows[i]);
    RowChange(w, w', i, row, limit);
  }

  /** What a completion leaves behind, one durable write after the other. */
  lemma {:induction false} CompleteIs(s: Store, job: Turn, token: Token, child: Process, writes: nat, i: nat, s1: Store,
      s2: Store)
    requires MayFinish(s, job, token, child) && FindRow(s.rows, job) == Some(i)
    requires s1 == WithRow(s, i, Claimed(s.rows[i], child)) && s2 == s1.(tasks := SetRunner(s.tasks, job.task, child))
    ensures var (s', r) := Complete(s, job, token, child, writes);
      if writes == 0 then s' == s && !r.Done?
      else if writes == 1 || !KnownTask(s.tasks, job.task) then s' == s1 && !r.Done?
      else if writes == 2 then s' == s2 && !r.Done?
      else s' == WithRow(s2, i, s2.rows[i].(reservation := None)) && r.Done?
  {
    var claimed := Claimed(s.rows[i], child);
    assert s.rows[i := claimed][i := claimed.(reservation := None)] == s.rows[i := claimed.(reservation := None)];
  }

  lemma {:induction false} CompleteKeeps(w: World, job: Turn, token: Token, child: Process, writes: nat, limit: nat)
    requires Inv(w, limit) && Allowed(w, Completes(job, token, child, writes))
    ensures Inv(Next(w, Completes(job, token, child, writes), limit), limit)
  {
    if MayFinish(w.store, job, token, child) {
      var i := FindRow(w.store.rows, job).value;
      var s1 := WithRow(w.store, i, Claimed(w.store.rows[i], child));
      QuietChange(w, w.(store := s1), i, Claimed(w.store.rows[i], child), limit);
      FinishKeeps(w.(store := s1), i, job, child, limit);
      CompleteIs(w.store, job, token, child, writes, i, s1, s1.(tasks := SetRunner(w.store.tasks, job.task, child)));
    } else {
      assert Next(w, Completes(job, token, child, writes), limit) == w;
    }
  }

  predicate MayFinish(s: Store, job: Turn, token: Token, child: Process) {
    var row := RowOf(s.rows, job);
    token != 0 && row.Some? && MayComplete(row.value, token, child)
        && (row.value.Owner() == Some(child) || row.value.Adoptable())
  }

  lemma {:induction false} FinishKeeps(w: World, i: nat, job: Turn, child: Process, limit: nat)
    requires Inv(w, limit) && i < |w.store.rows| && w.store.rows[i].Owner() == Some(child) && job == w.store.rows[i].job
    requires Homed(w.home, Some(child), job)
    ensures var w2 := w.(store := w.store.(tasks := SetRunner(w.store.tasks, job.task, child)));
      && Inv(w2, limit)
      && Inv(w2.(store := WithRow(w2.store, i, w2.store.rows[i].(reservation := None)),
          admitted := w2.admitted + {child}), limit)
  {
    var w2 := w.(store := w.store.(tasks := SetRunner(w.store.tasks, job.task, child)));
    RunnerSet(w, w2, i, job.task, child, limit);
    Admits(w2, w2.(store := WithRow(w2.store, i, w2.store.rows[i].(reservation := None)),
        admitted := w2.admitted + {child}), i, child, limit);
  }

  // ---- The other steps -----------------------------------------------------------------------

  lemma {:induction false} StartKeeps(w: World, child: Process, job: Turn, limit: nat)
    requires Inv(w, limit) && Allowed(w, Starts(child, job))
    ensures Inv(Next(w, Starts(child, job), limit), limit)
  {
    var w' := Next(w, Starts(child, job), limit);
    StartSettled(w, w', child, job);
    StartHomes(w, w', child, job);
    StartRunning(w, w', child, job);
  }

  lemma {:induction false} StartHomes(w: World, w': World, child: Process, job: Turn)
    requires Shape(w) && Homes(w) && Allowed(w, Starts(child, job)) && w' == w.(home := w.home[child := job])
    ensures Homes(w')
  {
    forall i | 0 <= i < |w.store.rows| && w.store.rows[i].job == job ensures w.store.rows[i].kind == TaskTurn {
      RowOfAt(w, i);
    }
  }

  lemma {:induction false} StartSettled(w: World, w': World, child: Process, job: Turn)
    requires Settled(w) && Allowed(w, Starts(child, job)) && w' == w.(home := w.home[child := job])
    ensures Settled(w')
    ensures forall i :: 0 <= i < |w.store.rows| ==>
      w.store.rows[i].Owner() != Some(child) && w.store.rows[i].enqueueOwner != child
  {
    forall i | 0 <= i < |w.store.rows| ensures SettledRow(w', w.store.rows[i]) {
      assert SettledRow(w, w.store.rows[i]);
    }
  }

  lemma {:induction false} StartRunning(w: World, w': World, child: Process, job: Turn)
    requires child !in w.home && child !in w.admitted && w' == w.(home := w.home[child := job])
    requires forall i :: 0 <= i < |w.store.rows| ==> w.store.rows[i].Owner() != Some(child)
    ensures Running(w') == Running(w)
  {
    assert !HoldsRow(w.store.rows, child, job);
  }

  lemma {:induction false} ExitKeeps(w: World, p: Process, limit: nat)
    requires Inv(w, limit)
    ensures Inv(Next(w, Exits(p), limit), limit)
  {
    var w' := Next(w, Exits(p), limit);
    SubsetSize(Running(w'), Running(w));
    forall i | 0 <= i < |w.store.rows| ensures SettledRow(w', w.store.rows[i]) {
      assert SettledRow(w, w.store.rows[i]);
    }
  }

  lemma {:induction false} SetCurrentRecord(tasks: seq<TaskRecord>, job: Turn, other: nat)
    ensures RecordOf(SetCurrent(tasks, job), other) ==
      if other == job.task && RecordOf(tasks, job.task).Some?
      then Some(RecordOf(tasks, job.task).value.(current := Some(job))) else RecordOf(tasks, other)
  {
    if tasks != [] {
      var after := SetCurrent(tasks, job);
      if tasks[0].task == job.task {
        assert after[1..] == tasks[1..];
      } else {
        SetCurrentRecord(tasks[1..], job, other);
        assert after[1..] == SetCurrent(tasks[1..], job);
      }
    }
  }

  lemma {:induction false} SetCurrentAt(tasks: seq<TaskRecord>, job: Turn)
    ensures |SetCurrent(tasks, job)| == |tasks|
    ensures forall k :: 0 <= k < |tasks| ==>
      SetCurrent(tasks, job)[k].task == tasks[k].task && SetCurrent(tasks, job)[k].runner == tasks[k].runner
  {
    if tasks != [] && tasks[0].task != job.task {
      SetCurrentAt(tasks[1..], job);
    }
  }

  /** A new turn of a task leaves the runners on the records. */
  lemma {:induction false} NewTurn(w: World, w': World, job: Turn)
    requires w' == w.(store := w.store.(tasks := SetCurrent(w.store.tasks, job)))
    requires Current(w) && Placed(w) && Tracked(w) && Settled(w)
    requires forall i :: 0 <= i < |w.store.rows| ==> w.store.rows[i].job.task != job.task
    ensures Current(w') && Placed(w') && Tracked(w') && Settled(w')
  {
    SetCurrentAt(w.store.tasks, job);
    forall i | 0 <= i < |w.store.rows| ensures SettledRow(w', w.store.rows[i]) {
      assert SettledRow(w, w.store.rows[i]);
      SetCurrentRecord(w.store.tasks, job, w.store.rows[i].job.task);
    }
    forall p | p in w.admitted && p !in w.exited ensures RunnerOf(w'.store.tasks, w.home[p].task) == Some(p) {
      SetCurrentRecord(w.store.tasks, job, w.home[p].task);
    }
    forall i | 0 <= i < |w.store.rows| && w.store.rows[i].kind == TaskTurn
      ensures RecordOf(w'.store.tasks, w.store.rows[i].job.task) == RecordOf(w.store.tasks, w.store.rows[i].job.task)
    {
      SetCurrentRecord(w.store.tasks, job, w.store.rows[i].job.task);
    }
  }

  lemma {:induction false} FindAppended(rows: seq<Row>, row: Row, job: Turn)
    requires job != row.job
    ensures RowOf(rows + [row], job) == RowOf(rows, job)
  {
    var i := FindRow(rows + [row], job);
    if FindRow(rows, job).Some? {
      assert (rows + [row])[FindRow(rows, job).value].job == job;
    }
    if i.Some? {
      assert rows[i.value].job == job;
    }
  }

  /** A row that was never queued before and holds no reservation. */
  lemma {:induction false} NewRow(w: World, w': World, row: Row, limit: nat)
    requires Inv(w, limit) && row.job !in w.used && row.reservation.None?
    requires forall i :: 0 <= i < |w.store.rows| ==> w.store.rows[i].job.task != row.job.task
    requires row.kind == TaskTurn ==>
      && RecordOf(w.store.tasks, row.job.task).Some?
      && RecordOf(w.store.tasks, row.job.task).value.current == Some(row.job)
    requires w' == w.(store := w.store.(rows := w.store.rows + [row]), used := w.used + {row.job})
    ensures Inv(w', limit)
  {
    NewRowPermits(w, w', row);
    NewRowSettled(w, w', row);
    NewRowTokens(w, w', row);
  }

  lemma {:induction false} NewRowPermits(w: World, w': World, row: Row)
    requires Shape(w) && row.job !in w.used && row.reservation.None?
    requires w' == w.(store := w.store.(rows := w.store.rows + [row]), used := w.used + {row.job})
    ensures Permits(w') == Permits(w)
  {
    ReservedJoin(w.store.rows, [row]);
    ReservedOne(row);
    forall p | p in w.home ensures RowOf(w'.store.rows, w.home[p]) == RowOf(w.store.rows, w.home[p]) {
      FindAppended(w.store.rows, row, w.home[p]);
    }
    assert Running(w') == Running(w);
  }

  lemma {:induction false} NewRowSettled(w: World, w': World, row: Row)
    requires Shape(w) && Settled(w) && row.job !in w.used && row.reservation.None?
    requires w' == w.(store := w.store.(rows := w.store.rows + [row]), used := w.used + {row.job})
    ensures Settled(w')
  {
    forall i | 0 <= i < |w'.store.rows| ensures SettledRow(w', w'.store.rows[i]) {
      if i < |w.store.rows| {
        assert SettledRow(w, w.store.rows[i]);
      }
    }
  }

  lemma {:induction false} NewRowTokens(w: World, w': World, row: Row)
    requires Tokens(w) && row.reservation.None?
    requires w' == w.(store := w.store.(rows := w.store.rows + [row]), used := w.used + {row.job})
    ensures Tokens(w')
  {
  }

  lemma {:induction false} SubmitKeeps(w: World, row: Row, limit: nat)
    requires Inv(w, limit) && Allowed(w, Submits(row))
    ensures Inv(Next(w, Submits(row), limit), limit)
  {
    var w1 := if row.kind == TaskTurn then w.(store := w.store.(tasks := SetCurrent(w.store.tasks, row.job))) else w;
    if row.kind == TaskTurn {
      NewTurn(w, w1, row.job);
      SetCurrentRecord(w.store.tasks, row.job, row.job.task);
      SameRunning(w, w1);
    }
    NewRow(w1, Next(w, Submits(row), limit), row, limit);
  }

  lemma {:induction false} RowOfRemoved(w: World, i: nat, job: Turn)
    requires Shape(w) && i < |w.store.rows|
    ensures var rows := w.store.rows[..i] + w.store.rows[i + 1..];
      RowOf(rows, job) == if job == w.store.rows[i].job then None else RowOf(w.store.rows, job)
  {
    var rows := w.store.rows[..i] + w.store.rows[i + 1..];
    var w' := w.(store := w.store.(rows := rows));
    assert Shape(w');
    var j := FindRow(w.store.rows, job);
    if j.Some? && j.value != i {
      var k := if j.value < i then j.value else j.value - 1;
      assert rows[k] == w.store.rows[j.value];
      RowOfAt(w', k);
    }
    var k := FindRow(rows, job);
    if k.Some? {
      RowOfAt(w, if k.value < i then k.value else k.value + 1);
    }
  }

  lemma {:induction false} RetireKeeps(w: World, job: Turn, limit: nat)
    requires Inv(w, limit)
    ensures Inv(Next(w, Retires(job), limit), limit)
  {
    var w' := Next(w, Retires(job), limit);
    if FindRow(w.store.rows, job).Some? {
      var i := FindRow(w.store.rows, job).value;
      RemovedPermits(w, w', i);
      RemovedShape(w, w', i);
      RemovedTokens(w, w', i);
      RemovedSettled(w, w', i);
    }
  }

  lemma {:induction false} RemovedShape(w: World, w': World, i: nat)
    requires Shape(w) && Current(w) && Homes(w) && i < |w.store.rows|
    requires w' == w.(store := w.store.(rows := w.store.rows[..i] + w.store.rows[i + 1..]))
    ensures Shape(w') && Current(w') && Homes(w')
  {
    forall k | 0 <= k < |w'.store.rows| ensures w'.store.rows[k] == w.store.rows[if k < i then k else k + 1] {}
  }

  lemma {:induction false} RemovedTokens(w: World, w': World, i: nat)
    requires Tokens(w) && i < |w.store.rows|
    requires w' == w.(store := w.store.(rows := w.store.rows[..i] + w.store.rows[i + 1..]))
    ensures Tokens(w')
  {
  }

  lemma {:induction false} RemovedSettled(w: World, w': World, i: nat)
    requires Settled(w) && i < |w.store.rows|
    requires w' == w.(store := w.store.(rows := w.store.rows[..i] + w.store.rows[i + 1..]))
    ensures Settled(w')
  {
    forall k | 0 <= k < |w'.store.rows| ensures SettledRow(w', w'.store.rows[k]) {
      assert SettledRow(w, w.store.rows[if k < i then k else k + 1]);
    }
  }

  lemma {:induction false} RemovedPermits(w: World, w': World, i: nat)
    requires Shape(w) && i < |w.store.rows|
    requires w' == w.(store := w.store.(rows := w.store.rows[..i] + w.store.rows[i + 1..]))
    ensures Permits(w') <= Permits(w)
  {
    var front, back := w.store.rows[..i], w.store.rows[i + 1..];
    assert w.store.rows == front + ([w.store.rows[i]] + back);
    ReservedJoin(front, back);
    ReservedJoin(front, [w.store.rows[i]] + back);
    ReservedJoin([w.store.rows[i]], back);
    forall p | p in Running(w') ensures p in Running(w) {
      RowOfRemoved(w, i, w.home[p]);
    }
    SubsetSize(Running(w'), Running(w));
  }

  // ---- Every run --------------------------------------------------------------------------------

  lemma {:induction false} OtherKeeps(w: World, step: Step, limit: nat)
    requires Inv(w, limit) && Allowed(w, step) && !step.Reserves?
    ensures Inv(Next(w, step, limit), limit)
  {
    match step
    case Starts(child, job) => StartKeeps(w, child, job, limit);
    case Binds(job, token, child) => BindKeeps(w, job, token, child, limit);
    case Releases(job, token, reserver) => ReleaseKeeps(w, job, token, reserver, limit);
    case TakesOver(gone, job, token, child) => TakeOverKeeps(w, gone, job, token, child, limit);
    case Completes(job, token, child, writes) => CompleteKeeps(w, job, token, child, writes, limit);
    case Exits(p) => ExitKeeps(w, p, limit);
    case Submits(row) => SubmitKeeps(w, row, limit);
    case Retires(job) => RetireKeeps(w, job, limit);
    case Claims(job) => RestateKeeps(w, job, true, limit);
    case Reverts(job) => RestateKeeps(w, job, false, limit);
    case Parks(job) => ParkKeeps(w, job, limit);
    case Unparks(job, owner) => UnparkKeeps(w, job, owner, limit);
  }

  /** The limit matters to reservations alone. */
  lemma {:induction false} LimitApart(w: World, step: Step, limit: nat, cap: nat)
    requires !step.Reserves?
    ensures Next(w, step, limit) == Next(w, step, cap)
  {
  }

  /** The one step that takes the permits past the limit. */
  predicate Overbooks(w: World, step: Step, limit: nat) {
    step.Reserves? && Grants(w, step.gone, step.request, step.drawn, limit) && Permits(w) == limit
        && Hidden(w, step.request)
  }

  /** Every step keeps the invariant up to one permit over the limit, and within the
      limit exactly unless it overbooks. */
  lemma {:induction false} StepKeeps(w: World, step: Step, limit: nat)
    requires Inv(w, limit + 1) && Allowed(w, step)
    ensures Inv(Next(w, step, limit), limit + 1)
    ensures Inv(w, limit) ==> (Inv(Next(w, step, limit), limit) <==> !Overbooks(w, step, limit))
  {
    if step.Reserves? {
      ReserveStep(w, step.gone, step.request, step.drawn, limit);
    } else {
      LimitApart(w, step, limit, limit + 1);
      OtherKeeps(w, step, limit + 1);
      if Inv(w, limit) {
        OtherKeeps(w, step, limit);
      }
    }
  }

  lemma {:induction false} ReserveStep(w: World, gone: set<Process>, request: Request, drawn: Token, limit: nat)
    requires Inv(w, limit + 1) && Allowed(w, Reserves(gone, request, drawn))
    ensures var step := Reserves(gone, request, drawn); var w' := Next(w, step, limit);
      Inv(w', limit + 1) && (Inv(w, limit) ==> (Inv(w', limit) <==> !Overbooks(w, step, limit)))
  {
    if Reserve(w.store, gone, request, limit, drawn).1.Acquired? {
      GrantBound(w, gone, request, drawn, limit, limit + 1);
    }
    ReserveKeeps(w, gone, request, drawn, limit, limit + 1);
    if Inv(w, limit) && Grants(w, gone, request, drawn, limit) {
      GrantLaw(w, gone, request, drawn, limit);
    }
  }

  /** The worlds of a run, in order. */
  function Run(w: World, steps: seq<Step>, limit: nat): World
    decreases |steps|
  {
    if steps == [] then w else Run(Next(w, steps[0], limit), steps[1..], limit)
  }

  predicate AllowedRun(w: World, steps: seq<Step>, limit: nat)
    decreases |steps|
  {
    steps == [] || (Allowed(w, steps[0]) && AllowedRun(Next(w, steps[0], limit), steps[1..], limit))
  }

  /** An empty queue before anything was started. */
  predicate Initial(w: World) {
    w.store.rows == [] && w.home == map[] && w.admitted == {} && w.issued == {}
  }

  predicate NeverOverbooks(w: World, steps: seq<Step>, limit: nat)
    decreases |steps|
  {
    steps == [] || (!Overbooks(w, steps[0], limit) && NeverOverbooks(Next(w, steps[0], limit), steps[1..], limit))
  }

  predicate AlwaysWithin(w: World, steps: seq<Step>, limit: nat)
    decreases |steps|
  {
    Permits(w) <= limit && (steps == [] || AlwaysWithin(Next(w, steps[0], limit), steps[1..], limit))
  }

  /** A run stays within the limit all along exactly when no step of it overbooks. */
  lemma {:induction false} RunLaw(w: World, steps: seq<Step>, limit: nat)
    requires Inv(w, limit) && AllowedRun(w, steps, limit)
    ensures AlwaysWithin(w, steps, limit) <==> NeverOverbooks(w, steps, limit)
    ensures NeverOverbooks(w, steps, limit) ==> Inv(Run(w, steps, limit), limit)
    decreases |steps|
  {
    if steps != [] {
      var v := Next(w, steps[0], limit);
      StepKeeps(w, steps[0], limit);
      if Overbooks(w, steps[0], limit) {
        assert Permits(v) > limit;
      } else {
        RunLaw(v, steps[1..], limit);
      }
    }
  }

  lemma {:induction false} RunKeeps(w: World, steps: seq<Step>, limit: nat)
    requires Inv(w, limit + 1) && AllowedRun(w, steps, limit)
    ensures Inv(Run(w, steps, limit), limit + 1)
    decreases |steps|
  {
    if steps != [] {
      StepKeeps(w, steps[0], limit);
      RunKeeps(Next(w, steps[0], limit), steps[1..], limit);
    }
  }

  /** Over every run the rows that hold a reservation and the admitted runners that
      have not exited never exceed the slot limit by more than one, and not at all in
      a run without an overbooking. */
  lemma {:induction false} PermitBound(w: World, steps: seq<Step>, limit: nat)
    requires Initial(w) && AllowedRun(w, steps, limit)
    ensures var w' := Run(w, steps, limit); var permits := Reserved(w'.store.rows) + |w'.admitted - w'.exited|;
      permits <= limit + 1 && (NeverOverbooks(w, steps, limit) ==> permits <= limit)
  {
    assert Running(w) == {};
    assert Inv(w, limit);
    RunKeeps(w, steps, limit);
    RunLaw(w, steps, limit);
    var w' := Run(w, steps, limit);
    SubsetSize(w'.admitted - w'.exited, Running(w'));
  }

  // ---- A run that overbooks ------------------------------------------------------------------------

  /** Two turns, one slot: the second turn is parked while runner 7 works on the first;
      before it exits, 7 hands its slot on and reserves one for the second turn. */
  function HandOff(a: Turn, b: Turn): seq<Step> {
    [Submits(Fresh(a)), Submits(Fresh(b)), Reserves({}, Request(a, 90, false), 1), Parks(b), Starts(7, a),
     Completes(a, 1, 7, 3), Unparks(b, 7), Reserves({}, Request(b, 7, true), 2)]
  }

  function Fresh(job: Turn): Row { Row(job, TaskTurn, 90, Waiting(90), None) }

  function Records(runner: Option<Process>, a: Turn, b: Turn, seen: nat): seq<TaskRecord> {
    [TaskRecord(a.task, runner, if seen > 0 then Some(a) else None),
        TaskRecord(b.task, None, if seen > 1 then Some(b) else None)]
  }

  /** The worlds the run goes through. */
  function Stop(a: Turn, b: Turn, n: nat): World {
    var held := Fresh(a).(reservation := Some(Reservation(90, 1, None)));
    var parked := Fresh(b).(state := Parked);
    var running := Fresh(a).(state := Waiting(7));
    var taken := Fresh(b).(state := Waiting(7));
    var asked := taken.(reservation := Some(Reservation(7, 2, None)));
    if n == 0 then World(Store([], Records(None, a, b, 0)), {}, map[], {}, {}, {})
    else if n == 1 then World(Store([Fresh(a)], Records(None, a, b, 1)), {}, map[], {}, {}, {a})
    else if n == 2 then World(Store([Fresh(a), Fresh(b)], Records(None, a, b, 2)), {}, map[], {}, {}, {a, b})
    else if n == 3 then World(Store([held, Fresh(b)], Records(None, a, b, 2)), {}, map[], {}, {1}, {a, b})
    else if n == 4 then World(Store([held, parked], Records(None, a, b, 2)), {}, map[], {}, {1}, {a, b})
    else if n == 5 then World(Store([held, parked], Records(None, a, b, 2)), {}, map[7 := a], {}, {1}, {a, b})
    else if n == 6 then World(Store([running, parked], Records(Some(7), a, b, 2)), {}, map[7 := a], {7}, {1}, {a, b})
    else if n == 7 then World(Store([running, taken], Records(Some(7), a, b, 2)), {}, map[7 := a], {7}, {1}, {a, b})
    else World(Store([running, asked], Records(Some(7), a, b, 2)), {}, map[7 := a], {7}, {1, 2}, {a, b})
  }

  lemma {:induction false} HandOffStep(a: Turn, b: Turn, n: nat, step: Step)
    requires a.task != b.task && n < 8 && step == HandOff(a, b)[n]
    ensures Allowed(Stop(a, b, n), step) && Next(Stop(a, b, n), step, 1) == Stop(a, b, n + 1)
  {
    if n < 2 {
      HandOffSubmits(a, b, n);
    } else if n == 2 {
      HandOffAsks(a, b);
    } else if n == 7 {
      HandOffAsksAgain(a, b);
    } else {
      HandOffGoesOn(a, b, n, step);
    }
  }

  lemma {:induction false} HandOffSubmits(a: Turn, b: Turn, n: nat)
    requires a.task != b.task && n < 2
    ensures var step := Submits(Fresh(if n == 0 then a else b));
      Allowed(Stop(a, b, n), step) && Next(Stop(a, b, n), step, 1) == Stop(a, b, n + 1)
  {
    var w := Stop(a, b, n);
    var tasks := w.store.tasks;
    assert tasks[0].task == a.task && tasks[1].task == b.task;
    assert tasks[1..] == [tasks[1]];
    assert SetCurrent(tasks[1..], b) == [tasks[1].(current := Some(b))] + tasks[1..][1..];
    assert SetCurrent(tasks, if n == 0 then a else b) == Stop(a, b, n + 1).store.tasks;
  }

  lemma {:induction false} HandOffAsks(a: Turn, b: Turn)
    requires a.task != b.task
    ensures var step := Reserves({}, Request(a, 90, false), 1);
      Allowed(Stop(a, b, 2), step) && Next(Stop(a, b, 2), step, 1) == Stop(a, b, 3)
  {
    var w, request := Stop(a, b, 2), Request(a, 90, false);
    var rows, tasks := w.store.rows, w.store.tasks;
    assert LiveRunner(tasks, {}, a) == None;
    assert Runners(tasks, {}, request) == {};
    assert Holders(rows, tasks, {}, request) == {};
    assert rows[..1] == [rows[0]];
    ReservedOne(rows[0]);
    assert FindRow(rows, a) == Some(0);
  }

  lemma {:induction false} HandOffAsksAgain(a: Turn, b: Turn)
    requires a.task != b.task
    ensures var step := Reserves({}, Request(b, 7, true), 2);
      Allowed(Stop(a, b, 7), step) && Next(Stop(a, b, 7), step, 1) == Stop(a, b, 8)
  {
    var w, request := Stop(a, b, 7), Request(b, 7, true);
    var rows, tasks := w.store.rows, w.store.tasks;
    assert LiveRunner(tasks, {}, b) == None;
    assert Runners(tasks, {}, request) == {};
    assert Holders(rows, tasks, {}, request) == {};
    assert rows[..1] == [rows[0]];
    ReservedOne(rows[0]);
    assert rows[1..] == [rows[1]];
    assert FindRow(rows, b) == Some(1);
  }

  lemma {:induction false} HandOffGoesOn(a: Turn, b: Turn, n: nat, step: Step)
    requires a.task != b.task && 3 <= n < 7 && step == HandOff(a, b)[n]
    ensures Allowed(Stop(a, b, n), step) && Next(Stop(a, b, n), step, 1) == Stop(a, b, n + 1)
  {
    var w := Stop(a, b, n);
    var rows, tasks := w.store.rows, w.store.tasks;
    assert rows[1..] == [rows[1]] && rows[0].job == a && rows[1].job == b;
    assert FindRow(rows, a) == Some(0) && FindRow(rows, b) == Some(1);
    assert tasks[0].task == a.task && KnownTask(tasks, a.task);
  }

  lemma {:induction false} HandOffRuns(a: Turn, b: Turn, n: nat)
    requires a.task != b.task && n <= 8
    ensures
      && AllowedRun(Stop(a, b, n), HandOff(a, b)[n..], 1) && Run(Stop(a, b, n), HandOff(a, b)[n..], 1) == Stop(a, b, 8)
    decreases 8 - n
  {
    var steps := HandOff(a, b);
    if n < 8 {
      HandOffStep(a, b, n, steps[n]);
      assert steps[n..][0] == steps[n] && steps[n..][1..] == steps[n + 1..];
      HandOffRuns(a, b, n + 1);
    }
  }

  /** Handing a slot on exceeds the limit: with one slot, a run from an empty queue ends
      with a live runner and a reservation. */
  lemma {:induction false} HandOffExceeds(a: Turn, b: Turn)
    requires a.task != b.task
    ensures var w, steps := Stop(a, b, 0), HandOff(a, b); var w' := Run(w, steps, 1);
      Initial(w) && AllowedRun(w, steps, 1) && Reserved(w'.store.rows) + |w'.admitted - w'.exited| == 2
  {
    HandOffRuns(a, b, 0);
    assert HandOff(a, b)[0..] == HandOff(a, b);
    var rows := Stop(a, b, 8).store.rows;
    assert rows[..1] == [rows[0]];
    ReservedOne(rows[0]);
  }

  // ---- Fencing ----------------------------------------------------------------------------------

  /** A token that was drawn and that no row holds any more. */
  predicate Spent(w: World, token: Token) {
    token in w.issued && forall i :: 0 <= i < |w.store.rows| ==> !Holds(w.store.rows[i], token)
  }

  /** A reservation is replaced only when its reserver, its bound child, the runner of
      the turn and any other process that acts on the row have all exited; its token
      is spent from then on. */
  lemma {:induction false} ReplacedOnlyWhenGone(w: World, gone: set<Process>, request: Request, drawn: Token,
      limit: nat, cap: nat)
    requires Inv(w, cap) && Allowed(w, Reserves(gone, request, drawn))
    requires RowOf(w.store.rows, request.job).Some? && RowOf(w.store.rows, request.job).value.reservation.Some?
    requires Reserve(w.store, gone, request, limit, drawn).1.Acquired?
    ensures var row := RowOf(w.store.rows, request.job).value;
      && row.reservation.value.reserver in w.exited
      && (row.reservation.value.child.Some? ==> row.reservation.value.child.value in w.exited)
      && (RunnerOf(w.store.tasks, request.job.task).Some? ==>
          RunnerOf(w.store.tasks, request.job.task).value in w.exited)
      && (row.state.Dispatching? && row.state.dispatchOwner != request.reserver ==> row.state.dispatchOwner in w.exited)
      && (row.state.Waiting? && row.state.owner != request.reserver && row.state.owner != row.enqueueOwner ==>
          row.state.owner in w.exited)
      && Spent(Next(w, Reserves(gone, request, drawn), limit), row.reservation.value.token)
  {
    var i := FindRow(w.store.rows, request.job).value;
    RunnerGone(w, gone, i);
    var w' := Next(w, Reserves(gone, request, drawn), limit);
    var token := w.store.rows[i].reservation.value.token;
    forall k | 0 <= k < |w'.store.rows| ensures !Holds(w'.store.rows[k], token) {
      if k != i {
        assert w'.store.rows[k] == w.store.rows[k];
      }
    }
  }

  /** A spent token stays spent. */
  lemma {:induction false} SpentStep(w: World, step: Step, token: Token, limit: nat)
    requires Allowed(w, step) && Spent(w, token)
    ensures Spent(Next(w, step, limit), token)
  {
    match step {
      case Retires(job) => SpentRetires(w, job, token, limit);
      case Submits(row) => SpentSubmits(w, row, token, limit);
      case Completes(job, t, child, writes) => SpentCompletes(w, job, t, child, writes, token, limit);
      case _ => SpentOther(w, step, token, limit);
    }
  }

  lemma {:induction false} SpentRetires(w: World, job: Turn, token: Token, limit: nat)
    requires Spent(w, token)
    ensures Spent(Next(w, Retires(job), limit), token)
  {
    var rows, after := w.store.rows, Next(w, Retires(job), limit).store.rows;
    forall k | 0 <= k < |after| ensures !Holds(after[k], token) {
      if FindRow(rows, job).Some? {
        var i := FindRow(rows, job).value;
        assert after[k] == rows[if k < i then k else k + 1];
      }
    }
  }

  lemma {:induction false} SpentSubmits(w: World, row: Row, token: Token, limit: nat)
    requires Spent(w, token) && row.reservation.None?
    ensures Spent(Next(w, Submits(row), limit), token)
  {
    var rows, after := w.store.rows, Next(w, Submits(row), limit).store.rows;
    forall k | 0 <= k < |after| ensures !Holds(after[k], token) {
      assert k < |rows| ==> after[k] == rows[k];
    }
  }

  lemma {:induction false} SpentCompletes(w: World, job: Turn, t: Token, child: Process, writes: nat,
      token: Token, limit: nat)
    requires Spent(w, token)
    ensures Spent(Next(w, Completes(job, t, child, writes), limit), token)
  {
    var rows, after := w.store.rows, Complete(w.store, job, t, child, writes).0.rows;
    forall k | 0 <= k < |after| ensures !Holds(after[k], token) {
      assert !Holds(rows[k], token);
    }
  }

  lemma {:induction false} SpentOther(w: World, step: Step, token: Token, limit: nat)
    requires Allowed(w, step) && Spent(w, token) && !step.Retires? && !step.Submits? && !step.Completes?
    ensures Spent(Next(w, step, limit), token)
  {
    var rows, after := w.store.rows, Next(w, step, limit).store.rows;
    forall k | 0 <= k < |after| ensures !Holds(after[k], token) {
      assert !Holds(rows[k], token);
    }
  }

  predicate Owns(s: Store, job: Turn, p: Process) {
    RowOf(s.rows, job).Some? && RowOf(s.rows, job).value.Owner() == Some(p)
  }

  /** No call of `p` with this token changes anything or reports success. */
  predicate Fenced(s: Store, token: Token, job: Turn, p: Process, gone: set<Process>, writes: nat) {
    && Release(s, job, token, p).0 == s && Release(s, job, token, p).1 != Done(true)
    && Bind(s, job, token, p).0 == s && Bind(s, job, token, p).1.Failed?
    && TakeOver(s, gone, job, token, p).0 == s && TakeOver(s, gone, job, token, p).1.Denied?
    && Complete(s, job, token, p, writes).0 == s && Complete(s, job, token, p, writes).1.Failed?
  }

  lemma {:induction false} SpentIsFenced(w: World, token: Token, job: Turn, p: Process, gone: set<Process>, writes: nat)
    requires Spent(w, token) && !Owns(w.store, job, p)
    ensures Fenced(w.store, token, job, p, gone, writes)
  {
  }

  /** In any interleaving: once replaced, a token is fenced off for every process that
      does not own the row, at every later point of every run. */
  lemma {:induction false} FenceHolds(w: World, steps: seq<Step>, token: Token, limit: nat, job: Turn, p: Process,
      gone: set<Process>, writes: nat)
    requires AllowedRun(w, steps, limit) && Spent(w, token)
    ensures var s := Run(w, steps, limit).store; Owns(s, job, p) || Fenced(s, token, job, p, gone, writes)
    decreases |steps|
  {
    if steps == [] {
      if !Owns(w.store, job, p) {
        SpentIsFenced(w, token, job, p, gone, writes);
      }
    } else {
      SpentStep(w, steps[0], token, limit);
      FenceHolds(Next(w, steps[0], limit), steps[1..], token, limit, job, p, gone, writes);
    }
  }
}
