/** The spawn-permit protocol of the local scheduler: reserve, bind, take over,
    complete and release, over the shared queue and all task records. */
module RunnerSlots {
  import opened Basics

  /** A process identity: process id and start time. */
  type Process = nat

  /** A turn belongs to one task for ever. */
  datatype Turn = Turn(task: nat, number: nat)

  /** A random identifier; 0 is the nil one. */
  type Token = nat

  datatype Reservation = Reservation(reserver: Process, token: Token, child: Option<Process>)

  datatype QueueState = Waiting(owner: Process) | Dispatching(dispatchOwner: Process) | Parked

  datatype Kind = TaskTurn | Batch

  datatype Row = Row(job: Turn, kind: Kind, enqueueOwner: Process, state: QueueState,
      reservation: Option<Reservation>) {
    function Owner(): Option<Process> {
      match state
      case Waiting(o) => Some(o)
      case Dispatching(o) => Some(o)
      case Parked => None
    }

    /** `QueueEntry::adopt`: only a task turn that is not parked changes owner. */
    predicate Adoptable() { kind == TaskTurn && state != Parked }

    function Adopt(owner: Process): Row
      requires Adoptable()
    {
      this.(state := if state.Waiting? then Waiting(owner) else Dispatching(owner))
    }
  }

  /** A task record: its recorded runner and the turn it holds as its current one. */
  datatype TaskRecord = TaskRecord(task: nat, runner: Option<Process>, current: Option<Turn>)

  datatype Store = Store(rows: seq<Row>, tasks: seq<TaskRecord>)

  datatype Fault = NotFound | KindConflict | TokenMismatch | AdoptionRefused

  datatype Decision = Saturated | Pending(token: Token) | Acquired(token: Token) | Refused(fault: Fault)

  datatype Takeover = Ready | WaitingForLiveOwner | Denied(fault: Fault)

  datatype Reply = Done(changed: bool) | Failed(fault: Fault) | Crashed

  function FindRow(rows: seq<Row>, job: Turn): (r: Option<nat>)
    ensures r.Some? ==> r.value < |rows| && rows[r.value].job == job
    ensures r.Some? ==> forall i :: 0 <= i < r.value ==> rows[i].job != job
    ensures r.None? ==> forall i :: 0 <= i < |rows| ==> rows[i].job != job
  {
    if rows == [] then None
    else if rows[0].job == job then Some(0)
    else match FindRow(rows[1..], job)
      case Some(i) => Some(i + 1)
      case None => None
  }

  /** The process that acts on a row, unless it is known to have exited. A waiting row
      still held by the process that enqueued it is not acted on. */
  function ActingHolder(row: Row, gone: set<Process>): Option<Process> {
    match row.state
    case Dispatching(o) => if o !in gone then Some(o) else None
    case Waiting(o) => if o != row.enqueueOwner && o !in gone then Some(o) else None
    case Parked => None
  }

  predicate LiveRunnerOf(record: TaskRecord, gone: set<Process>, job: Turn) {
    record.runner.Some? && record.runner.value !in gone && record.current == Some(job)
  }

  function LiveRunner(tasks: seq<TaskRecord>, gone: set<Process>, job: Turn): (r: Option<Process>)
    ensures r.None? <==> forall i :: 0 <= i < |tasks| ==> !LiveRunnerOf(tasks[i], gone, job)
  {
    if tasks == [] then None
    else if LiveRunnerOf(tasks[0], gone, job) then tasks[0].runner
    else LiveRunner(tasks[1..], gone, job)
  }

  /** Who asks for a permit, and whether it asks not to be counted. */
  datatype Request = Request(job: Turn, reserver: Process, excluded: bool)

  predicate CountedRunner(record: TaskRecord, gone: set<Process>, request: Request) {
    && record.runner.Some? && record.runner.value !in gone
    && !(request.excluded && record.runner.value == request.reserver)
  }

  /** A controller that recovered the row it asks a permit for is not a runner of it. */
  predicate RecoveredController(row: Row, holder: Process, tasks: seq<TaskRecord>, gone: set<Process>,
      request: Request) {
    row.job == request.job && holder == request.reserver && row.reservation.None?
        && LiveRunner(tasks, gone, request.job).None?
  }

  predicate CountedHolder(row: Row, tasks: seq<TaskRecord>, gone: set<Process>, request: Request) {
    && row.kind == TaskTurn && ActingHolder(row, gone).Some?
    && var holder := ActingHolder(row, gone).value;
      !(request.excluded && holder == request.reserver) && !RecoveredController(row, holder, tasks, gone, request)
  }

  function Runners(records: seq<TaskRecord>, gone: set<Process>, request: Request): set<Process> {
    set i | 0 <= i < |records| && CountedRunner(records[i], gone, request) :: records[i].runner.value
  }

  function Holders(rows: seq<Row>, tasks: seq<TaskRecord>, gone: set<Process>, request: Request): set<Process> {
    set i | 0 <= i < |rows| && CountedHolder(rows[i], tasks, gone, request) :: ActingHolder(rows[i], gone).value
  }

  /** How many rows hold a reservation. */
  function Reserved(rows: seq<Row>): nat {
    if rows == [] then 0 else Reserved(rows[..|rows| - 1]) + Weight(rows[|rows| - 1])
  }

  function Weight(row: Row): nat { if row.kind == TaskTurn && row.reservation.Some? then 1 else 0 }

  /** The measured occupancy: distinct live runners and row holders, and reservations. */
  function Occupied(s: Store, gone: set<Process>, request: Request): nat {
    |Runners(s.tasks, gone, request) + Holders(s.rows, s.tasks, gone, request)| + Reserved(s.rows)
  }

  function WithRow(s: Store, i: nat, row: Row): Store
    requires i < |s.rows|
  {
    s.(rows := s.rows[i := row])
  }

  /** May the reservation of this row be replaced, or a new one be made on it? */
  predicate HeldElsewhere(s: Store, row: Row, gone: set<Process>, request: Request) {
    || LiveRunner(s.tasks, gone, request.job).Some?
    || (ActingHolder(row, gone).Some? && ActingHolder(row, gone).value != request.reserver)
  }

  predicate ReservationLive(r: Reservation, gone: set<Process>) {
    r.reserver !in gone || (r.child.Some? && r.child.value !in gone)
  }

  /** `reserve_runner_slot`; `drawn` is the token it would draw. */
  function Reserve(s: Store, gone: set<Process>, request: Request, limit: nat, drawn: Token): (Store, Decision) {
    match FindRow(s.rows, request.job)
    case None => (s, Refused(NotFound))
    case Some(i) =>
      var row := s.rows[i];
      if row.kind != TaskTurn then (s, Refused(KindConflict))
      else if row.reservation.Some?
          && (HeldElsewhere(s, row, gone, request) || ReservationLive(row.reservation.value, gone)) then
        (s, Pending(row.reservation.value.token))
      else if row.reservation.None? && HeldElsewhere(s, row, gone, request) then (s, Pending(0))
      else if row.reservation.None? && Occupied(s, gone, request) >= limit then (s, Saturated)
      else (WithRow(s, i, row.(reservation := Some(Reservation(request.reserver, drawn, None)))), Acquired(drawn))
  }

  predicate Holds(row: Row, token: Token) { row.reservation.Some? && row.reservation.value.token == token }

  /** `release_runner_slot`: only the reserver's own permit, and only before a child is bound. */
  function Release(s: Store, job: Turn, token: Token, reserver: Process): (Store, Reply) {
    match FindRow(s.rows, job)
    case None => (s, Failed(NotFound))
    case Some(i) =>
      var row := s.rows[i];
      if Holds(row, token) && row.reservation.value.reserver == reserver && row.reservation.value.child.None?
      then (WithRow(s, i, row.(reservation := None)), Done(true))
      else (s, Done(false))
  }

  function WithChild(row: Row, child: Process): Row
    requires row.reservation.Some?
  {
    row.(reservation := Some(row.reservation.value.(child := Some(child))))
  }

  /** `bind_runner_slot_child` */
  function Bind(s: Store, job: Turn, token: Token, child: Process): (Store, Reply) {
    if token == 0 then (s, Failed(TokenMismatch))
    else match FindRow(s.rows, job)
      case None => (s, Failed(NotFound))
      case Some(i) =>
        if Holds(s.rows[i], token) then (WithRow(s, i, WithChild(s.rows[i], child)), Done(true))
        else (s, Failed(TokenMismatch))
  }

  /** `take_over_reserved_slot` */
  function TakeOver(s: Store, gone: set<Process>, job: Turn, token: Token, child: Process): (Store, Takeover) {
    if token == 0 then (s, Denied(TokenMismatch))
    else match FindRow(s.rows, job)
      case None => (s, Denied(NotFound))
      case Some(i) =>
        var row := s.rows[i];
        if Holds(row, token) then
          var bound := row.reservation.value.child;
          if bound.Some? && bound.value != child && bound.value !in gone then (s, Denied(TokenMismatch))
          else if row.Owner() == Some(child) then (s, Ready)
          else if row.Owner().None? then (s, Denied(TokenMismatch))
          else if row.Owner().value !in gone then (s, WaitingForLiveOwner)
          else if !row.Adoptable() then (s, Denied(AdoptionRefused))
          else (WithRow(s, i, row.Adopt(child)), Ready)
        else if row.reservation.None? && row.Owner() == Some(child) then (s, Ready)
        else (s, Denied(TokenMismatch))
  }

  /** Whether `complete_runner_spawn` accepts this token and child for the row. */
  predicate MayComplete(row: Row, token: Token, child: Process) {
    if row.reservation.Some? then
      Holds(row, token) && (row.reservation.value.child.Some? ==> row.reservation.value.child.value == child)
    else row.Owner() == Some(child)
  }

  /** The first durable write of a completion: the child owns the row and is bound. */
  function Claimed(row: Row, child: Process): Row
    requires row.Owner() == Some(child) || row.Adoptable()
  {
    var owned := if row.Owner() == Some(child) then row else row.Adopt(child);
    if owned.reservation.Some? then WithChild(owned, child) else owned
  }

  function SetRunner(tasks: seq<TaskRecord>, task: nat, child: Process): seq<TaskRecord> {
    if tasks == [] then []
    else if tasks[0].task == task then [tasks[0].(runner := Some(child))] + tasks[1..]
    else [tasks[0]] + SetRunner(tasks[1..], task, child)
  }

  predicate KnownTask(tasks: seq<TaskRecord>, task: nat) {
    exists i :: 0 <= i < |tasks| && tasks[i].task == task
  }

  /** `complete_runner_spawn`, which makes three durable writes: the claimed row, the
      task's runner and the cleared reservation. `writes` says how many were made
      before a crash; 3 or more is the whole call. */
  function Complete(s: Store, job: Turn, token: Token, child: Process, writes: nat): (Store, Reply) {
    if token == 0 then (s, Failed(TokenMismatch))
    else match FindRow(s.rows, job)
      case None => (s, Failed(NotFound))
      case Some(i) =>
        var row := s.rows[i];
        if !MayComplete(row, token, child) then (s, Failed(TokenMismatch))
        else if row.Owner() != Some(child) && !row.Adoptable() then (s, Failed(AdoptionRefused))
        else
          var claimed := Claimed(row, child);
          if writes == 0 then (s, Crashed)
          else if writes == 1 then (WithRow(s, i, claimed), Crashed)
          else if !KnownTask(s.tasks, job.task) then (WithRow(s, i, claimed), Failed(NotFound))
          else
            var tasks := SetRunner(s.tasks, job.task, child);
            if writes == 2 then (Store(s.rows[i := claimed], tasks), Crashed)
            else (Store(s.rows[i := claimed.(reservation := None)], tasks), Done(true))
  }

  // ---- The store, updated in place --------------------------------------------------

  lemma {:induction false} ReservedStep(rows: seq<Row>, n: nat)
    requires n < |rows|
    ensures Reserved(rows[..n + 1]) == Reserved(rows[..n]) + Weight(rows[n])
  {
    assert rows[..n + 1][..n] == rows[..n];
  }

  class ClientStore {
    var rows: seq<Row>
    var tasks: seq<TaskRecord>

    constructor ()
      ensures Contents() == Store([], [])
    {
      rows, tasks := [], [];
    }

    function Contents(): Store
      reads this
    {
      Store(rows, tasks)
    }

    method RowIndex(job: Turn) returns (r: Option<nat>)
      ensures r == FindRow(rows, job)
    {
      var n := 0;
      while n < |rows|
        invariant n <= |rows|
        invariant FindRow(rows, job) == match FindRow(rows[n..], job) case Some(i) => Some(i + n) case None => None
      {
        if rows[n].job == job { return Some(n); }
        assert rows[n..][1..] == rows[n + 1..];
        n := n + 1;
      }
      return None;
    }

    method LiveRunnerForCurrentTurn(gone: set<Process>, job: Turn) returns (r: Option<Process>)
      ensures r == LiveRunner(tasks, gone, job)
    {
      var n := 0;
      while n < |tasks|
        invariant n <= |tasks| && LiveRunner(tasks, gone, job) == LiveRunner(tasks[n..], gone, job)
      {
        var record := tasks[n];
        if record.runner.Some? && record.runner.value !in gone && record.current == Some(job) {
          return record.runner;
        }
        assert tasks[n..][1..] == tasks[n + 1..];
        n := n + 1;
      }
      return None;
    }

    /** One pass over all task records and one over the rows. */
    method OccupiedRunnerSlots(gone: set<Process>, request: Request) returns (n: nat)
      ensures n == Occupied(Contents(), gone, request)
    {
      var ids := RunnerIds(gone, request);
      var extra;
      ids, extra := HolderIds(gone, request, ids);
      n := |ids| + extra;
    }

    method RunnerIds(gone: set<Process>, request: Request) returns (ids: set<Process>)
      ensures ids == Runners(tasks, gone, request)
    {
      ids := {};
      var k := 0;
      while k < |tasks|
        invariant k <= |tasks| && ids == Runners(tasks[..k], gone, request)
      {
        var record := tasks[k];
        RunnersStep(tasks, k, gone, request);
        if record.runner.Some? && !(request.excluded && record.runner.value == request.reserver)
            && record.runner.value !in gone {
          ids := ids + {record.runner.value};
        }
        k := k + 1;
      }
      assert tasks[..|tasks|] == tasks;
    }

    method HolderIds(gone: set<Process>, request: Request, runners: set<Process>) returns (ids: set<Process>,
        extra: nat)
      ensures ids == runners + Holders(rows, tasks, gone, request) && extra == Reserved(rows)
    {
      ids, extra := runners, 0;
      var k := 0;
      while k < |rows|
        invariant k <= |rows| && extra == Reserved(rows[..k])
        invariant ids == runners + Holders(rows[..k], tasks, gone, request)
      {
        var row := rows[k];
        ReservedStep(rows, k);
        HoldersStep(rows, k, tasks, gone, request);
        var counted := CountsHolder(row, gone, request);
        if counted.Some? { ids := ids + {counted.value}; }
        if row.kind == TaskTurn && row.reservation.Some? { extra := extra + 1; }
        k := k + 1;
      }
      assert rows[..|rows|] == rows;
    }

    method CountsHolder(row: Row, gone: set<Process>, request: Request) returns (r: Option<Process>)
      ensures r == if CountedHolder(row, tasks, gone, request) then ActingHolder(row, gone) else None
    {
      var holder := ActingHolder(row, gone);
      if row.kind != TaskTurn || holder.None? { return None; }
      var live := LiveRunnerForCurrentTurn(gone, request.job);
      var recovered := row.job == request.job && holder.value == request.reserver && row.reservation.None?
          && live.None?;
      return if (request.excluded && holder.value == request.reserver) || recovered then None else holder;
    }

    method ReserveRunnerSlot(gone: set<Process>, request: Request, limit: nat, drawn: Token) returns (r: Decision)
      modifies this
      ensures (Contents(), r) == Reserve(old(Contents()), gone, request, limit, drawn)
    {
      var at := RowIndex(request.job);
      if at.None? { return Refused(NotFound); }
      var row := rows[at.value];
      if row.kind != TaskTurn { return Refused(KindConflict); }
      var runner := LiveRunnerForCurrentTurn(gone, request.job);
      var holder := ActingHolder(row, gone);
      var foreign := holder.Some? && holder.value != request.reserver;
      if row.reservation.Some? {
        var held := row.reservation.value;
        var childLive := held.child.Some? && held.child.value !in gone;
        if runner.Some? || foreign || held.reserver !in gone || childLive { return Pending(held.token); }
      } else if runner.Some? || foreign {
        return Pending(0);
      } else {
        var occupied := OccupiedRunnerSlots(gone, request);
        if occupied >= limit { return Saturated; }
      }
      rows := rows[at.value := row.(reservation := Some(Reservation(request.reserver, drawn, None)))];
      return Acquired(drawn);
    }

    method ReleaseRunnerSlot(job: Turn, token: Token, reserver: Process) returns (r: Reply)
      modifies this
      ensures (Contents(), r) == Release(old(Contents()), job, token, reserver)
    {
      var at := RowIndex(job);
      if at.None? { return Failed(NotFound); }
      var row := rows[at.value];
      if row.reservation.None? { return Done(false); }
      var held := row.reservation.value;
      if held.token != token || held.reserver != reserver || held.child.Some? { return Done(false); }
      rows := rows[at.value := row.(reservation := None)];
      return Done(true);
    }

    method BindRunnerSlotChild(job: Turn, token: Token, child: Process) returns (r: Reply)
      modifies this
      ensures (Contents(), r) == Bind(old(Contents()), job, token, child)
    {
      if token == 0 { return Failed(TokenMismatch); }
      var at := RowIndex(job);
      if at.None? { return Failed(NotFound); }
      var row := rows[at.value];
      if row.reservation.None? || row.reservation.value.token != token { return Failed(TokenMismatch); }
      rows := rows[at.value := row.(reservation := Some(row.reservation.value.(child := Some(child))))];
      return Done(true);
    }

    method TakeOverReservedSlot(gone: set<Process>, job: Turn, token: Token, child: Process) returns (r: Takeover)
      modifies this
      ensures (Contents(), r) == TakeOver(old(Contents()), gone, job, token, child)
    {
      if token == 0 { return Denied(TokenMismatch); }
      var at := RowIndex(job);
      if at.None? { return Denied(NotFound); }
      var row := rows[at.value];
      var owner := row.Owner();
      if row.reservation.None? {
        return if owner == Some(child) then Ready else Denied(TokenMismatch);
      }
      var held := row.reservation.value;
      if held.token != token { return Denied(TokenMismatch); }
      if held.child.Some? && held.child.value != child && held.child.value !in gone { return Denied(TokenMismatch); }
      if owner.None? { return Denied(TokenMismatch); }
      if owner.value == child { return Ready; }
      if owner.value !in gone { return WaitingForLiveOwner; }
      if !row.Adoptable() { return Denied(AdoptionRefused); }
      rows := rows[at.value := row.Adopt(child)];
      return Ready;
    }

    /** Stops after `writes` durable writes. */
    method CompleteRunnerSpawn(job: Turn, token: Token, child: Process, writes: nat) returns (r: Reply)
      modifies this
      ensures (Contents(), r) == Complete(old(Contents()), job, token, child, writes)
    {
      if token == 0 { return Failed(TokenMismatch); }
      var at := RowIndex(job);
      if at.None? { return Failed(NotFound); }
      var row := rows[at.value];
      if row.reservation.Some? {
        var held := row.reservation.value;
        if held.token != token || (held.child.Some? && held.child.value != child) { return Failed(TokenMismatch); }
      } else if row.Owner() != Some(child) {
        return Failed(TokenMismatch);
      }
      if row.Owner() != Some(child) {
        if !row.Adoptable() { return Failed(AdoptionRefused); }
        row := row.Adopt(child);
      }
      if row.reservation.Some? { row := WithChild(row, child); }
      if writes == 0 { return Crashed; }
      rows := rows[at.value := row];
      if writes == 1 { return Crashed; }
      var known := RecordRunner(job.task, child);
      if !known { return Failed(NotFound); }
      if writes == 2 { return Crashed; }
      assert rows[at.value := row.(reservation := None)] == old(rows)[at.value := row.(reservation := None)];
      rows := rows[at.value := row.(reservation := None)];
      return Done(true);
    }

    method RecordRunner(task: nat, child: Process) returns (known: bool)
      modifies this`tasks
      ensures known == KnownTask(old(tasks), task)
      ensures tasks == if known then SetRunner(old(tasks), task, child) else old(tasks)
    {
      var n := 0;
      while n < |tasks|
        invariant n <= |tasks| && tasks == old(tasks)
        invariant forall i :: 0 <= i < n ==> tasks[i].task != task
        invariant SetRunner(tasks, task, child) == tasks[..n] + SetRunner(tasks[n..], task, child)
      {
        if tasks[n].task == task {
          tasks := tasks[n := tasks[n].(runner := Some(child))];
          assert old(tasks)[n..][1..] == old(tasks)[n + 1..];
          assert tasks == old(tasks)[..n] + ([tasks[n]] + old(tasks)[n + 1..]);
          return true;
        }
        assert tasks[n..][1..] == tasks[n + 1..];
        assert tasks[..n] + ([tasks[n]] + SetRunner(tasks[n + 1..], task,
            child)) == tasks[..n + 1] + SetRunner(tasks[n + 1..], task, child);
        n := n + 1;
      }
      return false;
    }
  }

  lemma {:induction false} RunnersStep(tasks: seq<TaskRecord>, n: nat, gone: set<Process>, request: Request)
    requires n < |tasks|
    ensures Runners(tasks[..n + 1], gone, request)
         == Runners(tasks[..n], gone, request)
         + if CountedRunner(tasks[n], gone, request) then {tasks[n].runner.value} else {}
  {
    var xs, ys := tasks[..n + 1], tasks[..n];
    assert forall i :: 0 <= i < n ==> xs[i] == ys[i];
    assert xs[n] == tasks[n];
  }

  lemma {:induction false} HoldersStep(rows: seq<Row>, n: nat, tasks: seq<TaskRecord>, gone: set<Process>,
      request: Request)
    requires n < |rows|
    ensures Holders(rows[..n + 1], tasks, gone, request)
         == Holders(rows[..n], tasks, gone, request)
         + if CountedHolder(rows[n], tasks, gone, request) then {ActingHolder(rows[n], gone).value} else {}
  {
    var xs, ys := rows[..n + 1], rows[..n];
    assert forall i :: 0 <= i < n ==> xs[i] == ys[i];
    assert xs[n] == rows[n];
  }
}
