/** Any number of admission rounds at once: who may probe a worker, what a commit may
    overwrite, and what a round may rank without probing. */
module AdmissionRounds {
  import opened Basics
  import opened Admission

  type RoundId = nat

  /** One round's pipeline for one worker. `Probing` and what follows it remember the row
      that was read under the refresh lock. */
  datatype Phase =
    | Idle
    | Holding(entry: WorkerEntry)
    | Probing(entry: WorkerEntry, expected: Option<Observation>)
    | Sampled(entry: WorkerEntry, expected: Option<Observation>, incoming: Observation, panicked: bool)
    | Committed(entry: WorkerEntry, incoming: Observation, winner: Observation)
    | Done(entry: WorkerEntry, record: Observation, probed: bool)
    | Absent

  /** Stored rows, refresh locks, pipelines. */
  datatype World = World(rows: map<string, Observation>, locks: map<string, RoundId>, pipes: map<(RoundId, string),
      Phase>)

  datatype Step =
    | Acquire(round: RoundId, name: string, entry: WorkerEntry)
    | Check(round: RoundId, name: string, now: nat)
    | Probe(round: RoundId, name: string, sample: Observation)
    | Panic(round: RoundId, name: string, now: nat)
    | Commit(round: RoundId, name: string)
    | Rank(round: RoundId, name: string, now: nat)
    | GiveUp(round: RoundId, name: string)
    | Outside(name: string, row: Option<Observation>)

  function At(w: World, r: RoundId, name: string): Phase { if (r, name) in w.pipes then w.pipes[(r, name)] else Idle }

  function Stored(w: World, name: string): Option<Observation> { if name in w.rows then Some(w.rows[name]) else None }

  predicate Active(p: Phase) { p.Holding? || p.Probing? || p.Sampled? || p.Committed? }

  predicate Passing(row: Option<Observation>, entry: WorkerEntry, now: nat) {
    row.Some? && Reusable(row.value, entry, now)
  }

  /** The row that stands for a probe that panicked. */
  function Negative(entry: WorkerEntry, now: nat): Observation {
    Observation(entry.name, false, Resources(true, None, 0, None), [], map[], now, entry.ssh, entry.remoteBinary,
                Some(entry.capabilities), Some(entry.slots), None, Some(now))
  }

  function Move(w: World, r: RoundId, name: string, p: Phase): World { w.(pipes := w.pipes[(r, name) := p]) }

  /** The guard is dropped when the pipeline returns. */
  function Leave(w: World, r: RoundId, name: string, p: Phase): World {
    Move(w, r, name, p).(locks := w.locks - {name})
  }

  /** `commit_admission_observation`: published only over the expected row; the winner. */
  function CommitRow(rows: map<string, Observation>, name: string, expected: Option<Observation>,
      incoming: Observation):
    (map<string, Observation>, Option<Observation>)
  {
    var existing := if name in rows then Some(rows[name]) else None;
    if existing != expected then (rows, existing) else (rows[name := incoming], Some(incoming))
  }

  function CommitStep(w: World, r: RoundId, name: string, p: Phase): World
    requires p.Sampled?
  {
    var (rows, winner) := CommitRow(w.rows, name, p.expected, p.incoming);
    var v := w.(rows := rows);
    if p.panicked then Leave(v, r, name, Done(p.entry, p.incoming, true))
    else if winner.None? then Leave(v, r, name, Absent)
    else Move(v, r, name, Committed(p.entry, p.incoming, winner.value))
  }

  function RankStep(w: World, r: RoundId, name: string, p: Phase, now: nat): World
    requires p.Committed?
  {
    Leave(w, r, name,
          if p.winner == p.incoming then Done(p.entry, p.winner, true)
          else if Reusable(p.winner, p.entry, now) then Done(p.entry, p.winner, false)
          else Absent)
  }

  /** `None` when the step cannot happen. */
  function Do(w: World, step: Step): Option<World> {
    match step
    case Acquire(r, name, entry) =>
      if At(w, r, name).Idle? && name !in w.locks && entry.name == name
      then Some(Move(w, r, name, Holding(entry)).(locks := w.locks[name := r])) else None
    case Check(r, name, now) =>
      var p := At(w, r, name);
      if !p.Holding? then None
      else if Passing(Stored(w, name), p.entry, now) then Some(Leave(w, r, name, Done(p.entry, w.rows[name], false)))
      else Some(Move(w, r, name, Probing(p.entry, Stored(w, name))))
    case Probe(r, name, sample) =>
      var p := At(w, r, name);
      if p.Probing? && sample.worker == name then Some(Move(w, r, name, Sampled(p.entry, p.expected, sample, false)))
      else None
    case Panic(r, name, now) =>
      var p := At(w, r, name);
      if p.Probing? then Some(Move(w, r, name, Sampled(p.entry, p.expected, Negative(p.entry, now), true))) else None
    case Commit(r, name) =>
      var p := At(w, r, name);
      if p.Sampled? then Some(CommitStep(w, r, name, p)) else None
    case Rank(r, name, now) =>
      var p := At(w, r, name);
      if p.Committed? then Some(RankStep(w, r, name, p, now)) else None
    case GiveUp(r, name) =>
      var p := At(w, r, name);
      if Active(p) then Some(Leave(w, r, name, Absent)) else if p.Idle? then Some(Move(w, r, name, Absent)) else None
    case Outside(name, row) =>
      Some(w.(rows := if row.Some? then w.rows[name := row.value] else w.rows - {name}))
  }

  // ---- runs ----

  ghost predicate Start(w: World) { w.locks == map[] && w.pipes == map[] }

  ghost predicate Run(states: seq<World>, steps: seq<Step>) {
    && |states| == |steps| + 1 && Start(states[0])
    && forall i: nat :: i < |steps| ==> Do(states[i], steps[i]) == Some(states[i + 1])
  }

  /** The lock of a worker is held by exactly the round whose pipeline is under way; the
      pipeline is about that worker; a negative row stands in only for a panic. */
  ghost predicate Inv(w: World) {
    && (forall r, name :: Active(At(w, r, name)) <==> name in w.locks && w.locks[name] == r)
    && (forall r, name :: Owned(At(w, r, name), name))
  }

  ghost predicate Owned(p: Phase, name: string) {
    match p
    case Idle => true
    case Holding(entry) => entry.name == name
    case Probing(entry, _) => entry.name == name
    case Sampled(entry, _, incoming, panicked) => entry.name == name && incoming.worker == name
        && (panicked ==> !incoming.ready)
    case Committed(entry, incoming, _) => entry.name == name && incoming.worker == name
    case Done(entry, record, _) => entry.name == name && record.worker == name
    case Absent => true
  }

  /** A step of a round moves that round's pipeline for that worker and no other. */
  lemma {:induction false} StepMoves(w: World, step: Step, v: World)
    requires Do(w, step) == Some(v)
    ensures step.Outside? ==> v.pipes == w.pipes && v.locks == w.locks
    ensures !step.Outside? ==>
      forall r: RoundId, name :: (r, name) != (step.round, step.name) ==> At(v, r, name) == At(w, r, name)
    ensures !step.Outside? ==> forall name :: name != step.name ==> (name in v.locks <==> name in w.locks)
    ensures !step.Outside? ==> forall name :: name != step.name && name in w.locks ==> v.locks[name] == w.locks[name]
  {
  }

  /** The pipeline a round's step moves, and the lock of its worker. */
  lemma {:induction false} StepHere(w: World, step: Step, v: World)
    requires !step.Outside? && Inv(w) && Do(w, step) == Some(v)
    ensures var (r, name) := (step.round, step.name);
            && Owned(At(v, r, name), name)
            && (if Active(At(v, r, name)) then name in v.locks && v.locks[name] == r
                else if Active(At(w, r, name)) then name !in v.locks else v.locks == w.locks)
            && (step.Acquire? ==> name !in w.locks)
  {
    assert Owned(At(w, step.round, step.name), step.name);
  }

  lemma {:induction false} StepKeeps(w: World, step: Step, v: World)
    requires Inv(w) && Do(w, step) == Some(v)
    ensures Inv(v)
  {
    StepMoves(w, step, v);
    if !step.Outside? {
      StepHere(w, step, v);
    }
    forall r, name
      ensures Active(At(v, r, name)) <==> name in v.locks && v.locks[name] == r
      ensures Owned(At(v, r, name), name)
    {
      assert Owned(At(w, r, name), name);
    }
  }

  lemma {:induction false} RunKeeps(states: seq<World>, steps: seq<Step>, i: nat)
    requires Run(states, steps) && i < |states|
    ensures Inv(states[i])
    decreases i
  {
    if i > 0 {
      RunKeeps(states, steps, i - 1);
      StepKeeps(states[i - 1], steps[i - 1], states[i]);
    }
  }

  // ---- where a pipeline that probes comes from ----

  predicate Waiting(p: Phase, entry: WorkerEntry, expected: Option<Observation>) {
    (p.Probing? || p.Sampled?) && p.entry == entry && p.expected == expected
  }

  /** At step `j` the round read the row under the lock and found it not reusable; from
      then until state `i` it is between that read and its commit, holding the lock. */
  ghost predicate CheckedAt(states: seq<World>, steps: seq<Step>, j: nat, i: nat, r: RoundId, name: string,
      entry: WorkerEntry, expected: Option<Observation>)
    requires |states| == |steps| + 1 && i < |states|
  {
    && j < i && steps[j].Check? && steps[j].round == r && steps[j].name == name
    && At(states[j], r, name) == Holding(entry)
    && Stored(states[j], name) == expected && !Passing(expected, entry, steps[j].now)
    && (forall k: nat :: j < k <= i ==> Waiting(At(states[k], r, name), entry, expected))
    && (forall k: nat :: j <= k <= i ==> HeldBy(states[k], name, r))
  }

  predicate HeldBy(w: World, name: string, r: RoundId) { name in w.locks && w.locks[name] == r }

  /** One step back from a pipeline that waits: it waited before, or this was its check. */
  lemma {:induction false} WaitingBefore(w: World, step: Step, v: World, r: RoundId, name: string, entry: WorkerEntry,
      expected: Option<Observation>)
    requires Inv(w) && Do(w, step) == Some(v) && Waiting(At(v, r, name), entry, expected)
    ensures || Waiting(At(w, r, name), entry, expected)
            || (step.Check? && step.round == r && step.name == name && At(w, r, name) == Holding(entry)
                && Stored(w, name) == expected && !Passing(expected, entry, step.now))
  {
    StepMoves(w, step, v);
    if !step.Outside? && step.round == r && step.name == name {
      match step {
        case Check(_, _, _) =>
        case Probe(_, _, _) =>
        case Panic(_, _, _) =>
        case _ =>
      }
    }
  }

  lemma {:induction false} Origin(states: seq<World>, steps: seq<Step>, i: nat, r: RoundId, name: string,
      entry: WorkerEntry, expected: Option<Observation>)
    returns (j: nat)
    requires Run(states, steps) && 0 < i < |states| && Waiting(At(states[i], r, name), entry, expected)
    ensures CheckedAt(states, steps, j, i, r, name, entry, expected)
    decreases i
  {
    RunKeeps(states, steps, i);
    RunKeeps(states, steps, i - 1);
    WaitingBefore(states[i - 1], steps[i - 1], states[i], r, name, entry, expected);
    if Waiting(At(states[i - 1], r, name), entry, expected) {
      j := Origin(states, steps, i - 1, r, name, entry, expected);
    } else {
      j := i - 1;
    }
  }

  // ---- who changes a row ----

  /** A round changes a row only by its commit, over the row it expected, with its own sample. */
  lemma {:induction false} RowChanges(w: World, step: Step, v: World, name: string)
    requires Inv(w) && Do(w, step) == Some(v) && Stored(v, name) != Stored(w, name)
    ensures step.name == name
    ensures !step.Outside? ==> step.Commit? && HeldBy(w, name, step.round)
    ensures !step.Outside? ==> At(w, step.round, name).Sampled? && Stored(w, name) == At(w, step.round, name).expected
    ensures !step.Outside? ==> Stored(v, name) == Some(At(w, step.round, name).incoming)
  {
  }

  ghost predicate Quiet(steps: seq<Step>, name: string, j: nat, i: nat)
    requires i <= |steps|
  {
    forall k: nat :: j <= k < i ==> !(steps[k].Outside? && steps[k].name == name)
  }

  /** Unless someone outside the rounds writes it, the row stays what the check read. */
  lemma {:induction false} RowStays(states: seq<World>, steps: seq<Step>, j: nat, i: nat, k: nat, r: RoundId,
      name: string, entry: WorkerEntry, expected: Option<Observation>)
    requires Run(states, steps) && i < |states| && CheckedAt(states, steps, j, i, r, name, entry, expected)
    requires j <= k <= i && Quiet(steps, name, j, k)
    ensures Stored(states[k], name) == expected
    decreases k
  {
    if k > j {
      RowStays(states, steps, j, i, k - 1, r, name, entry, expected);
      RunKeeps(states, steps, k - 1);
      RowStaysStep(states[k - 1], steps[k - 1], states[k], r, name, entry, expected);
    }
  }

  lemma {:induction false} RowStaysStep(w: World, step: Step, v: World, r: RoundId, name: string, entry: WorkerEntry,
      expected: Option<Observation>)
    requires Inv(w) && Do(w, step) == Some(v) && HeldBy(w, name, r) && Waiting(At(v, r, name), entry, expected)
    requires !(step.Outside? && step.name == name)
    ensures Stored(v, name) == Stored(w, name)
  {
    if step.Commit? && step.name == name {
      CommitEnds(w, step, v);
    }
  }

  // ---- the laws ----

  /** A worker is probed only by the round that holds its refresh lock, and has held it since
      it read a row that was not reusable; without an outside writer that is still the row. */
  lemma {:induction false} ProbeLaw(states: seq<World>, steps: seq<Step>, i: nat) returns (j: nat)
    requires Run(states, steps) && i < |steps| && (steps[i].Probe? || steps[i].Panic?)
    ensures var (r, name) := (steps[i].round, steps[i].name);
            var p := At(states[i], r, name);
            && p.Probing? && CheckedAt(states, steps, j, i, r, name, p.entry, p.expected)
            && (Quiet(steps, name, j, i) ==> forall k: nat :: j <= k <= i ==> Stored(states[k], name) == p.expected)
  {
    var (r, name) := (steps[i].round, steps[i].name);
    var p := At(states[i], r, name);
    assert Do(states[i], steps[i]) == Some(states[i + 1]);
    j := Origin(states, steps, i, r, name, p.entry, p.expected);
    if Quiet(steps, name, j, i) {
      forall k: nat | j <= k <= i ensures Stored(states[k], name) == p.expected {
        RowStays(states, steps, j, i, k, r, name, p.entry, p.expected);
      }
    }
  }

  /** Every commit comes from a check of the same round. It replaces the row if and only if
      that is still the row the check read, which it is unless someone outside wrote it. */
  lemma {:induction false} CommitLaw(states: seq<World>, steps: seq<Step>, i: nat) returns (j: nat)
    requires Run(states, steps) && i < |steps| && steps[i].Commit?
    ensures var (r, name) := (steps[i].round, steps[i].name);
            var p := At(states[i], r, name);
            && p.Sampled? && CheckedAt(states, steps, j, i, r, name, p.entry, p.expected)
            && Stored(states[i + 1], name) == (if Stored(states[i], name) == p.expected then Some(p.incoming)
                else Stored(states[i], name))
            && (Quiet(steps, name, j, i) ==> Stored(states[i + 1], name) == Some(p.incoming))
  {
    var (r, name) := (steps[i].round, steps[i].name);
    var p := At(states[i], r, name);
    assert Do(states[i], steps[i]) == Some(states[i + 1]);
    j := Origin(states, steps, i, r, name, p.entry, p.expected);
    if Quiet(steps, name, j, i) {
      RowStays(states, steps, j, i, i, r, name, p.entry, p.expected);
    }
  }

  /** The winner of a commit is the row that was stored right after it. */
  lemma {:induction false} WinnerStored(states: seq<World>, steps: seq<Step>, i: nat, r: RoundId,
      name: string) returns (c: nat)
    requires Run(states, steps) && 0 < i < |states| && At(states[i], r, name).Committed?
    ensures c < i && steps[c] == Commit(r, name) && Stored(states[c + 1], name) == Some(At(states[i], r, name).winner)
    ensures At(states[c], r, name).Sampled? && At(states[c], r, name).incoming == At(states[i], r, name).incoming
    decreases i
  {
    assert Do(states[i - 1], steps[i - 1]) == Some(states[i]);
    StepMoves(states[i - 1], steps[i - 1], states[i]);
    if steps[i - 1] == Commit(r, name) {
      c := i - 1;
    } else {
      assert At(states[i - 1], r, name) == At(states[i], r, name);
      c := WinnerStored(states, steps, i - 1, r, name);
    }
  }

  /** A round ends with a row it did not probe only if that row was stored while the round
      held the lock and passes the reuse test at the round's own clock reading. If nobody
      outside writes the row, it got it from its check: no commit of a round is ever lost. */
  lemma {:induction false} RankLaw(states: seq<World>, steps: seq<Step>, i: nat, r: RoundId,
      name: string) returns (k: nat)
    requires Run(states, steps) && i < |steps| && !At(states[i], r, name).Done?
    requires At(states[i + 1], r, name).Done? && !At(states[i + 1], r, name).probed
    ensures var d := At(states[i + 1], r, name);
            && (steps[i].Check? || steps[i].Rank?) && steps[i].round == r && steps[i].name == name
            && Reusable(d.record, d.entry, steps[i].now)
            && k <= i && HeldBy(states[k], name, r)
            && (Stored(states[k], name) == Some(d.record) || Stored(states[k + 1], name) == Some(d.record))
    ensures Quiet(steps, name, 0, i) ==> steps[i].Check?
  {
    assert Do(states[i], steps[i]) == Some(states[i + 1]);
    StepMoves(states[i], steps[i], states[i + 1]);
    RunKeeps(states, steps, i);
    if steps[i].Check? {
      k := i;
    } else {
      assert steps[i].Rank?;
      k := WinnerStored(states, steps, i, r, name);
      RunKeeps(states, steps, k);
      var _ := CommitLaw(states, steps, k);
    }
  }

  /** One probe serves every round: as long as the row a commit left is stored, another round
      probes the worker only after a check, made since, at whose clock that row was not reusable. */
  lemma {:induction false} SingleFlight(states: seq<World>, steps: seq<Step>, c: nat, i: nat,
      row: Observation) returns (j: nat)
    requires Run(states, steps) && c < i < |steps| && steps[c].Commit? && (steps[i].Probe? || steps[i].Panic?)
    requires steps[c].name == steps[i].name
    requires forall k: nat :: c < k <= i ==> Stored(states[k], steps[i].name) == Some(row)
    ensures c < j < i && steps[j].Check? && steps[j].round == steps[i].round && steps[j].name == steps[i].name
    ensures At(states[i], steps[i].round, steps[i].name).Probing?
    ensures !Reusable(row, At(states[i], steps[i].round, steps[i].name).entry, steps[j].now)
  {
    j := ProbeLaw(states, steps, i);
    RunKeeps(states, steps, c);
    assert Do(states[c], steps[c]) == Some(states[c + 1]);
    CommitEnds(states[c], steps[c], states[c + 1]);
    NotSince(states, steps, j, c, i, steps[i].round, steps[i].name);
  }

  lemma {:induction false} NotSince(states: seq<World>, steps: seq<Step>, j: nat, c: nat, i: nat, r: RoundId,
      name: string)
    requires |states| == |steps| + 1 && c < i < |states| && At(states[i], r, name).Probing?
    requires CheckedAt(states, steps, j, i, r, name, At(states[i], r, name).entry, At(states[i], r, name).expected)
    requires HeldBy(states[c], name, r) ==> !At(states[c + 1], r, name).Probing? && !At(states[c + 1], r, name).Sampled?
    ensures c < j
  {
  }

  /** After a commit its round, the one that held the lock, waits no more. */
  lemma {:induction false} CommitEnds(w: World, step: Step, v: World)
    requires Inv(w) && step.Commit? && Do(w, step) == Some(v)
    ensures forall r :: HeldBy(w, step.name, r) ==> !At(v, r, step.name).Probing? && !At(v, r, step.name).Sampled?
  {
    assert Active(At(w, step.round, step.name));
  }

  // ---- what a round makes of its pipelines ----

  /** What a pipeline that has ended returns; `at` is the start of its probe. */
  function Outcome(p: Phase, at: nat): Option<Pipeline> {
    if p.Done? then Some(Seen(p.record, if p.probed then Some(at) else None)) else if p.Absent? then Some(Unavailable)
    else None
  }

  /** The outcome `p` is one the round's own pipeline can give in this run: what it ended
      with, a failure, or nothing if it panicked. */
  ghost predicate Given(states: seq<World>, r: RoundId, w: WorkerEntry, p: Option<Pipeline>) {
    || p.None? || p.value.Failed?
    || exists i: nat, at: nat :: i < |states| && IsOutcome(states[i], r, w, p, at)
  }

  ghost predicate IsOutcome(v: World, r: RoundId, w: WorkerEntry, p: Option<Pipeline>, at: nat) {
    var phase := At(v, r, w.name);
    (phase.Absent? || (phase.Done? && phase.entry == w)) && p == Outcome(phase, at)
  }

  /** The pipelines of a round, taken from a run of any number of rounds, return rows of
      their own workers: the script of the round fits. */
  lemma {:induction false} ScriptFits(states: seq<World>, steps: seq<Step>, r: RoundId, s: Script,
      workers: seq<WorkerEntry>)
    requires Run(states, steps)
    requires var n := |workers|;
      |s.first| == n && |s.second| == n && |s.last| == n && |s.pipes1| == n && |s.pipes2| == n && |s.late| == n
    requires forall i: nat :: i < |workers| ==>
      Given(states, r, workers[i], s.pipes1[i]) && Given(states, r, workers[i], s.pipes2[i])
    ensures Fits(s, workers)
  {
    forall i: nat | i < |workers| ensures OwnRow(s.pipes1[i], workers[i]) && OwnRow(s.pipes2[i], workers[i]) {
      GivenOwn(states, steps, r, workers[i], s.pipes1[i]);
      GivenOwn(states, steps, r, workers[i], s.pipes2[i]);
    }
  }

  lemma {:induction false} GivenOwn(states: seq<World>, steps: seq<Step>, r: RoundId, w: WorkerEntry,
      p: Option<Pipeline>)
    requires Run(states, steps) && Given(states, r, w, p)
    ensures OwnRow(p, w)
  {
    if p.Some? && p.value.Seen? {
      var i: nat, at: nat :| i < |states| && IsOutcome(states[i], r, w, p, at);
      RunKeeps(states, steps, i);
      assert Owned(At(states[i], r, w.name), w.name);
    }
  }

  /** When a pipeline ended. */
  lemma {:induction false} EndedAt(states: seq<World>, steps: seq<Step>, i: nat, r: RoundId,
      name: string) returns (k: nat)
    requires Run(states, steps) && 0 < i < |states| && At(states[i], r, name).Done?
    ensures k < i && !At(states[k], r, name).Done? && At(states[k + 1], r, name) == At(states[i], r, name)
    decreases i
  {
    assert Do(states[i - 1], steps[i - 1]) == Some(states[i]);
    StepMoves(states[i - 1], steps[i - 1], states[i]);
    if At(states[i - 1], r, name).Done? {
      assert At(states[i - 1], r, name) == At(states[i], r, name);
      k := EndedAt(states, steps, i - 1, r, name);
    } else {
      k := i - 1;
    }
  }

  /** A row a pipeline returns without having probed it passed the reuse test, for the very
      worker of the round, when the round checked or ranked it. */
  lemma {:induction false} UnprobedPassed(states: seq<World>, steps: seq<Step>, r: RoundId, w: WorkerEntry,
      record: Observation) returns (k: nat)
    requires Run(states, steps) && Given(states, r, w, Some(Seen(record, None)))
    ensures k < |steps| && (steps[k].Check? || steps[k].Rank?) && steps[k].round == r && steps[k].name == w.name
    ensures Reusable(record, w, steps[k].now)
  {
    var i: nat, at: nat :| i < |states| && IsOutcome(states[i], r, w, Some(Seen(record, None)), at);
    k := EndedAt(states, steps, i, r, w.name);
    var _ := RankLaw(states, steps, k, r, w.name);
  }
}
