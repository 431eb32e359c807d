/** The durable queue: rows with ids that are never reused, changed only through
    whole snapshots that are validated before they are published. */
module Queue {
  import opened Basics

  type Process = nat
  type Job = nat
  type Worker = nat

  datatype Kind = TaskTurn | Batch

  /** A run and how many of its tasks may be busy at once. */
  datatype Run = Run(id: nat, cap: nat)

  datatype State =
    | Waiting(owner: Process)
    | Dispatching(dispatchOwner: Process, worker: Worker, claimedAt: nat)
    | Parked

  datatype Entry = Entry(
    id: nat,
    job: Job,
    kind: Kind,
    run: Option<Run>,
    pinned: Option<Worker>,
    requirements: set<nat>,
    state: State,
    cancelled: bool,
    enqueuedAt: nat)

  datatype Snapshot = Snapshot(nextId: nat, entries: seq<Entry>)

  datatype Fault =
    | JobConflict
    | IdAssigned
    | IdExhausted
    | IdConflict
    | KindConflict
    | OwnerMismatch
    | NotFound
    | RecordMismatch
    | Invalid

  datatype Result<+T> = Ok(value: T) | Err(fault: Fault)

  /** `QueueId::checked_next` fails at the largest id of 64 bits. */
  const MAX_ID: nat := 0xFFFF_FFFF_FFFF_FFFF

  predicate ValidEntry(e: Entry) {
    e.enqueuedAt != 0 && (e.state.Dispatching? ==> e.state.claimedAt != 0 && e.state.claimedAt >= e.enqueuedAt)
  }

  predicate SameRunOtherCap(a: Entry, b: Entry) {
    a.run.Some? && b.run.Some? && a.run.value.id == b.run.value.id && a.run.value.cap != b.run.value.cap
  }

  /** `QueueSnapshot::validate` */
  predicate Valid(s: Snapshot) {
    && (forall i :: 0 <= i < |s.entries| ==> ValidEntry(s.entries[i]) && 0 < s.entries[i].id < s.nextId)
    && (forall i, j :: 0 <= i < j < |s.entries| ==> Follows(s.entries[i], s.entries[j]))
  }

  /** May `b` stand somewhere behind `a`? */
  predicate Follows(a: Entry, b: Entry) {
    a.id < b.id && a.enqueuedAt <= b.enqueuedAt && a.job != b.job && !SameRunOtherCap(a, b)
  }

  function FindJob(entries: seq<Entry>, job: Job): (r: Option<nat>)
    ensures r.Some? ==> r.value < |entries| && entries[r.value].job == job
    ensures r.None? ==> forall i :: 0 <= i < |entries| ==> entries[i].job != job
    ensures r.Some? ==> forall i :: 0 <= i < r.value ==> entries[i].job != job
  {
    if entries == [] then None
    else if entries[0].job == job then Some(0)
    else match FindJob(entries[1..], job)
      case Some(i) => Some(i + 1)
      case None => None
  }

  /** A change is published only if the new snapshot is valid. */
  function Publish<T>(s: Snapshot, after: Snapshot, value: T): (Snapshot, Result<T>) {
    if Valid(after) then (after, Ok(value)) else (s, Err(Invalid))
  }

  /** The row as it is queued: its time is not before that of the last row. */
  function Placed(s: Snapshot, e: Entry): Entry {
    var last := |s.entries| - 1;
    var early := last >= 0 && e.enqueuedAt < s.entries[last].enqueuedAt;
    e.(id := s.nextId, enqueuedAt := if early then s.entries[last].enqueuedAt else e.enqueuedAt)
  }

  function Appended(s: Snapshot, e: Entry): Snapshot { Snapshot(s.nextId + 1, s.entries + [Placed(s, e)]) }

  function Enqueue(s: Snapshot, e: Entry): (Snapshot, Result<Entry>) {
    if !ValidEntry(e) then (s, Err(Invalid))
    else if e.id != 0 then (s, Err(IdAssigned))
    else if FindJob(s.entries, e.job).Some? then (s, Err(JobConflict))
    else if s.nextId >= MAX_ID then (s, Err(IdExhausted))
    else Publish(s, Appended(s, e), Placed(s, e))
  }

  function EnqueueIfAbsent(s: Snapshot, e: Entry): (Snapshot, Result<Entry>) {
    if !ValidEntry(e) then (s, Err(Invalid))
    else if e.id != 0 then (s, Err(IdAssigned))
    else match FindJob(s.entries, e.job)
      case Some(i) => (s, Ok(s.entries[i]))
      case None => Enqueue(s, e)
  }

  function Remove(entries: seq<Entry>, i: nat): seq<Entry>
    requires i < |entries|
  {
    entries[..i] + entries[i + 1..]
  }

  /** `remove_task_turn_for_submission_rollback` */
  function RollBack(s: Snapshot, job: Job): (Snapshot, Result<Option<Entry>>) {
    match FindJob(s.entries, job)
    case None => (s, Ok(None))
    case Some(i) =>
      if s.entries[i].kind != TaskTurn then (s, Err(KindConflict))
      else Publish(s, s.(entries := Remove(s.entries, i)), Some(s.entries[i]))
  }

  /** `remove_task_turn_after_terminal` */
  function RemoveAfterTerminal(s: Snapshot, job: Job, owner: Process): (Snapshot, Result<Option<Entry>>) {
    match FindJob(s.entries, job)
    case None => (s, Ok(None))
    case Some(i) =>
      var e := s.entries[i];
      if e.kind != TaskTurn then (s, Err(KindConflict))
      else if (e.state.Waiting? && e.state.owner != owner) || (e.state.Dispatching? && e.state.dispatchOwner != owner)
      then (s, Err(OwnerMismatch))
      else Publish(s, s.(entries := Remove(s.entries, i)), Some(e))
  }

  /** The first row with a larger id, or the end. */
  function Place(entries: seq<Entry>, id: nat): (i: nat)
    ensures i <= |entries| && (forall k :: 0 <= k < i ==> entries[k].id <= id) && (i < |entries| ==> entries[i].id > id)
  {
    if entries == [] || entries[0].id > id then 0 else 1 + Place(entries[1..], id)
  }

  function Inserted(entries: seq<Entry>, e: Entry): seq<Entry> {
    var i := Place(entries, e.id);
    entries[..i] + [e] + entries[i..]
  }

  /** `restore_task_turn_for_submission_rollback` */
  function Restore(s: Snapshot, e: Entry): (Snapshot, Result<()>) {
    if FindJob(s.entries, e.job).Some? then (s, Ok(()))
    else if e.id >= s.nextId then (s, Err(IdConflict))
    else Publish(s, s.(entries := Inserted(s.entries, e)), ())
  }

  /** `revert_dispatch` */
  function Revert(s: Snapshot, job: Job, owner: Process): (Snapshot, Result<Entry>) {
    match FindJob(s.entries, job)
    case None => (s, Err(NotFound))
    case Some(i) =>
      var e := s.entries[i];
      if !(e.state.Dispatching? && e.state.dispatchOwner == owner) then (s, Err(OwnerMismatch))
      else
        var back := e.(state := Waiting(owner));
        Publish(s, s.(entries := s.entries[i := back]), back)
  }

  // ---- The queue, updated in place ----------------------------------------------------------

  class QueueStore {
    var nextId: nat
    var entries: seq<Entry>

    constructor ()
      ensures Contents() == Snapshot(1, []) && Valid(Contents())
    {
      nextId, entries := 1, [];
    }

    function Contents(): Snapshot
      reads this
    {
      Snapshot(nextId, entries)
    }

    method Position(job: Job) returns (r: Option<nat>)
      ensures r == FindJob(entries, job)
    {
      var n := 0;
      while n < |entries|
        invariant n <= |entries|
        invariant FindJob(entries, job) ==
          match FindJob(entries[n..], job) case Some(i) => Some(i + n) case None => None
      {
        if entries[n].job == job { return Some(n); }
        assert entries[n..][1..] == entries[n + 1..];
        n := n + 1;
      }
      return None;
    }

    /** One pass with the last id, the last time, the jobs and the caps seen. */
    static method Validate(s: Snapshot) returns (valid: bool)
      ensures valid == Valid(s)
    {
      var seen := Seen(0, 0, {}, map[]);
      var n := 0;
      assert s.(entries := s.entries[..0]).entries == [];
      while n < |s.entries|
        invariant n <= |s.entries| && SeenSoFar(s, n, seen)
      {
        var ok;
        ok, seen := Check(s, n, seen);
        if !ok { return false; }
        n := n + 1;
      }
      assert s.entries[..n] == s.entries;
      return true;
    }

    static method Check(s: Snapshot, n: nat, seen: Seen) returns (ok: bool, now: Seen)
      requires n < |s.entries| && SeenSoFar(s, n, seen)
      ensures ok ==> SeenSoFar(s, n + 1, now)
      ensures !ok ==> !Valid(s)
    {
      var e := s.entries[n];
      now := seen;
      if !ValidEntry(e) { return false, seen; }
      if !Passes(s, e, seen) {
        Rejected(s, n, seen);
        return false, seen;
      }
      SeenNext(s, n, seen);
      ok, now := true, seen.With(e);
    }

    method PublishIfValid(after: Snapshot) returns (published: bool)
      modifies this
      ensures published == Valid(after) && Contents() == if published then after else old(Contents())
    {
      published := Validate(after);
      if published { nextId, entries := after.nextId, after.entries; }
    }

    method EnqueueRow(e: Entry) returns (r: Result<Entry>)
      modifies this
      ensures (Contents(), r) == Enqueue(old(Contents()), e)
    {
      if !ValidEntry(e) { return Err(Invalid); }
      if e.id != 0 { return Err(IdAssigned); }
      var at := Position(e.job);
      if at.Some? { return Err(JobConflict); }
      if nextId >= MAX_ID { return Err(IdExhausted); }
      var row := e;
      if |entries| > 0 && row.enqueuedAt < entries[|entries| - 1].enqueuedAt {
        row := row.(enqueuedAt := entries[|entries| - 1].enqueuedAt);
      }
      row := row.(id := nextId);
      var published := PublishIfValid(Snapshot(nextId + 1, entries + [row]));
      return if published then Ok(row) else Err(Invalid);
    }

    method EnqueueRowIfAbsent(e: Entry) returns (r: Result<Entry>)
      modifies this
      ensures (Contents(), r) == EnqueueIfAbsent(old(Contents()), e)
    {
      if !ValidEntry(e) { return Err(Invalid); }
      if e.id != 0 { return Err(IdAssigned); }
      var at := Position(e.job);
      if at.Some? { return Ok(entries[at.value]); }
      r := EnqueueRow(e);
    }

    method RollBackRow(job: Job) returns (r: Result<Option<Entry>>)
      modifies this
      ensures (Contents(), r) == RollBack(old(Contents()), job)
    {
      var at := Position(job);
      if at.None? { return Ok(None); }
      var e := entries[at.value];
      if e.kind != TaskTurn { return Err(KindConflict); }
      var published := PublishIfValid(Snapshot(nextId, Remove(entries, at.value)));
      return if published then Ok(Some(e)) else Err(Invalid);
    }

    method RemoveRowAfterTerminal(job: Job, owner: Process) returns (r: Result<Option<Entry>>)
      modifies this
      ensures (Contents(), r) == RemoveAfterTerminal(old(Contents()), job, owner)
    {
      var at := Position(job);
      if at.None? { return Ok(None); }
      var e := entries[at.value];
      if e.kind != TaskTurn { return Err(KindConflict); }
      match e.state {
        case Waiting(o) => if o != owner { return Err(OwnerMismatch); }
        case Dispatching(o, _, _) => if o != owner { return Err(OwnerMismatch); }
        case Parked =>
      }
      var published := PublishIfValid(Snapshot(nextId, Remove(entries, at.value)));
      return if published then Ok(Some(e)) else Err(Invalid);
    }

    method RestoreRow(e: Entry) returns (r: Result<()>)
      modifies this
      ensures (Contents(), r) == Restore(old(Contents()), e)
    {
      var at := Position(e.job);
      if at.Some? { return Ok(()); }
      if e.id >= nextId { return Err(IdConflict); }
      var n := 0;
      while n < |entries| && entries[n].id <= e.id
        invariant n <= |entries| && Place(entries, e.id) == n + Place(entries[n..], e.id)
      {
        assert entries[n..][1..] == entries[n + 1..];
        n := n + 1;
      }
      var published := PublishIfValid(Snapshot(nextId, entries[..n] + [e] + entries[n..]));
      return if published then Ok(()) else Err(Invalid);
    }

    method RevertDispatch(job: Job, owner: Process) returns (r: Result<Entry>)
      modifies this
      ensures (Contents(), r) == Revert(old(Contents()), job, owner)
    {
      var at := Position(job);
      if at.None? { return Err(NotFound); }
      var e := entries[at.value];
      if !(e.state.Dispatching? && e.state.dispatchOwner == owner) { return Err(OwnerMismatch); }
      var back := e.(state := Waiting(owner));
      var published := PublishIfValid(Snapshot(nextId, entries[at.value := back]));
      return if published then Ok(back) else Err(Invalid);
    }
  }

  // ---- What the validation pass has seen -------------------------------------------------------

  datatype Seen = Seen(id: nat, time: nat, jobs: set<Job>, caps: map<nat, nat>) {
    function With(e: Entry): Seen {
      Seen(e.id, e.enqueuedAt, jobs + {e.job}, if e.run.Some? then caps[e.run.value.id := e.run.value.cap] else caps)
    }
  }

  /** The checks made on one row against what was seen before it. */
  predicate Passes(s: Snapshot, e: Entry, seen: Seen) {
    && e.id != 0 && e.id > seen.id && e.id < s.nextId && e.enqueuedAt >= seen.time && e.job !in seen.jobs
    && !(e.run.Some? && e.run.value.id in seen.caps && seen.caps[e.run.value.id] != e.run.value.cap)
  }

  ghost predicate SeenSoFar(s: Snapshot, n: nat, seen: Seen)
    requires n <= |s.entries|
  {
    Valid(s.(entries := s.entries[..n])) && SeenLast(s, n, seen) && SeenJobs(s, n, seen.jobs)
        && SeenCaps(s, n, seen.caps)
  }

  ghost predicate SeenLast(s: Snapshot, n: nat, seen: Seen)
    requires n <= |s.entries|
  {
    && seen.id == (if n == 0 then 0 else s.entries[n - 1].id)
    && seen.time == (if n == 0 then 0 else s.entries[n - 1].enqueuedAt)
  }

  ghost predicate SeenJobs(s: Snapshot, n: nat, jobs: set<Job>)
    requires n <= |s.entries|
  {
    && (forall i :: 0 <= i < n ==> s.entries[i].job in jobs)
    && (forall job :: job in jobs ==> exists i :: 0 <= i < n && s.entries[i].job == job)
  }

  ghost predicate SeenCaps(s: Snapshot, n: nat, caps: map<nat, nat>)
    requires n <= |s.entries|
  {
    && (forall i :: 0 <= i < n && s.entries[i].run.Some? ==>
        s.entries[i].run.value.id in caps && caps[s.entries[i].run.value.id] == s.entries[i].run.value.cap)
    && (forall id :: id in caps ==> exists i :: 0 <= i < n && s.entries[i].run.Some? && s.entries[i].run.value.id == id)
  }

  lemma {:induction false} Rejected(s: Snapshot, n: nat, seen: Seen)
    requires n < |s.entries| && SeenSoFar(s, n, seen) && !Passes(s, s.entries[n], seen)
    ensures !Valid(s)
  {
    var e := s.entries[n];
    if e.job in seen.jobs {
      var i :| 0 <= i < n && s.entries[i].job == e.job;
      assert !Follows(s.entries[i], e);
    } else if e.run.Some? && e.run.value.id in seen.caps && seen.caps[e.run.value.id] != e.run.value.cap {
      var i :| 0 <= i < n && s.entries[i].run.Some? && s.entries[i].run.value.id == e.run.value.id;
      assert !Follows(s.entries[i], e);
    } else if n > 0 {
      assert Follows(s.entries[n - 1], e) ==> e.id == 0 || e.id >= s.nextId;
    }
  }

  lemma {:induction false} SeenNext(s: Snapshot, n: nat, seen: Seen)
    requires n < |s.entries| && SeenSoFar(s, n, seen) && ValidEntry(s.entries[n]) && Passes(s, s.entries[n], seen)
    ensures SeenSoFar(s, n + 1, seen.With(s.entries[n]))
  {
    var e := s.entries[n];
    forall i | 0 <= i < n ensures Follows(s.entries[i], e) {
      var before := s.entries[..n];
      assert before[i] == s.entries[i] && before[n - 1] == s.entries[n - 1];
      if i < n - 1 {
        assert Follows(before[i], before[n - 1]);
      }
    }
    ValidNext(s, n);
    SeenNextJob(s, n, seen.jobs);
    SeenNextCap(s, n, seen.caps);
  }

  lemma {:induction false} ValidNext(s: Snapshot, n: nat)
    requires
      && n < |s.entries| && Valid(s.(entries := s.entries[..n])) && ValidEntry(s.entries[n])
      && 0 < s.entries[n].id < s.nextId
    requires forall i :: 0 <= i < n ==> Follows(s.entries[i], s.entries[n])
    ensures Valid(s.(entries := s.entries[..n + 1]))
  {
    var before, after := s.entries[..n], s.entries[..n + 1];
    assert after == before + [s.entries[n]];
    forall i, j | 0 <= i < j <= n ensures Follows(after[i], after[j]) {
      if j < n {
        assert Follows(before[i], before[j]);
      }
    }
  }

  lemma {:induction false} SeenNextJob(s: Snapshot, n: nat, jobs: set<Job>)
    requires n < |s.entries| && SeenJobs(s, n, jobs)
    ensures SeenJobs(s, n + 1, jobs + {s.entries[n].job})
  {
  }

  lemma {:induction false} SeenNextCap(s: Snapshot, n: nat, caps: map<nat, nat>)
    requires n < |s.entries| && SeenCaps(s, n, caps)
    requires var e := s.entries[n]; !(e.run.Some? && e.run.value.id in caps && caps[e.run.value.id] != e.run.value.cap)
    ensures var e := s.entries[n];
      SeenCaps(s, n + 1, if e.run.Some? then caps[e.run.value.id := e.run.value.cap] else caps)
  {
  }
}
