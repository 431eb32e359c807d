/** The queue over whole runs: ids, order, restored rows and worker ceilings. */
module QueueLaws {
  import opened Basics
  import opened Queue
  import opened QueueClaims

  /** The queue, what each id was first given to, and the rows taken out so far. */
  datatype World = World(queue: Snapshot, given: map<nat, Job>, removed: set<Entry>)

  datatype Step =
    | Enqueues(entry: Entry)
    | EnqueuesIfAbsent(entry: Entry)
    | Claims(workers: seq<Worker>, claim: Claim, env: Environment)
    | Reverts(job: Job, owner: Process)
    | Finishes(job: Job, owner: Process)
    | RollsBack(job: Job)
    | Restores(entry: Entry)

  function Taken(w: World, after: Snapshot, r: Result<Option<Entry>>): World {
    w.(queue := after, removed := if r.Ok? && r.value.Some? then w.removed + {r.value.value} else w.removed)
  }

  function Grown(w: World, after: Snapshot): World {
    if after.nextId == w.queue.nextId || |after.entries| == 0 then w.(queue := after)
    else w.(queue := after, given := w.given[w.queue.nextId := after.entries[|after.entries| - 1].job])
  }

  function Next(w: World, step: Step): World {
    match step
    case Enqueues(e) => Grown(w, Enqueue(w.queue, e).0)
    case EnqueuesIfAbsent(e) => Grown(w, EnqueueIfAbsent(w.queue, e).0)
    case Claims(workers, c, env) => w.(queue := ClaimNext(w.queue, workers, c, env).0)
    case Reverts(job, owner) => w.(queue := Revert(w.queue, job, owner).0)
    case Finishes(job, owner) => var (s, r) := RemoveAfterTerminal(w.queue, job, owner); Taken(w, s, r)
    case RollsBack(job) => var (s, r) := RollBack(w.queue, job); Taken(w, s, r)
    case Restores(e) => w.(queue := Restore(w.queue, e).0)
  }

  /** Only rows that were taken out are put back. */
  predicate Allowed(w: World, step: Step) { step.Restores? ==> step.entry in w.removed }

  ghost predicate Inv(w: World) {
    && Valid(w.queue) && 0 < w.queue.nextId
    && (forall id :: id in w.given ==> id < w.queue.nextId)
    && (forall i :: 0 <= i < |w.queue.entries| ==> Named(w, w.queue.entries[i]))
    && (forall e :: e in w.removed ==> Named(w, e))
  }

  /** The row carries the id its job was given. */
  predicate Named(w: World, e: Entry) { e.id in w.given && w.given[e.id] == e.job }

  lemma {:induction false} AppendedNamed(w: World, e: Entry, w': World)
    requires Inv(w) && Valid(Appended(w.queue, e)) && w' == Grown(w, Appended(w.queue, e))
    ensures Inv(w') && w.queue.nextId !in w.given
    ensures w'.given == w.given[w.queue.nextId := e.job]
  {
    var row := Placed(w.queue, e);
    forall i | 0 <= i < |w'.queue.entries| ensures Named(w', w'.queue.entries[i]) {
      if i < |w.queue.entries| {
        assert Named(w, w.queue.entries[i]);
      } else {
        assert w'.queue.entries[i] == row;
      }
    }
  }

  lemma {:induction false} EnqueueKeeps(w: World, e: Entry)
    requires Inv(w)
    ensures Inv(Grown(w, Enqueue(w.queue, e).0))
  {
    if Enqueue(w.queue, e).0 != w.queue {
      AppendedNamed(w, e, Grown(w, Enqueue(w.queue, e).0));
    }
  }

  lemma {:induction false} RowKeeps(w: World, after: Snapshot, i: nat, row: Entry)
    requires Inv(w) && i < |w.queue.entries| && row.id == w.queue.entries[i].id && row.job == w.queue.entries[i].job
    requires after == w.queue.(entries := w.queue.entries[i := row]) && Valid(after)
    ensures Inv(w.(queue := after))
  {
    assert Named(w, w.queue.entries[i]);
    forall k | 0 <= k < |after.entries| ensures Named(w, after.entries[k]) {
      if k != i {
        assert after.entries[k] == w.queue.entries[k];
      }
    }
  }

  lemma {:induction false} ClaimKeeps(w: World, workers: seq<Worker>, c: Claim, env: Environment)
    requires Inv(w)
    ensures Inv(w.(queue := ClaimNext(w.queue, workers, c, env).0))
  {
    var n, i := ClaimLaw(w.queue, workers, c, env);
    var (after, r) := ClaimNext(w.queue, workers, c, env);
    if after != w.queue {
      RowKeeps(w, after, i, r.value.value);
    }
  }

  lemma {:induction false} RevertKeeps(w: World, job: Job, owner: Process)
    requires Inv(w)
    ensures Inv(w.(queue := Revert(w.queue, job, owner).0))
  {
    var after := Revert(w.queue, job, owner).0;
    if after != w.queue {
      var i := FindJob(w.queue.entries, job).value;
      RowKeeps(w, after, i, w.queue.entries[i].(state := Waiting(owner)));
    }
  }

  lemma {:induction false} RemoveKeeps(w: World, i: nat)
    requires Inv(w) && i < |w.queue.entries|
    ensures Valid(w.queue.(entries := Remove(w.queue.entries, i)))
    ensures Inv(w.(queue := w.queue.(entries := Remove(w.queue.entries, i)),
        removed := w.removed + {w.queue.entries[i]}))
  {
    var rows, after := w.queue.entries, Remove(w.queue.entries, i);
    assert forall k :: 0 <= k < |after| ==> after[k] == rows[if k < i then k else k + 1];
    assert Named(w, rows[i]);
  }

  lemma {:induction false} RestoreKeeps(w: World, e: Entry)
    requires Inv(w) && e in w.removed
    ensures Inv(w.(queue := Restore(w.queue, e).0))
  {
    var after := Restore(w.queue, e).0;
    if after != w.queue {
      var p := Place(w.queue.entries, e.id);
      assert Named(w, e);
      forall k | 0 <= k < |after.entries| ensures Named(w, after.entries[k]) {
        if k < p {
          assert after.entries[k] == w.queue.entries[k];
        } else if k > p {
          assert after.entries[k] == w.queue.entries[k - 1];
        }
      }
    }
  }

  lemma {:induction false} StepKeeps(w: World, step: Step)
    requires Inv(w) && Allowed(w, step)
    ensures Inv(Next(w, step))
  {
    match step {
      case Enqueues(e) => EnqueueKeeps(w, e);
      case EnqueuesIfAbsent(e) => EnqueueKeeps(w, e);
      case Claims(workers, c, env) => ClaimKeeps(w, workers, c, env);
      case Reverts(job, owner) => RevertKeeps(w, job, owner);
      case Finishes(job, owner) => FinishKeeps(w, job, owner);
      case RollsBack(job) => RollBackKeeps(w, job);
      case Restores(e) => RestoreKeeps(w, e);
    }
  }

  lemma {:induction false} FinishKeeps(w: World, job: Job, owner: Process)
    requires Inv(w)
    ensures Inv(Next(w, Finishes(job, owner)))
  {
    if FindJob(w.queue.entries, job).Some? { RemoveKeeps(w, FindJob(w.queue.entries, job).value); }
  }

  lemma {:induction false} RollBackKeeps(w: World, job: Job)
    requires Inv(w)
    ensures Inv(Next(w, RollsBack(job)))
  {
    if FindJob(w.queue.entries, job).Some? { RemoveKeeps(w, FindJob(w.queue.entries, job).value); }
  }

  function Run(w: World, steps: seq<Step>): World
    decreases |steps|
  {
    if steps == [] then w else Run(Next(w, steps[0]), steps[1..])
  }

  predicate AllowedRun(w: World, steps: seq<Step>)
    decreases |steps|
  {
    steps == [] || (Allowed(w, steps[0]) && AllowedRun(Next(w, steps[0]), steps[1..]))
  }

  lemma {:induction false} GivenKept(w: World, step: Step)
    requires Inv(w)
    ensures forall id :: id in w.given ==> id in Next(w, step).given && Next(w, step).given[id] == w.given[id]
  {
  }

  /** Over every run the queue stays valid: ids increase along it, below the next one,
      and jobs differ. No id ever changes the job it was given to, and every row that
      is queued or was taken out carries its own. */
  lemma {:induction false} IdsForEver(w: World, steps: seq<Step>)
    requires Inv(w) && AllowedRun(w, steps)
    ensures var w' := Run(w, steps);
      Inv(w') && forall id :: id in w.given ==> id in w'.given && w'.given[id] == w.given[id]
    decreases |steps|
  {
    if steps != [] {
      StepKeeps(w, steps[0]);
      GivenKept(w, steps[0]);
      IdsForEver(Next(w, steps[0]), steps[1..]);
    }
  }

  // ---- Putting a row back -----------------------------------------------------------------------

  /** The row fits between its neighbours by time as it does by id. */
  ghost predicate Fits(s: Snapshot, e: Entry) {
    && ValidEntry(e) && 0 < e.id
    && forall i :: 0 <= i < |s.entries| ==> if s.entries[i].id < e.id then Follows(s.entries[i], e)
        else Follows(e, s.entries[i])
  }

  /** A row that was taken out goes back exactly when it fits, and then stands behind
      all rows with smaller ids and in front of all with larger ones. */
  lemma {:induction false} RestoreLaw(w: World, e: Entry)
    requires Inv(w) && e in w.removed
    ensures var after := Restore(w.queue, e).0;
      && (after != w.queue <==> FindJob(w.queue.entries, e.job).None? && Fits(w.queue, e))
      && (after != w.queue ==>
          && e in after.entries && InOrder(after.entries)
          && Remove(after.entries, Place(w.queue.entries, e.id)) == w.queue.entries)
  {
    assert Named(w, e);
    if FindJob(w.queue.entries, e.job).None? {
      forall i | 0 <= i < |w.queue.entries| ensures w.queue.entries[i].id != e.id {
        assert Named(w, w.queue.entries[i]);
      }
      InsertedValid(w.queue, e, Place(w.queue.entries, e.id));
      InsertedRow(w.queue.entries, e);
    }
  }

  lemma {:induction false} InsertedRow(rows: seq<Entry>, e: Entry)
    ensures var after := Inserted(rows, e);
      e in after && |after| == |rows| + 1 && Remove(after, Place(rows, e.id)) == rows
  {
    assert Inserted(rows, e)[Place(rows, e.id)] == e;
  }

  ghost predicate InOrder(entries: seq<Entry>) {
    forall i, j :: 0 <= i < j < |entries| ==> entries[i].id < entries[j].id
  }

  lemma {:induction false} InsertedValid(s: Snapshot, e: Entry, p: nat)
    requires Valid(s) && e.id < s.nextId && p == Place(s.entries, e.id)
    requires forall i :: 0 <= i < |s.entries| ==> s.entries[i].id != e.id
    ensures Valid(s.(entries := Inserted(s.entries, e))) <==> Fits(s, e)
  {
    PlaceSplits(s, e.id, p);
    if Fits(s, e) {
      InsertedFollows(s, e, p, Inserted(s.entries, e));
    }
    if Valid(s.(entries := Inserted(s.entries, e))) {
      InsertedFits(s, e, p, Inserted(s.entries, e));
    }
  }

  lemma {:induction false} PlaceSplits(s: Snapshot, id: nat, p: nat)
    requires Valid(s) && p == Place(s.entries, id) && forall i :: 0 <= i < |s.entries| ==> s.entries[i].id != id
    ensures forall i :: 0 <= i < |s.entries| ==> (s.entries[i].id < id <==> i < p)
  {
    forall i | p < i < |s.entries| ensures s.entries[i].id > id {
      assert Follows(s.entries[p], s.entries[i]);
    }
  }

  lemma {:induction false} InsertedFits(s: Snapshot, e: Entry, p: nat, after: seq<Entry>)
    requires p <= |s.entries| && after == s.entries[..p] + [e] + s.entries[p..] && Valid(s.(entries := after))
    requires forall i :: 0 <= i < |s.entries| ==> (s.entries[i].id < e.id <==> i < p)
    ensures Fits(s, e)
  {
    var rows := s.entries;
    assert after[p] == e;
    forall i | 0 <= i < |rows| ensures if rows[i].id < e.id then Follows(rows[i], e) else Follows(e, rows[i]) {
      if i < p {
        assert after[i] == rows[i] && Follows(after[i], after[p]);
      } else {
        assert after[i + 1] == rows[i] && Follows(after[p], after[i + 1]);
      }
    }
  }

  lemma {:induction false} InsertedFollows(s: Snapshot, e: Entry, p: nat, after: seq<Entry>)
    requires Valid(s) && Fits(s, e) && e.id < s.nextId && p <= |s.entries| && |after| == |s.entries| + 1
    requires after == s.entries[..p] + [e] + s.entries[p..]
    requires forall i :: 0 <= i < |s.entries| ==> (s.entries[i].id < e.id <==> i < p)
    ensures Valid(s.(entries := after))
  {
    var rows := s.entries;
    forall i, j | 0 <= i < j < |after| ensures Follows(after[i], after[j]) {
      if j == p {
        assert after[i] == rows[i] && rows[i].id < e.id;
      } else if i == p {
        assert after[j] == rows[j - 1] && !(rows[j - 1].id < e.id);
      } else {
        assert Follows(rows[if i < p then i else i - 1], rows[if j < p then j else j - 1]);
      }
    }
    forall i | 0 <= i < |after| ensures ValidEntry(after[i]) && 0 < after[i].id < s.nextId {
      if i != p {
        assert after[i] == rows[if i < p then i else i - 1];
      }
    }
  }

  /** Taking a row out and putting it straight back changes nothing. */
  lemma {:induction false} RollBackUndone(s: Snapshot, job: Job)
    requires Valid(s) && RollBack(s, job).1.Ok? && RollBack(s, job).1.value.Some?
    ensures Restore(RollBack(s, job).0, RollBack(s, job).1.value.value).0 == s
  {
    var i := FindJob(s.entries, job).value;
    RemovedPlace(s, i);
    assert RollBack(s, job).0 == s.(entries := Remove(s.entries, i));
  }

  lemma {:induction false} RemovedPlace(s: Snapshot, i: nat)
    requires Valid(s) && i < |s.entries|
    ensures var rows := Remove(s.entries, i);
      FindJob(rows, s.entries[i].job).None? && Inserted(rows, s.entries[i]) == s.entries
  {
    var rows := Remove(s.entries, i);
    var e := s.entries[i];
    forall k | 0 <= k < |rows| ensures rows[k].job != e.job && (rows[k].id < e.id <==> k < i) && rows[k].id != e.id {
      if k < i {
        assert rows[k] == s.entries[k] && Follows(s.entries[k], e);
      } else {
        assert rows[k] == s.entries[k + 1] && Follows(e, s.entries[k + 1]);
      }
    }
    PlaceIs(rows, e.id, i);
    assert rows[..i] == s.entries[..i] && rows[i..] == s.entries[i + 1..];
  }

  lemma {:induction false} PlaceIs(rows: seq<Entry>, id: nat, i: nat)
    requires i <= |rows| && forall k :: 0 <= k < |rows| ==> rows[k].id != id && (rows[k].id < id <==> k < i)
    ensures Place(rows, id) == i
  {
    if i > 0 {
      assert rows[0].id < id;
      assert forall k :: 0 <= k < |rows[1..]| ==> rows[1..][k] == rows[k + 1];
      PlaceIs(rows[1..], id, i - 1);
    } else if rows != [] {
      assert rows[0].id != id;
    }
  }

  /** A row queued in the meantime may carry an earlier time: then the row cannot go
      back between its old neighbours. */
  lemma {:induction false} RestoreRefused(s: Snapshot, a: Entry, b: Entry, c: Entry)
    requires a == Entry(1, 11, TaskTurn, None, None, {}, Waiting(5), false, 10)
    requires b == a.(id := 2, job := 12, enqueuedAt := 20) && c == a.(id := 3, job := 13, enqueuedAt := 15)
    requires s == Snapshot(2, [a])
    ensures Enqueue(s, b.(id := 0)) == (Snapshot(3, [a, b]), Ok(b))
    ensures RollBack(Snapshot(3, [a, b]), 12).0 == Snapshot(3, [a])
    ensures Enqueue(Snapshot(3, [a]), c.(id := 0)) == (Snapshot(4, [a, c]), Ok(c))
    ensures Restore(Snapshot(4, [a, c]), b) == (Snapshot(4, [a, c]), Err(Invalid))
  {
    EnqueuedSecond(s, a, b);
    EnqueuedSecond(Snapshot(3, [a]), a, c);
    assert Remove([a, b], 1) == [a];
    assert [a, b][1..] == [b];
    RefusedBetween(Snapshot(4, [a, c]), a, b, c);
  }

  lemma {:induction false} RefusedBetween(s: Snapshot, a: Entry, b: Entry, c: Entry)
    requires s.entries == [a, c] && a.id < b.id < c.id && b.id < s.nextId
    requires a.job != b.job && b.job != c.job && !Follows(b, c)
    ensures Restore(s, b) == (s, Err(Invalid))
  {
    PlaceIs([a, c], b.id, 1);
    var after := Inserted([a, c], b);
    assert after == [a, b, c] && after[1] == b && after[2] == c;
    assert [a, c][1..] == [c] && [c][1..] == [];
  }

  lemma {:induction false} EnqueuedSecond(s: Snapshot, a: Entry, e: Entry)
    requires
      && s.entries == [a] && 0 < a.id < s.nextId < MAX_ID && ValidEntry(a) && ValidEntry(e) && e.id == s.nextId
      && Follows(a, e)
    ensures Enqueue(s, e.(id := 0)) == (Snapshot(s.nextId + 1, [a, e]), Ok(e))
  {
    assert Placed(s, e.(id := 0)) == e;
    assert [a] + [e] == [a, e];
  }

  // ---- Worker ceilings ---------------------------------------------------------------------------

  lemma {:induction false} LoadJoin(xs: seq<Entry>, ys: seq<Entry>, worker: Worker)
    ensures Load(xs + ys, worker) == Load(xs, worker) + Load(ys, worker)
  {
    if ys == [] {
      assert xs + ys == xs;
    } else {
      var n := |ys| - 1;
      assert (xs + ys)[..|xs + ys| - 1] == xs + ys[..n];
      LoadJoin(xs, ys[..n], worker);
    }
  }

  function Weight(e: Entry, worker: Worker): nat { if OnWorker(e, worker) then 1 else 0 }

  lemma {:induction false} LoadOne(e: Entry, worker: Worker)
    ensures Load([e], worker) == Weight(e, worker)
  {
    assert [e][..0] == [];
  }

  lemma {:induction false} LoadUpdate(rows: seq<Entry>, i: nat, e: Entry, worker: Worker)
    requires i < |rows|
    ensures Load(rows[i := e], worker) + Weight(rows[i], worker) == Load(rows, worker) + Weight(e, worker)
    ensures Load(Remove(rows, i), worker) + Weight(rows[i], worker) == Load(rows, worker)
  {
    var front, back := rows[..i], rows[i + 1..];
    assert rows == front + ([rows[i]] + back) && rows[i := e] == front + ([e] + back);
    LoadJoin(front, [rows[i]] + back, worker);
    LoadJoin(front, [e] + back, worker);
    LoadJoin(front, back, worker);
    LoadJoin([rows[i]], back, worker);
    LoadJoin([e], back, worker);
    LoadOne(e, worker);
    LoadOne(rows[i], worker);
  }

  /** Every claim is made under one table of ceilings, and new rows are not under way. */
  predicate UnderCeilings(step: Step, ceilings: map<Worker, nat>) {
    && (step.Claims? ==> step.claim.ceilings == ceilings)
    && (step.Enqueues? || step.EnqueuesIfAbsent? ==> !step.entry.state.Dispatching?)
  }

  function Limit(ceilings: map<Worker, nat>, worker: Worker): nat { if worker in ceilings then ceilings[worker] else 1 }

  /** A row under way on the worker is put back while the worker is full. */
  predicate Overloads(w: World, step: Step, worker: Worker, limit: nat) {
    && step.Restores? && OnWorker(step.entry, worker) && Load(w.queue.entries, worker) == limit
    && Restore(w.queue, step.entry).0 != w.queue
  }

  /** A step takes a worker past its ceiling exactly when it puts back a row under way on
      it while it is full. */
  lemma {:induction false} StepWithinCeiling(w: World, step: Step, ceilings: map<Worker, nat>, worker: Worker)
    requires UnderCeilings(step, ceilings) && Load(w.queue.entries, worker) <= Limit(ceilings, worker)
    ensures Load(Next(w, step).queue.entries, worker) <= Limit(ceilings, worker) <==>
      !Overloads(w, step, worker, Limit(ceilings, worker))
  {
    match step {
      case Enqueues(e) => EnqueueLoad(w.queue, e, worker);
      case EnqueuesIfAbsent(e) => EnqueueLoad(w.queue, e, worker);
      case Claims(workers, c, env) => ClaimLoad(w.queue, workers, c, env, worker);
      case Reverts(job, owner) => RevertLoad(w.queue, job, owner, worker);
      case Finishes(job, owner) => FinishLoad(w.queue, job, owner, worker);
      case RollsBack(job) => RollBackLoad(w.queue, job, worker);
      case Restores(e) => RestoreLoad(w.queue, e, worker);
    }
  }

  lemma {:induction false} RestoreLoad(s: Snapshot, e: Entry, worker: Worker)
    ensures Load(Restore(s, e).0.entries, worker) ==
      Load(s.entries, worker) + if Restore(s, e).0 != s then Weight(e, worker) else 0
  {
    InsertedLoad(s.entries, Place(s.entries, e.id), e, worker);
    assert Restore(s, e).0 == s || Restore(s, e).0.entries == Inserted(s.entries, e);
  }

  lemma {:induction false} InsertedLoad(entries: seq<Entry>, i: nat, e: Entry, worker: Worker)
    requires i <= |entries|
    ensures Load(entries[..i] + [e] + entries[i..], worker) == Load(entries, worker) + Weight(e, worker)
  {
    LoadJoin(entries[..i] + [e], entries[i..], worker);
    LoadJoin(entries[..i], [e], worker);
    LoadJoin(entries[..i], entries[i..], worker);
    LoadOne(e, worker);
    assert entries[..i] + entries[i..] == entries;
  }

  lemma {:induction false} EnqueueLoad(s: Snapshot, e: Entry, worker: Worker)
    requires !e.state.Dispatching?
    ensures Load(Enqueue(s, e).0.entries, worker) == Load(s.entries, worker)
  {
    LoadAppended(s, e, worker);
  }

  /** A claim adds one turn to the worker it picked, which had room. */
  lemma {:induction false} ClaimLoad(s: Snapshot, workers: seq<Worker>, c: Claim, env: Environment, worker: Worker)
    ensures Load(ClaimNext(s, workers, c, env).0.entries, worker) <= Load(s.entries, worker)
      || Load(ClaimNext(s, workers, c, env).0.entries, worker) <= Ceiling(c, worker)
  {
    var n, i := ClaimLaw(s, workers, c, env);
    var r := ClaimNext(s, workers, c, env).1;
    if r.Ok? && r.value.Some? {
      LoadUpdate(s.entries, i, r.value.value, worker);
    }
  }

  lemma {:induction false} RevertLoad(s: Snapshot, job: Job, owner: Process, worker: Worker)
    ensures Load(Revert(s, job, owner).0.entries, worker) <= Load(s.entries, worker)
  {
    if FindJob(s.entries, job).Some? {
      var i := FindJob(s.entries, job).value;
      LoadUpdate(s.entries, i, s.entries[i].(state := Waiting(owner)), worker);
    }
  }

  lemma {:induction false} FinishLoad(s: Snapshot, job: Job, owner: Process, worker: Worker)
    ensures Load(RemoveAfterTerminal(s, job, owner).0.entries, worker) <= Load(s.entries, worker)
  {
    if FindJob(s.entries, job).Some? {
      LoadUpdate(s.entries, FindJob(s.entries, job).value, s.entries[0], worker);
    }
  }

  lemma {:induction false} RollBackLoad(s: Snapshot, job: Job, worker: Worker)
    ensures Load(RollBack(s, job).0.entries, worker) <= Load(s.entries, worker)
  {
    if FindJob(s.entries, job).Some? {
      LoadUpdate(s.entries, FindJob(s.entries, job).value, s.entries[0], worker);
    }
  }

  lemma {:induction false} LoadAppended(s: Snapshot, e: Entry, worker: Worker)
    requires !e.state.Dispatching?
    ensures Load(Appended(s, e).entries, worker) == Load(s.entries, worker)
  {
    LoadJoin(s.entries, [Placed(s, e)], worker);
    LoadOne(Placed(s, e), worker);
  }

  predicate NeverOverloads(w: World, steps: seq<Step>, worker: Worker, limit: nat)
    decreases |steps|
  {
    steps == []
        || (!Overloads(w, steps[0], worker, limit) && NeverOverloads(Next(w, steps[0]), steps[1..], worker, limit))
  }

  predicate AlwaysWithin(w: World, steps: seq<Step>, worker: Worker, limit: nat)
    decreases |steps|
  {
    Load(w.queue.entries, worker) <= limit
        && (steps == [] || AlwaysWithin(Next(w, steps[0]), steps[1..], worker, limit))
  }

  /** Over every run a worker never has more task turns under way than its ceiling, exactly
      when no row under way on it is put back while it is full; so never without rows put
      back. */
  lemma {:induction false} CeilingsHold(w: World, steps: seq<Step>, ceilings: map<Worker, nat>, worker: Worker)
    requires forall k :: 0 <= k < |steps| ==> UnderCeilings(steps[k], ceilings)
    requires Load(w.queue.entries, worker) <= Limit(ceilings, worker)
    ensures var limit := Limit(ceilings, worker);
      && (AlwaysWithin(w, steps, worker, limit) <==> NeverOverloads(w, steps, worker, limit))
      && (NeverOverloads(w, steps, worker, limit) ==> Load(Run(w, steps).queue.entries, worker) <= limit)
      && ((forall k :: 0 <= k < |steps| ==> !steps[k].Restores?) ==> NeverOverloads(w, steps, worker, limit))
    decreases |steps|
  {
    if steps != [] {
      StepWithinCeiling(w, steps[0], ceilings, worker);
      if !Overloads(w, steps[0], worker, Limit(ceilings, worker)) {
        CeilingsHold(Next(w, steps[0]), steps[1..], ceilings, worker);
      }
    }
  }

  /** Such a row: taken out and put back, with another row claimed in between. */
  lemma {:induction false} RestoredOverCeiling(a: Entry, b: Entry, worker: Worker)
    requires a == Entry(1, 11, TaskTurn, None, None, {}, Dispatching(5, worker, 12), false, 10)
    requires b == a.(id := 2, job := 12)
    ensures Load([b], worker) == 1 && Restore(Snapshot(3, [b]), a).0 == Snapshot(3, [a, b]) && Load([a, b], worker) == 2
  {
    LoadOne(b, worker);
    LoadOne(a, worker);
    LoadJoin([a], [b], worker);
    assert [a] + [b] == [a, b] && [b][1..] == [];
    assert Inserted([b], a) == [a, b];
  }
}
