/** What a round returns for every worker, said on what it read: the rows, the clock and
    the pipelines, and nothing of how it works. */
module AdmissionOutcomes {
  import opened Basics
  import opened Admission
  import R = AdmissionRounds

  /** A row that may be used without a probe: it is the worker's own, observed with the same
      connection, capabilities and slots, not in the future and at most two seconds ago; a
      ready one also has agent facts of at most fifteen minutes. */
  predicate Usable(r: Read, w: WorkerEntry, now: nat) {
    && r.Row? && r.row.Some?
    && var o := r.row.value;
    && o.worker == w.name && o.ssh == w.ssh != "" && o.remoteBinary == w.remoteBinary != ""
    && o.inventory == Some(w.capabilities) && o.slots == Some(w.slots)
    && o.observedAt <= now <= o.observedAt + 2_000
    && o.started.Some? && o.started.value <= now <= o.started.value + 2_000
    && (o.ready ==> o.factsAge.Some? && o.factsAge.value + now - o.started.value <= 900_000)
  }

  lemma {:induction false} UsableIs(r: Read, w: WorkerEntry, now: nat)
    ensures Usable(r, w, now) <==> Passes(r, w, now)
  {
  }

  /** No usable row at the first reading, and time left for a probe. */
  ghost predicate InFirstWave(s: Script, workers: seq<WorkerEntry>, i: nat)
    requires Fits(s, workers) && i < |workers|
  {
    !Usable(s.first[i], workers[i], s.now1) && !s.spent1
  }

  /** Some worker had no usable row, so that time has passed. */
  ghost predicate SomeMissed(s: Script, workers: seq<WorkerEntry>)
    requires Fits(s, workers)
  {
    exists j: nat :: j < |workers| && !Usable(s.first[j], workers[j], s.now1)
  }

  /** A usable row at first, but no longer after the first wave, and still time left. */
  ghost predicate InSecondWave(s: Script, workers: seq<WorkerEntry>, i: nat)
    requires Fits(s, workers) && i < |workers|
  {
    && Usable(s.first[i], workers[i], s.now1) && SomeMissed(s, workers)
    && !Usable(s.second[i], workers[i], s.now2) && !s.late[i] && !s.spent2
  }

  /** The worker's pipeline ran, and this is what it came to. */
  ghost predicate Piped(s: Script, workers: seq<WorkerEntry>, i: nat, p: Pipeline)
    requires Fits(s, workers) && i < |workers|
  {
    || (InFirstWave(s, workers, i) && s.pipes1[i] == Some(p))
    || (InSecondWave(s, workers, i) && s.pipes2[i] == Some(p))
  }

  /** The round rests on a stored row: its first one with no worker missing, its second one
      otherwise, or one that the pipeline found usable. */
  ghost predicate OnStored(s: Script, workers: seq<WorkerEntry>, i: nat)
    requires Fits(s, workers) && i < |workers|
  {
    || (Usable(s.first[i], workers[i], s.now1) && !SomeMissed(s, workers))
    || (Usable(s.first[i], workers[i], s.now1) && SomeMissed(s, workers) && Usable(s.second[i], workers[i], s.now2))
    || exists o :: Piped(s, workers, i, Seen(o, None))
  }

  lemma {:induction false} MissedIs(s: Script, workers: seq<WorkerEntry>)
    requires Fits(s, workers)
    ensures SomeMissed(s, workers) <==> AnyMiss(s, workers)
  {
    forall i: nat | i < |workers| ensures Usable(s.first[i], workers[i], s.now1) <==> Hit(s, workers, i) {
      UsableIs(s.first[i], workers[i], s.now1);
    }
  }

  /** Exactly these pipelines run. */
  lemma {:induction false} WavesLaw(s: Script, workers: seq<WorkerEntry>, i: nat)
    requires Fits(s, workers) && i < |workers|
    ensures RunsFirst(s, workers, i) <==> InFirstWave(s, workers, i)
    ensures RunsSecond(s, workers, i) <==> InSecondWave(s, workers, i)
  {
    MissedIs(s, workers);
    UsableIs(s.first[i], workers[i], s.now1);
    UsableIs(s.second[i], workers[i], s.now2);
  }

  // ---- What is shown of a row ----------------------------------------------------------

  predicate IsAgent(capability: string) {
    |capability| >= 6 && capability[..6] == "agent:"
  }

  /** The capabilities without those of agents, in their order. */
  ghost predicate AgentsDropped(xs: seq<string>, kept: seq<string>) {
    if xs == [] then kept == []
    else if IsAgent(xs[0]) then AgentsDropped(xs[1..], kept)
    else kept != [] && kept[0] == xs[0] && AgentsDropped(xs[1..], kept[1..])
  }

  lemma {:induction false} PlainDrops(xs: seq<string>)
    ensures AgentsDropped(xs, Plain(xs))
  {
    if xs != [] {
      PlainDrops(xs[1..]);
      assert Agent(xs[0]) <==> IsAgent(xs[0]);
      assert !Agent(xs[0]) ==> Plain(xs)[1..] == Plain(xs[1..]);
    }
  }

  /** The age of the facts at the end: counted on from the probe, or from the start of the
      stored observation. */
  function AgeAtEnd(o: Observation, s: Script, probed: Option<nat>): Option<nat> {
    match (o.factsAge, probed)
    case (None, _) => None
    case (Some(age), Some(at)) => Some(age + if s.end > at then s.end - at else 0)
    case (Some(age), None) =>
      if o.started.Some? && o.started.value <= s.now3 then Some(age + (s.now3 - o.started.value)) else None
  }

  /** The candidate is the row. Facts older than fifteen minutes, or of unknown age, cost it
      the versions, and if it is ready its agents. */
  ghost predicate Shows(c: Candidate, o: Observation, s: Script, probed: Option<nat>) {
    var age := AgeAtEnd(o, s, probed);
    var known := age.Some? && age.value <= 900_000;
    && c.ready == o.ready && c.resources == o.resources
    && c.versions == (if known then o.versions else map[])
    && (if known || !o.ready then c.capabilities == o.capabilities else AgentsDropped(o.capabilities, c.capabilities))
  }

  lemma {:induction false} ShowsReturn(o: Observation, s: Script, probed: Option<nat>)
    ensures Shows(CandidateAtReturn(o, s.now3, probed, s.end), o, s, probed)
  {
    PlainDrops(o.capabilities);
  }

  /** Every candidate is the worker's own. It shows the row that its pipeline probed in this
      round; or, on a stored row, the last row read if that is still usable; and in every
      other case it is not ready, busy and has nothing. */
  lemma {:induction false} AnswerLaw(s: Script, workers: seq<WorkerEntry>, i: nat)
    requires Fits(s, workers) && i < |workers|
    ensures var c := Answer(s, workers, i);
      && c.worker == workers[i].name
      && (forall o, at :: Piped(s, workers, i, Seen(o, Some(at))) ==> Shows(c, o, s, Some(at)))
      && (OnStored(s, workers, i) && Usable(s.last[i], workers[i], s.now3) ==> Shows(c, s.last[i].row.value, s, None))
      && (!(exists o, at :: Piped(s, workers, i, Seen(o, Some(at))))
          && !(OnStored(s, workers, i) && Usable(s.last[i], workers[i], s.now3)) ==>
          c == Candidate(workers[i].name, false, Resources(true, None, 0, None), [], map[]))
  {
    var p := Learnt(s, workers, i);
    WavesLaw(s, workers, i);
    MissedIs(s, workers);
    UsableIs(s.first[i], workers[i], s.now1);
    UsableIs(s.second[i], workers[i], s.now2);
    UsableIs(s.last[i], workers[i], s.now3);
    if p.Seen? && p.probedAt.Some? {
      ShowsReturn(p.record, s, p.probedAt);
      assert Piped(s, workers, i, Seen(p.record, p.probedAt));
    } else if p.Seen? && Usable(s.last[i], workers[i], s.now3) {
      ShowsReturn(s.last[i].row.value, s, None);
    }
  }

  // ---- One pipeline from start to end ----------------------------------------------------

  /** The steps one after the other, if each can happen. */
  function Goes(w: R.World, steps: seq<R.Step>): Option<R.World>
    decreases |steps|
  {
    if steps == [] then Some(w)
    else match R.Do(w, steps[0])
      case None => None
      case Some(v) => Goes(v, steps[1..])
  }

  lemma {:induction false} GoesOn(w: R.World, step: R.Step, rest: seq<R.Step>, v: R.World, steps: seq<R.Step>)
    requires R.Do(w, step) == Some(v) && steps == [step] + rest
    ensures Goes(w, steps) == Goes(v, rest)
  {
    assert steps[1..] == rest;
  }

  /** A round that can take the worker's refresh lock. */
  predicate Ready(w: R.World, r: R.RoundId, entry: WorkerEntry) {
    R.At(w, r, entry.name) == R.Idle && entry.name !in w.locks
  }

  /** The pipeline has come to this end, the lock is free again and the stored row is this. */
  ghost predicate Ends(w: R.World, after: Option<R.World>, r: R.RoundId, name: string, end: R.Phase,
      row: Option<Observation>) {
    && after.Some? && after.value.locks == w.locks && R.At(after.value, r, name) == end
    && R.Stored(after.value, name) == row
    && forall other :: other != name ==> R.Stored(after.value, other) == R.Stored(w, other)
  }

  /** A usable row is taken as it is. */
  lemma {:induction false} ReusedLaw(w: R.World, r: R.RoundId, entry: WorkerEntry, now: nat)
    requires Ready(w, r, entry) && Usable(Row(R.Stored(w, entry.name)), entry, now)
    ensures var name := entry.name;
      var row := R.Stored(w, name);
      var steps := [R.Acquire(r, name, entry), R.Check(r, name, now)];
      Ends(w, Goes(w, steps), r, name, R.Done(entry, row.value, false), row)
  {
    var name := entry.name;
    var steps := [R.Acquire(r, name, entry), R.Check(r, name, now)];
    UsableIs(Row(R.Stored(w, name)), entry, now);
    var held := R.Do(w, steps[0]).value;
    GoesOn(w, steps[0], [steps[1]], held, steps);
    GoesOn(held, steps[1], [], R.Do(held, steps[1]).value, [steps[1]]);
    assert w.locks[name := r] - {name} == w.locks;
  }

  /** The world in which the round has found no usable row and is about to probe. */
  lemma {:induction false} AboutToProbe(w: R.World, r: R.RoundId, entry: WorkerEntry, now: nat, rest: seq<R.Step>)
      returns (v: R.World)
    requires Ready(w, r, entry) && !Usable(Row(R.Stored(w, entry.name)), entry, now)
    ensures v.rows == w.rows && v.locks == w.locks[entry.name := r]
    ensures R.At(v, r, entry.name) == R.Probing(entry, R.Stored(w, entry.name))
    ensures Goes(w, [R.Acquire(r, entry.name, entry), R.Check(r, entry.name, now)] + rest) == Goes(v, rest)
  {
    var name := entry.name;
    UsableIs(Row(R.Stored(w, name)), entry, now);
    var held := R.Do(w, R.Acquire(r, name, entry)).value;
    v := R.Do(held, R.Check(r, name, now)).value;
    var more := [R.Check(r, name, now)] + rest;
    GoesOn(w, R.Acquire(r, name, entry), more, held, [R.Acquire(r, name, entry), R.Check(r, name, now)] + rest);
    GoesOn(held, R.Check(r, name, now), rest, v, more);
  }

  /** Without a usable row the worker is probed, and the sample is stored and ranked. */
  lemma {:induction false} ProbedLaw(w: R.World, r: R.RoundId, entry: WorkerEntry, now: nat, sample: Observation,
      later: nat)
    requires Ready(w, r, entry) && !Usable(Row(R.Stored(w, entry.name)), entry, now) && sample.worker == entry.name
    ensures var name := entry.name;
      var steps := [R.Acquire(r, name, entry), R.Check(r, name, now)] +
        [R.Probe(r, name, sample), R.Commit(r, name), R.Rank(r, name, later)];
      Ends(w, Goes(w, steps), r, name, R.Done(entry, sample, true), Some(sample))
  {
    var name := entry.name;
    var rest := [R.Probe(r, name, sample), R.Commit(r, name), R.Rank(r, name, later)];
    var v := AboutToProbe(w, r, entry, now, rest);
    var sampled := R.Do(v, rest[0]).value;
    var committed := R.Do(sampled, rest[1]).value;
    GoesOn(v, rest[0], [rest[1], rest[2]], sampled, rest);
    GoesOn(sampled, rest[1], [rest[2]], committed, [rest[1], rest[2]]);
    GoesOn(committed, rest[2], [], R.Do(committed, rest[2]).value, [rest[2]]);
    assert w.locks[name := r] - {name} == w.locks;
  }

  /** A probe that panics counts as one that found the worker not ready. */
  lemma {:induction false} PanickedLaw(w: R.World, r: R.RoundId, entry: WorkerEntry, now: nat, at: nat)
    requires Ready(w, r, entry) && !Usable(Row(R.Stored(w, entry.name)), entry, now)
    ensures var name := entry.name;
      var steps := [R.Acquire(r, name, entry), R.Check(r, name, now)] + [R.Panic(r, name, at), R.Commit(r, name)];
      var row := Observation(name, false, Resources(true, None, 0, None), [], map[], at, entry.ssh, entry.remoteBinary,
        Some(entry.capabilities), Some(entry.slots), None, Some(at));
      Ends(w, Goes(w, steps), r, name, R.Done(entry, row, true), Some(row))
  {
    var name := entry.name;
    var rest := [R.Panic(r, name, at), R.Commit(r, name)];
    var v := AboutToProbe(w, r, entry, now, rest);
    var sampled := R.Do(v, rest[0]).value;
    GoesOn(v, rest[0], [rest[1]], sampled, rest);
    GoesOn(sampled, rest[1], [], R.Do(sampled, rest[1]).value, [rest[1]]);
    assert w.locks[name := r] - {name} == w.locks;
  }

  /** A row that someone else wrote since the check is not overwritten. It is ranked in the
      sample's place, as one not probed here, if it is usable; otherwise the worker is
      unavailable to this round. */
  lemma {:induction false} OvertakenLaw(w: R.World, r: R.RoundId, entry: WorkerEntry, now: nat, sample: Observation,
      other: Observation, later: nat)
    requires Ready(w, r, entry) && !Usable(Row(R.Stored(w, entry.name)), entry, now) && sample.worker == entry.name
    requires Some(other) != R.Stored(w, entry.name) && other != sample
    ensures var name := entry.name;
      var steps := [R.Acquire(r, name, entry), R.Check(r, name, now)] +
        ([R.Probe(r, name, sample), R.Outside(name, Some(other)), R.Commit(r, name)] + [R.Rank(r, name, later)]);
      var end := if Usable(Row(Some(other)), entry, later) then R.Done(entry, other, false) else R.Absent;
      Ends(w, Goes(w, steps), r, name, end, Some(other))
  {
    var name := entry.name;
    UsableIs(Row(Some(other)), entry, later);
    var rank := R.Rank(r, name, later);
    var rest := [R.Probe(r, name, sample), R.Outside(name, Some(other)), R.Commit(r, name)] + [rank];
    var v := AboutToProbe(w, r, entry, now, rest);
    var committed := Overtaken(v, r, entry, R.Stored(w, name), sample, Some(other), [rank]);
    var end := R.Do(committed, rank).value;
    GoesOn(committed, rank, [], end, [rank]);
    forall x | x != name ensures R.Stored(end, x) == R.Stored(w, x) {
      assert R.Stored(committed, x) == R.Stored(v, x);
    }
    assert w.locks[name := r] - {name} == w.locks;
  }

  /** One that someone else took away since the check stays away, and the worker is
      unavailable to this round. */
  lemma {:induction false} ErasedLaw(w: R.World, r: R.RoundId, entry: WorkerEntry, now: nat, sample: Observation)
    requires Ready(w, r, entry) && !Usable(Row(R.Stored(w, entry.name)), entry, now) && sample.worker == entry.name
    requires R.Stored(w, entry.name).Some?
    ensures var name := entry.name;
      var steps := [R.Acquire(r, name, entry), R.Check(r, name, now)] +
        [R.Probe(r, name, sample), R.Outside(name, None), R.Commit(r, name)];
      Ends(w, Goes(w, steps), r, name, R.Absent, None)
  {
    var name := entry.name;
    var rest := [R.Probe(r, name, sample), R.Outside(name, None), R.Commit(r, name)];
    assert rest + [] == rest;
    var v := AboutToProbe(w, r, entry, now, rest);
    var committed := Overtaken(v, r, entry, R.Stored(w, name), sample, None, []);
    assert w.locks[name := r] - {name} == w.locks;
  }

  /** From a probe to its commit, with another writer in between. */
  lemma {:induction false} Overtaken(v: R.World, r: R.RoundId, entry: WorkerEntry, was: Option<Observation>,
      sample: Observation, other: Option<Observation>, tail: seq<R.Step>) returns (c: R.World)
    requires R.At(v, r, entry.name) == R.Probing(entry, was) && sample.worker == entry.name && other != was
    ensures var name := entry.name;
      && Goes(v, [R.Probe(r, name, sample), R.Outside(name, other), R.Commit(r, name)] + tail) == Goes(c, tail)
      && R.Stored(c, name) == other && (forall x :: x != name ==> R.Stored(c, x) == R.Stored(v, x))
      && (if other.None? then R.At(c, r, name) == R.Absent && c.locks == v.locks - {name}
          else R.At(c, r, name) == R.Committed(entry, sample, other.value) && c.locks == v.locks)
  {
    var name := entry.name;
    var probe, write, commit := R.Probe(r, name, sample), R.Outside(name, other), R.Commit(r, name);
    var sampled := R.Do(v, probe).value;
    var written := R.Do(sampled, write).value;
    c := CommitsOver(v, sampled, written, r, entry, was, sample, other);
    GoesThree(v, probe, sampled, write, written, commit, c, tail);
  }

  lemma {:induction false} GoesThree(w: R.World, a: R.Step, x: R.World, b: R.Step, y: R.World, c: R.Step, z: R.World,
      rest: seq<R.Step>)
    requires R.Do(w, a) == Some(x) && R.Do(x, b) == Some(y) && R.Do(y, c) == Some(z)
    ensures Goes(w, [a, b, c] + rest) == Goes(z, rest)
  {
    GoesOn(w, a, [b, c] + rest, x, [a, b, c] + rest);
    GoesOn(x, b, [c] + rest, y, [b, c] + rest);
    GoesOn(y, c, rest, z, [c] + rest);
  }

  lemma {:induction false} CommitsOver(v: R.World, sampled: R.World, written: R.World, r: R.RoundId,
      entry: WorkerEntry, was: Option<Observation>, sample: Observation, other: Option<Observation>)
      returns (c: R.World)
    requires R.At(v, r, entry.name) == R.Probing(entry, was) && other != was
    requires R.Do(v, R.Probe(r, entry.name, sample)) == Some(sampled)
    requires R.Do(sampled, R.Outside(entry.name, other)) == Some(written)
    ensures R.Do(written, R.Commit(r, entry.name)) == Some(c)
    ensures R.Stored(c, entry.name) == other && (forall x :: x != entry.name ==> R.Stored(c, x) == R.Stored(v, x))
    ensures if other.None? then R.At(c, r, entry.name) == R.Absent && c.locks == v.locks - {entry.name}
            else R.At(c, r, entry.name) == R.Committed(entry, sample, other.value) && c.locks == v.locks
  {
    c := R.Do(written, R.Commit(r, entry.name)).value;
  }
}
