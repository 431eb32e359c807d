/** One admission round over a shared cache of worker observations: what it
    reuses, what it probes, what it returns. */
module Admission {
  import opened Basics

  const OBSERVATION_TTL: nat := 2_000
  const FACTS_TTL: nat := 15 * 60 * 1000
  const MAX_HOST_SLOTS: nat := 8
  const REMOTE_BINARY := "~/.local/bin/worker"

  datatype WorkerEntry = WorkerEntry(name: string, ssh: string, remoteBinary: string, capabilities: seq<string>,
      slots: nat)

  /** What a round ranks a worker by, besides readiness and capabilities. */
  datatype Resources = Resources(busy: bool, memory: Option<nat>, disk: nat, interactive: Option<nat>)

  /** A stored row. The fields after `observedAt` are the local binding and may be missing. */
  datatype Observation = Observation(
    worker: string, ready: bool, resources: Resources, capabilities: seq<string>, versions: map<string, string>,
    observedAt: nat, ssh: string, remoteBinary: string, inventory: Option<seq<string>>, slots: Option<nat>,
    factsAge: Option<nat>, started: Option<nat>)

  datatype Candidate = Candidate(worker: string, ready: bool, resources: Resources, capabilities: seq<string>,
      versions: map<string, string>)

  type Failure = nat

  datatype Pipeline = Seen(record: Observation, probedAt: Option<nat>) | Unavailable | Failed(error: Failure)

  datatype Read = Row(row: Option<Observation>) | Unreadable(error: Failure)

  datatype Round = Ranked(candidates: seq<Candidate>) | Refused(error: Failure)

  predicate Bound(o: Observation, w: WorkerEntry) {
    && o.ssh != "" && o.remoteBinary != "" && o.inventory.Some? && o.slots.Some? && o.started.Some?
    && o.ssh == w.ssh && o.remoteBinary == w.remoteBinary && o.inventory.value == w.capabilities
    && o.slots.value == w.slots
  }

  /** `reusable_for_admission` */
  predicate Reusable(o: Observation, w: WorkerEntry, now: nat) {
    && o.worker == w.name && Bound(o, w)
    && o.started.value <= now && o.observedAt <= now
    && now - o.started.value <= OBSERVATION_TTL && now - o.observedAt <= OBSERVATION_TTL
    && (o.ready ==> o.factsAge.Some? && o.factsAge.value + (now - o.started.value) <= FACTS_TTL)
  }

  /** The age of the agent facts at the end of the round: by the monotonic clock for a
      worker probed in it, by the wall clock for a stored row. */
  function FactsAge(o: Observation, now: nat, probedAt: Option<nat>, end: nat): Option<nat> {
    if o.factsAge.None? then None
    else if probedAt.Some? then Some(o.factsAge.value + if end < probedAt.value then 0 else end - probedAt.value)
    else if o.started.Some? && o.started.value <= now then Some(o.factsAge.value + (now - o.started.value))
    else None
  }

  predicate FactsExpired(o: Observation, now: nat, probedAt: Option<nat>, end: nat) {
    var age := FactsAge(o, now, probedAt, end);
    age.None? || age.value > FACTS_TTL
  }

  predicate Agent(capability: string) { "agent:" <= capability }

  /** The capabilities that are kept once the facts are too old. */
  function Plain(capabilities: seq<string>): (kept: seq<string>)
    ensures forall c :: c in kept <==> c in capabilities && !Agent(c)
  {
    if capabilities == [] then []
    else
      var rest := Plain(capabilities[1..]);
      if Agent(capabilities[0]) then rest else [capabilities[0]] + rest
  }

  function CandidateAtReturn(o: Observation, now: nat, probedAt: Option<nat>, end: nat): Candidate {
    var expired := FactsExpired(o, now, probedAt, end);
    Candidate(o.worker, o.ready, o.resources,
              if expired && o.ready then Plain(o.capabilities) else o.capabilities, if expired then map[]
              else o.versions)
  }

  function UnavailableCandidate(name: string): Candidate {
    Candidate(name, false, Resources(true, None, 0, None), [], map[])
  }

  /** Everything a round reads from outside itself: the clock three times, every row up to
      three times, what each pipeline would return, and when the round deadline has passed. */
  datatype Script = Script(
    now1: nat, now2: nat, now3: nat, end: nat,
    first: seq<Read>, second: seq<Read>, last: seq<Read>,
    pipes1: seq<Option<Pipeline>>, pipes2: seq<Option<Pipeline>>,
    spent1: bool, late: seq<bool>, spent2: bool)

  ghost predicate Fits(s: Script, workers: seq<WorkerEntry>) {
    var n := |workers|;
    && |s.first| == n && |s.second| == n && |s.last| == n && |s.pipes1| == n && |s.pipes2| == n && |s.late| == n
    && (forall i :: 0 <= i < n ==> OwnRow(s.pipes1[i], workers[i]) && OwnRow(s.pipes2[i], workers[i]))
  }

  /** A pipeline returns a row of its own worker. */
  predicate OwnRow(p: Option<Pipeline>, w: WorkerEntry) { p.Some? && p.value.Seen? ==> p.value.record.worker == w.name }

  // ---- what the round means for one worker ----

  predicate Passes(r: Read, w: WorkerEntry, now: nat) { r.Row? && r.row.Some? && Reusable(r.row.value, w, now) }

  function Landed(p: Option<Pipeline>): Pipeline { if p.Some? then p.value else Unavailable }

  predicate Hit(s: Script, workers: seq<WorkerEntry>, i: nat)
    requires i < |workers| && i < |s.first|
  {
    Passes(s.first[i], workers[i], s.now1)
  }

  predicate AnyMiss(s: Script, workers: seq<WorkerEntry>)
    requires |s.first| == |workers|
  {
    exists i: nat :: i < |workers| && !Hit(s, workers, i)
  }

  /** The pipeline of this worker runs in the first wave, or in the second. */
  ghost predicate RunsFirst(s: Script, workers: seq<WorkerEntry>, i: nat)
    requires Fits(s, workers) && i < |workers|
  {
    !Hit(s, workers, i) && !s.spent1
  }

  ghost predicate RunsSecond(s: Script, workers: seq<WorkerEntry>, i: nat)
    requires Fits(s, workers) && i < |workers|
  {
    Hit(s, workers, i) && AnyMiss(s, workers) && !Passes(s.second[i], workers[i], s.now2) && !s.late[i] && !s.spent2
  }

  /** What the round has learnt about a worker after its two waves. */
  ghost function Learnt(s: Script, workers: seq<WorkerEntry>, i: nat): Pipeline
    requires Fits(s, workers) && i < |workers|
  {
    if RunsFirst(s, workers, i) then Landed(s.pipes1[i])
    else if RunsSecond(s, workers, i) then Landed(s.pipes2[i])
    else if Hit(s, workers, i) && !AnyMiss(s, workers) then Seen(s.first[i].row.value, None)
    else if Hit(s, workers, i) && Passes(s.second[i], workers[i], s.now2) then Seen(s.second[i].row.value, None)
    else Unavailable
  }

  /** The last step of the round, on a slot in any condition. */
  function Return(slot: Option<Pipeline>, last: Read, w: WorkerEntry, now: nat, end: nat): (Option<Failure>,
      Candidate) {
    match slot
    case Some(Seen(record, Some(at))) => (None, CandidateAtReturn(record, now, Some(at), end))
    case Some(Seen(_, None)) =>
      if last.Unreadable? then (Some(last.error), UnavailableCandidate(w.name))
      else if Passes(last, w, now) then (None, CandidateAtReturn(last.row.value, now, None, end))
      else (None, UnavailableCandidate(w.name))
    case Some(Failed(error)) => (Some(error), UnavailableCandidate(w.name))
    case Some(Unavailable) => (None, UnavailableCandidate(w.name))
    case None => (None, UnavailableCandidate(w.name))
  }

  // ---- when the round fails, and with which error ----

  /** The two errors of a worker's configuration. */
  datatype ConfigErrors = ConfigErrors(slots: Failure, transport: Failure)

  /** `require_admission_worker`; `valid` is the test of an SSH destination. */
  function Misconfigured(w: WorkerEntry, valid: string -> bool, errors: ConfigErrors): Option<Failure> {
    if !(1 <= w.slots <= MAX_HOST_SLOTS) then Some(errors.slots)
    else if !valid(w.ssh) || w.remoteBinary != REMOTE_BINARY then Some(errors.transport)
    else None
  }

  /** The first misconfigured worker reports this error. */
  ghost predicate Misreports(workers: seq<WorkerEntry>, valid: string -> bool, errors: ConfigErrors, i: nat,
      e: Failure) {
    && i < |workers| && Misconfigured(workers[i], valid, errors) == Some(e)
    && forall j: nat :: j < i ==> Misconfigured(workers[j], valid, errors).None?
  }

  ghost predicate AnyMisconfigured(workers: seq<WorkerEntry>, valid: string -> bool, errors: ConfigErrors) {
    exists i: nat :: i < |workers| && Misconfigured(workers[i], valid, errors).Some?
  }

  predicate FailsPipe(p: Option<Pipeline>) { p.Some? && p.value.Failed? }

  /** Some step of the round reports an error of the caller. */
  ghost predicate Breaks(s: Script, workers: seq<WorkerEntry>, valid: string -> bool, errors: ConfigErrors)
    requires Fits(s, workers)
  {
    AnyMisconfigured(workers, valid, errors) || SomeBreak(s, workers)
  }

  /** What worker `i` reports at each of the five stages of the round, in their order. */
  ghost function Fault(s: Script, workers: seq<WorkerEntry>, stage: nat, i: nat): Option<Failure>
    requires Fits(s, workers) && i < |workers|
  {
    if stage == 1 && s.first[i].Unreadable? then Some(s.first[i].error)
    else if stage == 2 && RunsFirst(s, workers, i) && FailsPipe(s.pipes1[i]) then Some(s.pipes1[i].value.error)
    else if stage == 3 && Hit(s, workers, i) && AnyMiss(s, workers) && s.second[i].Unreadable?
    then Some(s.second[i].error)
    else if stage == 4 && RunsSecond(s, workers, i) && FailsPipe(s.pipes2[i]) then Some(s.pipes2[i].value.error)
    else if stage == 5 && Learnt(s, workers, i).Seen? && Learnt(s, workers, i).probedAt.None? && s.last[i].Unreadable?
    then Some(s.last[i].error)
    else None
  }

  ghost predicate Clear(s: Script, workers: seq<WorkerEntry>, stage: nat)
    requires Fits(s, workers)
  {
    forall i: nat :: i < |workers| ==> Fault(s, workers, stage, i).None?
  }

  ghost predicate SomeBreak(s: Script, workers: seq<WorkerEntry>)
    requires Fits(s, workers)
  {
    !Clear(s, workers, 1) || !Clear(s, workers, 2) || !Clear(s, workers, 3) || !Clear(s, workers, 4)
        || !Clear(s, workers, 5)
  }

  /** The error is that of the first worker at the first stage that reports one. */
  ghost predicate Blames(s: Script, workers: seq<WorkerEntry>, stage: nat, i: nat, e: Failure)
    requires Fits(s, workers)
  {
    && i < |workers| && Fault(s, workers, stage, i) == Some(e)
    && (forall j: nat :: j < i ==> Fault(s, workers, stage, j).None?)
    && (forall k: nat :: 1 <= k < stage ==> Clear(s, workers, k))
  }

  ghost predicate Reported(s: Script, workers: seq<WorkerEntry>, e: Failure)
    requires Fits(s, workers)
  {
    exists stage: nat, i: nat :: stage <= 5 && Blames(s, workers, stage, i, e)
  }

  lemma {:induction false} ReportedBreaks(s: Script, workers: seq<WorkerEntry>, e: Failure)
    requires Fits(s, workers) && Reported(s, workers, e)
    ensures SomeBreak(s, workers)
  {
    var stage: nat, i: nat :| stage <= 5 && Blames(s, workers, stage, i, e);
    assert !Clear(s, workers, stage);
  }

  // ---- the loops ----

  predicate Increasing(indices: seq<nat>, n: nat) {
    && (forall k :: 0 <= k < |indices| ==> indices[k] < n)
    && (forall j, k :: 0 <= j < k < |indices| ==> indices[j] < indices[k])
  }

  /** The failure of the first pipeline, of the first `k` listed, that has one. */
  function FirstFailure(indices: seq<nat>, pipes: seq<Option<Pipeline>>, k: nat): (e: Option<Failure>)
    requires Increasing(indices, |pipes|) && k <= |indices|
    ensures e.None? <==> forall j: nat :: j < k ==> !FailsPipe(pipes[indices[j]])
  {
    if k == 0 then None
    else
      var before := FirstFailure(indices, pipes, k - 1);
      if before.Some? then before
      else if FailsPipe(pipes[indices[k - 1]]) then Some(pipes[indices[k - 1]].value.error)
      else None
  }

  lemma {:induction false} FirstFailureIsFirst(indices: seq<nat>, pipes: seq<Option<Pipeline>>, k: nat) returns (i: nat)
    requires Increasing(indices, |pipes|) && k <= |indices| && FirstFailure(indices, pipes, k).Some?
    ensures i < k && pipes[indices[i]] == Some(Failed(FirstFailure(indices, pipes, k).value))
    ensures forall j: nat :: j < i ==> !FailsPipe(pipes[indices[j]])
    decreases k
  {
    i := k - 1;
    if FirstFailure(indices, pipes, k - 1).Some? {
      i := FirstFailureIsFirst(indices, pipes, k - 1);
    }
  }

  /** The loop for a round that is out of time. */
  method MarkUnavailable(indices: seq<nat>, slots: array<Option<Pipeline>>)
    requires Increasing(indices, slots.Length)
    modifies slots
    ensures forall i: nat :: i in indices ==> slots[i] == Some(Unavailable)
    ensures forall i: nat :: i < slots.Length && i !in indices ==> slots[i] == old(slots[i])
  {
    for k := 0 to |indices|
      invariant forall j: nat :: j < k ==> slots[indices[j]] == Some(Unavailable)
      invariant forall i: nat :: i < slots.Length && i !in indices ==> slots[i] == old(slots[i])
    {
      slots[indices[k]] := Some(Unavailable);
    }
  }

  /** The loop that takes up what the pipelines returned. */
  method TakeUp(indices: seq<nat>, pipes: seq<Option<Pipeline>>,
      slots: array<Option<Pipeline>>) returns (error: Option<Failure>)
    requires slots.Length == |pipes| && Increasing(indices, |pipes|)
    modifies slots
    ensures error == FirstFailure(indices, pipes, |indices|)
    ensures forall i: nat :: i in indices && !FailsPipe(pipes[i]) ==> slots[i] == Some(Landed(pipes[i]))
    ensures forall i: nat :: i < slots.Length && i !in indices ==> slots[i] == old(slots[i])
  {
    error := None;
    for k := 0 to |indices|
      invariant error == FirstFailure(indices, pipes, k)
      invariant forall j: nat :: j < k && !FailsPipe(pipes[indices[j]]) ==>
        slots[indices[j]] == Some(Landed(pipes[indices[j]]))
      invariant forall i: nat :: i < slots.Length && i !in indices ==> slots[i] == old(slots[i])
    {
      var index := indices[k];
      if FailsPipe(pipes[index]) {
        error := if error.None? then Some(pipes[index].value.error) else error;
      } else {
        slots[index] := Some(Landed(pipes[index]));
      }
    }
  }

  /** `run_pipelines`: every listed slot is filled unless its pipeline failed; the first
      failure is reported; every other slot stays. `ran` are the pipelines that ran. */
  method RunPipelines(indices: seq<nat>, spent: bool, pipes: seq<Option<Pipeline>>, slots: array<Option<Pipeline>>)
    returns (error: Option<Failure>, ran: seq<nat>)
    requires slots.Length == |pipes| && Increasing(indices, |pipes|)
    modifies slots
    ensures ran == if spent then [] else indices
    ensures error == FirstFailure(ran, pipes, |ran|)
    ensures error.None? ==>
      forall i: nat :: i in indices ==> slots[i] == Some(if spent then Unavailable else Landed(pipes[i]))
    ensures forall i: nat :: i < slots.Length && i !in indices ==> slots[i] == old(slots[i])
  {
    if spent {
      MarkUnavailable(indices, slots);
      return None, [];
    }
    error := TakeUp(indices, pipes, slots);
    ran := indices;
  }

  /** The first pass: rows that pass the reuse test fill their slots, the others are misses. */
  method Classify(s: Script, workers: seq<WorkerEntry>, slots: array<Option<Pipeline>>)
    returns (error: Option<Failure>, hits: seq<nat>, misses: seq<nat>)
    requires Fits(s, workers) && slots.Length == |workers|
    modifies slots
    ensures error.Some? ==> exists i: nat :: Blames(s, workers, 1, i, error.value)
    ensures error.None? ==> Clear(s, workers, 1)
    ensures Increasing(hits, |workers|) && Increasing(misses, |workers|)
    ensures error.None? ==> forall i: nat :: i in hits <==> i < |workers| && Hit(s, workers, i)
    ensures error.None? ==> forall i: nat :: i in misses <==> i < |workers| && !Hit(s, workers, i)
    ensures error.None? ==>
      forall i: nat :: i < |workers| && Hit(s, workers, i) ==> slots[i] == Some(Seen(s.first[i].row.value, None))
  {
    hits, misses := [], [];
    for index := 0 to |workers|
      invariant forall i: nat :: i < index ==> !s.first[i].Unreadable?
      invariant Increasing(hits, index) && Increasing(misses, index)
      invariant forall i: nat :: i in hits <==> i < index && Hit(s, workers, i)
      invariant forall i: nat :: i in misses <==> i < index && !Hit(s, workers, i)
      invariant forall i: nat :: i in hits ==> slots[i] == Some(Seen(s.first[i].row.value, None))
    {
      if s.first[index].Unreadable? {
        assert Blames(s, workers, 1, index, s.first[index].error);
        return Some(s.first[index].error), hits, misses;
      }
      if Passes(s.first[index], workers[index], s.now1) {
        hits := hits + [index];
        slots[index] := Some(Seen(s.first[index].row.value, None));
      } else {
        misses := misses + [index];
      }
    }
    error := None;
  }

  /** A hit looked at again: the row that passes now, no time left, or to be probed. */
  function Again(s: Script, workers: seq<WorkerEntry>, i: nat): Option<Pipeline>
    requires Fits(s, workers) && i < |workers|
  {
    if Passes(s.second[i], workers[i], s.now2) then Some(Seen(s.second[i].row.value, None))
    else if s.late[i] then Some(Unavailable)
    else None
  }

  /** The first listed row that cannot be read fails with this error. */
  ghost predicate FirstUnreadable(rows: seq<Read>, hits: seq<nat>, e: Failure)
    requires Increasing(hits, |rows|)
  {
    exists k: nat :: k < |hits| && rows[hits[k]] == Unreadable(e) && forall j: nat :: j < k ==>
        !rows[hits[j]].Unreadable?
  }

  /** The second pass over the hits, once the misses took time; `again` is what each is now. */
  method Recheck(rows: seq<Read>, again: seq<Option<Pipeline>>, hits: seq<nat>, slots: array<Option<Pipeline>>)
    returns (error: Option<Failure>, reprobe: seq<nat>)
    requires slots.Length == |rows| == |again| && Increasing(hits, |again|)
    modifies slots
    ensures error.Some? ==> FirstUnreadable(rows, hits, error.value)
    ensures error.None? ==> forall i: nat :: i in hits ==> !rows[i].Unreadable?
    ensures Increasing(reprobe, |again|)
    ensures error.None? ==> forall i: nat :: i in reprobe <==> i in hits && again[i].None?
    ensures error.None? ==> forall i: nat :: i in hits && again[i].Some? ==> slots[i] == again[i]
    ensures forall i: nat :: i < slots.Length && i !in hits ==> slots[i] == old(slots[i])
  {
    reprobe := [];
    for k := 0 to |hits|
      invariant forall j: nat :: j < k ==> !rows[hits[j]].Unreadable?
      invariant Increasing(reprobe, if k < |hits| then hits[k] else |again|)
      invariant forall i: nat :: i in reprobe ==> i in hits && again[i].None?
      invariant forall j: nat :: j < k && again[hits[j]].None? ==> hits[j] in reprobe
      invariant forall j: nat :: j < k && again[hits[j]].Some? ==> slots[hits[j]] == again[hits[j]]
      invariant forall i: nat :: i < slots.Length && i !in hits ==> slots[i] == old(slots[i])
    {
      var index := hits[k];
      if rows[index].Unreadable? {
        return Some(rows[index].error), reprobe;
      }
      if again[index].Some? {
        slots[index] := again[index];
      } else {
        reprobe := reprobe + [index];
      }
    }
    error := None;
  }

  ghost predicate FirstRefusal(s: Script, workers: seq<WorkerEntry>, slots: seq<Option<Pipeline>>, e: Failure)
    requires Fits(s, workers) && |slots| == |workers|
  {
    exists i: nat :: i < |workers| && RefusesFirst(s, workers, slots, i, e)
  }

  ghost predicate RefusesFirst(s: Script, workers: seq<WorkerEntry>, slots: seq<Option<Pipeline>>, i: nat, e: Failure)
    requires Fits(s, workers) && |slots| == |workers| && i < |workers|
  {
    && Return(slots[i], s.last[i], workers[i], s.now3, s.end).0 == Some(e)
    && forall j: nat :: j < i ==> Return(slots[j], s.last[j], workers[j], s.now3, s.end).0.None?
  }

  method Finish(s: Script, workers: seq<WorkerEntry>, slots: array<Option<Pipeline>>) returns (r: Round)
    requires Fits(s, workers) && slots.Length == |workers|
    ensures r.Refused? ==> FirstRefusal(s, workers, slots[..], r.error)
    ensures r.Ranked? ==>
      forall i: nat :: i < |workers| ==> Return(slots[i], s.last[i], workers[i], s.now3, s.end).0.None?
    ensures r.Ranked? ==> |r.candidates| == |workers|
    ensures r.Ranked? ==>
      forall i: nat :: i < |workers| ==> r.candidates[i] == Return(slots[i], s.last[i], workers[i], s.now3, s.end).1
  {
    var candidates := [];
    for i := 0 to |workers|
      invariant |candidates| == i
      invariant forall j: nat :: j < i ==>
        Return(slots[j], s.last[j], workers[j], s.now3, s.end) == (None, candidates[j])
    {
      var answer := Return(slots[i], s.last[i], workers[i], s.now3, s.end);
      if answer.0.Some? {
        assert RefusesFirst(s, workers, slots[..], i, answer.0.value);
        return Refused(answer.0.value);
      }
      candidates := candidates + [answer.1];
    }
    r := Ranked(candidates);
  }

  /** The error of the first worker whose configuration is refused, if any. */
  method RequireAdmissible(workers: seq<WorkerEntry>, valid: string -> bool,
      errors: ConfigErrors) returns (error: Option<Failure>)
    ensures error.None? <==> !AnyMisconfigured(workers, valid, errors)
    ensures error.Some? ==> exists i: nat :: Misreports(workers, valid, errors, i, error.value)
  {
    for i := 0 to |workers|
      invariant forall j: nat :: j < i ==> Misconfigured(workers[j], valid, errors).None?
    {
      error := Misconfigured(workers[i], valid, errors);
      if error.Some? {
        assert Misreports(workers, valid, errors, i, error.value);
        return;
      }
    }
    error := None;
  }

  ghost predicate Distinct(ran: seq<nat>, n: nat) {
    (forall i: nat :: i in ran ==> i < n) && forall j, k :: 0 <= j < k < |ran| ==> ran[j] != ran[k]
  }

  /** What the round knows of a worker after the first wave. */
  ghost function Early(s: Script, workers: seq<WorkerEntry>, i: nat): Pipeline
    requires Fits(s, workers) && i < |workers|
  {
    if Hit(s, workers, i) then Seen(s.first[i].row.value, None) else if s.spent1 then Unavailable
    else Landed(s.pipes1[i])
  }

  ghost predicate IsHits(s: Script, workers: seq<WorkerEntry>, hits: seq<nat>)
    requires Fits(s, workers)
  {
    Increasing(hits, |workers|) && forall i: nat :: i in hits <==> i < |workers| && Hit(s, workers, i)
  }

  lemma {:induction false} FirstWaveBlames(s: Script, workers: seq<WorkerEntry>, misses: seq<nat>, e: Failure)
    requires Fits(s, workers) && !s.spent1 && Clear(s, workers, 1) && Increasing(misses, |workers|)
    requires forall i: nat :: i in misses <==> i < |workers| && !Hit(s, workers, i)
    requires FirstFailure(misses, s.pipes1, |misses|) == Some(e)
    ensures Reported(s, workers, e)
  {
    var m := FirstFailureIsFirst(misses, s.pipes1, |misses|);
    var i := misses[m];
    assert i in misses;
    forall j: nat | j < i ensures Fault(s, workers, 2, j).None? {
      Earlier(misses, m, j);
    }
    assert Blames(s, workers, 2, i, e);
  }

  /** A smaller index stands earlier in the list, if anywhere. */
  lemma {:induction false} Earlier(indices: seq<nat>, m: nat, j: nat)
    requires m < |indices| && j < indices[m] && forall a, b :: 0 <= a < b < |indices| ==> indices[a] < indices[b]
    ensures j in indices ==> exists k: nat :: k < m && indices[k] == j
  {
  }

  method FirstWave(s: Script, workers: seq<WorkerEntry>, slots: array<Option<Pipeline>>)
    returns (error: Option<Failure>, hits: seq<nat>, missed: bool, ran: seq<nat>)
    requires Fits(s, workers) && slots.Length == |workers|
    modifies slots
    ensures Distinct(ran, |workers|)
    ensures error.Some? ==> Reported(s, workers, error.value)
    ensures error.None? ==> Clear(s, workers, 1) && Clear(s, workers, 2)
    ensures error.None? ==> IsHits(s, workers, hits) && missed == AnyMiss(s, workers)
    ensures error.None? ==>
      forall i: nat :: i < |workers| ==> slots[i] == Some(Early(s, workers, i)) && !Early(s, workers, i).Failed?
    ensures error.None? ==> forall i: nat :: i in ran <==> i < |workers| && RunsFirst(s, workers, i)
  {
    var misses;
    missed, ran := false, [];
    error, hits, misses := Classify(s, workers, slots);
    if error.Some? {
      return;
    }
    missed := misses != [];
    error, ran := RunPipelines(misses, s.spent1, s.pipes1, slots);
    if error.Some? {
      FirstWaveBlames(s, workers, misses, error.value);
      return;
    }
    if missed {
      assert !Hit(s, workers, misses[0]);
    }
  }

  /** What the second wave makes of a hit. */
  ghost function Late(s: Script, workers: seq<WorkerEntry>, i: nat): Pipeline
    requires Fits(s, workers) && i < |workers|
  {
    AfterSecond(s, Again(s, workers, i), i)
  }

  lemma {:induction false} LateIsLearnt(s: Script, workers: seq<WorkerEntry>, i: nat)
    requires Fits(s, workers) && i < |workers| && AnyMiss(s, workers)
    ensures Learnt(s, workers, i) == if Hit(s, workers, i) then Late(s, workers, i) else Early(s, workers, i)
    ensures RunsSecond(s, workers, i) <==> Hit(s, workers, i) && Again(s, workers, i).None? && !s.spent2
  {
  }

  ghost predicate SecondFails(s: Script, again: seq<Option<Pipeline>>, hits: seq<nat>, ran: seq<nat>, e: Failure)
    requires |s.second| == |s.pipes2| == |again| && Increasing(hits, |again|) && Increasing(ran, |again|)
  {
    && (forall i: nat :: i in hits ==> !s.second[i].Unreadable?)
    && (forall i: nat :: i in ran <==> i in hits && again[i].None? && !s.spent2)
    && FirstFailure(ran, s.pipes2, |ran|) == Some(e)
  }

  /** What the second wave leaves in the slot of a hit. */
  function AfterSecond(s: Script, again: Option<Pipeline>, i: nat): Pipeline
    requires i < |s.pipes2|
  {
    if again.Some? then again.value else if s.spent2 then Unavailable else Landed(s.pipes2[i])
  }

  ghost predicate Rechecked(s: Script, again: seq<Option<Pipeline>>, hits: seq<nat>, reprobe: seq<nat>)
    requires |s.second| == |again| && Increasing(hits, |again|)
  {
    && Increasing(reprobe, |again|)
    && (forall i: nat :: i in hits ==> !s.second[i].Unreadable?)
    && (forall i: nat :: i in reprobe <==> i in hits && again[i].None?)
  }

  /** The hits that run in the second wave are those to be probed again, with time left. */
  lemma {:induction false} SecondRan(s: Script, again: seq<Option<Pipeline>>, hits: seq<nat>, reprobe: seq<nat>,
      ran: seq<nat>, error: Option<Failure>)
    requires |s.second| == |s.pipes2| == |again| && Increasing(hits, |again|) && Rechecked(s, again, hits, reprobe)
    requires ran == (if s.spent2 then [] else reprobe) && error == FirstFailure(ran, s.pipes2, |ran|)
    ensures Increasing(ran, |again|) && forall i: nat :: i in ran <==> i in hits && again[i].None? && !s.spent2
    ensures error.Some? ==> SecondFails(s, again, hits, ran, error.value)
    ensures error.None? ==> forall i: nat :: i in ran ==> !FailsPipe(s.pipes2[i])
  {
    forall i: nat | error.None? && i in ran ensures !FailsPipe(s.pipes2[i]) {
      var k :| 0 <= k < |ran| && ran[k] == i;
    }
  }

  lemma {:induction false} SecondSlots(s: Script, again: seq<Option<Pipeline>>, hits: seq<nat>, reprobe: seq<nat>,
      mid: seq<Option<Pipeline>>, after: seq<Option<Pipeline>>)
    requires |s.second| == |s.pipes2| == |again| == |mid| == |after| && Increasing(hits, |again|)
    requires Rechecked(s, again, hits, reprobe)
    requires forall i: nat :: i in hits && again[i].Some? ==> mid[i] == again[i]
    requires forall i: nat :: i in reprobe ==> after[i] == Some(if s.spent2 then Unavailable else Landed(s.pipes2[i]))
    requires forall i: nat :: i < |mid| && i !in reprobe ==> after[i] == mid[i]
    ensures forall i: nat :: i in hits ==> after[i] == Some(AfterSecond(s, again[i], i))
    ensures forall i: nat :: i < |mid| && i !in hits ==> after[i] == mid[i]
  {
  }

  method SecondWave(s: Script, workers: seq<WorkerEntry>, again: seq<Option<Pipeline>>, hits: seq<nat>,
      slots: array<Option<Pipeline>>)
    returns (error: Option<Failure>, ran: seq<nat>)
    requires Fits(s, workers) && slots.Length == |again| == |workers| && Increasing(hits, |workers|)
    modifies slots
    ensures Increasing(ran, |workers|)
    ensures forall i: nat :: i in ran ==> i in hits && again[i].None? && !s.spent2
    ensures error.Some? ==>
      FirstUnreadable(s.second, hits, error.value) || SecondFails(s, again, hits, ran, error.value)
    ensures error.None? ==> forall i: nat :: i in hits ==> !s.second[i].Unreadable?
    ensures error.None? ==>
      forall i: nat :: i in hits && again[i].None? && !s.spent2 ==> i in ran && !FailsPipe(s.pipes2[i])
    ensures error.None? ==> forall i: nat :: i in hits ==> slots[i] == Some(AfterSecond(s, again[i], i))
    ensures forall i: nat :: i < |workers| && i !in hits ==> slots[i] == old(slots[i])
  {
    ran := [];
    var reprobe;
    error, reprobe := Recheck(s.second, again, hits, slots);
    if error.Some? {
      return;
    }
    assert Rechecked(s, again, hits, reprobe);
    ghost var mid := slots[..];
    error, ran := RunPipelines(reprobe, s.spent2, s.pipes2, slots);
    SecondRan(s, again, hits, reprobe, ran, error);
    if error.None? {
      SecondSlots(s, again, hits, reprobe, mid, slots[..]);
      assert forall i: nat :: i < slots.Length ==> slots[i] == slots[..][i];
    }
  }

  /** Both waves. Without an error every slot holds what the round learnt, and no pipeline
      ran twice. */
  method Waves(s: Script, workers: seq<WorkerEntry>, slots: array<Option<Pipeline>>) returns (error: Option<Failure>,
      ran: seq<nat>)
    requires Fits(s, workers) && slots.Length == |workers|
    modifies slots
    ensures Distinct(ran, |workers|)
    ensures error.Some? ==> Reported(s, workers, error.value)
    ensures error.None? ==> forall k: nat :: 1 <= k < 5 ==> Clear(s, workers, k)
    ensures error.None? ==>
      forall i: nat :: i < |workers| ==> slots[i] == Some(Learnt(s, workers, i)) && !Learnt(s, workers, i).Failed?
    ensures error.None? ==>
      forall i: nat :: i in ran <==> i < |workers| && (RunsFirst(s, workers, i) || RunsSecond(s, workers, i))
  {
    var hits, missed;
    error, hits, missed, ran := FirstWave(s, workers, slots);
    if error.None? && missed {
      var again := seq(|workers|, i requires 0 <= i < |workers| => Again(s, workers, i));
      var more;
      error, more := SecondWave(s, workers, again, hits, slots);
      if error.Some? {
        SecondWaveBlames(s, workers, again, hits, more, error.value);
      } else {
        SecondWaveClear(s, workers, again, hits);
      }
      Joined(s, workers, ran, more);
      forall i: nat | i < |workers|
        ensures Learnt(s, workers, i) == if Hit(s, workers, i) then Late(s, workers, i) else Early(s, workers, i)
      {
        LateIsLearnt(s, workers, i);
      }
      ran := ran + more;
    }
  }

  lemma {:induction false} SecondWaveClear(s: Script, workers: seq<WorkerEntry>, again: seq<Option<Pipeline>>,
      hits: seq<nat>)
    requires Fits(s, workers) && IsHits(s, workers, hits) && AnyMiss(s, workers)
    requires |again| == |workers| && forall i: nat :: i < |workers| ==> again[i] == Again(s, workers, i)
    requires forall i: nat :: i in hits ==>
      !s.second[i].Unreadable? && (again[i].None? && !s.spent2 ==> !FailsPipe(s.pipes2[i]))
    ensures Clear(s, workers, 3) && Clear(s, workers, 4)
  {
    forall i: nat | i < |workers| ensures Fault(s, workers, 4, i).None? {
      LateIsLearnt(s, workers, i);
    }
  }

  lemma {:induction false} SecondWaveBlames(s: Script, workers: seq<WorkerEntry>, again: seq<Option<Pipeline>>,
      hits: seq<nat>, ran: seq<nat>, e: Failure)
    requires
      && Fits(s, workers) && Clear(s, workers, 1) && Clear(s, workers, 2) && AnyMiss(s, workers)
      && IsHits(s, workers, hits)
    requires Increasing(ran, |workers|)
    requires |again| == |workers| && forall i: nat :: i < |workers| ==> again[i] == Again(s, workers, i)
    requires FirstUnreadable(s.second, hits, e) || SecondFails(s, again, hits, ran, e)
    ensures Reported(s, workers, e)
  {
    if FirstUnreadable(s.second, hits, e) {
      var k: nat :| k < |hits| && s.second[hits[k]] == Unreadable(e) && forall j: nat :: j < k ==>
          !s.second[hits[j]].Unreadable?;
      var i := hits[k];
      assert i in hits;
      forall j: nat | j < i ensures Fault(s, workers, 3, j).None? {
        Earlier(hits, k, j);
      }
      assert Blames(s, workers, 3, i, e);
    } else {
      var m := FirstFailureIsFirst(ran, s.pipes2, |ran|);
      var i := ran[m];
      assert i in ran;
      LateIsLearnt(s, workers, i);
      forall j: nat | j < i ensures Fault(s, workers, 4, j).None? {
        LateIsLearnt(s, workers, j);
        Earlier(ran, m, j);
      }
      assert Clear(s, workers, 3);
      assert Blames(s, workers, 4, i, e);
    }
  }

  lemma {:induction false} Joined(s: Script, workers: seq<WorkerEntry>, ran: seq<nat>, more: seq<nat>)
    requires Fits(s, workers) && Distinct(ran, |workers|) && Increasing(more, |workers|)
    requires forall i: nat :: i in ran ==> i < |workers| && !Hit(s, workers, i)
    requires forall i: nat :: i in more ==> i < |workers| && Hit(s, workers, i)
    ensures Distinct(ran + more, |workers|)
  {
    var all := ran + more;
    forall j, k | 0 <= j < k < |all| ensures all[j] != all[k] {
      if j < |ran| <= k {
        assert all[j] in ran && all[k] in more;
      }
    }
  }

  /** `observe_workers` */
  method ObserveWorkers(s: Script, workers: seq<WorkerEntry>, valid: string -> bool, errors: ConfigErrors)
    returns (r: Round, ran: seq<nat>)
    requires Fits(s, workers)
    ensures r.Refused? <==> Breaks(s, workers, valid, errors)
    ensures r.Refused? && AnyMisconfigured(workers, valid, errors) ==>
      exists i: nat :: Misreports(workers, valid, errors, i, r.error)
    ensures r.Refused? && !AnyMisconfigured(workers, valid, errors) ==> Reported(s, workers, r.error)
    ensures r.Ranked? ==> |r.candidates| == |workers|
    ensures r.Ranked? ==> forall i: nat :: i < |workers| ==> r.candidates[i] == Answer(s, workers, i)
    ensures Distinct(ran, |workers|)
    ensures r.Ranked? ==>
      forall i: nat :: i < |workers| ==> (i in ran <==> RunsFirst(s, workers, i) || RunsSecond(s, workers, i))
  {
    var bad := RequireAdmissible(workers, valid, errors);
    if bad.Some? {
      return Refused(bad.value), [];
    }
    if workers == [] {
      return Ranked([]), [];
    }
    var slots := new Option<Pipeline>[|workers|](_ => None);
    var error;
    error, ran := Waves(s, workers, slots);
    if error.Some? {
      ReportedBreaks(s, workers, error.value);
      return Refused(error.value), ran;
    }
    r := Finish(s, workers, slots);
    forall i: nat | i < |workers|
      ensures Fault(s, workers, 5, i) == Return(slots[i], s.last[i], workers[i], s.now3, s.end).0
    {
      LastFault(s, workers, i);
    }
    if r.Refused? {
      ghost var i: nat :| i < |workers| && RefusesFirst(s, workers, slots[..], i, r.error);
      assert Blames(s, workers, 5, i, r.error);
      ReportedBreaks(s, workers, r.error);
    }
  }

  /** Past the two waves only the last read can fail. */
  lemma {:induction false} LastFault(s: Script, workers: seq<WorkerEntry>, i: nat)
    requires Fits(s, workers) && i < |workers| && !Learnt(s, workers, i).Failed?
    ensures Fault(s, workers, 5, i) == Return(Some(Learnt(s, workers, i)), s.last[i], workers[i], s.now3, s.end).0
  {
  }

  ghost function Answer(s: Script, workers: seq<WorkerEntry>, i: nat): Candidate
    requires Fits(s, workers) && i < |workers|
  {
    Return(Some(Learnt(s, workers, i)), s.last[i], workers[i], s.now3, s.end).1
  }
}
