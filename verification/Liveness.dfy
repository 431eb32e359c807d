/** When a process may be called dead: two maps of first sightings, against the
    trace of everything that was observed. */
module Liveness {
  import opened Basics

  /** Process id and start time. */
  type Identity = nat

  datatype Observation = Matching | Reused | Ambiguous | Absent

  datatype Verdict = Live | Exited | Unverifiable

  /** One look at a process. */
  datatype Look = Look(identity: Identity, seen: Observation, at: nat)

  /** First sightings of absence and of anything short of proof. */
  datatype Tracking = Tracking(absent: map<Identity, nat>, unverifiable: map<Identity, nat>)

  function Since(now: nat, first: nat): nat { if now < first then 0 else now - first }

  function OrInsert(m: map<Identity, nat>, p: Identity, at: nat): map<Identity, nat> {
    if p in m then m else m[p := at]
  }

  /** `runner_identity_verdict` */
  function Judge(s: Tracking, look: Look, window: nat): (Tracking, Verdict) {
    var p := look.identity;
    match look.seen
    case Matching => (Tracking(s.absent - {p}, s.unverifiable - {p}), Live)
    case Reused => (Tracking(s.absent - {p}, s.unverifiable - {p}), Exited)
    case Ambiguous => (Tracking(s.absent - {p}, OrInsert(s.unverifiable, p, look.at)), Unverifiable)
    case Absent =>
      (Tracking(OrInsert(s.absent, p, look.at), OrInsert(s.unverifiable, p, look.at)),
       if p in s.absent && Since(look.at, s.absent[p]) >= window then Exited else Unverifiable)
  }

  function After(trace: seq<Look>, window: nat): Tracking {
    if trace == [] then Tracking(map[], map[])
    else Judge(After(trace[..|trace| - 1], window), trace[|trace| - 1], window).0
  }

  /** The tracker itself, shared behind a lock. */
  class Tracker {
    var absent: map<Identity, nat>
    var unverifiable: map<Identity, nat>
    const window: nat

    constructor (window: nat)
      ensures this.window == window && Contents() == Tracking(map[], map[])
    {
      this.window := window;
      absent, unverifiable := map[], map[];
    }

    function Contents(): Tracking
      reads this
    {
      Tracking(absent, unverifiable)
    }

    method IdentityVerdict(look: Look) returns (v: Verdict)
      modifies this
      ensures (Contents(), v) == Judge(old(Contents()), look, window)
    {
      var p, now := look.identity, look.at;
      match look.seen {
        case Matching =>
          absent, unverifiable := absent - {p}, unverifiable - {p};
          return Live;
        case Reused =>
          absent, unverifiable := absent - {p}, unverifiable - {p};
          return Exited;
        case Ambiguous =>
          if p !in unverifiable { unverifiable := unverifiable[p := now]; }
          absent := absent - {p};
          return Unverifiable;
        case Absent =>
          if p !in unverifiable { unverifiable := unverifiable[p := now]; }
          if p !in absent {
            absent := absent[p := now];
            return Unverifiable;
          }
          return if Since(now, absent[p]) >= window then Exited else Unverifiable;
      }
    }

    /** `absence_unconfirmed` */
    method AbsenceUnconfirmed(p: Identity, now: nat) returns (r: bool)
      ensures r == Unconfirmed(Contents(), p, now, window)
    {
      if p !in absent { return false; }
      return Since(now, absent[p]) < window;
    }

    /** `unverifiable_elapsed` */
    method UnverifiableElapsed(p: Identity, now: nat) returns (r: nat)
      ensures r == Elapsed(Contents(), p, now)
    {
      if p !in unverifiable { return 0; }
      return Since(now, unverifiable[p]);
    }
  }

  predicate Unconfirmed(s: Tracking, p: Identity, now: nat, window: nat) {
    p in s.absent && Since(now, s.absent[p]) < window
  }

  /** How long nothing has been proved about the process. */
  function Elapsed(s: Tracking, p: Identity, now: nat): nat {
    if p in s.unverifiable then Since(now, s.unverifiable[p]) else 0
  }

  // ---- Runs of looks in the trace ---------------------------------------------------------------

  /** The looks that carry on a run: absences only, or anything short of proof. */
  predicate Carries(seen: Observation, absentOnly: bool) { seen == Absent || (!absentOnly && seen == Ambiguous) }

  /** Look `i` of `p` begins the run of such looks that is unbroken to the end. */
  ghost predicate BeginsRun(trace: seq<Look>, p: Identity, i: nat, absentOnly: bool) {
    && i < |trace| && trace[i].identity == p
    && (forall j :: i <= j < |trace| && trace[j].identity == p ==> Carries(trace[j].seen, absentOnly))
    && (forall j :: 0 <= j < i && trace[j].identity == p && Carries(trace[j].seen, absentOnly) ==>
        Broken(trace, p, j, i, absentOnly))
  }

  predicate Broken(trace: seq<Look>, p: Identity, j: nat, i: nat, absentOnly: bool)
    requires i <= |trace|
  {
    exists k :: j < k < i && trace[k].identity == p && !Carries(trace[k].seen, absentOnly)
  }

  /** The map holds the time of the look that begins the run, if there is one. */
  ghost predicate Records(m: map<Identity, nat>, trace: seq<Look>, p: Identity, absentOnly: bool) {
    && (p in m ==> exists i: nat :: BeginsRun(trace, p, i, absentOnly) && trace[i].at == m[p])
    && (p !in m ==> forall i: nat :: !BeginsRun(trace, p, i, absentOnly))
  }

  lemma {:induction false} OneBeginning(trace: seq<Look>, p: Identity, i: nat, j: nat, absentOnly: bool)
    requires BeginsRun(trace, p, i, absentOnly) && BeginsRun(trace, p, j, absentOnly)
    ensures i == j
  {
    assert trace[i].identity == trace[j].identity;
  }

  /** A look at another process neither begins nor ends a run of this one. */
  lemma {:induction false} OtherLook(trace: seq<Look>, look: Look, p: Identity, i: nat, absentOnly: bool)
    requires look.identity != p
    ensures BeginsRun(trace + [look], p, i, absentOnly) <==> BeginsRun(trace, p, i, absentOnly)
  {
    var t := trace + [look];
    assert forall j :: 0 <= j < |trace| ==> t[j] == trace[j];
    if i < |trace| {
      forall j | 0 <= j < i ensures Broken(t, p, j, i, absentOnly) == Broken(trace, p, j, i, absentOnly) {
        SameBroken(trace, look, p, j, i, absentOnly);
      }
    }
  }

  lemma {:induction false} SameBroken(trace: seq<Look>, look: Look, p: Identity, j: nat, i: nat, absentOnly: bool)
    requires i <= |trace|
    ensures Broken(trace + [look], p, j, i, absentOnly) == Broken(trace, p, j, i, absentOnly)
  {
    var t := trace + [look];
    assert forall k :: 0 <= k < |trace| ==> t[k] == trace[k];
  }

  /** A look that breaks the run leaves none. */
  lemma {:induction false} BreakingLook(trace: seq<Look>, look: Look, absentOnly: bool)
    requires !Carries(look.seen, absentOnly)
    ensures forall i: nat :: !BeginsRun(trace + [look], look.identity, i, absentOnly)
  {
    var t := trace + [look];
    assert t[|trace|] == look;
  }

  /** A look that carries on: the run goes on from where it began, or begins here. */
  lemma {:induction false} CarryingLook(trace: seq<Look>, look: Look, absentOnly: bool)
    requires Carries(look.seen, absentOnly)
    ensures forall i: nat :: BeginsRun(trace, look.identity, i, absentOnly) ==>
      BeginsRun(trace + [look], look.identity, i, absentOnly)
    ensures (forall i: nat :: !BeginsRun(trace, look.identity, i, absentOnly)) ==>
      BeginsRun(trace + [look], look.identity, |trace|, absentOnly)
  {
    var t, p := trace + [look], look.identity;
    assert forall j :: 0 <= j < |trace| ==> t[j] == trace[j];
    forall i: nat | BeginsRun(trace, p, i, absentOnly) ensures BeginsRun(t, p, i, absentOnly) {
      forall j | 0 <= j < i && t[j].identity == p && Carries(t[j].seen, absentOnly)
        ensures Broken(t, p, j, i, absentOnly)
      {
        SameBroken(trace, look, p, j, i, absentOnly);
      }
    }
    if forall i: nat :: !BeginsRun(trace, p, i, absentOnly) {
      forall j | 0 <= j < |trace| && t[j].identity == p && Carries(t[j].seen, absentOnly)
        ensures Broken(t, p, j, |trace|, absentOnly)
      {
        NoRunBroken(trace, p, j, absentOnly);
        SameBroken(trace, look, p, j, |trace|, absentOnly);
      }
    }
  }

  /** Without a run to the end, every look that could carry one on is followed by a
      look that breaks it. */
  lemma {:induction false} NoRunBroken(trace: seq<Look>, p: Identity, j: nat, absentOnly: bool)
    requires j < |trace| && trace[j].identity == p && Carries(trace[j].seen, absentOnly)
    requires forall i: nat :: !BeginsRun(trace, p, i, absentOnly)
    ensures Broken(trace, p, j, |trace|, absentOnly)
    decreases j
  {
    if !Broken(trace, p, j, |trace|, absentOnly) {
      assert !BeginsRun(trace, p, j, absentOnly);
      var i :| 0 <= i < j && trace[i].identity == p && Carries(trace[i].seen, absentOnly)
          && !Broken(trace, p, i, j, absentOnly);
      NoRunBroken(trace, p, i, absentOnly);
    }
  }

  // ---- The maps are the beginnings of the runs ---------------------------------------------------

  lemma {:induction false} StepRecords(m: map<Identity, nat>, m': map<Identity, nat>, trace: seq<Look>, look: Look,
      p: Identity, absentOnly: bool)
    requires Records(m, trace, p, absentOnly)
    requires look.identity != p ==> ((p in m' <==> p in m) && (p in m ==> m'[p] == m[p]))
    requires look.identity == p && Carries(look.seen, absentOnly) ==>
      p in m' && m'[p] == (if p in m then m[p] else look.at)
    requires look.identity == p && !Carries(look.seen, absentOnly) ==> p !in m'
    ensures Records(m', trace + [look], p, absentOnly)
  {
    var t := trace + [look];
    assert forall j :: 0 <= j < |trace| ==> t[j] == trace[j];
    if look.identity != p {
      forall i: nat ensures BeginsRun(t, p, i, absentOnly) <==> BeginsRun(trace, p, i, absentOnly) {
        OtherLook(trace, look, p, i, absentOnly);
      }
    } else if Carries(look.seen, absentOnly) {
      CarryingLook(trace, look, absentOnly);
      assert t[|trace|] == look;
    } else {
      BreakingLook(trace, look, absentOnly);
    }
  }

  /** First sightings are, at every point of every trace and for every process, the
      times at which the unbroken runs began. */
  lemma {:induction false} SightingsLaw(trace: seq<Look>, p: Identity, window: nat)
    ensures Records(After(trace, window).absent, trace, p, true)
    ensures Records(After(trace, window).unverifiable, trace, p, false)
    decreases |trace|
  {
    if trace != [] {
      var front, look := trace[..|trace| - 1], trace[|trace| - 1];
      SightingsLaw(front, p, window);
      var s, s' := After(front, window), After(trace, window);
      StepRecords(s.absent, s'.absent, front, look, p, true);
      StepRecords(s.unverifiable, s'.unverifiable, front, look, p, false);
      assert trace == front + [look];
    }
  }

  /** The process was absent all along from a look that is a whole window back. */
  ghost predicate LongAbsent(trace: seq<Look>, look: Look, window: nat) {
    exists i: nat :: BeginsRun(trace, look.identity, i, true) && (window == 0 || trace[i].at + window <= look.at)
  }

  /** A process is alive exactly when the look shows it; it is called dead exactly when the
      look shows its id in other hands, or shows it absent as at least the second of a run
      of absences that began a whole window before; every other verdict is open. */
  lemma {:induction false} ExitedLaw(trace: seq<Look>, look: Look, window: nat)
    ensures var v := Judge(After(trace, window), look, window).1;
      && (v == Live <==> look.seen == Matching)
      && (v == Exited <==> look.seen == Reused || (look.seen == Absent && LongAbsent(trace, look, window)))
      && (v == Unverifiable <==> look.seen == Ambiguous || (look.seen == Absent && !LongAbsent(trace, look, window)))
  {
    var s := After(trace, window);
    SightingsLaw(trace, look.identity, window);
    if look.seen == Absent && look.identity in s.absent {
      var i: nat :| BeginsRun(trace, look.identity, i, true) && trace[i].at == s.absent[look.identity];
      forall j: nat | BeginsRun(trace, look.identity, j, true) ensures j == i {
        OneBeginning(trace, look.identity, i, j, true);
      }
    }
  }

  /** One missed look is never enough, and any sign of life or doubt starts the count
      afresh. */
  lemma {:induction false} OneMissIsNotEnough(trace: seq<Look>, look: Look, window: nat)
    requires look.seen == Absent
    requires forall j :: 0 <= j < |trace| && trace[j].identity == look.identity && trace[j].seen == Absent ==>
      Broken(trace, look.identity, j, |trace|, true)
    ensures Judge(After(trace, window), look, window).1 == Unverifiable
  {
    ExitedLaw(trace, look, window);
    forall i: nat ensures !BeginsRun(trace, look.identity, i, true) {}
  }

  /** The looks at one process alone. */
  function Only(trace: seq<Look>, p: Identity): seq<Look> {
    if trace == [] then [] else
      Only(trace[..|trace| - 1], p) + if trace[|trace| - 1].identity == p then [trace[|trace| - 1]] else []
  }

  predicate SameAt(m: map<Identity, nat>, n: map<Identity, nat>, p: Identity) {
    (p in m <==> p in n) && (p in m ==> m[p] == n[p])
  }

  predicate AgreeAt(a: Tracking, b: Tracking, p: Identity) {
    SameAt(a.absent, b.absent, p) && SameAt(a.unverifiable, b.unverifiable, p)
  }

  lemma {:induction false} JudgeAgrees(a: Tracking, b: Tracking, look: Look, window: nat)
    requires AgreeAt(a, b, look.identity)
    ensures AgreeAt(Judge(a, look, window).0, Judge(b, look, window).0, look.identity)
  {
  }

  lemma {:induction false} JudgeOther(a: Tracking, look: Look, p: Identity, window: nat)
    requires look.identity != p
    ensures AgreeAt(Judge(a, look, window).0, a, p)
  {
  }

  lemma {:induction false} OthersDoNotMatter(trace: seq<Look>, p: Identity, window: nat)
    ensures AgreeAt(After(trace, window), After(Only(trace, p), window), p)
    decreases |trace|
  {
    if trace != [] {
      var front, look := trace[..|trace| - 1], trace[|trace| - 1];
      var mine := Only(front, p);
      OthersDoNotMatter(front, p, window);
      if look.identity == p {
        JudgeAgrees(After(front, window), After(mine, window), look, window);
        AfterLook(mine, look, window);
      } else {
        JudgeOther(After(front, window), look, p, window);
        assert mine + [] == mine;
      }
    }
  }

  lemma {:induction false} AfterLook(trace: seq<Look>, look: Look, window: nat)
    ensures After(trace + [look], window) == Judge(After(trace, window), look, window).0
  {
    assert (trace + [look])[..|trace|] == trace;
  }

  /** Identities never affect each other: a verdict depends on the looks at its own
      process alone. */
  lemma {:induction false} VerdictsApart(trace: seq<Look>, look: Look, window: nat)
    ensures Judge(After(trace, window), look, window).1 ==
      Judge(After(Only(trace, look.identity), window), look, window).1
  {
    OthersDoNotMatter(trace, look.identity, window);
  }

  /** The time in doubt counts from the look that began the unbroken run of looks short of
      proof; without such a run it is nothing. */
  lemma {:induction false} ElapsedLaw(trace: seq<Look>, p: Identity, now: nat, window: nat)
    ensures forall i: nat :: BeginsRun(trace, p, i, false) ==>
      Elapsed(After(trace, window), p, now) == if now < trace[i].at then 0 else now - trace[i].at
    ensures (forall i: nat :: !BeginsRun(trace, p, i, false)) ==> Elapsed(After(trace, window), p, now) == 0
  {
    SightingsLaw(trace, p, window);
    forall i: nat, j: nat | BeginsRun(trace, p, i, false) && BeginsRun(trace, p, j, false) ensures i == j {
      OneBeginning(trace, p, i, j, false);
    }
  }

  /** An absence is unconfirmed exactly while the unbroken run of absences is shorter than
      the window. */
  lemma {:induction false} AbsenceLaw(trace: seq<Look>, p: Identity, now: nat, window: nat)
    ensures Unconfirmed(After(trace, window), p, now, window) <==>
      window > 0 && exists i: nat :: BeginsRun(trace, p, i, true) && now < trace[i].at + window
  {
    SightingsLaw(trace, p, window);
    forall i: nat, j: nat | BeginsRun(trace, p, i, true) && BeginsRun(trace, p, j, true) ensures i == j {
      OneBeginning(trace, p, i, j, true);
    }
  }

  /** After an absent look the verdict is open while the absence counts as unconfirmed, and
      only then, exactly unless this is a first sighting with a window of no length. */
  lemma {:induction false} UnconfirmedLaw(s: Tracking, look: Look, window: nat)
    requires look.seen == Absent
    ensures var (after, verdict) := Judge(s, look, window);
      (verdict == Unverifiable <==> Unconfirmed(after, look.identity, look.at, window))
      <==> window > 0 || look.identity in s.absent
  {
  }
}
