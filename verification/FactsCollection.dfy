/** Collecting agent facts under a time budget: which steps may start, how long the whole
    may take, how often a keychain is unlocked, and what the report covers. */
module FactsCollection {
  import opened Basics

  const PROBE_DEADLINE: nat := 2_000
  const RESPONSE_DEADLINE: nat := 3_000
  const UNLOCK_TIMEOUT: nat := 10_000

  datatype Kind = Codex | Claude | Cursor | Opencode

  const KINDS: seq<Kind> := [Codex, Claude, Cursor, Opencode]

  /** `BecauseBudget` and `BecauseUnlock` are the two reasons the collection itself gives. */
  datatype Auth =
    | Authenticated
    | Unauthenticated
    | Unknown
    | BecauseBudget
    | BecauseUnlock
    | BecauseOther(reason: string)

  datatype UnlockOutcome = Unlocked | Refused | OutOfTime

  /** A profile: whether its entries can change which binary is found, and its keychain. */
  datatype Profile = Profile(name: string, secure: bool, movesPath: bool, keychain: Option<string>)

  datatype Task = Locate(kind: Kind, profile: Option<string>) | AskAuth(kind: Kind, profile: Option<string>)
                | Unlock(path: string) | GitKey | HerdrLocate | HerdrPing | HerdrList | Helpers

  /** What the host did at one point: the time that passed before a clock reading, or the
      duration and answer of a step. */
  datatype Reply = Reply(idle: nat, took: nat, found: bool, version: Option<string>, late: bool, ok: bool, auth: Auth)

  datatype Step = Step(task: Task, start: nat, allowance: nat, reply: Reply)

  datatype State = State(now: nat, idle: nat, turn: nat, log: seq<Step>, unlocks: map<string, UnlockOutcome>)

  datatype AgentProbe = AgentProbe(kind: Kind, version: Option<string>, auth: Auth, profiles: seq<(string, Auth)>)

  datatype Facts = Facts(agents: seq<AgentProbe>, gitIdentity: bool, herdr: Option<nat>, helpers: bool)

  function End(s: Step): nat { s.start + s.reply.took }

  function Max(a: nat, b: nat): nat { if a < b then b else a }

  /** Every step returned within the allowance it was given. */
  predicate Punctual(log: seq<Step>) { forall i: nat :: i < |log| ==> log[i].reply.took <= log[i].allowance }

  /** No step starts with the budget spent, or is allowed past it; steps follow one another;
      and if they are punctual only idle time can run over. */
  ghost predicate Timely(s: State, limit: nat, t0: nat) {
    && (forall i: nat :: i < |s.log| ==>
        s.log[i].start < limit && s.log[i].start + s.log[i].allowance <= limit && End(s.log[i]) <= s.now)
    && (forall i: nat, j: nat :: i < j < |s.log| ==> End(s.log[i]) <= s.log[j].start)
    && (Punctual(s.log) ==> s.now <= Max(limit, t0) + s.idle)
  }

  /** Each path is unlocked by at most one step, whose outcome is the one on record. */
  ghost predicate OncePerPath(s: State) {
    && (forall i: nat, j: nat :: i < j < |s.log| && s.log[i].task.Unlock? && s.log[j].task.Unlock? ==>
        s.log[i].task.path != s.log[j].task.path)
    && (forall i: nat :: i < |s.log| && s.log[i].task.Unlock? ==> OnRecord(s, s.log[i].task.path, s.log[i].reply.ok))
    && (forall p :: p in s.unlocks && s.unlocks[p] == Unlocked ==>
        exists i: nat :: i < |s.log| && s.log[i].task == Unlock(p))
  }

  ghost predicate OnRecord(s: State, path: string, ok: bool) {
    path in s.unlocks && (s.unlocks[path] == Unlocked <==> ok)
  }

  ghost predicate Sound(s: State, limit: nat, t0: nat) { Timely(s, limit, t0) && OncePerPath(s) }

  ghost predicate Extends(a: State, b: State) {
    && |a.log| <= |b.log| && (forall i: nat :: i < |a.log| ==> b.log[i] == a.log[i])
    && (forall p :: p in a.unlocks ==> p in b.unlocks && b.unlocks[p] == a.unlocks[p])
  }

  function Secure(profiles: seq<Profile>): seq<Profile> {
    if profiles == [] then []
    else
      var before := Secure(profiles[..|profiles| - 1]);
      var last := profiles[|profiles| - 1];
      if last.secure then before + [last] else before
  }

  /** The named entries are exactly the secure profiles, each once, in order. */
  ghost predicate Covers(entries: seq<(string, Auth)>, secure: seq<Profile>) {
    |entries| == |secure| && forall i: nat :: i < |secure| ==> entries[i].0 == secure[i].name
  }

  /** An answer about a profile's login comes from its shell only if its keychain is open. */
  ghost predicate Unlocks(entries: seq<(string, Auth)>, secure: seq<Profile>, unlocks: map<string, UnlockOutcome>)
    requires |entries| == |secure|
  {
    forall i: nat :: i < |secure| && Answer(entries[i].1) ==> Open(secure[i], unlocks)
  }

  predicate Answer(a: Auth) { a.Authenticated? || a.Unauthenticated? || a.BecauseOther? }

  predicate Open(p: Profile, unlocks: map<string, UnlockOutcome>) {
    p.keychain.Some? ==> p.keychain.value in unlocks && unlocks[p.keychain.value] == Unlocked
  }

  // ---- one reading of the clock, one step ----

  function Read(s: State, r: Reply): State { s.(now := s.now + r.idle, idle := s.idle + r.idle, turn := s.turn + 1) }

  function Stepped(s: State, task: Task, allowance: nat, r: Reply): State {
    s.(now := s.now + r.took, turn := s.turn + 1, log := s.log + [Step(task, s.now, allowance, r)])
  }

  lemma {:induction false} ReadSound(s: State, r: Reply, limit: nat, t0: nat)
    requires Sound(s, limit, t0)
    ensures Sound(Read(s, r), limit, t0) && Extends(s, Read(s, r))
  {
  }

  lemma {:induction false} StepTimely(s: State, task: Task, allowance: nat, r: Reply, limit: nat, t0: nat)
    requires Timely(s, limit, t0) && s.now < limit && s.now + allowance <= limit
    ensures Timely(Stepped(s, task, allowance, r), limit, t0) && Extends(s, Stepped(s, task, allowance, r))
  {
    var v := Stepped(s, task, allowance, r);
    assert v.log[|s.log|] == Step(task, s.now, allowance, r);
    if Punctual(v.log) {
      assert v.log[|s.log|].reply.took <= allowance;
    }
  }

  lemma {:induction false} StepOnce(s: State, task: Task, allowance: nat, r: Reply)
    requires OncePerPath(s) && !task.Unlock?
    ensures OncePerPath(Stepped(s, task, allowance, r))
  {
    var v := Stepped(s, task, allowance, r);
    forall p | p in v.unlocks && v.unlocks[p] == Unlocked
      ensures exists i: nat :: i < |v.log| && v.log[i].task == Unlock(p)
    {
      var i: nat :| i < |s.log| && s.log[i].task == Unlock(p);
      assert v.log[i] == s.log[i];
    }
  }

  /** The unlock of a path that was never tried, entered with its outcome. */
  lemma {:induction false} UnlockOnce(s: State, path: string, allowance: nat, r: Reply, outcome: UnlockOutcome)
    requires OncePerPath(s) && path !in s.unlocks && (outcome == Unlocked <==> r.ok)
    ensures OncePerPath(Stepped(s, Unlock(path), allowance, r).(unlocks := s.unlocks[path := outcome]))
  {
    var v := Stepped(s, Unlock(path), allowance, r).(unlocks := s.unlocks[path := outcome]);
    var n := |s.log|;
    assert v.log[n].task == Unlock(path);
    forall i: nat | i < n ensures v.log[i] == s.log[i] {}
    forall i: nat | i < |v.log| && v.log[i].task.Unlock? ensures OnRecord(v, v.log[i].task.path, v.log[i].reply.ok) {
      if i < n {
        assert OnRecord(s, s.log[i].task.path, s.log[i].reply.ok);
      }
    }
    forall p | p in v.unlocks && v.unlocks[p] == Unlocked
      ensures exists i: nat :: i < |v.log| && v.log[i].task == Unlock(p)
    {
      if p != path {
        var i: nat :| i < |s.log| && s.log[i].task == Unlock(p);
        assert v.log[i] == s.log[i];
      }
    }
  }

  lemma {:induction false} BudgetOnce(s: State, path: string)
    requires OncePerPath(s) && path !in s.unlocks
    ensures OncePerPath(s.(unlocks := s.unlocks[path := OutOfTime]))
  {
    var v := s.(unlocks := s.unlocks[path := OutOfTime]);
    forall i: nat | i < |v.log| && v.log[i].task.Unlock? ensures OnRecord(v, v.log[i].task.path, v.log[i].reply.ok) {
      assert OnRecord(s, s.log[i].task.path, s.log[i].reply.ok);
    }
  }

  lemma {:induction false} ReadTimely(s: State, r: Reply, limit: nat, t0: nat)
    requires Timely(s, limit, t0)
    ensures Timely(Read(s, r), limit, t0)
  {
  }

  lemma {:induction false} Chain(a: State, b: State, c: State)
    requires Extends(a, b) && Extends(b, c)
    ensures Extends(a, c)
  {
  }

  /** What stays true of a profile's entry as the collection goes on. */
  lemma {:induction false} StaysOpen(entries: seq<(string, Auth)>, secure: seq<Profile>, a: State, b: State)
    requires |entries| == |secure| && Unlocks(entries, secure, a.unlocks) && Extends(a, b)
    ensures Unlocks(entries, secure, b.unlocks)
  {
  }

  /** An unlock that fails at its deadline with the budget spent is put down to the budget. */
  function Tried(s: State, path: string, allowance: nat, r: Reply, next: Reply, limit: nat): (v: State)
    ensures path in v.unlocks
  {
    var after := Stepped(s, Unlock(path), allowance, r);
    if r.ok then after.(unlocks := s.unlocks[path := Unlocked])
    else if !r.late then after.(unlocks := s.unlocks[path := Refused])
    else
      var read := Read(after, next);
      read.(unlocks := s.unlocks[path := if read.now >= limit then OutOfTime else Refused])
  }

  lemma {:induction false} TriedSound(s: State, path: string, allowance: nat, r: Reply, next: Reply, limit: nat,
      t0: nat)
    requires Sound(s, limit, t0) && path !in s.unlocks && s.now < limit && s.now + allowance <= limit
    ensures
      && Sound(Tried(s, path, allowance, r, next, limit), limit, t0)
      && Extends(s, Tried(s, path, allowance, r, next, limit))
  {
    var after, v := Stepped(s, Unlock(path), allowance, r), Tried(s, path, allowance, r, next, limit);
    StepTimely(s, Unlock(path), allowance, r, limit, t0);
    ReadTimely(after, next, limit, t0);
    SameTimes(if r.ok || !r.late then after else Read(after, next), v, limit, t0);
    UnlockOnce(s, path, allowance, r, v.unlocks[path]);
    SameOnce(after.(unlocks := v.unlocks), v);
  }

  lemma {:induction false} SameTimes(a: State, b: State, limit: nat, t0: nat)
    requires Timely(a, limit, t0) && b == a.(unlocks := b.unlocks)
    ensures Timely(b, limit, t0)
  {
  }

  lemma {:induction false} SameOnce(a: State, b: State)
    requires OncePerPath(a) && a.log == b.log && a.unlocks == b.unlocks
    ensures OncePerPath(b)
  {
    forall i: nat | i < |b.log| && b.log[i].task.Unlock? ensures OnRecord(b, b.log[i].task.path, b.log[i].reply.ok) {
      assert OnRecord(a, a.log[i].task.path, a.log[i].reply.ok);
    }
  }

  lemma {:induction false} OutOfTimeSound(a: State, s: State, path: string, limit: nat, t0: nat)
    requires Sound(s, limit, t0) && path !in s.unlocks && Extends(a, s)
    ensures
      && Sound(s.(unlocks := s.unlocks[path := OutOfTime]), limit, t0)
      && Extends(a, s.(unlocks := s.unlocks[path := OutOfTime]))
  {
    BudgetOnce(s, path);
    SameTimes(s, s.(unlocks := s.unlocks[path := OutOfTime]), limit, t0);
  }

  // ---- the collection as a function of the state ----

  /** The limit, and what the host will do. */
  datatype Host = Host(limit: nat, reply: nat -> Reply)

  function Exhaust(s: State, h: Host): (State, bool) {
    var v := Read(s, h.reply(s.turn));
    (v, v.now >= h.limit)
  }

  function Allow(s: State, h: Host, cap: nat): (State, Option<nat>) {
    var (v, spent) := Exhaust(s, h);
    (v, if spent then None else Some(if cap < h.limit - v.now then cap else h.limit - v.now))
  }

  function Attempt(s: State, h: Host, task: Task, cap: nat): (State, Option<Reply>) {
    var (v, allowance) := Allow(s, h, cap);
    if allowance.None? then (v, None) else (Stepped(v, task, allowance.value, h.reply(v.turn)), Some(h.reply(v.turn)))
  }

  function Unlocking(s: State, h: Host, path: string): (State, UnlockOutcome) {
    if path in s.unlocks then (s, s.unlocks[path])
    else
      var (v, allowance) := Allow(s, h, UNLOCK_TIMEOUT);
      UnlockFrom(v, h, path, allowance)
  }

  function UnlockFrom(v: State, h: Host, path: string, allowance: Option<nat>): (State, UnlockOutcome) {
    if allowance.None? then (v.(unlocks := v.unlocks[path := OutOfTime]), OutOfTime)
    else
      var after := Tried(v, path, allowance.value, h.reply(v.turn), h.reply(v.turn + 1), h.limit);
      (after, after.unlocks[path])
  }

  function Settle(s: State, h: Host, auth: Auth): (State, Auth) {
    var (v, spent) := Exhaust(s, h);
    (v, if spent && auth == Unknown then BecauseBudget else auth)
  }

  function Ask(s: State, h: Host, kind: Kind, profile: Option<string>): (State, Auth) {
    var (v, r) := Attempt(s, h, Task.AskAuth(kind, profile), PROBE_DEADLINE);
    if r.None? then (v, BecauseBudget) else Settle(v, h, r.value.auth)
  }

  function Resolve(s: State, h: Host, kind: Kind, profile: Profile, base: bool): (State, bool) {
    if !profile.movesPath then (s, base)
    else
      var (v, r) := Attempt(s, h, Locate(kind, Some(profile.name)), PROBE_DEADLINE);
      (v, r.Some? && r.value.found)
  }

  function ProbeAuth(s: State, h: Host, kind: Kind, profile: Profile, found: bool): (State, Auth) {
    if !found then
      var (v, spent) := Exhaust(s, h);
      (v, if spent then BecauseBudget else Unknown)
    else if profile.keychain.None? then Ask(s, h, kind, Some(profile.name))
    else
      var (v, outcome) := Unlocking(s, h, profile.keychain.value);
      match outcome
      case Refused => (v, BecauseUnlock)
      case OutOfTime => (v, BecauseBudget)
      case Unlocked => Ask(v, h, kind, Some(profile.name))
  }

  function OneProfile(s: State, h: Host, kind: Kind, profile: Profile, base: bool): (State, bool, Auth) {
    var (v, spent) := Exhaust(s, h);
    if spent then (v, false, BecauseBudget)
    else
      var (located, found) := Resolve(v, h, kind, profile, base);
      var (probed, auth) := ProbeAuth(located, h, kind, profile, found);
      (probed, found, auth)
  }

  function EachProfile(s: State, h: Host, kind: Kind, profiles: seq<Profile>, base: bool): (State, seq<(string, Auth)>,
      bool) {
    if profiles == [] then (s, [], false)
    else
      var (v, entries, any) := EachProfile(s, h, kind, profiles[..|profiles| - 1], base);
      var last := profiles[|profiles| - 1];
      if !last.secure then (v, entries, any)
      else
        var (after, found, auth) := OneProfile(v, h, kind, last, base);
        (after, entries + [(last.name, auth)], any || found)
  }

  function Finished(s: State, h: Host, kind: Kind, profiles: seq<Profile>, base: bool, version: Option<string>): (State,
      Option<AgentProbe>) {
    var (v, auth) := if base then Ask(s, h, kind, None) else (s, Unknown);
    var (after, entries, any) := EachProfile(v, h, kind, profiles, base);
    (after, if !base && !any then None else Some(AgentProbe(kind, version, auth, entries)))
  }

  function OneAgent(s: State, h: Host, kind: Kind, profiles: seq<Profile>): (State, Option<AgentProbe>) {
    var (v, spent) := Exhaust(s, h);
    if spent then (v, Some(Unfinished(kind, Secure(profiles))))
    else
      var (looked, r) := Attempt(v, h, Locate(kind, None), PROBE_DEADLINE);
      if r.None? then (looked, Some(Unfinished(kind, Secure(profiles))))
      else if !r.value.found && r.value.late && Exhaust(looked, h).1 then
        (Exhaust(looked, h).0, Some(Unfinished(kind, Secure(profiles))))
      else
        var from := if !r.value.found && r.value.late then Exhaust(looked, h).0 else looked;
        Finished(from, h, kind, profiles, r.value.found, r.value.version)
  }

  function Added(s: State, h: Host, agents: seq<AgentProbe>, kind: Kind, profiles: seq<Profile>): (State,
      seq<AgentProbe>) {
    var (after, agent) := OneAgent(s, h, kind, profiles);
    (after, if agent.Some? then agents + [agent.value] else agents)
  }

  function EachAgent(s: State, h: Host, k: nat, profiles: seq<Profile>): (State, seq<AgentProbe>)
    requires k <= |KINDS|
  {
    if k == 0 then (s, [])
    else
      var (v, agents) := EachAgent(s, h, k - 1, profiles);
      Added(v, h, agents, KINDS[k - 1], profiles)
  }

  function GitKeys(s: State, h: Host, keys: nat): (State, bool) {
    if keys == 0 then (s, true)
    else
      var (v, ok) := GitKeys(s, h, keys - 1);
      if !ok then (v, false)
      else
        var (after, r) := Attempt(v, h, GitKey, PROBE_DEADLINE);
        (after, r.Some? && r.value.ok)
  }

  function Herdr(s: State, h: Host, socket: bool): (State, nat) {
    var (located, r) := Attempt(s, h, HerdrLocate, PROBE_DEADLINE);
    if r.None? || !r.value.found || !socket then (located, 0)
    else
      var (pinged, p) := Attempt(located, h, HerdrPing, RESPONSE_DEADLINE);
      if p.None? || !p.value.ok then (pinged, 1)
      else
        var (listed, l) := Attempt(pinged, h, HerdrList, RESPONSE_DEADLINE);
        (listed, if l.None? then 2 else 3)
  }

  function HelperSeen(s: State, h: Host): (State, bool) {
    var (v, r) := Attempt(s, h, Helpers, PROBE_DEADLINE);
    if r.None? then (v, false)
    else
      var (after, q) := Attempt(v, h, Helpers, PROBE_DEADLINE);
      (after, r.value.ok || (q.Some? && q.value.ok))
  }

  function Others(s: State, h: Host, socket: bool): (State, bool, Option<nat>, bool) {
    var (a, noGit) := Exhaust(s, h);
    var (b, git) := if noGit then (a, false) else GitKeys(a, h, 2);
    var (c, noHerdr) := Exhaust(b, h);
    var (d, answered) := if noHerdr then (c, 0) else Herdr(c, h, socket);
    var (e, noHelpers) := Exhaust(d, h);
    var (f, seen) := if noHelpers then (e, false) else HelperSeen(e, h);
    (f, git, if noHerdr then None else Some(answered), seen)
  }

  /** The whole collection. */
  function Collected(s: State, h: Host, profiles: seq<Profile>, socket: bool): (State, Facts) {
    var (v, agents) := EachAgent(s, h, |KINDS|, profiles);
    var (after, git, herdr, seen) := Others(v, h, socket);
    (after, Facts(agents, git, herdr, seen))
  }

  // ---- the report ----

  function Unfinished(kind: Kind, secure: seq<Profile>): (a: AgentProbe)
    ensures Covers(a.profiles, secure) && forall i: nat :: i < |secure| ==> a.profiles[i].1 == BecauseBudget
  {
    AgentProbe(kind, None, BecauseBudget,
        seq(|secure|, i requires 0 <= i < |secure| => (secure[i].name, BecauseBudget)))
  }

  ghost predicate NotFound(log: seq<Step>, kind: Kind) {
    exists i: nat :: i < |log| && log[i].task == Locate(kind, None) && !log[i].reply.found
  }

  ghost predicate Reports(a: AgentProbe, kind: Kind, secure: seq<Profile>, s: State) {
    a.kind == kind && Covers(a.profiles, secure) && Unlocks(a.profiles, secure, s.unlocks)
  }

  function Place(kind: Kind): nat { match kind case Codex => 0 case Claude => 1 case Cursor => 2 case Opencode => 3 }

  /** Of the first `k` kinds each is reported or was looked for and not found; reports are
      in order, and each lists every secure profile. */
  ghost predicate Complete(agents: seq<AgentProbe>, secure: seq<Profile>, s: State, k: nat)
    requires k <= |KINDS|
  {
    && (forall i: nat :: i < |agents| ==> Place(agents[i].kind) < k && Reports(agents[i], agents[i].kind, secure, s))
    && (forall i: nat, j: nat :: i < j < |agents| ==> Place(agents[i].kind) < Place(agents[j].kind))
    && (forall n: nat :: n < k ==>
        NotFound(s.log, KINDS[n]) || exists i: nat :: i < |agents| && agents[i].kind == KINDS[n])
  }

  lemma {:induction false} StaysNotFound(a: State, b: State, kind: Kind)
    requires Extends(a, b) && NotFound(a.log, kind)
    ensures NotFound(b.log, kind)
  {
    var i: nat :| i < |a.log| && a.log[i].task == Locate(kind, None) && !a.log[i].reply.found;
    assert b.log[i] == a.log[i];
  }

  lemma {:induction false} StaysComplete(agents: seq<AgentProbe>, secure: seq<Profile>, a: State, b: State, k: nat)
    requires k <= |KINDS| && Extends(a, b) && Complete(agents, secure, a, k)
    ensures Complete(agents, secure, b, k)
  {
    forall i: nat | i < |agents| ensures Reports(agents[i], agents[i].kind, secure, b) {
      StaysOpen(agents[i].profiles, secure, a, b);
    }
    forall n: nat | n < k && NotFound(a.log, KINDS[n]) ensures NotFound(b.log, KINDS[n]) {
      StaysNotFound(a, b, KINDS[n]);
    }
  }

  lemma {:induction false} OneMore(agents: seq<AgentProbe>, agent: Option<AgentProbe>, secure: seq<Profile>, s: State,
      k: nat)
    requires k < |KINDS|
    requires if agent.Some? then agents != [] && agents[|agents| - 1] == agent.value
      && Complete(agents[..|agents| - 1], secure, s, k) && Reports(agent.value, KINDS[k], secure, s)
             else Complete(agents, secure, s, k) && NotFound(s.log, KINDS[k])
    ensures Complete(agents, secure, s, k + 1)
  {
    if agent.Some? {
      var m := |agents| - 1;
      var before := agents[..m];
      forall i: nat | i < m ensures agents[i] == before[i] {}
      forall n: nat | n < k
        ensures NotFound(s.log, KINDS[n]) || exists i: nat :: i < |agents| && agents[i].kind == KINDS[n]
      {
        if !NotFound(s.log, KINDS[n]) {
          var i: nat :| i < |before| && before[i].kind == KINDS[n];
          assert agents[i].kind == KINDS[n];
        }
      }
    }
  }

  // ---- what each part keeps ----

  lemma {:induction false} ExhaustLaw(s: State, h: Host, t0: nat)
    requires Sound(s, h.limit, t0)
    ensures var (v, spent) := Exhaust(s, h);
      && Sound(v, h.limit, t0) && Extends(s, v) && v.log == s.log && v.unlocks == s.unlocks
      && (spent <==> v.now >= h.limit)
  {
    ReadSound(s, h.reply(s.turn), h.limit, t0);
  }

  /** An allowance is all that is left or the cap, and nothing once the budget is spent. */
  lemma {:induction false} AllowLaw(s: State, h: Host, cap: nat, t0: nat)
    requires Sound(s, h.limit, t0)
    ensures var (v, allowance) := Allow(s, h, cap);
      && Sound(v, h.limit, t0) && Extends(s, v) && v.log == s.log && v.unlocks == s.unlocks
      && (allowance.None? <==> v.now >= h.limit)
      && (allowance.Some? ==> v.now + allowance.value <= h.limit && allowance.value <= cap
                              && (allowance.value == cap || v.now + allowance.value == h.limit))
  {
    ExhaustLaw(s, h, t0);
  }

  /** A step is started only with budget left, and is on record. */
  lemma {:induction false} AttemptLaw(s: State, h: Host, task: Task, cap: nat, t0: nat)
    requires Sound(s, h.limit, t0) && !task.Unlock?
    ensures var (v, r) := Attempt(s, h, task, cap);
      && Sound(v, h.limit, t0) && Extends(s, v) && v.unlocks == s.unlocks
      && (r.None? ==> v.now >= h.limit && v.log == s.log)
      && (r.Some? ==> |v.log| == |s.log| + 1 && v.log[|s.log|].task == task && v.log[|s.log|].reply == r.value)
  {
    AllowLaw(s, h, cap, t0);
    var (v, allowance) := Allow(s, h, cap);
    if allowance.Some? {
      StepTimely(v, task, allowance.value, h.reply(v.turn), h.limit, t0);
      StepOnce(v, task, allowance.value, h.reply(v.turn));
      Chain(s, v, Stepped(v, task, allowance.value, h.reply(v.turn)));
    }
  }

  /** The outcome of a path's only unlock, for every later user of the path. */
  lemma {:induction false} UnlockingLaw(s: State, h: Host, path: string, t0: nat)
    requires Sound(s, h.limit, t0)
    ensures var (v, outcome) := Unlocking(s, h, path);
      Sound(v, h.limit, t0) && Extends(s, v) && path in v.unlocks && v.unlocks[path] == outcome
  {
    if path !in s.unlocks {
      AllowLaw(s, h, UNLOCK_TIMEOUT, t0);
      var (v, allowance) := Allow(s, h, UNLOCK_TIMEOUT);
      if allowance.None? {
        OutOfTimeSound(s, v, path, h.limit, t0);
      } else {
        TriedLaw(v, h, path, allowance.value, t0);
        Chain(s, v, UnlockFrom(v, h, path, allowance).0);
      }
    }
  }

  lemma {:induction false} TriedLaw(v: State, h: Host, path: string, allowance: nat, t0: nat)
    requires Sound(v, h.limit, t0) && path !in v.unlocks && v.now < h.limit && v.now + allowance <= h.limit
    ensures var (after, outcome) := UnlockFrom(v, h, path, Some(allowance));
      Sound(after, h.limit, t0) && Extends(v, after) && path in after.unlocks && after.unlocks[path] == outcome
  {
    var r, next := h.reply(v.turn), h.reply(v.turn + 1);
    var after := Tried(v, path, allowance, r, next, h.limit);
    assert UnlockFrom(v, h, path, Some(allowance)) == (after, after.unlocks[path]);
    assert Sound(after, h.limit, t0) && Extends(v, after) by {
      TriedSound(v, path, allowance, r, next, h.limit, t0);
    }
  }

  lemma {:induction false} AskLaw(s: State, h: Host, kind: Kind, profile: Option<string>, t0: nat)
    requires Sound(s, h.limit, t0)
    ensures var (v, auth) := Ask(s, h, kind, profile);
      Sound(v, h.limit, t0) && Extends(s, v) && v.unlocks == s.unlocks && (auth == Unknown ==> v.now < h.limit)
  {
    AttemptLaw(s, h, Task.AskAuth(kind, profile), PROBE_DEADLINE, t0);
    var (v, r) := Attempt(s, h, Task.AskAuth(kind, profile), PROBE_DEADLINE);
    if r.Some? {
      ExhaustLaw(v, h, t0);
      Chain(s, v, Exhaust(v, h).0);
    }
  }

  lemma {:induction false} ResolveLaw(s: State, h: Host, kind: Kind, profile: Profile, base: bool, t0: nat)
    requires Sound(s, h.limit, t0)
    ensures var (v, found) := Resolve(s, h, kind, profile, base);
      && Sound(v, h.limit, t0) && Extends(s, v)
      && (found && profile.movesPath ==>
          |v.log| > 0 && v.log[|v.log| - 1].task == Locate(kind, Some(profile.name)) && v.log[|v.log| - 1].reply.found)
  {
    if profile.movesPath {
      AttemptLaw(s, h, Locate(kind, Some(profile.name)), PROBE_DEADLINE, t0);
    }
  }

  /** An answer about a login comes only from an open keychain and a found binary. */
  lemma {:induction false} ProbeAuthLaw(s: State, h: Host, kind: Kind, profile: Profile, found: bool, t0: nat)
    requires Sound(s, h.limit, t0)
    ensures var (v, auth) := ProbeAuth(s, h, kind, profile, found);
      Sound(v, h.limit, t0) && Extends(s, v) && (Answer(auth) ==> found && Open(profile, v.unlocks))
  {
    if !found {
      ExhaustLaw(s, h, t0);
    } else if profile.keychain.None? {
      AskLaw(s, h, kind, Some(profile.name), t0);
    } else {
      UnlockingLaw(s, h, profile.keychain.value, t0);
      var (v, outcome) := Unlocking(s, h, profile.keychain.value);
      if outcome == Unlocked {
        AskLaw(v, h, kind, Some(profile.name), t0);
        Chain(s, v, Ask(v, h, kind, Some(profile.name)).0);
      }
    }
  }

  lemma {:induction false} OneProfileLaw(s: State, h: Host, kind: Kind, profile: Profile, base: bool, t0: nat)
    requires Sound(s, h.limit, t0)
    ensures var (v, found, auth) := OneProfile(s, h, kind, profile, base);
      Sound(v, h.limit, t0) && Extends(s, v) && (Answer(auth) ==> Open(profile, v.unlocks))
  {
    ExhaustLaw(s, h, t0);
    var (v, spent) := Exhaust(s, h);
    if !spent {
      ResolveLaw(v, h, kind, profile, base, t0);
      var (located, found) := Resolve(v, h, kind, profile, base);
      ProbeAuthLaw(located, h, kind, profile, found, t0);
      Chain(s, v, located);
      Chain(s, located, ProbeAuth(located, h, kind, profile, found).0);
    }
  }

  /** The entries are the secure profiles, each once, in order. */
  lemma {:induction false} EachProfileLaw(s: State, h: Host, kind: Kind, profiles: seq<Profile>, base: bool, t0: nat)
    requires Sound(s, h.limit, t0)
    ensures var (v, entries, any) := EachProfile(s, h, kind, profiles, base);
      && Sound(v, h.limit, t0) && Extends(s, v)
      && Covers(entries, Secure(profiles)) && Unlocks(entries, Secure(profiles), v.unlocks)
    decreases |profiles|
  {
    if profiles != [] {
      var n := |profiles| - 1;
      EachProfileLaw(s, h, kind, profiles[..n], base, t0);
      var (v, entries, any) := EachProfile(s, h, kind, profiles[..n], base);
      if profiles[n].secure {
        OneProfileLaw(v, h, kind, profiles[n], base, t0);
        var (after, found, auth) := OneProfile(v, h, kind, profiles[n], base);
        Chain(s, v, after);
        OneMoreEntry(entries, Secure(profiles[..n]), profiles[n], auth, v, after);
      }
    }
  }

  lemma {:induction false} OneMoreEntry(entries: seq<(string, Auth)>, secure: seq<Profile>, last: Profile, auth: Auth,
      v: State, after: State)
    requires Covers(entries, secure) && Unlocks(entries, secure, v.unlocks) && Extends(v, after)
    requires Answer(auth) ==> Open(last, after.unlocks)
    ensures Covers(entries + [(last.name, auth)], secure + [last])
    ensures Unlocks(entries + [(last.name, auth)], secure + [last], after.unlocks)
  {
    StaysOpen(entries, secure, v, after);
  }

  lemma {:induction false} FinishedLaw(s: State, h: Host, kind: Kind, profiles: seq<Profile>, base: bool,
      version: Option<string>, t0: nat)
    requires Sound(s, h.limit, t0)
    ensures var (v, agent) := Finished(s, h, kind, profiles, base, version);
      && Sound(v, h.limit, t0) && Extends(s, v)
      && (if agent.Some? then Reports(agent.value, kind, Secure(profiles), v) else !base)
  {
    if base {
      AskLaw(s, h, kind, None, t0);
    }
    var (v, auth) := if base then Ask(s, h, kind, None) else (s, Unknown);
    EachProfileLaw(v, h, kind, profiles, base, t0);
    Chain(s, v, EachProfile(v, h, kind, profiles, base).0);
  }

  /** An agent is left out only after its default look did not find it. */
  lemma {:induction false} OneAgentLaw(s: State, h: Host, kind: Kind, profiles: seq<Profile>, t0: nat)
    requires Sound(s, h.limit, t0)
    ensures var (v, agent) := OneAgent(s, h, kind, profiles);
      && Sound(v, h.limit, t0) && Extends(s, v)
      && (if agent.Some? then Reports(agent.value, kind, Secure(profiles), v) else NotFound(v.log, kind))
  {
    ExhaustLaw(s, h, t0);
    var (v, spent) := Exhaust(s, h);
    UnfinishedReports(kind, Secure(profiles));
    if !spent {
      AttemptLaw(v, h, Locate(kind, None), PROBE_DEADLINE, t0);
      var (looked, r) := Attempt(v, h, Locate(kind, None), PROBE_DEADLINE);
      Chain(s, v, looked);
      if r.Some? {
        LookedLaw(s, v, looked, h, kind, profiles, r.value, t0);
      }
    }
  }

  lemma {:induction false} UnfinishedReports(kind: Kind, secure: seq<Profile>)
    ensures forall s: State :: Reports(Unfinished(kind, secure), kind, secure, s)
  {
  }

  /** The rest of an agent, once its default look has answered. */
  lemma {:induction false} LookedLaw(s: State, v: State, looked: State, h: Host, kind: Kind, profiles: seq<Profile>,
      r: Reply, t0: nat)
    requires Sound(looked, h.limit, t0) && Extends(s, looked) && |looked.log| == |v.log| + 1
    requires looked.log[|v.log|].task == Locate(kind, None) && looked.log[|v.log|].reply == r
    ensures var from := if !r.found && r.late then Exhaust(looked, h).0 else looked;
      && Sound(from, h.limit, t0) && Extends(s, from)
      && var (after, agent) := Finished(from, h, kind, profiles, r.found, r.version);
      && Sound(after, h.limit, t0) && Extends(s, after)
      && (if agent.Some? then Reports(agent.value, kind, Secure(profiles), after) else NotFound(after.log, kind))
  {
    ExhaustLaw(looked, h, t0);
    Chain(s, looked, Exhaust(looked, h).0);
    var from := if !r.found && r.late then Exhaust(looked, h).0 else looked;
    FinishedLaw(from, h, kind, profiles, r.found, r.version, t0);
    var (after, agent) := Finished(from, h, kind, profiles, r.found, r.version);
    Chain(s, from, after);
    assert after.log[|v.log|] == looked.log[|v.log|];
  }

  /** All agents: each reported or looked for and not found, in order. */
  lemma {:induction false} EachAgentLaw(s: State, h: Host, k: nat, profiles: seq<Profile>, t0: nat)
    requires k <= |KINDS| && Sound(s, h.limit, t0)
    ensures var (v, agents) := EachAgent(s, h, k, profiles);
      Sound(v, h.limit, t0) && Extends(s, v) && Complete(agents, Secure(profiles), v, k)
    decreases k
  {
    if k > 0 {
      EachAgentLaw(s, h, k - 1, profiles, t0);
      var (v, agents) := EachAgent(s, h, k - 1, profiles);
      AddedLaw(v, h, agents, k - 1, profiles, t0);
      Chain(s, v, Added(v, h, agents, KINDS[k - 1], profiles).0);
    }
  }

  lemma {:induction false} AddedLaw(s: State, h: Host, agents: seq<AgentProbe>, k: nat, profiles: seq<Profile>, t0: nat)
    requires k < |KINDS| && Sound(s, h.limit, t0) && Complete(agents, Secure(profiles), s, k)
    ensures var (v, more) := Added(s, h, agents, KINDS[k], profiles);
      Sound(v, h.limit, t0) && Extends(s, v) && Complete(more, Secure(profiles), v, k + 1)
  {
    OneAgentLaw(s, h, KINDS[k], profiles, t0);
    var (v, agent) := OneAgent(s, h, KINDS[k], profiles);
    StaysComplete(agents, Secure(profiles), s, v, k);
    var more := if agent.Some? then agents + [agent.value] else agents;
    OneMore(more, agent, Secure(profiles), v, k);
  }

  lemma {:induction false} GitKeysLaw(s: State, h: Host, keys: nat, t0: nat)
    requires Sound(s, h.limit, t0)
    ensures var (v, ok) := GitKeys(s, h, keys); Sound(v, h.limit, t0) && Extends(s, v)
    decreases keys
  {
    if keys > 0 {
      GitKeysLaw(s, h, keys - 1, t0);
      var (v, ok) := GitKeys(s, h, keys - 1);
      if ok {
        AttemptLaw(v, h, GitKey, PROBE_DEADLINE, t0);
        Chain(s, v, Attempt(v, h, GitKey, PROBE_DEADLINE).0);
      }
    }
  }

  lemma {:induction false} HerdrLaw(s: State, h: Host, socket: bool, t0: nat)
    requires Sound(s, h.limit, t0)
    ensures var (v, answered) := Herdr(s, h, socket); Sound(v, h.limit, t0) && Extends(s, v)
  {
    AttemptLaw(s, h, HerdrLocate, PROBE_DEADLINE, t0);
    var (located, r) := Attempt(s, h, HerdrLocate, PROBE_DEADLINE);
    AttemptLaw(located, h, HerdrPing, RESPONSE_DEADLINE, t0);
    var (pinged, p) := Attempt(located, h, HerdrPing, RESPONSE_DEADLINE);
    Chain(s, located, pinged);
    AttemptLaw(pinged, h, HerdrList, RESPONSE_DEADLINE, t0);
    Chain(s, pinged, Attempt(pinged, h, HerdrList, RESPONSE_DEADLINE).0);
  }

  lemma {:induction false} HelperLaw(s: State, h: Host, t0: nat)
    requires Sound(s, h.limit, t0)
    ensures var (v, seen) := HelperSeen(s, h); Sound(v, h.limit, t0) && Extends(s, v)
  {
    AttemptLaw(s, h, Helpers, PROBE_DEADLINE, t0);
    var (v, r) := Attempt(s, h, Helpers, PROBE_DEADLINE);
    AttemptLaw(v, h, Helpers, PROBE_DEADLINE, t0);
    Chain(s, v, Attempt(v, h, Helpers, PROBE_DEADLINE).0);
  }

  lemma {:induction false} OthersLaw(s: State, h: Host, socket: bool, t0: nat)
    requires Sound(s, h.limit, t0)
    ensures var (v, git, herdr, seen) := Others(s, h, socket); Sound(v, h.limit, t0) && Extends(s, v)
  {
    var (a, noGit) := Exhaust(s, h);
    ExhaustLaw(s, h, t0);
    var (b, git) := if noGit then (a, false) else GitKeys(a, h, 2);
    GitKeysLaw(a, h, 2, t0);
    Chain(s, a, b);
    var (c, noHerdr) := Exhaust(b, h);
    ExhaustLaw(b, h, t0);
    Chain(s, b, c);
    var (d, answered) := if noHerdr then (c, 0) else Herdr(c, h, socket);
    HerdrLaw(c, h, socket, t0);
    Chain(s, c, d);
    var (e, noHelpers) := Exhaust(d, h);
    ExhaustLaw(d, h, t0);
    Chain(s, d, e);
    HelperLaw(e, h, t0);
    Chain(s, e, HelperSeen(e, h).0);
  }

  /** For every host, budget and set of profiles: no step starts at or past the limit; if
      every step is punctual, every one ends within it and so does the collection, idle
      time aside; no keychain path is unlocked twice; and the report is complete. */
  lemma {:induction false} CollectedLaw(h: Host, t0: nat, profiles: seq<Profile>, socket: bool)
    ensures var (s, facts) := Collected(Begin(t0), h, profiles, socket);
      && (forall i: nat :: i < |s.log| ==> s.log[i].start < h.limit)
      && (Punctual(s.log) ==>
          (forall i: nat :: i < |s.log| ==> End(s.log[i]) <= h.limit) && s.now <= Max(h.limit, t0) + s.idle)
      && (forall i: nat, j: nat :: i < j < |s.log| && s.log[i].task.Unlock? ==> s.log[i].task != s.log[j].task)
      && Complete(facts.agents, Secure(profiles), s, |KINDS|)
  {
    EachAgentLaw(Begin(t0), h, |KINDS|, profiles, t0);
    var (v, agents) := EachAgent(Begin(t0), h, |KINDS|, profiles);
    OthersLaw(v, h, socket, t0);
    var (after, git, herdr, seen) := Others(v, h, socket);
    StaysComplete(agents, Secure(profiles), v, after, |KINDS|);
  }

  function Begin(t0: nat): State { State(t0, 0, 0, [], map[]) }

  // ---- the collection itself ----

  class Collector {
    var s: State
    const limit: nat
    const host: nat -> Reply

    constructor (limit: nat, t0: nat, host: nat -> Reply)
      ensures Here() == Host(limit, host) && s == Begin(t0)
    {
      this.limit, this.host := limit, host;
      s := Begin(t0);
    }

    function Here(): Host { Host(limit, host) }

    /** `FactsBudget::exhausted` */
    method Exhausted() returns (spent: bool)
      modifies this
      ensures (s, spent) == Exhaust(old(s), Here())
    {
      s := Read(s, host(s.turn));
      spent := s.now >= limit;
    }

    /** `FactsBudget::allowance` */
    method Allowance(cap: nat) returns (allowance: Option<nat>)
      modifies this
      ensures (s, allowance) == Allow(old(s), Here(), cap)
    {
      var spent := Exhausted();
      allowance := if spent then None else Some(if cap < limit - s.now then cap else limit - s.now);
    }

    /** A step with its own allowance; nothing is started once the budget is spent. */
    method Try(task: Task, cap: nat) returns (r: Option<Reply>)
      modifies this
      ensures (s, r) == Attempt(old(s), Here(), task, cap)
    {
      var allowance := Allowance(cap);
      if allowance.None? {
        return None;
      }
      r := Some(host(s.turn));
      s := Stepped(s, task, allowance.value, r.value);
    }

    /** `cached_or_unlock` */
    method CachedOrUnlock(path: string) returns (outcome: UnlockOutcome)
      modifies this
      ensures (s, outcome) == Unlocking(old(s), Here(), path)
    {
      if path in s.unlocks {
        return s.unlocks[path];
      }
      var allowance := Allowance(UNLOCK_TIMEOUT);
      if allowance.None? {
        s := s.(unlocks := s.unlocks[path := OutOfTime]);
        return OutOfTime;
      }
      var r := host(s.turn);
      s := Stepped(s, Unlock(path), allowance.value, r);
      outcome := if r.ok then Unlocked else Refused;
      if !r.ok && r.late {
        var spent := Exhausted();
        outcome := if spent then OutOfTime else Refused;
      }
      s := s.(unlocks := s.unlocks[path := outcome]);
    }

    method AskAuth(kind: Kind, profile: Option<string>) returns (auth: Auth)
      modifies this
      ensures (s, auth) == Ask(old(s), Here(), kind, profile)
    {
      var r := Try(Task.AskAuth(kind, profile), PROBE_DEADLINE);
      if r.None? {
        return BecauseBudget;
      }
      var spent := Exhausted();
      auth := if spent && r.value.auth == Unknown then BecauseBudget else r.value.auth;
    }

    /** `resolve_profile_binary` */
    method ResolveBinary(kind: Kind, profile: Profile, base: bool) returns (found: bool)
      modifies this
      ensures (s, found) == Resolve(old(s), Here(), kind, profile, base)
    {
      if !profile.movesPath {
        return base;
      }
      var r := Try(Locate(kind, Some(profile.name)), PROBE_DEADLINE);
      found := r.Some? && r.value.found;
    }

    /** `probe_profile_auth` */
    method ProbeProfile(kind: Kind, profile: Profile, found: bool) returns (auth: Auth)
      modifies this
      ensures (s, auth) == ProbeAuth(old(s), Here(), kind, profile, found)
    {
      if !found {
        var spent := Exhausted();
        return if spent then BecauseBudget else Unknown;
      }
      if profile.keychain.Some? {
        var outcome := CachedOrUnlock(profile.keychain.value);
        match outcome {
          case Refused => return BecauseUnlock;
          case OutOfTime => return BecauseBudget;
          case Unlocked =>
        }
      }
      auth := AskAuth(kind, Some(profile.name));
    }

    /** The loop over the secure profiles. */
    method CollectProfiles(kind: Kind, profiles: seq<Profile>, base: bool) returns (entries: seq<(string, Auth)>,
        any: bool)
      modifies this
      ensures (s, entries, any) == EachProfile(old(s), Here(), kind, profiles, base)
    {
      entries, any := [], false;
      for i := 0 to |profiles|
        invariant (s, entries, any) == EachProfile(old(s), Here(), kind, profiles[..i], base)
      {
        var profile := profiles[i];
        assert profiles[..i + 1][..i] == profiles[..i];
        if profile.secure {
          var found, auth := CollectProfile(kind, profile, base);
          any := any || found;
          entries := entries + [(profile.name, auth)];
        }
      }
      assert profiles[..|profiles|] == profiles;
    }

    method CollectProfile(kind: Kind, profile: Profile, base: bool) returns (found: bool, auth: Auth)
      modifies this
      ensures (s, found, auth) == OneProfile(old(s), Here(), kind, profile, base)
    {
      var spent := Exhausted();
      if spent {
        return false, BecauseBudget;
      }
      found := ResolveBinary(kind, profile, base);
      auth := ProbeProfile(kind, profile, found);
    }

    method CollectAgent(kind: Kind, profiles: seq<Profile>) returns (agent: Option<AgentProbe>)
      modifies this
      ensures (s, agent) == OneAgent(old(s), Here(), kind, profiles)
    {
      var spent := Exhausted();
      if spent {
        return Some(Unfinished(kind, Secure(profiles)));
      }
      var located := Try(Locate(kind, None), PROBE_DEADLINE);
      if located.None? {
        return Some(Unfinished(kind, Secure(profiles)));
      }
      var base := located.value.found;
      if !base && located.value.late {
        spent := Exhausted();
        if spent {
          return Some(Unfinished(kind, Secure(profiles)));
        }
      }
      agent := Finish(kind, profiles, base, located.value.version);
    }

    method Finish(kind: Kind, profiles: seq<Profile>, base: bool,
        version: Option<string>) returns (agent: Option<AgentProbe>)
      modifies this
      ensures (s, agent) == Finished(old(s), Here(), kind, profiles, base, version)
    {
      var auth := Unknown;
      if base {
        auth := AskAuth(kind, None);
      }
      var entries, any := CollectProfiles(kind, profiles, base);
      agent := if !base && !any then None else Some(AgentProbe(kind, version, auth, entries));
    }

    /** `collect_git_identity`: both keys, the second only if the first is set. */
    method CollectGitIdentity() returns (ok: bool)
      modifies this
      ensures (s, ok) == GitKeys(old(s), Here(), 2)
    {
      ok := true;
      for key := 0 to 2
        invariant (s, ok) == GitKeys(old(s), Here(), key)
      {
        if ok {
          var r := Try(GitKey, PROBE_DEADLINE);
          ok := r.Some? && r.value.ok;
        }
      }
    }

    /** `collect_herdr_facts`, down to how many steps answered. */
    method CollectHerdr(socket: bool) returns (answered: nat)
      modifies this
      ensures (s, answered) == Herdr(old(s), Here(), socket)
    {
      var r := Try(HerdrLocate, PROBE_DEADLINE);
      if r.None? || !r.value.found || !socket {
        return 0;
      }
      r := Try(HerdrPing, RESPONSE_DEADLINE);
      if r.None? || !r.value.ok {
        return 1;
      }
      r := Try(HerdrList, RESPONSE_DEADLINE);
      answered := if r.None? then 2 else 3;
    }

    /** `collect_origin_https_helpers`, down to whether a helper was seen. */
    method CollectHelpers() returns (any: bool)
      modifies this
      ensures (s, any) == HelperSeen(old(s), Here())
    {
      any := false;
      var r := Try(Helpers, PROBE_DEADLINE);
      if r.None? {
        return;
      }
      any := r.value.ok;
      r := Try(Helpers, PROBE_DEADLINE);
      any := any || (r.Some? && r.value.ok);
    }

    method CollectAgents(profiles: seq<Profile>) returns (agents: seq<AgentProbe>)
      modifies this
      ensures (s, agents) == EachAgent(old(s), Here(), |KINDS|, profiles)
    {
      agents := [];
      for k := 0 to |KINDS|
        invariant (s, agents) == EachAgent(old(s), Here(), k, profiles)
      {
        agents := AddAgent(agents, KINDS[k], profiles);
      }
    }

    method AddAgent(agents: seq<AgentProbe>, kind: Kind, profiles: seq<Profile>) returns (more: seq<AgentProbe>)
      modifies this
      ensures (s, more) == Added(old(s), Here(), agents, kind, profiles)
    {
      var agent := CollectAgent(kind, profiles);
      more := if agent.Some? then agents + [agent.value] else agents;
    }

    /** `collect_agent_facts_into` */
    method Collect(profiles: seq<Profile>, socket: bool) returns (facts: Facts)
      modifies this
      ensures (s, facts) == Collected(old(s), Here(), profiles, socket)
    {
      var agents := CollectAgents(profiles);
      var git, herdr, helpers := CollectRest(socket);
      facts := Facts(agents, git, herdr, helpers);
    }

    /** What follows the agents, each part only with budget left. */
    method CollectRest(socket: bool) returns (git: bool, herdr: Option<nat>, helpers: bool)
      modifies this
      ensures (s, git, herdr, helpers) == Others(old(s), Here(), socket)
    {
      git, herdr, helpers := false, None, false;
      var spent := Exhausted();
      if !spent {
        git := CollectGitIdentity();
      }
      spent := Exhausted();
      if !spent {
        var answered := CollectHerdr(socket);
        herdr := Some(answered);
      }
      spent := Exhausted();
      if !spent {
        helpers := CollectHelpers();
      }
    }
  }
}
