/** Where the answers of a report come from: every one is the host's reply to the step that
    asked for it, or says why there was none. */
module FactsReport {
  import opened Basics
  import opened FactsCollection

  // ---- Going on --------------------------------------------------------------------------

  /** The collection has gone on: nothing on record is lost, and time does not go back. */
  ghost predicate Onward(a: State, b: State) { Extends(a, b) && a.now <= b.now }

  lemma {:induction false} On(a: State, b: State, c: State)
    requires Onward(a, b) && Onward(b, c)
    ensures Onward(a, c)
  {
    Chain(a, b, c);
  }

  /** A step for this task got this reply. */
  ghost predicate Replied(s: State, task: Task, r: Reply) {
    exists i: nat :: i < |s.log| && s.log[i].task == task && s.log[i].reply == r
  }

  lemma {:induction false} StillReplied(a: State, b: State, task: Task, r: Reply)
    requires Onward(a, b) && Replied(a, task, r)
    ensures Replied(b, task, r)
  {
    var i: nat :| i < |a.log| && a.log[i].task == task && a.log[i].reply == r;
    assert b.log[i] == a.log[i];
  }

  /** What is on record about a path is what its unlock came to, or that time had run out. */
  ghost predicate Marked(s: State, limit: nat) {
    forall p :: p in s.unlocks ==> match s.unlocks[p]
      case Unlocked => exists r: Reply :: r.ok && Replied(s, Unlock(p), r)
      case Refused => exists r: Reply :: !r.ok && Replied(s, Unlock(p), r)
      case OutOfTime => s.now >= limit
  }

  lemma {:induction false} StillMarked(a: State, b: State, limit: nat)
    requires Onward(a, b) && Marked(a, limit) && b.unlocks == a.unlocks
    ensures Marked(b, limit)
  {
    forall task: Task, r: Reply | Replied(a, task, r) ensures Replied(b, task, r) {
      StillReplied(a, b, task, r);
    }
  }

  lemma {:induction false} ExhaustGoesOn(s: State, h: Host)
    requires Marked(s, h.limit)
    ensures var (v, spent) := Exhaust(s, h);
      Onward(s, v) && Marked(v, h.limit) && v.log == s.log && (spent <==> v.now >= h.limit)
  {
    StillMarked(s, Exhaust(s, h).0, h.limit);
  }

  /** A step that was started is answered on record; none is started once time has run out. */
  lemma {:induction false} AttemptReply(s: State, h: Host, task: Task, cap: nat)
    requires Marked(s, h.limit)
    ensures var (v, r) := Attempt(s, h, task, cap);
      && Onward(s, v) && Marked(v, h.limit) && v.unlocks == s.unlocks
      && (if r.Some? then Replied(v, task, r.value) else v.now >= h.limit)
  {
    var (v, r) := Attempt(s, h, task, cap);
    if r.Some? {
      assert v.log[|s.log|].task == task && v.log[|s.log|].reply == r.value;
    }
    StillMarked(s, v, h.limit);
  }

  lemma {:induction false} UnlockingReply(s: State, h: Host, path: string)
    requires Marked(s, h.limit)
    ensures var (v, outcome) := Unlocking(s, h, path);
      Onward(s, v) && Marked(v, h.limit) && path in v.unlocks && v.unlocks[path] == outcome
  {
    if path !in s.unlocks {
      var (v, allowance) := Allow(s, h, UNLOCK_TIMEOUT);
      StillMarked(s, v, h.limit);
      if allowance.Some? {
        TriedReply(v, h, path, allowance.value);
        On(s, v, UnlockFrom(v, h, path, allowance).0);
      }
    }
  }

  lemma {:induction false} TriedReply(v: State, h: Host, path: string, allowance: nat)
    requires Marked(v, h.limit) && path !in v.unlocks
    ensures var (after, outcome) := UnlockFrom(v, h, path, Some(allowance));
      Onward(v, after) && Marked(after, h.limit) && path in after.unlocks && after.unlocks[path] == outcome
  {
    var r, next := h.reply(v.turn), h.reply(v.turn + 1);
    var after := Tried(v, path, allowance, r, next, h.limit);
    assert UnlockFrom(v, h, path, Some(allowance)) == (after, after.unlocks[path]);
    assert Onward(v, after) && Marked(after, h.limit) by {
      TriedGoesOn(v, path, allowance, r, next, h.limit);
      TriedMarked(v, after, path, r, h.limit);
    }
  }

  lemma {:induction false} TriedGoesOn(v: State, path: string, allowance: nat, r: Reply, next: Reply, limit: nat)
    requires path !in v.unlocks
    ensures var after := Tried(v, path, allowance, r, next, limit);
      && Onward(v, after) && Replied(after, Unlock(path), r) && path in after.unlocks
      && after.unlocks == v.unlocks[path := after.unlocks[path]]
      && (after.unlocks[path] == Unlocked <==> r.ok) && (after.unlocks[path] == OutOfTime ==> after.now >= limit)
  {
    var after := Tried(v, path, allowance, r, next, limit);
    assert after.log[|v.log|] == Step(Unlock(path), v.now, allowance, r);
  }

  lemma {:induction false} TriedMarked(v: State, after: State, path: string, r: Reply, limit: nat)
    requires Marked(v, limit) && Onward(v, after) && Replied(after, Unlock(path), r) && path in after.unlocks
    requires after.unlocks == v.unlocks[path := after.unlocks[path]]
    requires (after.unlocks[path] == Unlocked <==> r.ok) && (after.unlocks[path] == OutOfTime ==> after.now >= limit)
    ensures Marked(after, limit)
  {
    forall task: Task, q: Reply | Replied(v, task, q) ensures Replied(after, task, q) {
      StillReplied(v, after, task, q);
    }
  }

  // ---- Logins ------------------------------------------------------------------------------

  /** The answer is the reply to the question about that login; only one that came to nothing
      is put down to the time, when that has run out. */
  ghost predicate Told(s: State, limit: nat, kind: Kind, who: Option<string>, auth: Auth) {
    || (auth == BecauseBudget && s.now >= limit)
    || exists r: Reply :: r.auth == auth && Replied(s, Task.AskAuth(kind, who), r)
  }

  lemma {:induction false} StillTold(a: State, b: State, limit: nat, kind: Kind, who: Option<string>, auth: Auth)
    requires Onward(a, b) && Told(a, limit, kind, who, auth)
    ensures Told(b, limit, kind, who, auth)
  {
    if r: Reply :| r.auth == auth && Replied(a, Task.AskAuth(kind, who), r) {
      StillReplied(a, b, Task.AskAuth(kind, who), r);
    }
  }

  lemma {:induction false} AskTold(s: State, h: Host, kind: Kind, who: Option<string>)
    requires Marked(s, h.limit)
    ensures var (v, auth) := Ask(s, h, kind, who);
      Onward(s, v) && Marked(v, h.limit) && v.unlocks == s.unlocks && Told(v, h.limit, kind, who, auth)
  {
    var task := Task.AskAuth(kind, who);
    AttemptReply(s, h, task, PROBE_DEADLINE);
    var (v, r) := Attempt(s, h, task, PROBE_DEADLINE);
    if r.Some? {
      ExhaustGoesOn(v, h);
      var after := Exhaust(v, h).0;
      On(s, v, after);
      StillReplied(v, after, task, r.value);
    }
  }

  /** The binary of this profile was looked for and not found: by a look of its own if its
      entries can move it, by the default look otherwise. */
  ghost predicate Missing(s: State, kind: Kind, profile: Profile, base: bool) {
    if profile.movesPath then exists r: Reply :: !r.found && Replied(s, Locate(kind, Some(profile.name)), r) else !base
  }

  lemma {:induction false} StillMissing(a: State, b: State, kind: Kind, profile: Profile, base: bool)
    requires Onward(a, b) && Missing(a, kind, profile, base)
    ensures Missing(b, kind, profile, base)
  {
    if profile.movesPath {
      var r: Reply :| !r.found && Replied(a, Locate(kind, Some(profile.name)), r);
      StillReplied(a, b, Locate(kind, Some(profile.name)), r);
    }
  }

  lemma {:induction false} ResolveFound(s: State, h: Host, kind: Kind, profile: Profile, base: bool)
    requires Marked(s, h.limit)
    ensures var (v, found) := Resolve(s, h, kind, profile, base);
      Onward(s, v) && Marked(v, h.limit) && (found || v.now >= h.limit || Missing(v, kind, profile, base))
  {
    if profile.movesPath {
      AttemptReply(s, h, Locate(kind, Some(profile.name)), PROBE_DEADLINE);
    }
  }

  /** What a profile's entry says: the reply about its login, from behind an open keychain; or
      that its binary is missing, its keychain was refused, or time had run out. */
  ghost predicate Explained(s: State, limit: nat, kind: Kind, profile: Profile, base: bool, auth: Auth) {
    || (auth == BecauseBudget && s.now >= limit)
    || (auth == Unknown && Missing(s, kind, profile, base))
    || (auth == BecauseUnlock && profile.keychain.Some?
        && exists r: Reply :: !r.ok && Replied(s, Unlock(profile.keychain.value), r))
    || (Told(s, limit, kind, Some(profile.name), auth) && Open(profile, s.unlocks))
  }

  lemma {:induction false} StillExplained(a: State, b: State, limit: nat, kind: Kind, profile: Profile, base: bool,
      auth: Auth)
    requires Onward(a, b) && Explained(a, limit, kind, profile, base, auth)
    ensures Explained(b, limit, kind, profile, base, auth)
  {
    if Missing(a, kind, profile, base) {
      StillMissing(a, b, kind, profile, base);
    }
    if Told(a, limit, kind, Some(profile.name), auth) {
      StillTold(a, b, limit, kind, Some(profile.name), auth);
    }
    forall task: Task, r: Reply | Replied(a, task, r) ensures Replied(b, task, r) {
      StillReplied(a, b, task, r);
    }
  }

  lemma {:induction false} ProbeAuthExplained(s: State, h: Host, kind: Kind, profile: Profile, base: bool, found: bool)
    requires Marked(s, h.limit) && (found || s.now >= h.limit || Missing(s, kind, profile, base))
    ensures var (v, auth) := ProbeAuth(s, h, kind, profile, found);
      Onward(s, v) && Marked(v, h.limit) && Explained(v, h.limit, kind, profile, base, auth)
  {
    if !found {
      ExhaustGoesOn(s, h);
      if Missing(s, kind, profile, base) {
        StillMissing(s, Exhaust(s, h).0, kind, profile, base);
      }
    } else if profile.keychain.None? {
      AskTold(s, h, kind, Some(profile.name));
    } else {
      UnlockingReply(s, h, profile.keychain.value);
      var (v, outcome) := Unlocking(s, h, profile.keychain.value);
      if outcome == Unlocked {
        AskTold(v, h, kind, Some(profile.name));
        On(s, v, Ask(v, h, kind, Some(profile.name)).0);
      }
    }
  }

  lemma {:induction false} OneProfileExplained(s: State, h: Host, kind: Kind, profile: Profile, base: bool)
    requires Marked(s, h.limit)
    ensures var (v, found, auth) := OneProfile(s, h, kind, profile, base);
      && Onward(s, v) && Marked(v, h.limit) && Explained(v, h.limit, kind, profile, base, auth)
      && (found || v.now >= h.limit || Missing(v, kind, profile, base))
  {
    ExhaustGoesOn(s, h);
    var (v, spent) := Exhaust(s, h);
    if !spent {
      ResolveFound(v, h, kind, profile, base);
      var (located, found) := Resolve(v, h, kind, profile, base);
      ProbeAuthExplained(located, h, kind, profile, base, found);
      var after := ProbeAuth(located, h, kind, profile, found).0;
      On(s, v, located);
      On(s, located, after);
      if Missing(located, kind, profile, base) {
        StillMissing(located, after, kind, profile, base);
      }
    }
  }

  // ---- Agents ------------------------------------------------------------------------------

  /** One entry for every secure profile, in order, and each says what it should. */
  ghost predicate EntriesExplained(s: State, limit: nat, kind: Kind, entries: seq<(string, Auth)>,
      secure: seq<Profile>, base: bool) {
    && |entries| == |secure|
    && forall i: nat :: i < |secure| ==>
        entries[i].0 == secure[i].name && Explained(s, limit, kind, secure[i], base, entries[i].1)
  }

  lemma {:induction false} StillEntries(a: State, b: State, limit: nat, kind: Kind, entries: seq<(string, Auth)>,
      secure: seq<Profile>, base: bool)
    requires Onward(a, b) && EntriesExplained(a, limit, kind, entries, secure, base)
    ensures EntriesExplained(b, limit, kind, entries, secure, base)
  {
    forall i: nat | i < |secure| ensures Explained(b, limit, kind, secure[i], base, entries[i].1) {
      StillExplained(a, b, limit, kind, secure[i], base, entries[i].1);
    }
  }

  /** No secure profile has the binary, as far as time allowed to look. */
  ghost predicate NowhereFound(s: State, limit: nat, kind: Kind, secure: seq<Profile>, base: bool) {
    s.now >= limit || forall i: nat :: i < |secure| ==> Missing(s, kind, secure[i], base)
  }

  lemma {:induction false} StillNowhere(a: State, b: State, limit: nat, kind: Kind, secure: seq<Profile>, base: bool)
    requires Onward(a, b) && NowhereFound(a, limit, kind, secure, base)
    ensures NowhereFound(b, limit, kind, secure, base)
  {
    if a.now < limit {
      forall i: nat | i < |secure| ensures Missing(b, kind, secure[i], base) {
        StillMissing(a, b, kind, secure[i], base);
      }
    }
  }

  lemma {:induction false} EachProfileExplained(s: State, h: Host, kind: Kind, profiles: seq<Profile>, base: bool)
    requires Marked(s, h.limit)
    ensures var (v, entries, any) := EachProfile(s, h, kind, profiles, base);
      && Onward(s, v) && Marked(v, h.limit)
      && EntriesExplained(v, h.limit, kind, entries, Secure(profiles), base)
      && (any || NowhereFound(v, h.limit, kind, Secure(profiles), base))
    decreases |profiles|
  {
    if profiles != [] {
      var n := |profiles| - 1;
      EachProfileExplained(s, h, kind, profiles[..n], base);
      var (v, entries, any) := EachProfile(s, h, kind, profiles[..n], base);
      if profiles[n].secure {
        OneProfileExplained(v, h, kind, profiles[n], base);
        var (after, found, auth) := OneProfile(v, h, kind, profiles[n], base);
        On(s, v, after);
        var secure := Secure(profiles[..n]);
        StillEntries(v, after, h.limit, kind, entries, secure, base);
        EntryAdded(after, h.limit, kind, entries, secure, profiles[n], base, auth);
        if !any && !found {
          StillNowhere(v, after, h.limit, kind, secure, base);
          NowhereAdded(after, h.limit, kind, secure, profiles[n], base);
        }
      }
    }
  }

  lemma {:induction false} EntryAdded(s: State, limit: nat, kind: Kind, entries: seq<(string, Auth)>,
      secure: seq<Profile>, last: Profile, base: bool, auth: Auth)
    requires EntriesExplained(s, limit, kind, entries, secure, base) && Explained(s, limit, kind, last, base, auth)
    ensures EntriesExplained(s, limit, kind, entries + [(last.name, auth)], secure + [last], base)
  {
  }

  lemma {:induction false} NowhereAdded(s: State, limit: nat, kind: Kind, secure: seq<Profile>, last: Profile,
      base: bool)
    requires NowhereFound(s, limit, kind, secure, base) && (s.now >= limit || Missing(s, kind, last, base))
    ensures NowhereFound(s, limit, kind, secure + [last], base)
  {
  }

  /** The report of an agent: its version is what the default look saw, its login what was
      answered there; without the binary there the login is unknown. An agent that was not
      looked for has nothing, because time had run out. */
  ghost predicate AgentExplained(s: State, limit: nat, a: AgentProbe, secure: seq<Profile>) {
    || (s.now >= limit && a.version.None? && a.auth == BecauseBudget && |a.profiles| == |secure|
        && forall i: nat :: i < |secure| ==> a.profiles[i] == (secure[i].name, BecauseBudget))
    || exists r: Reply :: Looked(s, limit, a, secure, r)
  }

  ghost predicate Looked(s: State, limit: nat, a: AgentProbe, secure: seq<Profile>, r: Reply) {
    && Replied(s, Locate(a.kind, None), r) && a.version == r.version
    && (if r.found then Told(s, limit, a.kind, None, a.auth) else a.auth == Unknown)
    && EntriesExplained(s, limit, a.kind, a.profiles, secure, r.found)
  }

  lemma {:induction false} StillAgent(a: State, b: State, limit: nat, agent: AgentProbe, secure: seq<Profile>)
    requires Onward(a, b) && AgentExplained(a, limit, agent, secure)
    ensures AgentExplained(b, limit, agent, secure)
  {
    if r: Reply :| Looked(a, limit, agent, secure, r) {
      StillReplied(a, b, Locate(agent.kind, None), r);
      if r.found {
        StillTold(a, b, limit, agent.kind, None, agent.auth);
      }
      StillEntries(a, b, limit, agent.kind, agent.profiles, secure, r.found);
      assert Looked(b, limit, agent, secure, r);
    }
  }

  /** An agent that is not reported was looked for and not found, nor by any profile. */
  ghost predicate Absent(s: State, limit: nat, kind: Kind, secure: seq<Profile>) {
    && (exists r: Reply :: !r.found && Replied(s, Locate(kind, None), r))
    && NowhereFound(s, limit, kind, secure, false)
  }

  lemma {:induction false} StillAbsent(a: State, b: State, limit: nat, kind: Kind, secure: seq<Profile>)
    requires Onward(a, b) && Absent(a, limit, kind, secure)
    ensures Absent(b, limit, kind, secure)
  {
    var r: Reply :| !r.found && Replied(a, Locate(kind, None), r);
    StillReplied(a, b, Locate(kind, None), r);
    StillNowhere(a, b, limit, kind, secure, false);
  }

  lemma {:induction false} FinishedExplained(s: State, h: Host, kind: Kind, profiles: seq<Profile>, r: Reply)
    requires Marked(s, h.limit) && Replied(s, Locate(kind, None), r)
    ensures var (v, agent) := Finished(s, h, kind, profiles, r.found, r.version);
      && Onward(s, v) && Marked(v, h.limit)
      && (if agent.Some? then agent.value.kind == kind && AgentExplained(v, h.limit, agent.value, Secure(profiles))
          else Absent(v, h.limit, kind, Secure(profiles)))
  {
    if r.found {
      AskTold(s, h, kind, None);
    }
    var (v, auth) := if r.found then Ask(s, h, kind, None) else (s, Unknown);
    EachProfileExplained(v, h, kind, profiles, r.found);
    var (after, entries, any) := EachProfile(v, h, kind, profiles, r.found);
    On(s, v, after);
    StillReplied(s, after, Locate(kind, None), r);
    if r.found {
      StillTold(v, after, h.limit, kind, None, auth);
    }
    assert r.found || any ==> Looked(after, h.limit, AgentProbe(kind, r.version, auth, entries), Secure(profiles), r);
  }

  lemma {:induction false} OneAgentExplained(s: State, h: Host, kind: Kind, profiles: seq<Profile>)
    requires Marked(s, h.limit)
    ensures var (v, agent) := OneAgent(s, h, kind, profiles);
      && Onward(s, v) && Marked(v, h.limit)
      && (if agent.Some? then agent.value.kind == kind && AgentExplained(v, h.limit, agent.value, Secure(profiles))
          else Absent(v, h.limit, kind, Secure(profiles)))
  {
    ExhaustGoesOn(s, h);
    var (v, spent) := Exhaust(s, h);
    if !spent {
      AttemptReply(v, h, Locate(kind, None), PROBE_DEADLINE);
      var (looked, r) := Attempt(v, h, Locate(kind, None), PROBE_DEADLINE);
      On(s, v, looked);
      if r.Some? {
        LookedOn(s, looked, h, kind, profiles, r.value);
      }
    }
  }

  lemma {:induction false} LookedOn(s: State, looked: State, h: Host, kind: Kind, profiles: seq<Profile>, r: Reply)
    requires Marked(looked, h.limit) && Onward(s, looked) && Replied(looked, Locate(kind, None), r)
    ensures var from := if !r.found && r.late then Exhaust(looked, h).0 else looked;
      && Onward(s, from) && Marked(from, h.limit)
      && (!r.found && r.late ==> (Exhaust(looked, h).1 <==> from.now >= h.limit))
      && var (after, agent) := Finished(from, h, kind, profiles, r.found, r.version);
      && Onward(s, after) && Marked(after, h.limit)
      && (if agent.Some? then agent.value.kind == kind && AgentExplained(after, h.limit, agent.value, Secure(profiles))
          else Absent(after, h.limit, kind, Secure(profiles)))
  {
    ExhaustGoesOn(looked, h);
    On(s, looked, Exhaust(looked, h).0);
    var from := if !r.found && r.late then Exhaust(looked, h).0 else looked;
    assert Onward(looked, from);
    StillReplied(looked, from, Locate(kind, None), r);
    FinishedExplained(from, h, kind, profiles, r);
    On(s, from, Finished(from, h, kind, profiles, r.found, r.version).0);
  }

  /** Of the first `k` kinds each is reported, and says what it should, or was not found. */
  ghost predicate AgentsExplained(s: State, limit: nat, agents: seq<AgentProbe>, secure: seq<Profile>, k: nat)
    requires k <= |KINDS|
  {
    && (forall i: nat :: i < |agents| ==> AgentExplained(s, limit, agents[i], secure))
    && (forall n: nat :: n < k ==> Absent(s, limit, KINDS[n], secure) || Reported(agents, KINDS[n]))
  }

  ghost predicate Reported(agents: seq<AgentProbe>, kind: Kind) {
    exists i: nat :: i < |agents| && agents[i].kind == kind
  }

  lemma {:induction false} StillAgents(a: State, b: State, limit: nat, agents: seq<AgentProbe>, secure: seq<Profile>,
      k: nat)
    requires k <= |KINDS| && Onward(a, b) && AgentsExplained(a, limit, agents, secure, k)
    ensures AgentsExplained(b, limit, agents, secure, k)
  {
    forall i: nat | i < |agents| ensures AgentExplained(b, limit, agents[i], secure) {
      StillAgent(a, b, limit, agents[i], secure);
    }
    forall n: nat | n < k ensures Absent(b, limit, KINDS[n], secure) || Reported(agents, KINDS[n]) {
      if Absent(a, limit, KINDS[n], secure) {
        StillAbsent(a, b, limit, KINDS[n], secure);
      }
    }
  }

  lemma {:induction false} EachAgentExplained(s: State, h: Host, k: nat, profiles: seq<Profile>)
    requires k <= |KINDS| && Marked(s, h.limit)
    ensures var (v, agents) := EachAgent(s, h, k, profiles);
      Onward(s, v) && Marked(v, h.limit) && AgentsExplained(v, h.limit, agents, Secure(profiles), k)
    decreases k
  {
    if k > 0 {
      EachAgentExplained(s, h, k - 1, profiles);
      var (v, agents) := EachAgent(s, h, k - 1, profiles);
      OneAgentExplained(v, h, KINDS[k - 1], profiles);
      var (after, agent) := OneAgent(v, h, KINDS[k - 1], profiles);
      On(s, v, after);
      StillAgents(v, after, h.limit, agents, Secure(profiles), k - 1);
      AgentAdded(after, h.limit, agents, agent, Secure(profiles), k - 1);
    }
  }

  lemma {:induction false} AgentAdded(s: State, limit: nat, agents: seq<AgentProbe>, agent: Option<AgentProbe>,
      secure: seq<Profile>, k: nat)
    requires k < |KINDS| && AgentsExplained(s, limit, agents, secure, k)
    requires if agent.Some? then agent.value.kind == KINDS[k] && AgentExplained(s, limit, agent.value, secure)
             else Absent(s, limit, KINDS[k], secure)
    ensures AgentsExplained(s, limit, if agent.Some? then agents + [agent.value] else agents, secure, k + 1)
  {
    if agent.Some? {
      var more := agents + [agent.value];
      assert more[|agents|].kind == KINDS[k];
      forall n: nat | n < k && Reported(agents, KINDS[n]) ensures Reported(more, KINDS[n]) {
        var i: nat :| i < |agents| && agents[i].kind == KINDS[n];
        assert more[i].kind == KINDS[n];
      }
    }
  }

  // ---- The rest of the report --------------------------------------------------------------

  /** Every look from `from` on for a Git key found one. */
  ghost predicate KeysFound(s: State, from: nat, keys: nat) {
    from + keys <= |s.log| && forall i: nat :: from <= i < from + keys ==> s.log[i].task == GitKey && s.log[i].reply.ok
  }

  lemma {:induction false} GitKeysExplained(s: State, h: Host, keys: nat)
    requires Marked(s, h.limit)
    ensures var (v, ok) := GitKeys(s, h, keys);
      && Onward(s, v) && Marked(v, h.limit)
      && (if ok then |v.log| == |s.log| + keys && KeysFound(v, |s.log|, keys)
          else v.now >= h.limit || exists r: Reply :: !r.ok && Replied(v, GitKey, r))
    decreases keys
  {
    if keys > 0 {
      GitKeysExplained(s, h, keys - 1);
      var (v, ok) := GitKeys(s, h, keys - 1);
      if ok {
        AttemptReply(v, h, GitKey, PROBE_DEADLINE);
        var (after, r) := Attempt(v, h, GitKey, PROBE_DEADLINE);
        On(s, v, after);
        KeyAdded(s, v, after, h, r, keys - 1);
      }
    }
  }

  lemma {:induction false} KeyAdded(s: State, v: State, after: State, h: Host, r: Option<Reply>, n: nat)
    requires Attempt(v, h, GitKey, PROBE_DEADLINE) == (after, r) && |v.log| == |s.log| + n && KeysFound(v, |s.log|, n)
    ensures r.Some? && r.value.ok ==> |after.log| == |s.log| + n + 1 && KeysFound(after, |s.log|, n + 1)
  {
    if r.Some? {
      assert forall i: nat :: i < |v.log| ==> after.log[i] == v.log[i];
      assert after.log[|v.log|].task == GitKey && after.log[|v.log|].reply == r.value;
    }
  }

  /** How far the herdr got: not found or not to be asked, found, found and answering, or
      listed as well; and each stop is for a reply or for want of time. */
  ghost predicate HerdrExplained(s: State, limit: nat, socket: bool, stage: nat) {
    var late := s.now >= limit;
    && stage <= 3
    && (stage == 0 ==> late || !socket || exists r: Reply :: !r.found && Replied(s, HerdrLocate, r))
    && (stage > 0 ==> socket && exists r: Reply :: r.found && Replied(s, HerdrLocate, r))
    && (stage == 1 ==> late || exists r: Reply :: !r.ok && Replied(s, HerdrPing, r))
    && (stage > 1 ==> exists r: Reply :: r.ok && Replied(s, HerdrPing, r))
    && (stage == 2 ==> late)
    && (stage == 3 ==> exists r: Reply :: Replied(s, HerdrList, r))
  }

  lemma {:induction false} StillHerdr(a: State, b: State, limit: nat, socket: bool, stage: nat)
    requires Onward(a, b) && HerdrExplained(a, limit, socket, stage)
    ensures HerdrExplained(b, limit, socket, stage)
  {
    forall task: Task, r: Reply | Replied(a, task, r) ensures Replied(b, task, r) {
      StillReplied(a, b, task, r);
    }
  }

  lemma {:induction false} HerdrTold(s: State, h: Host, socket: bool)
    requires Marked(s, h.limit)
    ensures var (v, stage) := Herdr(s, h, socket);
      Onward(s, v) && Marked(v, h.limit) && HerdrExplained(v, h.limit, socket, stage)
  {
    AttemptReply(s, h, HerdrLocate, PROBE_DEADLINE);
    var (located, r) := Attempt(s, h, HerdrLocate, PROBE_DEADLINE);
    if r.Some? && r.value.found && socket {
      AttemptReply(located, h, HerdrPing, RESPONSE_DEADLINE);
      var (pinged, p) := Attempt(located, h, HerdrPing, RESPONSE_DEADLINE);
      On(s, located, pinged);
      StillReplied(located, pinged, HerdrLocate, r.value);
      if p.Some? && p.value.ok {
        AttemptReply(pinged, h, HerdrList, RESPONSE_DEADLINE);
        var (listed, l) := Attempt(pinged, h, HerdrList, RESPONSE_DEADLINE);
        On(s, pinged, listed);
        StillReplied(pinged, listed, HerdrLocate, r.value);
        StillReplied(pinged, listed, HerdrPing, p.value);
      }
    }
  }

  /** A helper is seen exactly when one of the two looks saw it; one look may be missing for
      want of time. */
  ghost predicate HelpersExplained(s: State, limit: nat, seen: bool) {
    if seen then exists r: Reply :: r.ok && Replied(s, Helpers, r)
    else s.now >= limit || exists i: nat, j: nat :: i < j < |s.log| && NoHelper(s.log[i]) && NoHelper(s.log[j])
  }

  predicate NoHelper(step: Step) { step.task == Helpers && !step.reply.ok }

  lemma {:induction false} HelpersTold(s: State, h: Host)
    requires Marked(s, h.limit)
    ensures var (v, seen) := HelperSeen(s, h);
      Onward(s, v) && Marked(v, h.limit) && HelpersExplained(v, h.limit, seen)
  {
    AttemptReply(s, h, Helpers, PROBE_DEADLINE);
    var (v, r) := Attempt(s, h, Helpers, PROBE_DEADLINE);
    if r.Some? {
      AttemptReply(v, h, Helpers, PROBE_DEADLINE);
      var (after, q) := Attempt(v, h, Helpers, PROBE_DEADLINE);
      On(s, v, after);
      StillReplied(v, after, Helpers, r.value);
      assert after.log[|s.log|] == v.log[|s.log|] && v.log[|s.log|].task == Helpers && v.log[|s.log|].reply == r.value;
      if q.Some? && !r.value.ok && !q.value.ok {
        assert NoHelper(after.log[|s.log|]) && NoHelper(after.log[|v.log|]);
      }
    }
  }

  /** Both keys of a Git identity were found by one look each; if not, a look found none or
      time had run out. */
  ghost predicate GitExplained(s: State, limit: nat, git: bool) {
    if git then exists from: nat :: KeysFound(s, from, 2)
    else s.now >= limit || exists r: Reply :: !r.ok && Replied(s, GitKey, r)
  }

  lemma {:induction false} StillGit(a: State, b: State, limit: nat, git: bool)
    requires Onward(a, b) && GitExplained(a, limit, git)
    ensures GitExplained(b, limit, git)
  {
    if git {
      var from: nat :| KeysFound(a, from, 2);
      assert KeysFound(b, from, 2);
    } else if a.now < limit {
      var r: Reply :| !r.ok && Replied(a, GitKey, r);
      StillReplied(a, b, GitKey, r);
    }
  }

  lemma {:induction false} GitTold(s: State, h: Host)
    requires Marked(s, h.limit)
    ensures var (a, spent) := Exhaust(s, h);
      var (v, git) := if spent then (a, false) else GitKeys(a, h, 2);
      Onward(s, v) && Marked(v, h.limit) && GitExplained(v, h.limit, git)
  {
    ExhaustGoesOn(s, h);
    var a := Exhaust(s, h).0;
    GitKeysExplained(a, h, 2);
    On(s, a, GitKeys(a, h, 2).0);
  }

  lemma {:induction false} HerdrPart(s: State, h: Host, socket: bool)
    requires Marked(s, h.limit)
    ensures var (c, spent) := Exhaust(s, h);
      var (v, stage) := if spent then (c, 0) else Herdr(c, h, socket);
      && Onward(s, v) && Marked(v, h.limit)
      && (if spent then v.now >= h.limit else HerdrExplained(v, h.limit, socket, stage))
  {
    ExhaustGoesOn(s, h);
    var c := Exhaust(s, h).0;
    HerdrTold(c, h, socket);
    On(s, c, Herdr(c, h, socket).0);
  }

  lemma {:induction false} HelpersPart(s: State, h: Host)
    requires Marked(s, h.limit)
    ensures var (e, spent) := Exhaust(s, h);
      var (v, seen) := if spent then (e, false) else HelperSeen(e, h);
      Onward(s, v) && Marked(v, h.limit) && HelpersExplained(v, h.limit, seen)
  {
    ExhaustGoesOn(s, h);
    var e := Exhaust(s, h).0;
    HelpersTold(e, h);
    On(s, e, HelperSeen(e, h).0);
  }

  ghost predicate OthersExplained(s: State, limit: nat, socket: bool, git: bool, herdr: Option<nat>, helpers: bool) {
    && GitExplained(s, limit, git) && HelpersExplained(s, limit, helpers)
    && (if herdr.None? then s.now >= limit else HerdrExplained(s, limit, socket, herdr.value))
  }

  lemma {:induction false} OthersTold(s: State, h: Host, socket: bool)
    requires Marked(s, h.limit)
    ensures var (v, git, herdr, helpers) := Others(s, h, socket);
      Onward(s, v) && Marked(v, h.limit) && OthersExplained(v, h.limit, socket, git, herdr, helpers)
  {
    GitTold(s, h);
    var (a, noGit) := Exhaust(s, h);
    var (b, git) := if noGit then (a, false) else GitKeys(a, h, 2);
    HerdrPart(b, h, socket);
    var (c, noHerdr) := Exhaust(b, h);
    var (d, stage) := if noHerdr then (c, 0) else Herdr(c, h, socket);
    HelpersPart(d, h);
    var (e, noHelpers) := Exhaust(d, h);
    var (f, seen) := if noHelpers then (e, false) else HelperSeen(e, h);
    On(s, b, d);
    On(b, d, f);
    On(s, d, f);
    StillGit(b, f, h.limit, git);
    if !noHerdr {
      StillHerdr(d, f, h.limit, socket, stage);
    }
  }

  /** Everything in a report is the host's reply to the step that asked for it, or says why
      there is none; and what is left out was looked for, as far as time allowed. */
  lemma {:induction false} ReportLaw(h: Host, t0: nat, profiles: seq<Profile>, socket: bool)
    ensures var (s, facts) := Collected(Begin(t0), h, profiles, socket);
      && AgentsExplained(s, h.limit, facts.agents, Secure(profiles), |KINDS|)
      && OthersExplained(s, h.limit, socket, facts.gitIdentity, facts.herdr, facts.helpers)
  {
    EachAgentExplained(Begin(t0), h, |KINDS|, profiles);
    var (v, agents) := EachAgent(Begin(t0), h, |KINDS|, profiles);
    OthersTold(v, h, socket);
    StillAgents(v, Others(v, h, socket).0, h.limit, agents, Secure(profiles), |KINDS|);
  }
}
