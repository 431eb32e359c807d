/** Laying current incidents over collected facts: which advertised authentication
    is replaced by a failure reason. */
module IncidentOverlay {
  import opened Basics
  import opened Calendar
  import opened TurnReason
  import opened AuthIncidents

  datatype Auth = Advertised(nat) | UnknownWithReason(reason: string)

  datatype ProfileFact = ProfileFact(profile: nat, auth: Auth)

  datatype AgentFact = AgentFact(agent: nat, auth: Auth, profiles: seq<ProfileFact>)

  function FindAgent(facts: seq<AgentFact>, agent: nat): (r: Option<nat>)
    ensures r.Some? ==> r.value < |facts| && facts[r.value].agent == agent
  {
    if facts == [] then None
    else if facts[0].agent == agent then Some(0)
    else match FindAgent(facts[1..], agent)
      case Some(i) => Some(i + 1)
      case None => None
  }

  function FindProfile(profiles: seq<ProfileFact>, profile: nat): (r: Option<nat>)
    ensures r.Some? ==> r.value < |profiles| && profiles[r.value].profile == profile
  {
    if profiles == [] then None
    else if profiles[0].profile == profile then Some(0)
    else match FindProfile(profiles[1..], profile)
      case Some(i) => Some(i + 1)
      case None => None
  }

  /** The authentication advertised for a key: the agent's own, or one profile's. */
  function Slot(facts: seq<AgentFact>, key: Key): Option<Auth> {
    match FindAgent(facts, key.agent)
    case None => None
    case Some(i) => AgentSlot(facts[i], key.profile)
  }

  function AgentSlot(fact: AgentFact, profile: Option<nat>): Option<Auth> {
    match profile
    case None => Some(fact.auth)
    case Some(p) =>
      match FindProfile(fact.profiles, p)
      case None => None
      case Some(i) => Some(fact.profiles[i].auth)
  }

  function SetAgentSlot(fact: AgentFact, profile: Option<nat>, auth: Auth): AgentFact {
    match profile
    case None => fact.(auth := auth)
    case Some(p) =>
      match FindProfile(fact.profiles, p)
      case None => fact
      case Some(i) => fact.(profiles := fact.profiles[i := ProfileFact(p, auth)])
  }

  function SetSlot(facts: seq<AgentFact>, key: Key, auth: Auth): seq<AgentFact> {
    match FindAgent(facts, key.agent)
    case None => facts
    case Some(i) => facts[i := SetAgentSlot(facts[i], key.profile, auth)]
  }

  function OverlayOne(facts: seq<AgentFact>, row: Row): seq<AgentFact> {
    match Reason(row.at)
    case None => facts
    case Some(text) => SetSlot(facts, row.key, UnknownWithReason(text))
  }

  function Overlay(facts: seq<AgentFact>, rows: seq<Row>): seq<AgentFact>
    decreases |rows|
  {
    if rows == [] then facts else Overlay(OverlayOne(facts, rows[0]), rows[1..])
  }

  /** `overlay_facts`: the incidents one after the other, each on the first agent and
      profile of its names. */
  method OverlayFacts(facts: seq<AgentFact>, rows: seq<Row>) returns (r: seq<AgentFact>)
    ensures r == Overlay(facts, rows)
  {
    r := facts;
    var n := 0;
    while n < |rows|
      invariant n <= |rows| && Overlay(facts, rows) == Overlay(r, rows[n..])
    {
      assert rows[n..][1..] == rows[n + 1..];
      var reason := Reason(rows[n].at);
      if reason.Some? {
        r := SetSlot(r, rows[n].key, UnknownWithReason(reason.value));
      }
      n := n + 1;
    }
  }

  // ---- Laws ---------------------------------------------------------------------------------

  lemma {:induction false} AgentKept(facts: seq<AgentFact>, i: nat, fact: AgentFact, agent: nat)
    requires i < |facts| && fact.agent == facts[i].agent
    ensures FindAgent(facts[i := fact], agent) == FindAgent(facts, agent)
  {
    if facts[0].agent != agent && i > 0 {
      assert facts[i := fact][1..] == facts[1..][i - 1 := fact];
      AgentKept(facts[1..], i - 1, fact, agent);
    } else if i == 0 {
      assert facts[i := fact][1..] == facts[1..];
    }
  }

  lemma {:induction false} ProfileKept(profiles: seq<ProfileFact>, i: nat, fact: ProfileFact, profile: nat)
    requires i < |profiles| && fact.profile == profiles[i].profile
    ensures FindProfile(profiles[i := fact], profile) == FindProfile(profiles, profile)
  {
    if profiles[0].profile != profile && i > 0 {
      assert profiles[i := fact][1..] == profiles[1..][i - 1 := fact];
      ProfileKept(profiles[1..], i - 1, fact, profile);
    } else if i == 0 {
      assert profiles[i := fact][1..] == profiles[1..];
    }
  }

  /** Setting a slot changes that slot, if it exists, and no other. */
  lemma {:induction false} SetSlotLaw(facts: seq<AgentFact>, key: Key, auth: Auth, other: Key)
    ensures Slot(SetSlot(facts, key, auth), other) ==
      if other == key && Slot(facts, key).Some? then Some(auth) else Slot(facts, other)
  {
    match FindAgent(facts, key.agent)
    case None =>
    case Some(i) =>
      var fact := facts[i];
      AgentKept(facts, i, SetAgentSlot(fact, key.profile, auth), other.agent);
      if key.profile.Some? && other.profile.Some? && FindProfile(fact.profiles, key.profile.value).Some? {
        var j := FindProfile(fact.profiles, key.profile.value).value;
        ProfileKept(fact.profiles, j, ProfileFact(key.profile.value, auth), other.profile.value);
      }
  }

  lemma {:induction false} OverlayOther(facts: seq<AgentFact>, rows: seq<Row>, key: Key)
    requires forall row :: row in rows ==> row.key != key
    ensures Slot(Overlay(facts, rows), key) == Slot(facts, key)
    decreases |rows|
  {
    if rows != [] {
      assert rows[0] in rows;
      if Reason(rows[0].at).Some? {
        SetSlotLaw(facts, rows[0].key, UnknownWithReason(Reason(rows[0].at).value), key);
      }
      forall row | row in rows[1..] ensures row.key != key { assert row in rows; }
      OverlayOther(OverlayOne(facts, rows[0]), rows[1..], key);
    }
  }

  lemma {:induction false} OverlayKey(facts: seq<AgentFact>, rows: seq<Row>, row: Row)
    requires OneEach(rows) && row in rows
    ensures Slot(Overlay(facts, rows), row.key) ==
      if Slot(facts, row.key).Some? && Reason(row.at).Some? then Some(UnknownWithReason(Reason(row.at).value))
      else Slot(facts, row.key)
    decreases |rows|
  {
    var first := rows[0];
    if Reason(first.at).Some? {
      SetSlotLaw(facts, first.key, UnknownWithReason(Reason(first.at).value), row.key);
    }
    OneEachTail(rows);
    if row == first {
      OverlayOther(OverlayOne(facts, first), rows[1..], row.key);
    } else {
      OverlayKey(OverlayOne(facts, first), rows[1..], row);
    }
  }

  /** `overlay_current_incidents` on a readable store. */
  function OverlayCurrent(facts: seq<AgentFact>, s: Store, q: u64): seq<AgentFact> {
    Overlay(facts, CurrentOnes(s.incidents, s.successes, None, q))
  }

  /** Whatever order the events came in, after the overlay a slot shows the minute of
      the latest incident of its key that counts and was not cleared, exactly when there
      is one; every other slot is as it was collected. */
  lemma {:induction false} OverlayShows(facts: seq<AgentFact>, events: seq<Event>, key: Key, q: u64)
    requires UpTo(events, q) && Slot(facts, key).Some?
    ensures var after := Slot(OverlayCurrent(facts, RecordAll(events), q), key);
      if Remembered(events, key, q)
      then exists k: nat :: IsLatest(events, k, key, q) && after == Some(Shown(events[k].at, Slot(facts, key).value))
      else after == Slot(facts, key)
  {
    var s := RecordAll(events);
    var rows := CurrentOnes(s.incidents, s.successes, None, q);
    PrunedStoreLaw(events, key, q);
    RecordOrdered(events);
    CurrentOneEach(s.incidents, s.successes, None, q);
    if Remembered(events, key, q) {
      var i :| 0 <= i < |s.incidents| && s.incidents[i].key == key && IsCurrent(s.incidents[i], s.successes, None, q);
      var row := s.incidents[i];
      CurrentMembers(s.incidents, s.successes, None, q, row);
      OverlayKey(facts, rows, row);
      var k := ReportsLatest(events, row, q);
      assert IsLatest(events, k, key, q);
    } else {
      forall row | row in rows ensures row.key != key {
        CurrentMembers(s.incidents, s.successes, None, q, row);
      }
      OverlayOther(facts, rows, key);
    }
  }

  ghost predicate IsLatest(events: seq<Event>, k: nat, key: Key, q: u64) {
    Kept(events, k, key, q) && forall i: nat :: Kept(events, i, key, q) ==> events[i].at <= events[k].at
  }

  /** Without the re-login rule a slot shows the latest incident of its whole history. */
  lemma {:induction false} OverlayShowsHistory(facts: seq<AgentFact>, events: seq<Event>, key: Key, q: u64)
    requires UpTo(events, q) && key.agent != CODEX && Slot(facts, key).Some?
    ensures var after := Slot(OverlayCurrent(facts, RecordAll(events), q), key);
      if HistoryReports(events, key, q)
      then exists at: u64 ::
          Standing(events, key, at, q) && Latest(events, key, at) && after == Some(Shown(at, Slot(facts, key).value))
      else after == Slot(facts, key)
  {
    OverlayShows(facts, events, key, q);
    NothingCleared(events, key, q);
    if HistoryReports(events, key, q) {
      var after := Slot(OverlayCurrent(facts, RecordAll(events), q), key);
      var k: nat :| IsLatest(events, k, key, q) && after == Some(Shown(events[k].at, Slot(facts, key).value));
      LatestOfAll(events, k, key, q);
    }
  }

  lemma {:induction false} LatestOfAll(events: seq<Event>, k: nat, key: Key, q: u64)
    requires key.agent != CODEX && IsLatest(events, k, key, q)
    ensures Standing(events, key, events[k].at, q) && Latest(events, key, events[k].at)
  {
    forall t: u64 | Incident(key, t) in events ensures t <= events[k].at {
      var i := LaterKept(events, key, events[k].at, Later(events[k].at, t), q);
    }
  }

  /** What an incident at this time makes of a slot: years past 9999 have no text. */
  function Shown(at: u64, collected: Auth): Auth {
    if Reason(at).Some? then UnknownWithReason(Reason(at).value) else collected
  }

  ghost predicate Latest(events: seq<Event>, key: Key, at: u64) {
    forall t: u64 :: Incident(key, t) in events ==> t <= at
  }
}
