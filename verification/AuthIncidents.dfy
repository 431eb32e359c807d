/** The store of authentication incidents: one row a key, pruned at every write,
    which answers as if the whole history of events had been kept. */
module AuthIncidents {
  import opened Basics
  import opened Calendar

  /** An agent and an environment profile or none, each numbered in the order of names. */
  datatype Key = Key(agent: nat, profile: Option<nat>)

  /** The agent whose re-login shows in the time of its credential file. */
  const CODEX: nat := 0

  datatype Row = Row(key: Key, at: u64)

  datatype Store = Store(incidents: seq<Row>, successes: seq<Row>)

  const TTL: nat := 24 * 60 * 60 * 1000

  /** `u64::saturating_sub` */
  function Elapsed(now: nat, at: nat): nat { if now < at then 0 else now - at }

  /** Some row of the key is as late as `at`. */
  predicate Covers(rows: seq<Row>, key: Key, at: u64) {
    exists i :: 0 <= i < |rows| && rows[i].key == key && rows[i].at >= at
  }

  /** `incident_is_current`; `relogin` is the time of the credential file, if looked at. */
  predicate IsCurrent(row: Row, successes: seq<Row>, relogin: Option<u64>, now: u64) {
    && Elapsed(now, row.at) < TTL && !Covers(successes, row.key, row.at)
    && !(row.key.agent == CODEX && relogin.Some? && relogin.value > row.at)
  }

  function Later(a: u64, b: u64): u64 { if a < b then b else a }

  /** The first row of the key takes the later time; without one a row is added. */
  function Upsert(rows: seq<Row>, key: Key, at: u64): seq<Row> {
    if rows == [] then [Row(key, at)]
    else if rows[0].key == key then [Row(key, Later(rows[0].at, at))] + rows[1..]
    else [rows[0]] + Upsert(rows[1..], key, at)
  }

  function Unexpired(rows: seq<Row>, now: u64): seq<Row> {
    if rows == [] then [] else (if Elapsed(now, rows[0].at) < TTL then [rows[0]] else []) + Unexpired(rows[1..], now)
  }

  function CurrentOnes(rows: seq<Row>, successes: seq<Row>, relogin: Option<u64>, now: u64): seq<Row> {
    if rows == [] then []
    else
      (if IsCurrent(rows[0], successes, relogin, now) then [rows[0]] else []) +
      CurrentOnes(rows[1..], successes, relogin, now)
  }

  /** Incidents of the key up to the time of a success go. */
  function Outlasting(rows: seq<Row>, key: Key, at: u64): seq<Row> {
    if rows == [] then []
    else (if rows[0].key != key || rows[0].at > at then [rows[0]] else []) + Outlasting(rows[1..], key, at)
  }

  function Prune(s: Store, relogin: Option<u64>, now: u64): Store {
    var successes := Unexpired(s.successes, now);
    Store(CurrentOnes(s.incidents, successes, relogin, now), successes)
  }

  // ---- The order of the file -----------------------------------------------------------

  predicate Before(a: Key, b: Key) {
    a.agent < b.agent
        || (a.agent == b.agent && b.profile.Some? && (a.profile.None? || a.profile.value < b.profile.value))
  }

  /** Goes behind rows of the same key: the sort is stable. */
  function Insert(row: Row, rows: seq<Row>): seq<Row> {
    if rows == [] || Before(row.key, rows[0].key) then [row] + rows else [rows[0]] + Insert(row, rows[1..])
  }

  function Sort(rows: seq<Row>): seq<Row> {
    if rows == [] then [] else Insert(rows[|rows| - 1], Sort(rows[..|rows| - 1]))
  }

  function Canonical(s: Store): Store { Store(Sort(s.incidents), Sort(s.successes)) }

  // ---- Events ----------------------------------------------------------------------------

  datatype Event = Incident(key: Key, at: u64) | Success(key: Key, at: u64) | Merge(at: u64, relogin: Option<u64>)

  /** What one locked load, transform and publish makes of the store. */
  function Record(s: Store, e: Event): Store {
    match e
    case Incident(key, at) => Canonical(Prune(s.(incidents := Upsert(s.incidents, key, at)), None, at))
    case Success(key, at) =>
      Canonical(Prune(Store(Outlasting(s.incidents, key, at), Upsert(s.successes, key, at)), None, at))
    case Merge(at, relogin) => Canonical(Prune(s, relogin, at))
  }

  function RecordAll(events: seq<Event>): Store {
    if events == [] then Store([], []) else Record(RecordAll(events[..|events| - 1]), events[|events| - 1])
  }

  /** The store reports an incident of the key at time `q`. */
  predicate Reports(s: Store, key: Key, q: u64) {
    exists i :: 0 <= i < |s.incidents| && s.incidents[i].key == key && IsCurrent(s.incidents[i], s.successes, None, q)
  }

  /** The whole history does: an incident younger than the limit and newer than
      every success of its key. */
  ghost predicate HistoryReports(events: seq<Event>, key: Key, q: u64) {
    exists at :: Standing(events, key, at, q)
  }

  predicate Standing(events: seq<Event>, key: Key, at: u64, q: u64) {
    && Incident(key, at) in events && Elapsed(q, at) < TTL
    && forall i :: 0 <= i < |events| && events[i].Success? && events[i].key == key ==> events[i].at < at
  }

  /** A merge that sees a login newer than an incident of the agent with that rule. */
  predicate Clears(m: Event, e: Event) {
    m.Merge? && m.relogin.Some? && e.Incident? && e.key.agent == CODEX && m.relogin.value > e.at
  }

  predicate Cleared(events: seq<Event>, i: nat)
    requires i < |events|
  {
    exists j: nat :: i < j < |events| && Clears(events[j], events[i])
  }

  /** Event `i` is an incident that counts at `q` and that no merge after it cleared. */
  predicate Kept(events: seq<Event>, i: nat, key: Key, q: u64) {
    && i < |events| && events[i].Incident? && events[i].key == key
    && Standing(events, key, events[i].at, q) && !Cleared(events, i)
  }

  /** What the store is to report: the history, less what was cleared. */
  ghost predicate Remembered(events: seq<Event>, key: Key, q: u64) { exists i: nat :: Kept(events, i, key, q) }

  // ---- What each list operation keeps ------------------------------------------------------

  lemma {:induction false} CoversTail(rows: seq<Row>, key: Key, at: u64)
    requires rows != []
    ensures Covers(rows, key, at) <==> (rows[0].key == key && rows[0].at >= at) || Covers(rows[1..], key, at)
  {
    if Covers(rows, key, at) {
      var i :| 0 <= i < |rows| && rows[i].key == key && rows[i].at >= at;
      assert i > 0 ==> rows[1..][i - 1] == rows[i];
    }
    if Covers(rows[1..], key, at) {
      var i :| 0 <= i < |rows[1..]| && rows[1..][i].key == key && rows[1..][i].at >= at;
      assert rows[i + 1] == rows[1..][i];
    }
  }

  lemma {:induction false} UpsertCovers(rows: seq<Row>, key: Key, at: u64, k: Key, t: u64)
    ensures Covers(Upsert(rows, key, at), k, t) <==> Covers(rows, k, t) || (k == key && t <= at)
    decreases |rows|
  {
    var after := Upsert(rows, key, at);
    CoversTail(after, k, t);
    if rows == [] {
      assert after[1..] == [];
    } else {
      CoversTail(rows, k, t);
      if rows[0].key == key {
        assert after[1..] == rows[1..];
      } else {
        assert after[1..] == Upsert(rows[1..], key, at);
        UpsertCovers(rows[1..], key, at, k, t);
      }
    }
  }

  lemma {:induction false} UpsertMembers(rows: seq<Row>, key: Key, at: u64, row: Row)
    requires row in Upsert(rows, key, at)
    ensures row in rows || row == Row(key, at)
    decreases |rows|
  {
    if rows != [] && rows[0].key != key && row != rows[0] {
      UpsertMembers(rows[1..], key, at, row);
    }
  }

  lemma {:induction false} UnexpiredMembers(rows: seq<Row>, now: u64, row: Row)
    ensures row in Unexpired(rows, now) <==> row in rows && Elapsed(now, row.at) < TTL
    decreases |rows|
  {
    if rows != [] {
      UnexpiredMembers(rows[1..], now, row);
      assert row in rows <==> row == rows[0] || row in rows[1..];
    }
  }

  lemma {:induction false} CurrentMembers(rows: seq<Row>, successes: seq<Row>, relogin: Option<u64>, now: u64, row: Row)
    ensures row in CurrentOnes(rows, successes, relogin, now) <==>
      row in rows && IsCurrent(row, successes, relogin, now)
    decreases |rows|
  {
    if rows != [] {
      CurrentMembers(rows[1..], successes, relogin, now, row);
      assert row in rows <==> row == rows[0] || row in rows[1..];
    }
  }

  lemma {:induction false} OutlastingMembers(rows: seq<Row>, key: Key, at: u64, row: Row)
    ensures row in Outlasting(rows, key, at) <==> row in rows && (row.key != key || row.at > at)
    decreases |rows|
  {
    if rows != [] {
      OutlastingMembers(rows[1..], key, at, row);
      assert row in rows <==> row == rows[0] || row in rows[1..];
    }
  }

  lemma {:induction false} InsertPermutes(row: Row, rows: seq<Row>)
    ensures multiset(Insert(row, rows)) == multiset(rows) + multiset{row}
  {
    if rows != [] && !Before(row.key, rows[0].key) {
      InsertPermutes(row, rows[1..]);
      assert rows == [rows[0]] + rows[1..];
    }
  }

  lemma {:induction false} SortPermutes(rows: seq<Row>)
    ensures multiset(Sort(rows)) == multiset(rows)
  {
    if rows != [] {
      var n := |rows| - 1;
      SortPermutes(rows[..n]);
      InsertPermutes(rows[n], Sort(rows[..n]));
      assert rows == rows[..n] + [rows[n]];
    }
  }

  lemma {:induction false} SortMembers(rows: seq<Row>, row: Row)
    ensures row in Sort(rows) <==> row in rows
  {
    SortPermutes(rows);
    assert row in multiset(rows) <==> row in rows;
    assert row in multiset(Sort(rows)) <==> row in Sort(rows);
  }

  // ---- The store and the history --------------------------------------------------------------

  ghost predicate Sound(s: Store, events: seq<Event>) {
    && (forall row :: row in s.incidents ==> Uncleared(events, row))
    && (forall row :: row in s.successes ==> Success(row.key, row.at) in events)
  }

  /** The row stands for an incident that no merge after it cleared. */
  ghost predicate Uncleared(events: seq<Event>, row: Row) {
    exists i: nat :: i < |events| && events[i] == Incident(row.key, row.at) && !Cleared(events, i)
  }

  /** Nothing that could still matter at time `m` or later is missing. */
  ghost predicate Complete(s: Store, events: seq<Event>, m: u64) {
    && (forall key: Key, at: u64 :: Success(key, at) in events && m < at + TTL ==> Covers(s.successes, key, at))
    && (forall key: Key, i: nat :: Kept(events, i, key, m) ==> Covers(s.incidents, key, events[i].at))
  }

  predicate UpTo(events: seq<Event>, m: u64) { forall i :: 0 <= i < |events| ==> events[i].at <= m }

  lemma {:induction false} RecordSound(s: Store, events: seq<Event>, e: Event)
    requires Sound(s, events)
    ensures Sound(Record(s, e), events + [e])
  {
    var incidents :=
      if e.Incident? then Upsert(s.incidents, e.key, e.at) else if e.Success? then Outlasting(s.incidents, e.key, e.at)
      else s.incidents;
    var successes := if e.Success? then Upsert(s.successes, e.key, e.at) else s.successes;
    var relogin := if e.Merge? then e.relogin else None;
    var pruned := Prune(Store(incidents, successes), relogin, e.at);
    forall row | row in Record(s, e).incidents ensures Uncleared(events + [e], row) {
      SortMembers(pruned.incidents, row);
      CurrentMembers(incidents, pruned.successes, relogin, e.at, row);
      if e.Incident? { UpsertMembers(s.incidents, e.key, e.at, row); }
      if e.Success? { OutlastingMembers(s.incidents, e.key, e.at, row); }
      if row in s.incidents {
        StaysUncleared(events, e, row);
      } else {
        NewIsUncleared(events, e);
      }
    }
    forall row | row in Record(s, e).successes ensures Success(row.key, row.at) in events + [e] {
      SortMembers(pruned.successes, row);
      UnexpiredMembers(successes, e.at, row);
      if e.Success? { UpsertMembers(s.successes, e.key, e.at, row); }
    }
  }

  lemma {:induction false} StaysUncleared(events: seq<Event>, e: Event, row: Row)
    requires Uncleared(events, row) && !Clears(e, Incident(row.key, row.at))
    ensures Uncleared(events + [e], row)
  {
    var i: nat :| i < |events| && events[i] == Incident(row.key, row.at) && !Cleared(events, i);
    ClearedBy(events, e, i);
  }

  lemma {:induction false} NewIsUncleared(events: seq<Event>, e: Event)
    requires e.Incident?
    ensures Uncleared(events + [e], Row(e.key, e.at))
  {
    var n := |events|;
    assert (events + [e])[n] == e && !Cleared(events + [e], n);
  }

  lemma {:induction false} ClearedBy(events: seq<Event>, e: Event, i: nat)
    requires i < |events|
    ensures Cleared(events + [e], i) <==> Cleared(events, i) || Clears(e, events[i])
  {
    var all := events + [e];
    assert all[i] == events[i] && all[|events|] == e;
    if Cleared(events, i) {
      var j: nat :| i < j < |events| && Clears(events[j], events[i]);
      assert Clears(all[j], all[i]);
    }
    if Clears(e, events[i]) {
      assert Clears(all[|events|], all[i]);
    }
  }

  lemma {:induction false} CoversBy(rows: seq<Row>, row: Row, at: u64)
    requires row in rows && row.at >= at
    ensures Covers(rows, row.key, at)
  {
    var i :| 0 <= i < |rows| && rows[i] == row;
  }

  lemma {:induction false} CoveringRow(rows: seq<Row>, key: Key, at: u64) returns (row: Row)
    requires Covers(rows, key, at)
    ensures row in rows && row.key == key && row.at >= at
  {
    var i :| 0 <= i < |rows| && rows[i].key == key && rows[i].at >= at;
    row := rows[i];
  }

  /** A success that can still matter survives pruning and sorting. */
  lemma {:induction false} SuccessSurvives(rows: seq<Row>, now: u64, key: Key, at: u64, m: u64)
    requires Covers(rows, key, at) && now <= m < at + TTL
    ensures Covers(Sort(Unexpired(rows, now)), key, at)
  {
    var row := CoveringRow(rows, key, at);
    UnexpiredMembers(rows, now, row);
    SortMembers(Unexpired(rows, now), row);
    CoversBy(Sort(Unexpired(rows, now)), row, at);
  }

  /** An incident newer than every success known survives them too. */
  lemma {:induction false} IncidentSurvives(rows: seq<Row>, successes: seq<Row>, relogin: Option<u64>, now: u64,
      key: Key, at: u64, m: u64)
    requires Covers(rows, key, at) && now <= m < at + TTL && !Covers(successes, key, at)
    requires !(key.agent == CODEX && relogin.Some? && relogin.value > at)
    ensures Covers(Sort(CurrentOnes(rows, successes, relogin, now)), key, at)
  {
    var row := CoveringRow(rows, key, at);
    if Covers(successes, key, row.at) {
      var s := CoveringRow(successes, key, row.at);
      CoversBy(successes, s, at);
    }
    CurrentMembers(rows, successes, relogin, now, row);
    SortMembers(CurrentOnes(rows, successes, relogin, now), row);
    CoversBy(Sort(CurrentOnes(rows, successes, relogin, now)), row, at);
  }

  lemma {:induction false} OutlastingCovers(rows: seq<Row>, key: Key, s: u64, k: Key, at: u64)
    requires Covers(rows, k, at) && (k == key ==> s < at)
    ensures Covers(Outlasting(rows, key, s), k, at)
  {
    var row := CoveringRow(rows, k, at);
    OutlastingMembers(rows, key, s, row);
    CoversBy(Outlasting(rows, key, s), row, at);
  }

  lemma {:induction false} RecordSuccesses(s: Store, events: seq<Event>, e: Event, m: u64, m': u64, key: Key, at: u64)
    requires Complete(s, events, m) && m <= m' && e.at <= m'
    requires Success(key, at) in events + [e] && m' < at + TTL
    ensures Covers(Record(s, e).successes, key, at)
  {
    var successes := if e.Success? then Upsert(s.successes, e.key, e.at) else s.successes;
    if e.Success? {
      UpsertCovers(s.successes, e.key, e.at, key, at);
    }
    SuccessSurvives(successes, e.at, key, at, m');
  }

  /** No stored success is as late as an incident that stands. */
  lemma {:induction false} StandingUnbeaten(successes: seq<Row>, events: seq<Event>, key: Key, at: u64, q: u64)
    requires Standing(events, key, at, q) && forall row :: row in successes ==> Success(row.key, row.at) in events
    ensures !Covers(successes, key, at)
  {
    if Covers(successes, key, at) {
      var row := CoveringRow(successes, key, at);
    }
  }

  lemma {:induction false} RecordIncidents(s: Store, events: seq<Event>, e: Event, m: u64, m': u64, key: Key, i: nat)
    requires Sound(s, events) && Complete(s, events, m) && m <= m' && e.at <= m'
    requires Kept(events + [e], i, key, m') && (events + [e])[i].at <= m'
    ensures Covers(Record(s, e).incidents, key, (events + [e])[i].at)
  {
    var at := (events + [e])[i].at;
    var incidents :=
      if e.Incident? then Upsert(s.incidents, e.key, e.at) else if e.Success? then Outlasting(s.incidents, e.key, e.at)
      else s.incidents;
    var successes := if e.Success? then Upsert(s.successes, e.key, e.at) else s.successes;
    var relogin := if e.Merge? then e.relogin else None;
    if i < |events| {
      KeptBefore(events, e, i, key, m, m');
      assert Covers(s.incidents, key, at);
    }
    if e.Incident? {
      UpsertCovers(s.incidents, e.key, e.at, key, at);
    } else if e.Success? {
      assert (events + [e])[|events|] == e;
      OutlastingCovers(s.incidents, e.key, e.at, key, at);
    }
    PrunedUnbeaten(s, events, e, successes, key, at, m');
    IncidentSurvives(incidents, Unexpired(successes, e.at), relogin, e.at, key, at, m');
  }

  /** What counts after an event counted before it, and the event does not clear it. */
  lemma {:induction false} KeptBefore(events: seq<Event>, e: Event, i: nat, key: Key, m: u64, m': u64)
    requires Kept(events + [e], i, key, m') && i < |events| && m <= m'
    ensures Kept(events, i, key, m) && !Clears(e, events[i]) && (events + [e])[i] == events[i]
  {
    assert (events + [e])[i] == events[i];
    StoodBefore(events, e, key, events[i].at, m, m');
    ClearedBy(events, e, i);
  }

  lemma {:induction false} StoodBefore(events: seq<Event>, e: Event, key: Key, at: u64, m: u64, m': u64)
    requires Standing(events + [e], key, at, m') && Incident(key, at) in events && m <= m'
    ensures Standing(events, key, at, m)
  {
    forall i | 0 <= i < |events| && events[i].Success? && events[i].key == key ensures events[i].at < at {
      assert (events + [e])[i] == events[i];
    }
  }

  lemma {:induction false} PrunedUnbeaten(s: Store, events: seq<Event>, e: Event, successes: seq<Row>, key: Key,
      at: u64, q: u64)
    requires Sound(s, events) && successes == (if e.Success? then Upsert(s.successes, e.key, e.at) else s.successes)
    requires Standing(events + [e], key, at, q)
    ensures !Covers(Unexpired(successes, e.at), key, at)
  {
    forall row | row in Unexpired(successes, e.at) ensures Success(row.key, row.at) in events + [e] {
      UnexpiredMembers(successes, e.at, row);
      if e.Success? { UpsertMembers(s.successes, e.key, e.at, row); }
    }
    StandingUnbeaten(Unexpired(successes, e.at), events + [e], key, at, q);
  }

  lemma {:induction false} RecordComplete(s: Store, events: seq<Event>, e: Event, m: u64, m': u64)
    requires Sound(s, events) && Complete(s, events, m) && UpTo(events, m) && m <= m' && e.at <= m'
    ensures Complete(Record(s, e), events + [e], m') && UpTo(events + [e], m')
  {
    forall key: Key, at: u64 | Success(key, at) in events + [e] && m' < at + TTL
      ensures Covers(Record(s, e).successes, key, at)
    {
      RecordSuccesses(s, events, e, m, m', key, at);
    }
    forall key: Key, i: nat | Kept(events + [e], i, key, m')
      ensures Covers(Record(s, e).incidents, key, (events + [e])[i].at)
    {
      RecordIncidents(s, events, e, m, m', key, i);
    }
  }

  lemma {:induction false} Remembers(events: seq<Event>, m: u64)
    requires UpTo(events, m)
    ensures Sound(RecordAll(events), events) && Complete(RecordAll(events), events, m)
    decreases |events|
  {
    if events != [] {
      var n := |events| - 1;
      Remembers(events[..n], m);
      RecordSound(RecordAll(events[..n]), events[..n], events[n]);
      RecordComplete(RecordAll(events[..n]), events[..n], events[n], m, m);
      assert events == events[..n] + [events[n]];
    }
  }

  /** The pruned store reports a key exactly when the history, less what re-logins
      cleared, does; for every agent but the one with the re-login rule that is the
      whole history, and for that one never more. */
  lemma {:induction false} PrunedStoreLaw(events: seq<Event>, key: Key, q: u64)
    requires UpTo(events, q)
    ensures Reports(RecordAll(events), key, q) <==> Remembered(events, key, q)
    ensures Reports(RecordAll(events), key, q) ==> HistoryReports(events, key, q)
    ensures key.agent != CODEX ==> (Reports(RecordAll(events), key, q) <==> HistoryReports(events, key, q))
  {
    Remembers(events, q);
    var s := RecordAll(events);
    if Reports(s, key, q) {
      var i :| 0 <= i < |s.incidents| && s.incidents[i].key == key && IsCurrent(s.incidents[i], s.successes, None, q);
      var k := ReportKept(s, events, s.incidents[i], q);
    }
    if Remembered(events, key, q) {
      var k: nat :| Kept(events, k, key, q);
      var at := events[k].at;
      var row := CoveringRow(s.incidents, key, at);
      StandingUnbeaten(s.successes, events, key, at, q);
      UnbeatenLater(s.successes, key, at, row.at);
      var i :| 0 <= i < |s.incidents| && s.incidents[i] == row;
    }
    NothingCleared(events, key, q);
  }

  /** Agents without the re-login rule are never cleared. */
  lemma {:induction false} NothingCleared(events: seq<Event>, key: Key, q: u64)
    ensures Remembered(events, key, q) ==> HistoryReports(events, key, q)
    ensures key.agent != CODEX ==> (Remembered(events, key, q) <==> HistoryReports(events, key, q))
  {
    if Remembered(events, key, q) {
      var i: nat :| Kept(events, i, key, q);
      assert Standing(events, key, events[i].at, q);
    }
    if key.agent != CODEX && HistoryReports(events, key, q) {
      var at :| Standing(events, key, at, q);
      var i :| 0 <= i < |events| && events[i] == Incident(key, at);
      assert Kept(events, i, key, q);
    }
  }

  lemma {:induction false} UnbeatenLater(rows: seq<Row>, key: Key, at: u64, later: u64)
    requires !Covers(rows, key, at) && at <= later
    ensures !Covers(rows, key, later)
  {
    if Covers(rows, key, later) {
      var row := CoveringRow(rows, key, later);
      CoversBy(rows, row, at);
    }
  }

  lemma {:induction false} ReportStands(s: Store, events: seq<Event>, row: Row, q: u64)
    requires Sound(s, events) && Complete(s, events, q) && row in s.incidents && IsCurrent(row, s.successes, None, q)
    ensures Standing(events, row.key, row.at, q)
  {
    forall i | 0 <= i < |events| && events[i].Success? && events[i].key == row.key ensures events[i].at < row.at {
      if events[i].at >= row.at {
        assert Success(row.key, events[i].at) in events;
        var c := CoveringRow(s.successes, row.key, events[i].at);
        CoversBy(s.successes, c, row.at);
      }
    }
  }

  lemma {:induction false} ReportKept(s: Store, events: seq<Event>, row: Row, q: u64) returns (k: nat)
    requires Sound(s, events) && Complete(s, events, q) && row in s.incidents && IsCurrent(row, s.successes, None, q)
    ensures Kept(events, k, row.key, q) && events[k].at == row.at
  {
    ReportStands(s, events, row, q);
    k :| k < |events| && events[k] == Incident(row.key, row.at) && !Cleared(events, k);
  }

  // ---- One row a key, in order ---------------------------------------------------------------

  ghost predicate Increasing(rows: seq<Row>) { forall i, j :: 0 <= i < j < |rows| ==> Before(rows[i].key, rows[j].key) }

  ghost predicate OneEach(rows: seq<Row>) { forall i, j :: 0 <= i < j < |rows| ==> rows[i].key != rows[j].key }

  lemma {:induction false} OneEachTail(rows: seq<Row>)
    requires OneEach(rows) && rows != []
    ensures OneEach(rows[1..]) && forall row :: row in rows[1..] ==> row.key != rows[0].key
  {
  }

  lemma {:induction false} OneEachCons(row: Row, rows: seq<Row>)
    requires OneEach(rows) && forall r :: r in rows ==> r.key != row.key
    ensures OneEach([row] + rows)
  {
    forall i, j | 0 <= i < j < |[row] + rows| ensures ([row] + rows)[i].key != ([row] + rows)[j].key {
      assert ([row] + rows)[j] == rows[j - 1];
      if i > 0 {
        assert ([row] + rows)[i] == rows[i - 1];
      } else {
        assert rows[j - 1] in rows;
      }
    }
  }

  lemma {:induction false} UpsertOneEach(rows: seq<Row>, key: Key, at: u64)
    requires OneEach(rows)
    ensures OneEach(Upsert(rows, key, at))
    decreases |rows|
  {
    if rows != [] {
      OneEachTail(rows);
      if rows[0].key == key {
        OneEachCons(Row(key, Later(rows[0].at, at)), rows[1..]);
      } else {
        UpsertOneEach(rows[1..], key, at);
        forall r | r in Upsert(rows[1..], key, at) ensures r.key != rows[0].key {
          UpsertMembers(rows[1..], key, at, r);
        }
        OneEachCons(rows[0], Upsert(rows[1..], key, at));
      }
    }
  }

  lemma {:induction false} UnexpiredOneEach(rows: seq<Row>, now: u64)
    requires OneEach(rows)
    ensures OneEach(Unexpired(rows, now))
    decreases |rows|
  {
    if rows != [] {
      OneEachTail(rows);
      UnexpiredOneEach(rows[1..], now);
      forall r | r in Unexpired(rows[1..], now) ensures r.key != rows[0].key {
        UnexpiredMembers(rows[1..], now, r);
      }
      OneEachCons(rows[0], Unexpired(rows[1..], now));
    }
  }

  lemma {:induction false} CurrentOneEach(rows: seq<Row>, successes: seq<Row>, relogin: Option<u64>, now: u64)
    requires OneEach(rows)
    ensures OneEach(CurrentOnes(rows, successes, relogin, now))
    decreases |rows|
  {
    if rows != [] {
      OneEachTail(rows);
      CurrentOneEach(rows[1..], successes, relogin, now);
      forall r | r in CurrentOnes(rows[1..], successes, relogin, now) ensures r.key != rows[0].key {
        CurrentMembers(rows[1..], successes, relogin, now, r);
      }
      OneEachCons(rows[0], CurrentOnes(rows[1..], successes, relogin, now));
    }
  }

  lemma {:induction false} OutlastingOneEach(rows: seq<Row>, key: Key, at: u64)
    requires OneEach(rows)
    ensures OneEach(Outlasting(rows, key, at))
    decreases |rows|
  {
    if rows != [] {
      OneEachTail(rows);
      OutlastingOneEach(rows[1..], key, at);
      forall r | r in Outlasting(rows[1..], key, at) ensures r.key != rows[0].key {
        OutlastingMembers(rows[1..], key, at, r);
      }
      OneEachCons(rows[0], Outlasting(rows[1..], key, at));
    }
  }

  lemma {:induction false} InsertIncreasing(row: Row, rows: seq<Row>)
    requires Increasing(rows) && forall r :: r in rows ==> r.key != row.key
    ensures Increasing(Insert(row, rows))
  {
    if rows != [] && !Before(row.key, rows[0].key) {
      assert rows[0] in rows;
      forall r | r in rows[1..] ensures r.key != row.key { assert r in rows; }
      InsertIncreasing(row, rows[1..]);
      var rest := Insert(row, rows[1..]);
      forall j | 0 <= j < |rest| ensures Before(rows[0].key, rest[j].key) {
        InsertMembers(row, rows[1..], rest[j]);
      }
    }
  }

  lemma {:induction false} InsertMembers(row: Row, rows: seq<Row>, r: Row)
    requires r in Insert(row, rows)
    ensures r == row || r in rows
  {
    InsertPermutes(row, rows);
    assert r in multiset(Insert(row, rows));
  }

  lemma {:induction false} SortIncreasing(rows: seq<Row>)
    requires OneEach(rows)
    ensures Increasing(Sort(rows))
  {
    if rows != [] {
      var n := |rows| - 1;
      SortIncreasing(rows[..n]);
      forall r | r in Sort(rows[..n]) ensures r.key != rows[n].key {
        SortMembers(rows[..n], r);
      }
      InsertIncreasing(rows[n], Sort(rows[..n]));
    }
  }

  /** Both lists keep one row a key, in the order of keys, after every event. */
  lemma {:induction false} RecordOrdered(events: seq<Event>)
    ensures Increasing(RecordAll(events).incidents) && Increasing(RecordAll(events).successes)
    decreases |events|
  {
    if events != [] {
      var e := events[|events| - 1];
      var s := RecordAll(events[..|events| - 1]);
      RecordOrdered(events[..|events| - 1]);
      var incidents := if e.Incident? then Upsert(s.incidents, e.key, e.at)
          else if e.Success? then Outlasting(s.incidents, e.key, e.at) else s.incidents;
      var successes := if e.Success? then Upsert(s.successes, e.key, e.at) else s.successes;
      if e.Incident? { UpsertOneEach(s.incidents, e.key, e.at); }
      if e.Success? {
        OutlastingOneEach(s.incidents, e.key, e.at);
        UpsertOneEach(s.successes, e.key, e.at);
      }
      var relogin := if e.Merge? then e.relogin else None;
      UnexpiredOneEach(successes, e.at);
      CurrentOneEach(incidents, Unexpired(successes, e.at), relogin, e.at);
      SortIncreasing(Unexpired(successes, e.at));
      SortIncreasing(CurrentOnes(incidents, Unexpired(successes, e.at), relogin, e.at));
    }
  }

  lemma {:induction false} OneRowOfKey(rows: seq<Row>, a: Row, b: Row)
    requires Increasing(rows) && a in rows && b in rows && a.key == b.key
    ensures a == b
  {
    var i :| 0 <= i < |rows| && rows[i] == a;
    var j :| 0 <= j < |rows| && rows[j] == b;
  }

  lemma {:induction false} LaterStands(events: seq<Event>, key: Key, at: u64, later: u64, q: u64)
    requires Standing(events, key, at, q) && Incident(key, later) in events && at <= later
    ensures Standing(events, key, later, q)
  {
  }

  /** A reported row carries the time of the latest incident of its key that counts and
      was not cleared; without the re-login rule, of the latest at all. */
  lemma {:induction false} ReportsLatest(events: seq<Event>, row: Row, q: u64) returns (k: nat)
    requires UpTo(events, q)
    requires row in RecordAll(events).incidents && IsCurrent(row, RecordAll(events).successes, None, q)
    ensures Kept(events, k, row.key, q) && events[k].at == row.at
    ensures forall i: nat :: Kept(events, i, row.key, q) ==> events[i].at <= row.at
    ensures row.key.agent != CODEX ==> forall at: u64 :: Incident(row.key, at) in events ==> at <= row.at
  {
    Remembers(events, q);
    RecordOrdered(events);
    var s := RecordAll(events);
    k := ReportKept(s, events, row, q);
    forall i: nat | Kept(events, i, row.key, q) ensures events[i].at <= row.at {
      var other := CoveringRow(s.incidents, row.key, events[i].at);
      OneRowOfKey(s.incidents, other, row);
    }
    forall at: u64 | row.key.agent != CODEX && Incident(row.key, at) in events ensures at <= row.at {
      var i := LaterKept(events, row.key, row.at, Later(row.at, at), q);
    }
  }

  /** Without the re-login rule an incident later than one that counts does too. */
  lemma {:induction false} LaterKept(events: seq<Event>, key: Key, at: u64, later: u64, q: u64) returns (i: nat)
    requires key.agent != CODEX && Standing(events, key, at, q) && Incident(key, later) in events && at <= later
    ensures Kept(events, i, key, q) && events[i].at == later
  {
    LaterStands(events, key, at, later, q);
    i :| i < |events| && events[i] == Incident(key, later);
  }

  /** For the agent with the re-login rule the store may forget: an incident that a
      re-login cleared stands in the history. */
  lemma {:induction false} ReloginForgets(events: seq<Event>, key: Key)
    requires key == Key(CODEX, None) && events == [Incident(key, 10), Merge(20, Some(15))]
    ensures !Reports(RecordAll(events), key, 20) && HistoryReports(events, key, 20)
  {
    assert Standing(events, key, 10, 20);
    Remembers(events[..1], 20);
    var s := RecordAll(events[..1]);
    var successes := Unexpired(s.successes, 20);
    forall row ensures row !in RecordAll(events).incidents {
      SortMembers(CurrentOnes(s.incidents, successes, Some(15), 20), row);
      CurrentMembers(s.incidents, successes, Some(15), 20, row);
      assert row in s.incidents ==> Uncleared(events[..1], row);
    }
    assert forall i :: 0 <= i < |RecordAll(events).incidents| ==>
        RecordAll(events).incidents[i] in RecordAll(events).incidents;
  }

  // ---- The store, updated in place --------------------------------------------------------------

  lemma {:induction false} InsertNext(row: Row, rows: seq<Row>, n: nat)
    requires n < |rows| && !Before(row.key, rows[n].key)
    ensures rows[..n] + Insert(row, rows[n..]) == rows[..n + 1] + Insert(row, rows[n + 1..])
  {
    assert rows[n..][1..] == rows[n + 1..];
    var rest := Insert(row, rows[n + 1..]);
    assert rows[..n] + ([rows[n]] + rest) == rows[..n + 1] + rest;
  }

  lemma {:induction false} InsertHere(row: Row, rows: seq<Row>, n: nat)
    requires n <= |rows| && (n < |rows| ==> Before(row.key, rows[n].key))
    ensures Insert(row, rows[n..]) == [row] + rows[n..]
  {
  }

  class AuthIncidentStore {
    var incidents: seq<Row>
    var successes: seq<Row>

    constructor ()
      ensures Contents() == Store([], [])
    {
      incidents, successes := [], [];
    }

    function Contents(): Store
      reads this
    {
      Store(incidents, successes)
    }

    static method Updated(rows: seq<Row>, key: Key, at: u64) returns (r: seq<Row>)
      ensures r == Upsert(rows, key, at)
    {
      var n := 0;
      while n < |rows| && rows[n].key != key
        invariant n <= |rows| && Upsert(rows, key, at) == rows[..n] + Upsert(rows[n..], key, at)
      {
        assert rows[n..][1..] == rows[n + 1..];
        assert rows[..n] + ([rows[n]] + Upsert(rows[n + 1..], key, at)) == rows[..n + 1] + Upsert(rows[n + 1..], key,
            at);
        n := n + 1;
      }
      if n == |rows| {
        return rows + [Row(key, at)];
      }
      r := rows[n := Row(key, Later(rows[n].at, at))];
      assert rows[n..][1..] == rows[n + 1..];
      assert r == rows[..n] + ([Row(key, Later(rows[n].at, at))] + rows[n + 1..]);
    }

    method UpsertIncident(key: Key, at: u64)
      modifies this
      ensures Contents() == old(Contents()).(incidents := Upsert(old(incidents), key, at))
    {
      incidents := Updated(incidents, key, at);
    }

    method UpsertSuccess(key: Key, at: u64)
      modifies this
      ensures Contents() == Store(Outlasting(old(incidents), key, at), Upsert(old(successes), key, at))
    {
      var kept, n := [], 0;
      while n < |incidents|
        invariant n <= |incidents| && incidents == old(incidents) && successes == old(successes)
        invariant Outlasting(incidents, key, at) == kept + Outlasting(incidents[n..], key, at)
      {
        assert incidents[n..][1..] == incidents[n + 1..];
        if incidents[n].key != key || incidents[n].at > at { kept := kept + [incidents[n]]; }
        n := n + 1;
      }
      incidents := kept;
      successes := Updated(successes, key, at);
    }

    method PruneExpired(relogin: Option<u64>, now: u64)
      modifies this
      ensures Contents() == Prune(old(Contents()), relogin, now)
    {
      successes := RetainUnexpired(successes, now);
      incidents := RetainCurrent(relogin, now);
    }

    static method RetainUnexpired(rows: seq<Row>, now: u64) returns (kept: seq<Row>)
      ensures kept == Unexpired(rows, now)
    {
      kept := [];
      var n := 0;
      while n < |rows|
        invariant n <= |rows| && Unexpired(rows, now) == kept + Unexpired(rows[n..], now)
      {
        assert rows[n..][1..] == rows[n + 1..];
        if Elapsed(now, rows[n].at) < TTL { kept := kept + [rows[n]]; }
        n := n + 1;
      }
    }

    method RetainCurrent(relogin: Option<u64>, now: u64) returns (kept: seq<Row>)
      ensures kept == CurrentOnes(incidents, successes, relogin, now)
    {
      kept := [];
      var n := 0;
      while n < |incidents|
        invariant n <= |incidents| && CurrentOnes(incidents, successes, relogin, now) == kept +
          CurrentOnes(incidents[n..], successes, relogin, now)
      {
        assert incidents[n..][1..] == incidents[n + 1..];
        var current := Currently(incidents[n], relogin, now);
        if current { kept := kept + [incidents[n]]; }
        n := n + 1;
      }
    }

    method Currently(row: Row, relogin: Option<u64>, now: u64) returns (current: bool)
      ensures current == IsCurrent(row, successes, relogin, now)
    {
      if Elapsed(now, row.at) >= TTL { return false; }
      var n := 0;
      while n < |successes|
        invariant n <= |successes| && forall i :: 0 <= i < n ==>
          !(successes[i].key == row.key && successes[i].at >= row.at)
      {
        if successes[n].key == row.key && successes[n].at >= row.at { return false; }
        n := n + 1;
      }
      return !(row.key.agent == CODEX && relogin.Some? && relogin.value > row.at);
    }

    /** An insertion sort, like any stable sort by key. */
    static method Sorted(rows: seq<Row>) returns (r: seq<Row>)
      ensures r == Sort(rows)
    {
      r := [];
      var n := 0;
      while n < |rows|
        invariant n <= |rows| && r == Sort(rows[..n])
      {
        assert rows[..n + 1][..n] == rows[..n];
        r := Inserted(rows[n], r);
        n := n + 1;
      }
      assert rows[..n] == rows;
    }

    static method Inserted(row: Row, rows: seq<Row>) returns (r: seq<Row>)
      ensures r == Insert(row, rows)
    {
      var n := 0;
      while n < |rows| && !Before(row.key, rows[n].key)
        invariant n <= |rows| && Insert(row, rows) == rows[..n] + Insert(row, rows[n..])
      {
        InsertNext(row, rows, n);
        n := n + 1;
      }
      InsertHere(row, rows, n);
      return rows[..n] + ([row] + rows[n..]);
    }

    method Canonicalize()
      modifies this
      ensures Contents() == Canonical(old(Contents()))
    {
      incidents := Sorted(incidents);
      successes := Sorted(successes);
    }

    /** One locked write: transform, then sort. */
    method Apply(e: Event)
      modifies this
      ensures Contents() == Record(old(Contents()), e)
    {
      match e {
        case Incident(key, at) =>
          UpsertIncident(key, at);
          PruneExpired(None, at);
        case Success(key, at) =>
          UpsertSuccess(key, at);
          PruneExpired(None, at);
        case Merge(at, relogin) =>
          PruneExpired(relogin, at);
      }
      Canonicalize();
    }
  }
}
