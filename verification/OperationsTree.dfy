/** Staged writes: every state file is written in a private operation directory,
    linked or exchanged into place, and the directory is retired in steps. The tree
    of operations must pass validation after a crash between any two steps. */
module OperationsTree {
  import opened Basics
  import opened Traces

  /** Names under the operations directory; the numbers stand for random identifiers. */
  datatype Name = Hex(nat) | CleanupDir(nat) | RollbackDir(nat) | Payload | Operation | Retired | Published | Other(nat)

  /** A regular file is known by its identity and size; a directory by its entries. */
  datatype Node = File(identity: nat, size: nat) | Dir(entries: map<Name, Node>)

  /** The operations directory and the directory the files are published in. */
  datatype Disk = Disk(ops: map<Name, Node>, home: map<Name, Node>)

  /** The largest state file. */
  const MAX_SIZE: nat := 1024 * 1024

  // ---- The validator at reopening --------------------------------------------------------------

  predicate ValidFile(n: Node) { n.File? && n.size <= MAX_SIZE }

  /** `validate_active_operation` */
  predicate ValidActive(n: Node) { n.Dir? && forall x :: x in n.entries ==> x == Payload && ValidFile(n.entries[x]) }

  /** `validate_cleanup_retired` */
  predicate ValidRetired(n: Node) {
    n.Dir? && forall x :: x in n.entries ==>
      (x == Payload && ValidFile(n.entries[x])) || (x == Operation && n.entries[x] == Dir(map[]))
  }

  /** `validate_cleanup_namespace` */
  predicate ValidCleanup(n: Node) {
    n.Dir? && forall x :: x in n.entries ==>
      (x == Operation && ValidActive(n.entries[x])) || (x == Retired && ValidRetired(n.entries[x]))
  }

  predicate ValidPublished(n: Node) {
    n.Dir? && forall x :: x in n.entries ==> x == Published && ValidFile(n.entries[x])
  }

  /** `validate_rollback_namespace` */
  predicate ValidRollback(n: Node) {
    n.Dir? && forall x :: x in n.entries ==>
      (x == Published && ValidFile(n.entries[x])) || (x == Retired && ValidPublished(n.entries[x]))
  }

  predicate ValidEntry(x: Name, n: Node) {
    (x.Hex? && ValidActive(n)) || (x.CleanupDir? && ValidCleanup(n)) || (x.RollbackDir? && ValidRollback(n))
  }

  /** `validate_operation_entries` */
  predicate Valid(ops: map<Name, Node>) { forall x :: x in ops ==> ValidEntry(x, ops[x]) }

  // ---- Directory calls -----------------------------------------------------------------------------

  datatype Place =
    | Top(name: Name)
    | Under(dir: Name, name: Name)
    | Deep(dir: Name, sub: Name, name: Name)
    | Home(name: Name)

  function In(n: Option<Node>, x: Name): Option<Node> {
    if n.Some? && n.value.Dir? && x in n.value.entries then Some(n.value.entries[x]) else None
  }

  function Get(m: map<Name, Node>, x: Name): Option<Node> { if x in m then Some(m[x]) else None }

  function Look(d: Disk, p: Place): Option<Node> {
    match p
    case Top(x) => Get(d.ops, x)
    case Under(a, x) => In(Get(d.ops, a), x)
    case Deep(a, b, x) => In(In(Get(d.ops, a), b), x)
    case Home(x) => Get(d.home, x)
  }

  function Put(m: map<Name, Node>, x: Name, n: Option<Node>): map<Name, Node> {
    if n.Some? then m[x := n.value] else m - {x}
  }

  /** The directory that holds the entry. */
  function Parent(d: Disk, p: Place): Option<Node> {
    match p
    case Top(_) => Some(Dir(d.ops))
    case Under(a, _) => Get(d.ops, a)
    case Deep(a, b, _) => In(Get(d.ops, a), b)
    case Home(_) => Some(Dir(d.home))
  }

  predicate HasParent(d: Disk, p: Place) { Parent(d, p).Some? && Parent(d, p).value.Dir? }

  /** The entry set, or removed. */
  function Set(d: Disk, p: Place, n: Option<Node>): Disk
    requires HasParent(d, p)
  {
    match p
    case Top(x) => d.(ops := Put(d.ops, x, n))
    case Under(a, x) => d.(ops := d.ops[a := Dir(Put(d.ops[a].entries, x, n))])
    case Deep(a, b, x) =>
      var inner := Dir(Put(d.ops[a].entries[b].entries, x, n));
      d.(ops := d.ops[a := Dir(d.ops[a].entries[b := inner])])
    case Home(x) => d.(home := Put(d.home, x, n))
  }

  datatype Call =
    | Mkdir(at: Place)
    | Create(at: Place, identity: nat)
    | Fill(at: Place, size: nat)
    | Link(from: Place, to: Place)
    | Rename(from: Place, to: Place)
    | Exchange(from: Place, to: Place)
    | Unlink(at: Place)
    | Rmdir(at: Place)

  predicate Absent(d: Disk, p: Place) { HasParent(d, p) && Look(d, p).None? }

  predicate IsFile(d: Disk, p: Place) { HasParent(d, p) && Look(d, p).Some? && Look(d, p).value.File? }

  function Moved(d: Disk, from: Place, to: Place): Option<Disk>
    requires HasParent(d, from)
  {
    var gone := Set(d, from, None);
    if HasParent(gone, to) then Some(Set(gone, to, Look(d, from))) else None
  }

  /** One directory call; nothing when it is refused. */
  function Do(d: Disk, call: Call): Option<Disk> {
    match call
    case Mkdir(p) => if Absent(d, p) then Some(Set(d, p, Some(Dir(map[])))) else None
    case Create(p, id) => if Absent(d, p) then Some(Set(d, p, Some(File(id, 0)))) else None
    case Fill(p, size) => if IsFile(d, p) then Some(Set(d, p, Some(File(Look(d, p).value.identity, size)))) else None
    case Link(p, q) => if IsFile(d, p) && Absent(d, q) then Some(Set(d, q, Look(d, p))) else None
    case Rename(p, q) => if HasParent(d, p) && Look(d, p).Some? && Absent(d, q) then Moved(d, p, q) else None
    case Exchange(p, q) =>
      if IsFile(d, p) && IsFile(d, q) then
        var half := Set(d, p, Look(d, q));
        if HasParent(half, q) then Some(Set(half, q, Look(d, p))) else None
      else None
    case Unlink(p) => if IsFile(d, p) then Some(Set(d, p, None)) else None
    case Rmdir(p) => if HasParent(d, p) && Look(d, p) == Some(Dir(map[])) then Some(Set(d, p, None)) else None
  }

  // ---- The steps of a staged write --------------------------------------------------------------------

  /** Writing goes through any number of partial sizes. */
  function Fills(p: Place, sizes: seq<nat>): seq<Call> {
    if sizes == [] then [] else [Fill(p, sizes[0])] + Fills(p, sizes[1..])
  }

  /** `OperationFile::stage` */
  function Stage(id: nat, file: nat, sizes: seq<nat>): seq<Call> {
    [Mkdir(Top(Hex(id))), Create(Under(Hex(id), Payload), file)] + Fills(Under(Hex(id), Payload), sizes)
  }

  /** `OperationFile::cleanup` with the links of its payload. */
  function Cleanup(id: nat, c: nat): seq<Call> {
    var top := CleanupDir(c);
    [Mkdir(Top(top)), Rename(Top(Hex(id)), Under(top, Operation)), Mkdir(Under(top, Retired)),
     Rename(Deep(top, Operation, Payload), Deep(top, Retired, Payload)), Unlink(Deep(top, Retired, Payload)),
     Rename(Under(top, Operation), Deep(top, Retired, Operation)), Rmdir(Deep(top, Retired, Operation)),
     Rmdir(Under(top, Retired)), Rmdir(Top(top))]
  }

  /** `remove_entry_if_identity`: takes a published entry back. */
  function Rollback(r: nat, at: Name): seq<Call> {
    var top := RollbackDir(r);
    [Mkdir(Top(top)), Rename(Home(at), Under(top, Published)), Mkdir(Under(top, Retired)),
     Rename(Under(top, Published), Deep(top, Retired, Published)), Unlink(Deep(top, Retired, Published)),
     Rmdir(Under(top, Retired)), Rmdir(Top(top))]
  }

  /** Published files are no larger than a state file may be. */
  predicate Good(d: Disk) { Valid(d.ops) && forall x :: x in d.home ==> ValidFile(d.home[x]) }

  /** All calls succeed, from `d` to `e`, and reopening accepts every state between. */
  ghost predicate Reaches(d: Disk, calls: seq<Call>, e: Disk) { Leads(Do, Good, d, calls, e) }

  lemma {:induction false} Onward(d: Disk, call: Call, e: Disk, rest: seq<Call>, f: Disk)
    requires Good(d) && Do(d, call) == Some(e) && Reaches(e, rest, f)
    ensures Reaches(d, [call] + rest, f)
  {
    Go(Do, Good, d, call, e, rest, f);
  }

  // ---- Each step ---------------------------------------------------------------------------------------

  /** The tree with one more entry. */
  function With(d: Disk, x: Name, entries: map<Name, Node>): Disk { d.(ops := d.ops[x := Dir(entries)]) }

  lemma {:induction false} ValidWith(d: Disk, x: Name, entries: map<Name, Node>)
    requires Good(d) && ValidEntry(x, Dir(entries))
    ensures Good(With(d, x, entries))
  {
  }

  lemma {:induction false} MkdirTop(d: Disk, x: Name)
    requires x !in d.ops
    ensures Do(d, Mkdir(Top(x))) == Some(With(d, x, map[]))
  {
  }

  lemma {:induction false} RmdirTop(d: Disk, x: Name)
    requires x !in d.ops
    ensures Do(With(d, x, map[]), Rmdir(Top(x))) == Some(d)
  {
    assert With(d, x, map[]).ops - {x} == d.ops;
  }

  /** A call inside a directory of the operations tree changes that directory. */
  lemma {:induction false} SetUnder(d: Disk, a: Name, entries: map<Name, Node>, x: Name, n: Option<Node>)
    ensures HasParent(With(d, a, entries), Under(a, x))
    ensures Set(With(d, a, entries), Under(a, x), n) == With(d, a, Put(entries, x, n))
    ensures Look(With(d, a, entries), Under(a, x)) == Get(entries, x)
  {
    assert With(d, a, entries).ops[a := Dir(Put(entries, x, n))] == d.ops[a := Dir(Put(entries, x, n))];
  }

  lemma {:induction false} SetDeep(d: Disk, a: Name, entries: map<Name, Node>, b: Name, inner: map<Name, Node>, x: Name,
      n: Option<Node>)
    requires b in entries && entries[b] == Dir(inner)
    ensures HasParent(With(d, a, entries), Deep(a, b, x))
    ensures Set(With(d, a, entries), Deep(a, b, x), n) == With(d, a, entries[b := Dir(Put(inner, x, n))])
    ensures Look(With(d, a, entries), Deep(a, b, x)) == Get(inner, x)
  {
    var after := entries[b := Dir(Put(inner, x, n))];
    assert With(d, a, entries).ops[a := Dir(after)] == d.ops[a := Dir(after)];
  }

  lemma {:induction false} MkdirUnder(d: Disk, a: Name, entries: map<Name, Node>, x: Name)
    requires x !in entries
    ensures Do(With(d, a, entries), Mkdir(Under(a, x))) == Some(With(d, a, entries[x := Dir(map[])]))
  {
    SetUnder(d, a, entries, x, Some(Dir(map[])));
  }

  lemma {:induction false} RmdirUnder(d: Disk, a: Name, entries: map<Name, Node>, x: Name)
    requires x in entries && entries[x] == Dir(map[])
    ensures Do(With(d, a, entries), Rmdir(Under(a, x))) == Some(With(d, a, entries - {x}))
  {
    SetUnder(d, a, entries, x, None);
  }

  // ---- Staging --------------------------------------------------------------------------------------------

  lemma {:induction false} FillStep(d: Disk, x: Name, f: nat, size: nat, next: nat)
    ensures Do(With(d, x, map[Payload := File(f, size)]), Fill(Under(x, Payload), next)) ==
      Some(With(d, x, map[Payload := File(f, next)]))
  {
    SetUnder(d, x, map[Payload := File(f, size)], Payload, Some(File(f, next)));
    assert map[Payload := File(f, size)][Payload := File(f, next)] == map[Payload := File(f, next)];
  }

  predicate Sizes(sizes: seq<nat>) { forall i :: 0 <= i < |sizes| ==> sizes[i] <= MAX_SIZE }

  function Last(sizes: seq<nat>): nat { if sizes == [] then 0 else sizes[|sizes| - 1] }

  /** A file only grows while it is written. */
  predicate Growing(sizes: seq<nat>) { forall i, j :: 0 <= i <= j < |sizes| ==> sizes[i] <= sizes[j] }

  /** The size of the payload after so many calls of a write. */
  function SizeAfter(sizes: seq<nat>, n: nat): nat { if n <= 2 then 0 else Last(Cut(sizes, n - 2)) }

  /** The tree with a payload of some size staged. */
  function Staged(d: Disk, id: nat, file: Node): Disk { With(d, Hex(id), map[Payload := file]) }

  lemma {:induction false} FillsLead(d: Disk, id: nat, f: nat, size: nat, sizes: seq<nat>, last: nat)
    requires Good(d) && size <= MAX_SIZE && Sizes(sizes) && last == if sizes == [] then size else sizes[|sizes| - 1]
    ensures Reaches(Staged(d, id, File(f, size)), Fills(Under(Hex(id), Payload), sizes), Staged(d, id, File(f, last)))
    decreases |sizes|
  {
    ValidWith(d, Hex(id), map[Payload := File(f, size)]);
    if sizes == [] {
      Stay(Do, Good, Staged(d, id, File(f, size)));
    } else {
      FillsLead(d, id, f, sizes[0], sizes[1..], last);
      FillStep(d, Hex(id), f, size, sizes[0]);
      Onward(Staged(d, id, File(f, size)), Fill(Under(Hex(id), Payload), sizes[0]), Staged(d, id, File(f, sizes[0])),
         Fills(Under(Hex(id), Payload), sizes[1..]), Staged(d, id, File(f, last)));
    }
  }

  /** Staging leads to the staged file. */
  lemma {:induction false} StageLeads(d: Disk, id: nat, f: nat, sizes: seq<nat>)
    requires Good(d) && Hex(id) !in d.ops && Sizes(sizes)
    ensures Reaches(d, Stage(id, f, sizes), Staged(d, id, File(f, Last(sizes))))
  {
    var x, p := Hex(id), Under(Hex(id), Payload);
    var fills, end := Fills(p, sizes), Staged(d, id, File(f, Last(sizes)));
    FillsLead(d, id, f, 0, sizes, Last(sizes));
    ValidWith(d, x, map[]);
    SetUnder(d, x, map[], Payload, Some(File(f, 0)));
    assert map[][Payload := File(f, 0)] == map[Payload := File(f, 0)];
    Onward(With(d, x, map[]), Create(p, f), Staged(d, id, File(f, 0)), fills, end);
    MkdirTop(d, x);
    Onward(d, Mkdir(Top(x)), With(d, x, map[]), [Create(p, f)] + fills, end);
    assert Stage(id, f, sizes) == [Mkdir(Top(x))] + ([Create(p, f)] + fills);
  }

  /** Staging does not look at the size: all its calls succeed. */
  predicate Any(d: Disk) { true }

  lemma {:induction false} FillsRun(d: Disk, id: nat, f: nat, size: nat, sizes: seq<nat>, last: nat)
    requires last == if sizes == [] then size else sizes[|sizes| - 1]
    ensures Leads(Do, Any, Staged(d, id, File(f, size)), Fills(Under(Hex(id), Payload), sizes),
        Staged(d, id, File(f, last)))
    decreases |sizes|
  {
    if sizes == [] {
      Stay(Do, Any, Staged(d, id, File(f, size)));
    } else {
      FillsRun(d, id, f, sizes[0], sizes[1..], last);
      FillStep(d, Hex(id), f, size, sizes[0]);
      Go(Do, Any, Staged(d, id, File(f, size)), Fill(Under(Hex(id), Payload), sizes[0]),
          Staged(d, id, File(f, sizes[0])), Fills(Under(Hex(id), Payload), sizes[1..]),
          Staged(d, id, File(f, last)));
    }
  }

  lemma {:induction false} StageRuns(d: Disk, id: nat, f: nat, sizes: seq<nat>)
    requires Hex(id) !in d.ops
    ensures Leads(Do, Any, d, Stage(id, f, sizes), Staged(d, id, File(f, Last(sizes))))
  {
    var x, p := Hex(id), Under(Hex(id), Payload);
    var fills, end := Fills(p, sizes), Staged(d, id, File(f, Last(sizes)));
    FillsRun(d, id, f, 0, sizes, Last(sizes));
    SetUnder(d, x, map[], Payload, Some(File(f, 0)));
    assert map[][Payload := File(f, 0)] == map[Payload := File(f, 0)];
    Go(Do, Any, With(d, x, map[]), Create(p, f), Staged(d, id, File(f, 0)), fills, end);
    MkdirTop(d, x);
    Go(Do, Any, d, Mkdir(Top(x)), With(d, x, map[]), [Create(p, f)] + fills, end);
    assert Stage(id, f, sizes) == [Mkdir(Top(x))] + ([Create(p, f)] + fills);
  }

  lemma {:induction false} FillsCut(p: Place, sizes: seq<nat>, n: nat)
    ensures Cut(Fills(p, sizes), n) == Fills(p, Cut(sizes, n))
    decreases |sizes|
  {
    if sizes != [] && n > 0 {
      FillsCut(p, sizes[1..], n - 1);
      assert Cut(sizes, n)[1..] == Cut(sizes[1..], n - 1);
      assert Cut([Fill(p, sizes[0])] + Fills(p, sizes[1..]), n) == [Fill(p, sizes[0])] + Cut(Fills(p, sizes[1..]),
          n - 1);
    }
  }

  /** Staging cut short is the staging of what was written. */
  lemma {:induction false} StageCut(id: nat, f: nat, sizes: seq<nat>, n: nat)
    requires n >= 2
    ensures Cut(Stage(id, f, sizes), n) == Stage(id, f, Cut(sizes, n - 2))
  {
    var p := Under(Hex(id), Payload);
    var fills := Fills(p, sizes);
    FillsCut(p, sizes, n - 2);
    assert Cut([Mkdir(Top(Hex(id))), Create(p, f)] + fills, n) == [Mkdir(Top(Hex(id))), Create(p, f)] + Cut(fills,
        n - 2);
  }

  lemma {:induction false} StagedTree(d: Disk, id: nat, f: nat, sizes: seq<nat>, n: nat)
    requires Hex(id) !in d.ops && n >= 2
    ensures Exec(Do, d, Cut(Stage(id, f, sizes), n)) == Staged(d, id, File(f, SizeAfter(sizes, n)))
  {
    var part := Cut(sizes, n - 2);
    StageCut(id, f, sizes, n);
    StageRuns(d, id, f, part);
    LeadsPrefix(Do, Any, d, Stage(id, f, part), Staged(d, id, File(f, Last(part))), |Stage(id, f, part)|);
    assert Stage(id, f, part)[..|Stage(id, f, part)|] == Stage(id, f, part);
  }

  lemma {:induction false} StagedGood(d: Disk, id: nat, file: Node)
    requires Good(d) && file.File?
    ensures Good(Staged(d, id, file)) <==> file.size <= MAX_SIZE
  {
    var v := Staged(d, id, file);
    assert v.ops[Hex(id)].entries[Payload] == file;
    if file.size <= MAX_SIZE {
      ValidWith(d, Hex(id), map[Payload := file]);
    } else {
      assert !ValidActive(v.ops[Hex(id)]);
      assert !ValidEntry(Hex(id), v.ops[Hex(id)]);
    }
  }

  /** Staging cut anywhere leaves a tree that reopening accepts exactly while what was
      written is no larger than a state file may be. */
  lemma {:induction false} StageLaw(d: Disk, id: nat, f: nat, sizes: seq<nat>, n: nat)
    requires Good(d) && Hex(id) !in d.ops
    ensures Good(Exec(Do, d, Cut(Stage(id, f, sizes), n))) <==> SizeAfter(sizes, n) <= MAX_SIZE
  {
    if n >= 2 {
      StagedTree(d, id, f, sizes, n);
      StagedGood(d, id, File(f, SizeAfter(sizes, n)));
    } else {
      StageLeads(d, id, f, []);
      StageCut(id, f, sizes, 2);
      assert Cut(sizes, 0) == [];
      assert Cut(Stage(id, f, sizes), n) == Stage(id, f, [])[..n];
      LeadsPrefix(Do, Good, d, Stage(id, f, []), Staged(d, id, File(f, 0)), n);
    }
  }

  // ---- Retiring an operation -----------------------------------------------------------------------------

  /** The operation directory moves under the cleanup directory. */
  lemma {:induction false} AcquireStep(d: Disk, x: Name, top: Name, payload: map<Name, Node>)
    requires x !in d.ops && top !in d.ops && x != top
    ensures Do(With(With(d, x, payload), top, map[]), Rename(Top(x), Under(top, Operation))) ==
      Some(With(d, top, map[Operation := Dir(payload)]))
  {
    var both := With(With(d, x, payload), top, map[]);
    var gone := Set(both, Top(x), None);
    assert gone.ops == With(d, top, map[]).ops;
    SetUnder(d, top, map[], Operation, Some(Dir(payload)));
    assert map[][Operation := Dir(payload)] == map[Operation := Dir(payload)];
    assert Look(both, Under(top, Operation)) == None;
  }

  /** The payload moves from the operation to the retired directory. */
  lemma {:induction false} RetireStep(d: Disk, top: Name, file: Node)
    ensures Do(With(d, top, map[Operation := Dir(map[Payload := file]), Retired := Dir(map[])]),
               Rename(Deep(top, Operation, Payload), Deep(top, Retired, Payload)))
      == Some(With(d, top, map[Operation := Dir(map[]), Retired := Dir(map[Payload := file])]))
  {
    var e := map[Operation := Dir(map[Payload := file]), Retired := Dir(map[])];
    SetDeep(d, top, e, Operation, map[Payload := file], Payload, None);
    SetDeep(d, top, e, Retired, map[], Payload, Some(file));
    assert map[Payload := file] - {Payload} == map[];
    var e1 := e[Operation := Dir(map[])];
    SetDeep(d, top, e1, Retired, map[], Payload, Some(file));
    assert map[][Payload := file] == map[Payload := file];
    assert e1[Retired := Dir(map[Payload := file])] == map[Operation := Dir(map[]),
        Retired := Dir(map[Payload := file])];
  }

  lemma {:induction false} DropStep(d: Disk, top: Name, file: Node)
    requires file.File?
    ensures Do(With(d, top, map[Operation := Dir(map[]), Retired := Dir(map[Payload := file])]),
        Unlink(Deep(top, Retired, Payload)))
      == Some(With(d, top, map[Operation := Dir(map[]), Retired := Dir(map[])]))
  {
    var e := map[Operation := Dir(map[]), Retired := Dir(map[Payload := file])];
    SetDeep(d, top, e, Retired, map[Payload := file], Payload, None);
    assert map[Payload := file] - {Payload} == map[];
    assert e[Retired := Dir(map[])] == map[Operation := Dir(map[]), Retired := Dir(map[])];
  }

  lemma {:induction false} EmptyStep(d: Disk, top: Name)
    ensures Do(With(d, top, map[Operation := Dir(map[]), Retired := Dir(map[])]),
        Rename(Under(top, Operation), Deep(top, Retired, Operation)))
      == Some(With(d, top, map[Retired := Dir(map[Operation := Dir(map[])])]))
  {
    var e := map[Operation := Dir(map[]), Retired := Dir(map[])];
    SetUnder(d, top, e, Operation, None);
    SetDeep(d, top, e, Retired, map[], Operation, None);
    var e1 := e - {Operation};
    assert e1 == map[Retired := Dir(map[])];
    SetDeep(d, top, e1, Retired, map[], Operation, Some(Dir(map[])));
    assert map[][Operation := Dir(map[])] == map[Operation := Dir(map[])];
    assert e1[Retired := Dir(map[Operation := Dir(map[])])] == map[Retired := Dir(map[Operation := Dir(map[])])];
  }

  lemma {:induction false} LastStep(d: Disk, top: Name)
    ensures Do(With(d, top, map[Retired := Dir(map[Operation := Dir(map[])])]), Rmdir(Deep(top, Retired, Operation)))
      == Some(With(d, top, map[Retired := Dir(map[])]))
  {
    var e := map[Retired := Dir(map[Operation := Dir(map[])])];
    SetDeep(d, top, e, Retired, map[Operation := Dir(map[])], Operation, None);
    assert map[Operation := Dir(map[])] - {Operation} == map[];
    assert e[Retired := Dir(map[])] == map[Retired := Dir(map[])];
  }

  /** The last two calls of a retirement. */
  function Closing(top: Name): seq<Call> { [Rmdir(Under(top, Retired))] + ([Rmdir(Top(top))] + []) }

  lemma {:induction false} ClosingLeads(d: Disk, top: Name)
    requires (top.CleanupDir? || top.RollbackDir?) && top !in d.ops && Good(d)
    ensures Reaches(With(d, top, map[Retired := Dir(map[])]), Closing(top), d)
  {
    var e := map[Retired := Dir(map[])];
    ValidWith(d, top, map[]);
    ValidWith(d, top, e);
    RmdirTop(d, top);
    Stay(Do, Good, d);
    Onward(With(d, top, map[]), Rmdir(Top(top)), d, [], d);
    RmdirUnder(d, top, e, Retired);
    assert e - {Retired} == map[];
    Onward(With(d, top, e), Rmdir(Under(top, Retired)), With(d, top, map[]), [Rmdir(Top(top))] + [], d);
  }

  /** From the emptied operation directory on. */
  function Emptying(top: Name): seq<Call> {
    [Rename(Under(top, Operation), Deep(top, Retired, Operation))] +
        ([Rmdir(Deep(top, Retired, Operation))] + Closing(top))
  }

  lemma {:induction false} EmptyingLeads(d: Disk, top: Name)
    requires top.CleanupDir? && top !in d.ops && Good(d)
    ensures Reaches(With(d, top, map[Operation := Dir(map[]), Retired := Dir(map[])]), Emptying(top), d)
  {
    var e5, e6 := map[Operation := Dir(map[]),
        Retired := Dir(map[])], map[Retired := Dir(map[Operation := Dir(map[])])];
    ClosingLeads(d, top);
    ValidWith(d, top, e6);
    ValidWith(d, top, e5);
    LastStep(d, top);
    Onward(With(d, top, e6), Rmdir(Deep(top, Retired, Operation)), With(d, top, map[Retired := Dir(map[])]),
        Closing(top), d);
    EmptyStep(d, top);
    Onward(With(d, top, e5), Rename(Under(top, Operation), Deep(top, Retired, Operation)), With(d, top, e6),
        [Rmdir(Deep(top, Retired, Operation))] + Closing(top), d);
  }

  /** From the acquired operation directory on. */
  function Retiring(top: Name): seq<Call> {
    [Mkdir(Under(top, Retired))] + ([Rename(Deep(top, Operation, Payload), Deep(top, Retired, Payload))] +
        ([Unlink(Deep(top, Retired, Payload))] + Emptying(top)))
  }

  lemma {:induction false} RetiringLeads(d: Disk, top: Name, file: Node)
    requires top.CleanupDir? && top !in d.ops && Good(d) && ValidFile(file)
    ensures Reaches(With(d, top, map[Operation := Dir(map[Payload := file])]), Retiring(top), d)
  {
    var e2 := map[Operation := Dir(map[Payload := file])];
    var e3 := map[Operation := Dir(map[Payload := file]), Retired := Dir(map[])];
    var e4 := map[Operation := Dir(map[]), Retired := Dir(map[Payload := file])];
    EmptyingLeads(d, top);
    ValidWith(d, top, e4);
    ValidWith(d, top, e3);
    ValidWith(d, top, e2);
    DropStep(d, top, file);
    var a := [Unlink(Deep(top, Retired, Payload))] + Emptying(top);
    Onward(With(d, top, e4), Unlink(Deep(top, Retired, Payload)),
        With(d, top, map[Operation := Dir(map[]), Retired := Dir(map[])]), Emptying(top), d);
    RetireStep(d, top, file);
    var b := [Rename(Deep(top, Operation, Payload), Deep(top, Retired, Payload))] + a;
    Onward(With(d, top, e3), Rename(Deep(top, Operation, Payload), Deep(top, Retired, Payload)), With(d, top, e4), a,
        d);
    MkdirUnder(d, top, e2, Retired);
    assert e2[Retired := Dir(map[])] == e3;
    Onward(With(d, top, e2), Mkdir(Under(top, Retired)), With(d, top, e3), b, d);
  }

  /** Retiring an operation leads back to the tree as it was before the operation. */
  lemma {:induction false} CleanupLeads(d: Disk, id: nat, c: nat, file: Node)
    requires Good(d) && Hex(id) !in d.ops && CleanupDir(c) !in d.ops && ValidFile(file)
    ensures Reaches(Staged(d, id, file), Cleanup(id, c), d)
  {
    var x, top, payload := Hex(id), CleanupDir(c), map[Payload := file];
    var d0 := With(d, x, payload);
    RetiringLeads(d, top, file);
    ValidWith(d, x, payload);
    ValidWith(d0, top, map[]);
    AcquireStep(d, x, top, payload);
    Onward(With(d0, top, map[]), Rename(Top(x), Under(top, Operation)), With(d, top, map[Operation := Dir(payload)]),
        Retiring(top), d);
    MkdirTop(d0, top);
    Onward(d0, Mkdir(Top(top)), With(d0, top, map[]), [Rename(Top(x), Under(top, Operation))] + Retiring(top), d);
    assert Cleanup(id, c) == [Mkdir(Top(top))] + ([Rename(Top(x), Under(top, Operation))] + Retiring(top));
  }

  // ---- Publishing ----------------------------------------------------------------------------------------

  lemma {:induction false} LinkStep(d: Disk, x: Name, file: Node, at: Name)
    requires file.File? && at !in d.home
    ensures Do(With(d, x, map[Payload := file]), Link(Under(x, Payload), Home(at))) ==
      Some(With(d.(home := d.home[at := file]), x, map[Payload := file]))
  {
    SetUnder(d, x, map[Payload := file], Payload, None);
  }

  lemma {:induction false} ExchangeStep(d: Disk, x: Name, file: Node, at: Name)
    requires file.File? && at in d.home && d.home[at].File?
    ensures Do(With(d, x, map[Payload := file]), Exchange(Under(x, Payload), Home(at)))
      == Some(With(d.(home := d.home[at := file]), x, map[Payload := d.home[at]]))
  {
    SetUnder(d, x, map[Payload := file], Payload, Some(d.home[at]));
    assert map[Payload := file][Payload := d.home[at]] == map[Payload := d.home[at]];
  }

  /** Taking a published entry back. */
  lemma {:induction false} TakeBackStep(d: Disk, top: Name, at: Name, file: Node)
    requires at in d.home && d.home[at] == file && file.File?
    ensures Do(With(d, top, map[]), Rename(Home(at), Under(top, Published))) ==
      Some(With(d.(home := d.home - {at}), top, map[Published := file]))
  {
    SetUnder(d, top, map[], Published, None);
    SetUnder(d.(home := d.home - {at}), top, map[], Published, Some(file));
    assert map[][Published := file] == map[Published := file];
  }

  lemma {:induction false} HideStep(d: Disk, top: Name, file: Node)
    ensures Do(With(d, top, map[Published := file, Retired := Dir(map[])]),
        Rename(Under(top, Published), Deep(top, Retired, Published)))
      == Some(With(d, top, map[Retired := Dir(map[Published := file])]))
  {
    var e := map[Published := file, Retired := Dir(map[])];
    SetUnder(d, top, e, Published, None);
    SetDeep(d, top, e, Retired, map[], Published, None);
    var e1 := e - {Published};
    assert e1 == map[Retired := Dir(map[])];
    SetDeep(d, top, e1, Retired, map[], Published, Some(file));
    assert map[][Published := file] == map[Published := file];
    assert e1[Retired := Dir(map[Published := file])] == map[Retired := Dir(map[Published := file])];
  }

  lemma {:induction false} EraseStep(d: Disk, top: Name, file: Node)
    requires file.File?
    ensures Do(With(d, top, map[Retired := Dir(map[Published := file])]), Unlink(Deep(top, Retired, Published))) ==
      Some(With(d, top, map[Retired := Dir(map[])]))
  {
    var e := map[Retired := Dir(map[Published := file])];
    SetDeep(d, top, e, Retired, map[Published := file], Published, None);
    assert map[Published := file] - {Published} == map[];
    assert e[Retired := Dir(map[])] == map[Retired := Dir(map[])];
  }

  /** From the acquired entry on. */
  function TakingBack(top: Name): seq<Call> {
    [Mkdir(Under(top, Retired))] + ([Rename(Under(top, Published), Deep(top, Retired, Published))] +
        ([Unlink(Deep(top, Retired, Published))] + Closing(top)))
  }

  lemma {:induction false} TakingBackLeads(d: Disk, top: Name, file: Node)
    requires top.RollbackDir? && top !in d.ops && Good(d) && ValidFile(file)
    ensures Reaches(With(d, top, map[Published := file]), TakingBack(top), d)
  {
    var e2, e3, e4 := map[Published := file], map[Published := file,
        Retired := Dir(map[])], map[Retired := Dir(map[Published := file])];
    ClosingLeads(d, top);
    ValidWith(d, top, e2);
    ValidWith(d, top, e3);
    ValidWith(d, top, e4);
    EraseStep(d, top, file);
    var a := [Unlink(Deep(top, Retired, Published))] + Closing(top);
    Onward(With(d, top, e4), Unlink(Deep(top, Retired, Published)), With(d, top, map[Retired := Dir(map[])]),
        Closing(top), d);
    HideStep(d, top, file);
    var b := [Rename(Under(top, Published), Deep(top, Retired, Published))] + a;
    Onward(With(d, top, e3), Rename(Under(top, Published), Deep(top, Retired, Published)), With(d, top, e4), a, d);
    MkdirUnder(d, top, e2, Retired);
    assert e2[Retired := Dir(map[])] == e3;
    Onward(With(d, top, e2), Mkdir(Under(top, Retired)), With(d, top, e3), b, d);
  }

  /** A rollback takes the published entry away again. */
  lemma {:induction false} RollbackLeads(d: Disk, r: nat, at: Name)
    requires Good(d) && RollbackDir(r) !in d.ops && at in d.home
    ensures Reaches(d, Rollback(r, at), d.(home := d.home - {at}))
  {
    var top, file, d' := RollbackDir(r), d.home[at], d.(home := d.home - {at});
    TakingBackLeads(d', top, file);
    ValidWith(d, top, map[]);
    TakeBackStep(d, top, at, file);
    Onward(With(d, top, map[]), Rename(Home(at), Under(top, Published)), With(d', top, map[Published := file]),
        TakingBack(top), d');
    MkdirTop(d, top);
    Onward(d, Mkdir(Top(top)), With(d, top, map[]), [Rename(Home(at), Under(top, Published))] + TakingBack(top), d');
    assert Rollback(r, at) == [Mkdir(Top(top))] + ([Rename(Home(at), Under(top, Published))] + TakingBack(top));
  }

  // ---- Whole writes ------------------------------------------------------------------------------------------

  /** The ways a staged write can go: published as a new file; refused because one is
      there; exchanged for the old file; exchanged back because the old file was not
      the expected one; published and taken back; found too large once it is written. */
  datatype Outcome = New | Busy | Replaced | Mismatched | TakenBack | Oversize

  /** Fresh identifiers, the new file and the sizes its writing goes through. */
  datatype Ticket = Ticket(id: nat, c: nat, r: nat, file: nat, sizes: seq<nat>, at: Name)

  function Calls(t: Ticket, o: Outcome): seq<Call> {
    Stage(t.id, t.file, t.sizes) + Rest(t, o)
  }

  predicate TooLarge(t: Ticket) { Last(t.sizes) > MAX_SIZE }

  /** The outcome is one the write can have there. */
  predicate Ready(d: Disk, t: Ticket, o: Outcome) {
    && Hex(t.id) !in d.ops && CleanupDir(t.c) !in d.ops && RollbackDir(t.r) !in d.ops && Growing(t.sizes)
    && (o.Oversize? <==> TooLarge(t))
    && (!o.Oversize? ==> (t.at in d.home <==> o.Busy? || o.Replaced? || o.Mismatched?))
  }

  lemma {:induction false} InSize(t: Ticket)
    requires Growing(t.sizes)
    ensures TooLarge(t) || Sizes(t.sizes)
  {
  }

  function Written(t: Ticket): Node { File(t.file, Last(t.sizes)) }

  /** What an uninterrupted write leaves: the tree as it was, unless the write failed
      and left its directory for the next reopening. */
  function Result(d: Disk, t: Ticket, o: Outcome): Disk {
    match o
    case New => d.(home := d.home[t.at := Written(t)])
    case Busy => d
    case Replaced => d.(home := d.home[t.at := Written(t)])
    case Mismatched => Staged(d, t.id, Written(t))
    case TakenBack => Staged(d, t.id, Written(t))
    case Oversize => Staged(d, t.id, Written(t))
  }

  /** What follows the staging. */
  lemma {:induction false} NewLeads(d: Disk, t: Ticket)
    requires Good(d) && Ready(d, t, New)
    ensures Reaches(Staged(d, t.id, Written(t)), [Link(Under(Hex(t.id), Payload), Home(t.at))] + Cleanup(t.id, t.c),
        Result(d, t, New))
  {
    var file, d' := Written(t), Result(d, t, New);
    CleanupLeads(d', t.id, t.c, file);
    ValidWith(d, Hex(t.id), map[Payload := file]);
    LinkStep(d, Hex(t.id), file, t.at);
    Onward(Staged(d, t.id, file), Link(Under(Hex(t.id), Payload), Home(t.at)), Staged(d', t.id, file),
        Cleanup(t.id, t.c), d');
  }

  lemma {:induction false} ReplacedLeads(d: Disk, t: Ticket)
    requires Good(d) && Ready(d, t, Replaced)
    ensures Reaches(Staged(d, t.id, Written(t)), [Exchange(Under(Hex(t.id), Payload), Home(t.at))] + Cleanup(t.id, t.c),
        Result(d, t, Replaced))
  {
    var file, d' := Written(t), Result(d, t, Replaced);
    CleanupLeads(d', t.id, t.c, d.home[t.at]);
    ValidWith(d, Hex(t.id), map[Payload := file]);
    ExchangeStep(d, Hex(t.id), file, t.at);
    Onward(Staged(d, t.id, file), Exchange(Under(Hex(t.id), Payload), Home(t.at)), Staged(d', t.id, d.home[t.at]),
        Cleanup(t.id, t.c), d');
  }

  lemma {:induction false} MismatchedLeads(d: Disk, t: Ticket)
    requires Good(d) && Ready(d, t, Mismatched)
    ensures var call := Exchange(Under(Hex(t.id), Payload), Home(t.at));
      Reaches(Staged(d, t.id, Written(t)), [call, call], Result(d, t, Mismatched))
  {
    var x, file, was := Hex(t.id), Written(t), d.home[t.at];
    var d' := d.(home := d.home[t.at := file]);
    var call, end := Exchange(Under(x, Payload), Home(t.at)), Staged(d, t.id, file);
    ValidWith(d, x, map[Payload := file]);
    ValidWith(d', x, map[Payload := was]);
    Stay(Do, Good, end);
    ExchangeStep(d', x, was, t.at);
    assert d'.home[t.at := was] == d.home;
    Onward(Staged(d', t.id, was), call, end, [], end);
    ExchangeStep(d, x, file, t.at);
    Onward(end, call, Staged(d', t.id, was), [call] + [], end);
    assert [call] + ([call] + []) == [call, call];
  }

  lemma {:induction false} TakenBackLeads(d: Disk, t: Ticket)
    requires Good(d) && Ready(d, t, TakenBack)
    ensures Reaches(Staged(d, t.id, Written(t)), [Link(Under(Hex(t.id), Payload), Home(t.at))] + Rollback(t.r, t.at),
        Result(d, t, TakenBack))
  {
    var x, file := Hex(t.id), Written(t);
    var d' := d.(home := d.home[t.at := file]);
    var staged, linked := Staged(d, t.id, file), Staged(d', t.id, file);
    ValidWith(d, x, map[Payload := file]);
    ValidWith(d', x, map[Payload := file]);
    assert linked.home - {t.at} == d.home;
    RollbackLeads(linked, t.r, t.at);
    LinkStep(d, x, file, t.at);
    Onward(staged, Link(Under(x, Payload), Home(t.at)), linked, Rollback(t.r, t.at), staged);
  }

  /** What follows the staging of a write. */
  function Rest(t: Ticket, o: Outcome): seq<Call> {
    var p, q := Under(Hex(t.id), Payload), Home(t.at);
    match o
    case New => [Link(p, q)] + Cleanup(t.id, t.c)
    case Busy => Cleanup(t.id, t.c)
    case Replaced => [Exchange(p, q)] + Cleanup(t.id, t.c)
    case Mismatched => [Exchange(p, q), Exchange(p, q)]
    case TakenBack => [Link(p, q)] + Rollback(t.r, t.at)
    case Oversize => []
  }

  lemma {:induction false} RestLeads(d: Disk, t: Ticket, o: Outcome)
    requires Good(d) && Ready(d, t, o) && !TooLarge(t)
    ensures Reaches(Staged(d, t.id, Written(t)), Rest(t, o), Result(d, t, o))
  {
    match o {
      case New => NewLeads(d, t);
      case Busy => CleanupLeads(d, t.id, t.c, Written(t));
      case Replaced => ReplacedLeads(d, t);
      case Mismatched => MismatchedLeads(d, t);
      case TakenBack => TakenBackLeads(d, t);
    }
  }

  lemma {:induction false} WriteRuns(d: Disk, t: Ticket, o: Outcome)
    requires Good(d) && Ready(d, t, o)
    ensures TooLarge(t) || Reaches(d, Calls(t, o), Result(d, t, o))
    ensures Leads(Do, Any, d, Calls(t, o), Result(d, t, o))
  {
    if TooLarge(t) {
      StageRuns(d, t.id, t.file, t.sizes);
      assert Calls(t, o) == Stage(t.id, t.file, t.sizes);
    } else {
      InSize(t);
      StageLeads(d, t.id, t.file, t.sizes);
      RestLeads(d, t, o);
      Join(Do, Good, d, Stage(t.id, t.file, t.sizes), Staged(d, t.id, Written(t)), Rest(t, o), Result(d, t, o));
      Weaken(Do, Good, Any, d, Calls(t, o), Result(d, t, o));
    }
  }

  /** The calls of every write all succeed and lead to its result; reopening accepts
      every state between exactly when the file is not too large. */
  lemma {:induction false} WriteLeads(d: Disk, t: Ticket, o: Outcome)
    requires Good(d) && Ready(d, t, o)
    ensures Leads(Do, Any, d, Calls(t, o), Result(d, t, o))
    ensures Reaches(d, Calls(t, o), Result(d, t, o)) <==> !TooLarge(t)
  {
    WriteRuns(d, t, o);
    if TooLarge(t) {
      StagedGood(d, t.id, Written(t));
      EndIsGood(Do, Good, d, Calls(t, o), Result(d, t, o));
    }
  }

  lemma {:induction false} WholeWrite(d: Disk, t: Ticket, o: Outcome, n: nat)
    requires Good(d) && Ready(d, t, o) && n >= |Calls(t, o)|
    ensures Exec(Do, d, Cut(Calls(t, o), n)) == Result(d, t, o)
  {
    WriteRuns(d, t, o);
    var calls := Calls(t, o);
    LeadsPrefix(Do, Any, d, calls, Result(d, t, o), |calls|);
    assert calls[..|calls|] == calls && Cut(calls, n) == calls;
  }

  lemma {:induction false} SizesGrow(t: Ticket, n: nat)
    requires Growing(t.sizes)
    ensures SizeAfter(t.sizes, n) <= Last(t.sizes)
    ensures n >= |t.sizes| + 2 ==> SizeAfter(t.sizes, n) == Last(t.sizes)
  {
  }

  /** A crash after any number of calls leaves a tree that reopening accepts exactly
      when what was written by then is not too large; a write that succeeds leaves the
      tree as it found it. */
  lemma {:induction false} CrashLaw(d: Disk, t: Ticket, o: Outcome, n: nat)
    requires Good(d) && Ready(d, t, o)
    ensures Good(Exec(Do, d, Cut(Calls(t, o), n))) <==> SizeAfter(t.sizes, n) <= MAX_SIZE
    ensures n >= |Calls(t, o)| ==> Exec(Do, d, Cut(Calls(t, o), n)) == Result(d, t, o)
    ensures o.New? || o.Busy? || o.Replaced? ==> Result(d, t, o).ops == d.ops
  {
    var calls := Calls(t, o);
    WriteRuns(d, t, o);
    SizesGrow(t, n);
    if n >= |calls| {
      WholeWrite(d, t, o, n);
    }
    if TooLarge(t) {
      assert calls == Stage(t.id, t.file, t.sizes);
      StageLaw(d, t.id, t.file, t.sizes, n);
    } else {
      LeadsPrefix(Do, Good, d, calls, Result(d, t, o), if n <= |calls| then n else |calls|);
      assert calls[..|calls|] == calls;
    }
  }

  /** So all crash points are harmless exactly when the file is not too large. */
  lemma {:induction false} CrashesLaw(d: Disk, t: Ticket, o: Outcome)
    requires Good(d) && Ready(d, t, o)
    ensures (forall n: nat :: Good(Exec(Do, d, Cut(Calls(t, o), n)))) <==> !TooLarge(t)
  {
    var n := |t.sizes| + 2;
    CrashLaw(d, t, o, n);
    SizesGrow(t, n);
    if !TooLarge(t) {
      forall m: nat ensures Good(Exec(Do, d, Cut(Calls(t, o), m))) {
        CrashLaw(d, t, o, m);
        SizesGrow(t, m);
      }
    }
  }

  /** A queue snapshot one byte too large: the write is refused without any crash, and
      from then on the tree is not accepted. */
  lemma {:induction false} OversizeStays(d: Disk, t: Ticket)
    requires Good(d) && Ready(d, t, Oversize) && t.sizes == [MAX_SIZE + 1]
    ensures Exec(Do, d, Calls(t, Oversize)) == Result(d, t, Oversize) && !Good(Result(d, t, Oversize))
  {
    var calls := Calls(t, Oversize);
    WholeWrite(d, t, Oversize, |calls|);
    assert Cut(calls, |calls|) == calls;
    StagedGood(d, t.id, Written(t));
  }

  /** One attempt at a write, as far as it got. */
  datatype Attempt = Attempt(ticket: Ticket, outcome: Outcome, calls: nat)

  function Tried(d: Disk, a: Attempt): Disk { Exec(Do, d, Cut(Calls(a.ticket, a.outcome), a.calls)) }

  function After(d: Disk, attempts: seq<Attempt>): Disk
    decreases |attempts|
  {
    if attempts == [] then d else After(Tried(d, attempts[0]), attempts[1..])
  }

  predicate AllReady(d: Disk, attempts: seq<Attempt>)
    decreases |attempts|
  {
    attempts == []
        || (Ready(d, attempts[0].ticket, attempts[0].outcome) && AllReady(Tried(d, attempts[0]), attempts[1..]))
  }

  // ---- What an attempt leaves alone ---------------------------------------------------------------------------

  /** The entry of the operations tree a place lies in, if any. */
  predicate Outside(p: Place, x: Name) { p.Home? || (p.Top? && p.name != x) || ((p.Under? || p.Deep?) && p.dir != x) }

  predicate Spares(call: Call, x: Name) {
    match call
    case Mkdir(p) => Outside(p, x)
    case Create(p, _) => Outside(p, x)
    case Fill(p, _) => Outside(p, x)
    case Link(p, q) => Outside(p, x) && Outside(q, x)
    case Rename(p, q) => Outside(p, x) && Outside(q, x)
    case Exchange(p, q) => Outside(p, x) && Outside(q, x)
    case Unlink(p) => Outside(p, x)
    case Rmdir(p) => Outside(p, x)
  }

  lemma {:induction false} SetSpares(d: Disk, p: Place, n: Option<Node>, x: Name)
    requires HasParent(d, p) && Outside(p, x)
    ensures Get(Set(d, p, n).ops, x) == Get(d.ops, x)
  {
  }

  lemma {:induction false} DoSpares(d: Disk, call: Call, x: Name)
    requires Spares(call, x) && Do(d, call).Some?
    ensures Get(Do(d, call).value.ops, x) == Get(d.ops, x)
  {
    match call {
      case Mkdir(p) => SetSpares(d, p, Some(Dir(map[])), x);
      case Create(p, id) => SetSpares(d, p, Some(File(id, 0)), x);
      case Fill(p, size) => SetSpares(d, p, Some(File(Look(d, p).value.identity, size)), x);
      case Link(p, q) => SetSpares(d, q, Look(d, p), x);
      case Rename(p, q) =>
        SetSpares(d, p, None, x);
        SetSpares(Set(d, p, None), q, Look(d, p), x);
      case Exchange(p, q) =>
        SetSpares(d, p, Look(d, q), x);
        SetSpares(Set(d, p, Look(d, q)), q, Look(d, p), x);
      case Unlink(p) => SetSpares(d, p, None, x);
      case Rmdir(p) => SetSpares(d, p, None, x);
    }
  }

  lemma {:induction false} ExecSpares(d: Disk, calls: seq<Call>, x: Name)
    requires forall i :: 0 <= i < |calls| ==> Spares(calls[i], x)
    ensures Get(Exec(Do, d, calls).ops, x) == Get(d.ops, x)
    decreases |calls|
  {
    if calls != [] && Do(d, calls[0]).Some? {
      DoSpares(d, calls[0], x);
      ExecSpares(Do(d, calls[0]).value, calls[1..], x);
    }
  }

  lemma {:induction false} FillsSpare(p: Place, sizes: seq<nat>, x: Name)
    requires Outside(p, x)
    ensures forall i :: 0 <= i < |Fills(p, sizes)| ==> Spares(Fills(p, sizes)[i], x)
    decreases |sizes|
  {
    if sizes != [] {
      FillsSpare(p, sizes[1..], x);
    }
  }

  lemma {:induction false} RestSpares(t: Ticket, o: Outcome, x: Name)
    requires x != Hex(t.id) && x != CleanupDir(t.c) && x != RollbackDir(t.r)
    ensures forall i :: 0 <= i < |Rest(t, o)| ==> Spares(Rest(t, o)[i], x)
  {
  }

  /** An attempt touches no leftover of an earlier one. */
  lemma {:induction false} AttemptSpares(d: Disk, a: Attempt, x: Name)
    requires Ready(d, a.ticket, a.outcome) && x in d.ops
    ensures Get(Tried(d, a).ops, x) == Get(d.ops, x)
  {
    var t := a.ticket;
    var p := Under(Hex(t.id), Payload);
    FillsSpare(p, t.sizes, x);
    RestSpares(t, a.outcome, x);
    ExecSpares(d, Cut(Calls(t, a.outcome), a.calls), x);
  }

  lemma {:induction false} StaysRefused(d: Disk, attempts: seq<Attempt>, x: Name)
    requires x in d.ops && !ValidEntry(x, d.ops[x]) && AllReady(d, attempts)
    ensures !Good(After(d, attempts))
    decreases |attempts|
  {
    if attempts != [] {
      AttemptSpares(d, attempts[0], x);
      StaysRefused(Tried(d, attempts[0]), attempts[1..], x);
    }
  }

  /** What an attempt wrote is no larger than a state file may be. */
  predicate Small(a: Attempt) { SizeAfter(a.ticket.sizes, a.calls) <= MAX_SIZE }

  /** Any number of attempts, crashed anywhere or not, with the leftovers of all earlier
      ones: reopening accepts the tree exactly when none wrote too much. */
  lemma {:induction false} AlwaysReopens(d: Disk, attempts: seq<Attempt>)
    requires Good(d) && AllReady(d, attempts)
    ensures Good(After(d, attempts)) <==> forall i :: 0 <= i < |attempts| ==> Small(attempts[i])
    decreases |attempts|
  {
    if attempts != [] {
      var a := attempts[0];
      CrashLaw(d, a.ticket, a.outcome, a.calls);
      if Small(a) {
        AlwaysReopens(Tried(d, a), attempts[1..]);
        assert forall i :: 0 < i < |attempts| ==> attempts[i] == attempts[1..][i - 1];
      } else {
        LeftBehind(d, a);
        StaysRefused(Tried(d, a), attempts[1..], Hex(a.ticket.id));
      }
    }
  }

  lemma {:induction false} LeftBehind(d: Disk, a: Attempt)
    requires Good(d) && Ready(d, a.ticket, a.outcome) && !Small(a)
    ensures Hex(a.ticket.id) in Tried(d, a).ops && !ValidEntry(Hex(a.ticket.id), Tried(d, a).ops[Hex(a.ticket.id)])
  {
    var t := a.ticket;
    SizesGrow(t, a.calls);
    assert Calls(t, a.outcome) == Stage(t.id, t.file, t.sizes);
    StagedTree(d, t.id, t.file, t.sizes, a.calls);
    var file := File(t.file, SizeAfter(t.sizes, a.calls));
    assert Staged(d, t.id, file).ops[Hex(t.id)].entries[Payload] == file;
  }

  lemma {:induction false} CutNothing(mid: Disk, rest: seq<Call>, n: nat, k: nat)
    requires rest == [] || n <= k
    ensures n > k ==> Exec(Do, mid, Cut(rest, n - k)) == mid
  {
  }

  lemma {:induction false} RestRuns(d: Disk, t: Ticket, o: Outcome, mid: Disk)
    requires Good(d) && Ready(d, t, o) && mid == Staged(d, t.id, Written(t))
    ensures if TooLarge(t) then Rest(t, o) == [] && Result(d, t, o) == mid
            else Leads(Do, Any, mid, Rest(t, o), Result(d, t, o))
  {
    if !TooLarge(t) {
      RestLeads(d, t, o);
      Weaken(Do, Good, Any, mid, Rest(t, o), Result(d, t, o));
    }
  }

  // ---- The writer itself ---------------------------------------------------------------------------------------

  /** What a write reports: whether it took place, or that the file is too large. */
  datatype Report = Took(bool) | Refused

  class StagedWriter {
    var disk: Disk
    /** Calls left before the process is killed. */
    var left: nat

    constructor (disk: Disk, left: nat)
      ensures this.disk == disk && this.left == left
    {
      this.disk, this.left := disk, left;
    }

    /** The calls in order, as far as the process lives. */
    method PerformAll(calls: seq<Call>, ghost end: Disk)
      requires Leads(Do, Any, disk, calls, end)
      modifies this
      ensures disk == Exec(Do, old(disk), Cut(calls, old(left)))
      ensures
        && left == (if old(left) <= |calls| then 0 else old(left) - |calls|) && (old(left) >= |calls| ==> disk == end)
    {
      disk := Perform(Do, Any, disk, calls, left, end);
      left := if left <= |calls| then 0 else left - |calls|;
    }

    /** Two scripts, the second unless it is skipped. */
    method PerformBoth(first: seq<Call>, second: seq<Call>, skip: bool, ghost mid: Disk, ghost end: Disk)
      requires Leads(Do, Any, disk, first, mid)
      requires if skip then second == [] && end == mid else Leads(Do, Any, mid, second, end)
      modifies this
      ensures disk == Exec(Do, old(disk), Cut(first + second, old(left)))
      ensures left > 0 ==> disk == end
    {
      ghost var d, n := disk, left;
      CutJoin(Do, Any, d, first, mid, second, n);
      PerformAll(first, mid);
      if left > 0 && !skip {
        PerformAll(second, end);
      } else {
        CutNothing(mid, second, n, |first|);
      }
    }

    /** Stages the file and, unless it is too large, goes on. */
    method WriteFile(t: Ticket, o: Outcome)
      requires Good(disk) && Ready(disk, t, o)
      modifies this
      ensures disk == Exec(Do, old(disk), Cut(Calls(t, o), old(left)))
      ensures left > 0 ==> disk == Result(old(disk), t, o)
    {
      ghost var mid := Staged(disk, t.id, Written(t));
      StageRuns(disk, t.id, t.file, t.sizes);
      RestRuns(disk, t, o, mid);
      PerformBoth(Stage(t.id, t.file, t.sizes), Rest(t, o), TooLarge(t), mid, Result(disk, t, o));
    }

    /** Publishes a new file, unless one is there. */
    method CreateFile(t: Ticket) returns (r: Report)
      requires Good(disk) && Ready(disk, t, if TooLarge(t) then Oversize else if t.at in disk.home then Busy else New)
      modifies this
      ensures var o := if TooLarge(t) then Oversize else if t.at in old(disk).home then Busy else New;
        disk == Exec(Do, old(disk), Cut(Calls(t, o), old(left))) && (left > 0 ==> disk == Result(old(disk), t, o))
      ensures r == if TooLarge(t) then Refused else Took(t.at !in old(disk).home)
    {
      var o := if TooLarge(t) then Oversize else if t.at in disk.home then Busy else New;
      WriteFile(t, o);
      r := if o.Oversize? then Refused else Took(o.New?);
    }

    /** Exchanges a file for the one expected there; another one is put back. */
    method ReplaceFile(t: Ticket, expected: nat) returns (r: Report)
      requires Good(disk) && Ready(disk, t, if TooLarge(t) then Oversize else Replaced) && t.at in disk.home
      modifies this
      ensures var o := if TooLarge(t) then Oversize else if old(disk).home[t.at].identity ==
        expected then Replaced else Mismatched;
        disk == Exec(Do, old(disk), Cut(Calls(t, o), old(left))) && (left > 0 ==> disk == Result(old(disk), t, o))
      ensures r == if TooLarge(t) then Refused else Took(old(disk).home[t.at].identity == expected)
    {
      var o := if TooLarge(t) then Oversize else if disk.home[t.at].identity == expected then Replaced else Mismatched;
      WriteFile(t, o);
      r := if o.Oversize? then Refused else Took(o.Replaced?);
    }
  }
}
