/** What a document holds after a path was set or removed: the laws of the
    surgical editor, and exactly when they hold. */
module JsonPathLaws {
  import opened Basics
  import opened JsonScan
  import opened JsonFrame
  import opened JsonString
  import opened JsonObject
  import opened JsonSplice
  import opened JsonEdit
  import opened JsonLaws
  import opened JsonPath

  /** Editing a list of members, with no text in sight: the first member of that
      name is updated in place or dropped, a new one goes last. */
  function FindName(members: seq<Member>, key: string): (r: Option<nat>)
    ensures r.Some? ==> r.value < |members|
  {
    if members == [] then None
    else if members[0].name == key then Some(0)
    else match FindName(members[1..], key)
      case Some(i) => Some(i + 1)
      case None => None
  }

  function Apply(members: seq<Member>, key: string, value: Option<string>): seq<Member> {
    match (FindName(members, key), value)
    case (Some(i), Some(v)) => members[i := Member(key, v)]
    case (Some(i), None) => Without(members, i)
    case (None, Some(v)) => members + [Member(key, v)]
    case (None, None) => members
  }

  lemma {:induction false} FindContent(t: string, fields: seq<Field>, key: string)
    ensures FindName(Content(t, fields), key) == Find(fields, key)
  {
    if fields != [] {
      FindContent(t, fields[1..], key);
      assert Content(t, fields)[1..] == Content(t, fields[1..]);
    }
  }

  /** When an edit of one object does what it should. */
  predicate EditSafe(t: string, obj: Object, key: string, value: Option<string>)
    requires IsObject(t, obj)
  {
    match (Find(obj.fields, key), value)
    case (Some(i), Some(v)) => ReplaceSafe(t, obj, i, v)
    case (Some(i), None) => RemoveSafe(t, obj, i)
    case (None, Some(_)) => InsertSafe(t, obj)
    case (None, None) => true
  }

  predicate IsNewValue(value: Option<string>) { value.Some? ==> IsValue(value.value) }

  /** One object edited safely holds the edited members; nothing around it moves
      but by the change of its length. */
  lemma {:induction false} EditHolds(t: string, obj: Object, key: string, value: Option<string>) returns (obj': Object)
    requires IsObject(t, obj) && EditSafe(t, obj, key, value) && IsNewValue(value)
    ensures EditMember(t, obj, key, value).Ok?
    ensures Rewritten(t, EditMember(t, obj, key, value).value, obj, obj', Apply(Content(t, obj.fields), key, value))
  {
    FindContent(t, obj.fields, key);
    match (Find(obj.fields, key), value) {
      case (Some(i), Some(v)) =>
        FieldPlace(t, obj.span.start + 1, obj.fields, obj.span.end - 1, obj.trailingComma, i);
        obj' := ReplaceHolds(t, obj, i, v);
      case (Some(i), None) =>
        obj' := RemoveHolds(t, obj, i);
      case (None, Some(v)) =>
        var g;
        obj', g := InsertHolds(t, obj, key, v);
      case (None, None) =>
        obj' := obj;
    }
  }

  /** Where an object ends after an unsafe edit that has left it its members: behind a
      bare slash that is read again. */
  function EditEnd(t: string, obj: Object, key: string, value: Option<string>): (r: Scan)
    requires IsObject(t, obj)
  {
    match (Find(obj.fields, key), value)
    case (Some(i), None) => StrayEnd(t, obj, i)
    case _ => Bad(Malformed)
  }

  /** An object of `u` that starts where `obj` did and holds `members`. */
  ghost predicate Stands(u: string, obj: Object, obj': Object, members: seq<Member>) {
    IsObject(u, obj') && obj'.span.start == obj.span.start && Content(u, obj'.fields) == members
  }

  /** An edit that is not safe leaves no object with the edited members there, or one
      that ends elsewhere. */
  lemma {:induction false} EditFails(t: string, obj: Object, key: string, value: Option<string>, obj': Object)
    requires IsObject(t, obj) && !EditSafe(t, obj, key, value) && IsNewValue(value)
    ensures EditMember(t, obj, key, value).Ok?
    ensures var u, end := EditMember(t, obj, key, value).value, EditEnd(t, obj, key, value);
      && end != At(obj.span.end)
      && (Stands(u, obj, obj', Apply(Content(t, obj.fields), key, value)) ==>
          end.At? && |u| - obj'.span.end == |t| - end.pos)
  {
    FindContent(t, obj.fields, key);
    match (Find(obj.fields, key), value) {
      case (Some(i), Some(v)) =>
        FieldPlace(t, obj.span.start + 1, obj.fields, obj.span.end - 1, obj.trailingComma, i);
        ReplaceFails(t, obj, i, v);
      case (Some(i), None) =>
        RemoveFails(t, obj, i);
        assert Stands(RemoveField(t, obj, i).value, obj, obj', Without(Content(t, obj.fields), i)) ==>
            Again(t, RemoveField(t, obj, i).value, obj, obj', i);
      case (None, Some(v)) =>
        InsertFails(t, obj, key, v);
    }
  }

  // ---- Objects inside objects ---------------------------------------------------

  /** The object that is the value of member `i`. */
  lemma {:induction false} ChildPlace(t: string, obj: Object, i: nat, child: Object)
    requires IsObject(t, obj) && i < |obj.fields| && obj.fields[i].value.start <= |t|
    requires ObjectAt(t, obj.fields[i].value) == Ok(Some(child))
    ensures IsObject(t, child) && child.span == obj.fields[i].value && child.span.start < child.span.end <= |t|
  {
    var q, a, y, cm := MemberTail(t, obj, i);
    var k := FieldParts(t, q, obj.fields[i], a);
    ObjectAtIs(t, obj.fields[i].value, child);
    ObjectEnds(t, child);
    assert Skip(t, obj.fields[i].value.start) == At(obj.fields[i].value.start);
  }

  /** The first step down a path that leads to an object. */
  lemma {:induction false} DescendChild(t: string, obj: Object, path: seq<string>, parent: Object) returns (i: nat,
      child: Object)
    requires IsObject(t, obj) && path != [] && Descend(t, Some(obj), path) == Ok(Some(parent))
    ensures Find(obj.fields, path[0]) == Some(i) && obj.fields[i].value == child.span && IsObject(t, child)
    ensures obj.span.start < child.span.start < child.span.end < obj.span.end && child.span.end <= |t|
    ensures ObjectAt(t, child.span) == Ok(Some(child)) && Descend(t, Some(child), path[1..]) == Ok(Some(parent))
  {
    i := Find(obj.fields, path[0]).value;
    FieldPlace(t, obj.span.start + 1, obj.fields, obj.span.end - 1, obj.trailingComma, i);
    child := ObjectAt(t, obj.fields[i].value).value.value;
    ChildPlace(t, obj, i, child);
  }

  /** Rewriting a member's object rewrites that member and no other. */
  lemma {:induction false} LiftChild(t: string, u: string, obj: Object, i: nat, child: Object, child': Object,
      members: seq<Member>) returns (obj': Object)
    requires IsObject(t, obj) && i < |obj.fields| && IsObject(t, child) && child.span == obj.fields[i].value
    requires child.span.start < child.span.end <= |t| && Rewritten(t, u, child, child', members)
    ensures Rewritten(t, u, obj, obj', Content(t, obj.fields)[i := Member(obj.fields[i].key, Slice(u, child'.span))])
    ensures |obj'.fields| == |obj.fields| && obj'.fields[..i] == obj.fields[..i]
    ensures obj'.fields[i].key == obj.fields[i].key && obj'.fields[i].value == child'.span
  {
    var s, e := child.span.start, child.span.end;
    ObjectEnds(u, child');
    SamePart(t, u, 0, s + 1, 0, 0, s, 0);
    obj' := SubstituteValue(t, u, obj, i, s, e, child'.span.end);
  }

  /** `u` is `t` with the object at `path` below `obj` rewritten to hold `members`:
      on the way down every object keeps its members but the one on the path. */
  ghost predicate Lifted(t: string, u: string, obj: Object, obj': Object, path: seq<string>, members: seq<Member>)
    requires IsObject(t, obj)
    decreases |path|
  {
    if path == [] then Rewritten(t, u, obj, obj', members)
    else
      var i := Find(obj.fields, path[0]);
      && i.Some? && obj.fields[i.value].value.start <= |t|
      && var child := ObjectAt(t, obj.fields[i.value].value);
      && child.Ok? && child.value.Some? && IsObject(t, child.value.value)
      && exists child': Object ::
          && Lifted(t, u, child.value.value, child', path[1..], members)
          && Rewritten(t, u, obj, obj', Content(t, obj.fields)[i.value := Member(path[0], Slice(u, child'.span))])
          && i.value < |obj'.fields| && obj'.fields[i.value].value == child'.span
  }

  lemma {:induction false} LiftPath(t: string, u: string, obj: Object, path: seq<string>, parent: Object,
      parent': Object, members: seq<Member>) returns (obj': Object)
    requires
      && IsObject(t, obj) && Descend(t, Some(obj), path) == Ok(Some(parent))
      && Rewritten(t, u, parent, parent', members)
    ensures Lifted(t, u, obj, obj', path, members)
    ensures exists ms :: Rewritten(t, u, obj, obj', ms)
    decreases |path|
  {
    if path == [] {
      obj' := parent';
    } else {
      var i, child := DescendChild(t, obj, path, parent);
      var child' := LiftPath(t, u, child, path[1..], parent, parent', members);
      var ms :| Rewritten(t, u, child, child', ms);
      obj' := LiftChild(t, u, obj, i, child, child', ms);
    }
  }

  /** One level of `Lifted`, opened. */
  lemma {:induction false} LiftedStep(t: string, u: string, obj: Object, obj': Object, path: seq<string>,
      members: seq<Member>)
      returns (i: nat, child: Object, child': Object)
    requires IsObject(t, obj) && path != [] && Lifted(t, u, obj, obj', path, members)
    ensures Find(obj.fields, path[0]) == Some(i) && obj.fields[i].value.start <= |t|
    ensures ObjectAt(t, obj.fields[i].value) == Ok(Some(child)) && IsObject(t, child)
    ensures Lifted(t, u, child, child', path[1..], members)
    ensures Rewritten(t, u, obj, obj', Content(t, obj.fields)[i := Member(path[0], Slice(u, child'.span))])
    ensures i < |obj'.fields| && obj'.fields[i].value == child'.span
  {
    i := Find(obj.fields, path[0]).value;
    child := ObjectAt(t, obj.fields[i].value).value.value;
    child' :| Lifted(t, u, child, child', path[1..], members)
        && Rewritten(t, u, obj, obj', Content(t, obj.fields)[i := Member(path[0], Slice(u, child'.span))])
        && i < |obj'.fields| && obj'.fields[i].value == child'.span;
  }

  lemma {:induction false} DescendStep(t: string, obj: Object, path: seq<string>, i: nat, child: Object)
    requires IsObject(t, obj) && path != [] && Find(obj.fields, path[0]) == Some(i)
    requires IsObject(t, child) && obj.fields[i].value == child.span
    ensures Descend(t, Some(obj), path) == Descend(t, Some(child), path[1..])
  {
    ObjectAtHere(t, child);
  }

  /** Going down the same path in the new text reaches the rewritten object. */
  lemma {:induction false} LiftedFound(t: string, u: string, obj: Object, obj': Object, path: seq<string>,
      parent: Object, members: seq<Member>) returns (parent': Object)
    requires
      && IsObject(t, obj) && Descend(t, Some(obj), path) == Ok(Some(parent)) && Lifted(t, u, obj, obj', path, members)
    ensures Rewritten(t, u, parent, parent', members)
    ensures IsObject(u, obj') && Descend(u, Some(obj'), path) == Ok(Some(parent'))
    decreases |path|
  {
    if path == [] {
      parent' := obj';
    } else {
      var i, child, child' := LiftedStep(t, u, obj, obj', path, members);
      parent' := LiftedFound(t, u, child, child', path[1..], parent, members);
      SameNames(t, u, obj, obj', i, Member(path[0], Slice(u, child'.span)), path[0]);
      DescendStep(u, obj', path, i, child');
    }
  }

  lemma {:induction false} SameNames(t: string, u: string, obj: Object, obj': Object, i: nat, m: Member, key: string)
    requires Find(obj.fields, key) == Some(i) && m.name == key
    requires Content(u, obj'.fields) == Content(t, obj.fields)[i := m]
    ensures Find(obj'.fields, key) == Some(i)
  {
    FindContent(t, obj.fields, key);
    FindContent(u, obj'.fields, key);
    NamesDecide(Content(t, obj.fields), Content(u, obj'.fields), key);
    ContentAt(t, obj.fields, i);
    assert forall k :: 0 <= k < |obj.fields| ==> Content(u, obj'.fields)[k].name == Content(t, obj.fields)[k].name;
  }

  lemma {:induction false} NamesDecide(xs: seq<Member>, ys: seq<Member>, key: string)
    requires |xs| == |ys|
    ensures (forall k :: 0 <= k < |xs| ==> ys[k].name == xs[k].name) ==> FindName(xs, key) == FindName(ys, key)
  {
    if xs != [] {
      NamesDecide(xs[1..], ys[1..], key);
      if forall k :: 0 <= k < |xs| ==> ys[k].name == xs[k].name {
        assert forall k :: 0 <= k < |xs[1..]| ==>
            ys[1..][k].name == ys[k + 1].name && xs[1..][k].name == xs[k + 1].name;
      }
    }
  }

  // ---- Reading the same path again ----------------------------------------------

  lemma {:induction false} DescendInside(t: string, obj: Object, path: seq<string>, parent: Object)
    requires IsObject(t, obj) && Descend(t, Some(obj), path) == Ok(Some(parent))
    ensures IsObject(t, parent) && obj.span.start <= parent.span.start < parent.span.end <= obj.span.end <= |t|
    decreases |path|
  {
    ObjectEnds(t, obj);
    if path != [] {
      var i, child := DescendChild(t, obj, path, parent);
      DescendInside(t, child, path[1..], parent);
    }
  }

  /** A member whose name and opening character were kept is read under that name
      and at that place. */
  lemma {:induction false} SameHead(t: string, u: string, q: nat, f: Field, a: nat, s: nat, gs: seq<Field>)
    requires CharAt(t, q, '"') && ReadField(t, q) == Head(f, a) && f.value.start == s && q < s < |t| && t[s] == '{'
    requires Same(t, u, 0, s + 1, 0) && ReadBody(u, q).Body? && ReadBody(u, q).fields == gs
    ensures gs != [] && gs[0].key == f.key && gs[0].value.start == s
  {
    var k := FieldParts(t, q, f, a);
    SameChar(t, u, 0, s + 1, 0, q, q);
    SameChar(t, u, 0, s + 1, 0, s, s);
    ItemIsBody(u, q);
    SamePart(t, u, 0, s + 1, 0, q, k + 1, q);
    SamePart(t, u, 0, s + 1, 0, k, s, k);
    NameFrame(t, u, q, k, q, k);
    ValueFollows(t, u, k, s, k, s);
    var a', y', cm' := ItemTail(u, q, gs, ReadBody(u, q).close, ReadBody(u, q).comma);
    SameField(u, q, gs[0], a', k, s, f.key);
  }

  lemma {:induction false} SameField(u: string, q: nat, g: Field, a: nat, k: nat, s: nat, key: string)
    requires q <= |u| && ReadField(u, q) == Head(g, a) && ColonAfter(u, q) == At(k) && Skip(u, k + 1) == At(s)
    requires StringEnd(u, q).At? && Decode(u[q..StringEnd(u, q).pos]) == Some(key)
    ensures g.key == key && g.value.start == s
  {
    var k' := FieldParts(u, q, g, a);
  }

  /** Where the text is unchanged up to and with the opening brace of the object at
      `path`, reading the path again fails or ends at that brace. */
  lemma {:induction false} SameStart(t: string, u: string, obj: Object, obj': Object, path: seq<string>, parent: Object)
    requires IsObject(t, obj) && Descend(t, Some(obj), path) == Ok(Some(parent))
    requires IsObject(u, obj') && obj'.span.start == obj.span.start && Same(t, u, 0, parent.span.start + 1, 0)
    ensures var r := Descend(u, Some(obj'), path);
      r.Ok? ==> r.value.Some? && IsObject(u, r.value.value) && r.value.value.span.start == parent.span.start
    decreases |path|
  {
    if path != [] {
      var i, child := DescendChild(t, obj, path, parent);
      DescendInside(t, child, path[1..], parent);
      SameMember(t, u, obj, obj', i, child.span.start, parent.span.start + 1);
      var r := ObjectAt(u, obj'.fields[i].value);
      SameObject(t, u, child.span.start, parent.span.start + 1, obj'.fields[i].value.end);
      if r.Ok? {
        ObjectAtIs(u, obj'.fields[i].value, r.value.value);
        SameStart(t, u, child, r.value.value, path[1..], parent);
      }
    }
  }

  lemma {:induction false} SameMember(t: string, u: string, obj: Object, obj': Object, i: nat, s: nat, n: nat)
    requires IsObject(t, obj) && i < |obj.fields| && Find(obj.fields, obj.fields[i].key) == Some(i)
    requires IsObject(u, obj') && obj'.span.start == obj.span.start
    requires obj.fields[i].value.start == s < n <= |t| && Same(t, u, 0, n, 0) && t[s] == '{'
    ensures Find(obj'.fields, obj.fields[i].key) == Some(i) && obj'.fields[i].value.start == s <= |u|
  {
    var q, a, y, cm := MemberTail(t, obj, i);
    var k := FieldParts(t, q, obj.fields[i], a);
    SamePart(t, u, 0, n, 0, 0, q, 0);
    SamePart(t, u, 0, n, 0, 0, s + 1, 0);
    var gs := RereadFrom(t, u, obj, obj', i, q);
    SameHead(t, u, q, obj.fields[i], a, s, gs);
    assert obj'.fields[i] == gs[0];
    forall j | 0 <= j < i ensures obj'.fields[j].key != obj.fields[i].key {
      assert obj'.fields[j] == obj.fields[j];
    }
    FindIs(obj'.fields, obj.fields[i].key, i);
  }

  lemma {:induction false} FindIs(fields: seq<Field>, key: string, i: nat)
    requires i < |fields| && fields[i].key == key && forall j :: 0 <= j < i ==> fields[j].key != key
    ensures Find(fields, key) == Some(i)
  {
    assert Find(fields, key).Some?;
  }

  lemma {:induction false} SameObject(t: string, u: string, s: nat, n: nat, limit: nat)
    requires s < n <= |t| && Same(t, u, 0, n, 0) && t[s] == '{'
    ensures s < |u| && (ObjectAt(u, Span(s, limit)).Ok? ==> ObjectAt(u, Span(s, limit)).value.Some?)
    ensures ObjectAt(u, Span(s, limit)).Ok? ==> ObjectAt(u, Span(s, limit)).value.value.span.start == s
  {
    SameChar(t, u, 0, n, 0, s, s);
  }

  // ---- Setting and removing at a path -------------------------------------------

  /** No edit reaches before the first character inside the braces. */
  lemma {:induction false} SplicePrefix(t: string, u: string, s: nat, v: string, e: nat, x: nat)
    requires x <= s <= e <= |t| && u == Splice(t, s, v, e)
    ensures Same(t, u, 0, x, 0)
  {
    SpliceSame(t, u, s, v, e, s + |v|);
    SamePart(t, u, 0, s, 0, 0, x, 0);
  }

  lemma {:induction false} EditPrefix(t: string, obj: Object, key: string, value: Option<string>, u: string)
    requires IsObject(t, obj) && EditMember(t, obj, key, value) == Ok(u)
    ensures Same(t, u, 0, obj.span.start + 1, 0)
  {
    var x := obj.span.start + 1;
    match (Find(obj.fields, key), value) {
      case (Some(i), Some(v)) =>
        FieldPlace(t, x, obj.fields, obj.span.end - 1, obj.trailingComma, i);
        SplicePrefix(t, u, obj.fields[i].value.start, v, obj.fields[i].value.end, x);
      case (Some(i), None) =>
        var p, a := RemovedSpanIs(t, obj, i);
        var span := RemovedSpan(t, obj, i).value;
        SplicePrefix(t, u, span.start, "", span.end, x);
      case (None, Some(v)) =>
        var at := InsertionAt(t, obj);
        SplicePrefix(t, u, at, Insertion(t, obj, key, v), at, x);
      case (None, None) =>
    }
  }

  /** Reading `u` again, the object at `path` holds `members`. */
  ghost predicate Holds(u: string, path: seq<string>, members: seq<Member>) {
    exists root': Object, parent': Object ::
      && RootObject(u) == Ok(Some(root')) && IsObject(u, root')
      && Descend(u, Some(root'), path) == Ok(Some(parent')) && Content(u, parent'.fields) == members
  }

  lemma {:induction false} RootStays(t: string, u: string, root: Object, root': Object, n: nat)
    requires RootObject(t) == Ok(Some(root)) && root.span.start < n && Same(t, u, 0, n, 0)
    ensures IsObject(u, root') && root'.span.start == root.span.start ==> RootObject(u) == Ok(Some(root'))
    ensures RootObject(u) == Ok(Some(root')) ==> IsObject(u, root') && root'.span.start == root.span.start
  {
    RootIs(t, root);
    var s := root.span.start;
    SameChar(t, u, 0, n, 0, s, s);
    SamePart(t, u, 0, n, 0, 0, s, 0);
    SkipFrame(t, u, 0, s, 0, s);
    if IsObject(u, root') && root'.span.start == s {
      RootHere(u, root');
    }
    if RootObject(u) == Ok(Some(root')) {
      RootIs(u, root');
    }
  }

  /** The document in which an object to edit was found. */
  ghost predicate Found(t: string, root: Object, parents: seq<string>, parent: Object) {
    RootObject(t) == Ok(Some(root)) && IsObject(t, root) && Descend(t, Some(root), parents) == Ok(Some(parent))
        && IsObject(t, parent)
  }

  /** Nothing has changed but the object at `path`, which holds `members`. */
  ghost predicate OnlyThere(t: string, u: string, root: Object, path: seq<string>, members: seq<Member>)
    requires IsObject(t, root)
  {
    exists root': Object :: Lifted(t, u, root, root', path, members)
  }

  /** The central law: setting a member (or removing it, without a value) at any
      path whose objects exist gives a text in which that object holds the edited
      members and nothing else in the document has changed, exactly when the edit is
      safe. After an unsafe edit the path leads to those members only where a bare
      slash before a comment makes the object end elsewhere. */
  lemma {:induction false} SetPathLaw(t: string, root: Object, parents: seq<string>, parent: Object, key: string,
      value: Option<string>)
    requires Found(t, root, parents, parent) && IsNewValue(value)
    ensures SetPath(t, parents + [key], value).Ok?
    ensures var u, members := SetPath(t, parents + [key], value).value, Apply(Content(t, parent.fields), key, value);
      && (EditSafe(t, parent, key, value) <==> OnlyThere(t, u, root, parents, members))
      && (EditSafe(t, parent, key, value) ==> Holds(u, parents, members))
      && (Holds(u, parents, members) ==> EditSafe(t, parent, key, value) || EditEnd(t, parent, key, value).At?)
  {
    SetPathEdits(t, root, parents, parent, key, value);
    EditSucceeds(t, parent, key, value);
    EditLaw(t, root, parents, parent, key, value, EditMember(t, parent, key, value).value);
  }

  lemma {:induction false} EditLaw(t: string, root: Object, parents: seq<string>, parent: Object, key: string,
      value: Option<string>, u: string)
    requires Found(t, root, parents, parent) && IsNewValue(value) && EditMember(t, parent, key, value) == Ok(u)
    ensures var members := Apply(Content(t, parent.fields), key, value);
      && (EditSafe(t, parent, key, value) <==> OnlyThere(t, u, root, parents, members))
      && (EditSafe(t, parent, key, value) ==> Holds(u, parents, members))
      && (Holds(u, parents, members) ==> EditSafe(t, parent, key, value) || EditEnd(t, parent, key, value).At?)
  {
    if EditSafe(t, parent, key, value) {
      var root' := SafeEdit(t, root, parents, parent, key, value);
    } else {
      UnsafeEdit(t, root, parents, parent, key, value, u);
    }
  }

  /** No edit of an object is ever refused. */
  lemma {:induction false} EditSucceeds(t: string, obj: Object, key: string, value: Option<string>)
    requires IsObject(t, obj)
    ensures EditMember(t, obj, key, value).Ok?
  {
    match (Find(obj.fields, key), value) {
      case (Some(i), None) => var p, a := RemovedSpanIs(t, obj, i);
      case (None, Some(v)) => var at := InsertionAt(t, obj);
      case _ =>
    }
  }

  lemma {:induction false} SetPathEdits(t: string, root: Object, parents: seq<string>, parent: Object, key: string,
      value: Option<string>)
    requires Found(t, root, parents, parent)
    ensures SetPath(t, parents + [key], value) == EditMember(t, parent, key, value)
  {
    var path := parents + [key];
    assert path[..|path| - 1] == parents && path[|path| - 1] == key;
  }

  lemma {:induction false} SafeEdit(t: string, root: Object, parents: seq<string>, parent: Object, key: string,
      value: Option<string>) returns (root': Object)
    requires Found(t, root, parents, parent) && IsNewValue(value) && EditSafe(t, parent, key, value)
    ensures EditMember(t, parent, key, value).Ok?
    ensures var u, members := EditMember(t, parent, key, value).value, Apply(Content(t, parent.fields), key, value);
      Lifted(t, u, root, root', parents, members) && Holds(u, parents, members)
  {
    var parent' := EditHolds(t, parent, key, value);
    var u, members := EditMember(t, parent, key, value).value, Apply(Content(t, parent.fields), key, value);
    root' := LiftPath(t, u, root, parents, parent, parent', members);
    var ms :| Rewritten(t, u, root, root', ms);
    RootStays(t, u, root, root', root.span.start + 1);
    var again := LiftedFound(t, u, root, root', parents, parent, members);
  }

  lemma {:induction false} UnsafeEdit(t: string, root: Object, parents: seq<string>, parent: Object, key: string,
      value: Option<string>, u: string)
    requires Found(t, root, parents, parent) && EditMember(t, parent, key, value) == Ok(u) && IsNewValue(value)
    requires !EditSafe(t, parent, key, value)
    ensures var members := Apply(Content(t, parent.fields), key, value);
      && (Holds(u, parents, members) ==> EditEnd(t, parent, key, value).At?)
      && !OnlyThere(t, u, root, parents, members)
  {
    var members := Apply(Content(t, parent.fields), key, value);
    if Holds(u, parents, members) {
      var root': Object, parent': Object :| RootObject(u) == Ok(Some(root')) && IsObject(u, root')
        && Descend(u, Some(root'), parents) == Ok(Some(parent')) && Content(u, parent'.fields) == members;
      PathStands(t, u, root, root', parents, parent, key, value, parent');
      EditFails(t, parent, key, value, parent');
    }
    forall root' ensures !Lifted(t, u, root, root', parents, members) {
      if Lifted(t, u, root, root', parents, members) {
        var parent' := LiftedFound(t, u, root, root', parents, parent, members);
        EditFails(t, parent, key, value, parent');
        assert false;
      }
    }
  }

  lemma {:induction false} PathStands(t: string, u: string, root: Object, root': Object, parents: seq<string>,
      parent: Object, key: string, value: Option<string>, parent': Object)
    requires Found(t, root, parents, parent) && EditMember(t, parent, key, value) == Ok(u)
    requires RootObject(u) == Ok(Some(root')) && IsObject(u, root')
      && Descend(u, Some(root'), parents) == Ok(Some(parent'))
    ensures IsObject(u, parent') && parent'.span.start == parent.span.start
  {
    DescendInside(t, root, parents, parent);
    EditPrefix(t, parent, key, value, u);
    RootStays(t, u, root, root', parent.span.start + 1);
    SameStart(t, u, root, root', parents, parent);
  }

  // ---- A parent that does not exist yet -----------------------------------------

  /** The object written for a missing parent reads as one value with one member. */
  lemma {:induction false} NestedReads(key: string, v: string) returns (o: Object)
    requires IsValue(v)
    ensures IsValue(Nested(key, v)) && IsObject(Nested(key, v), o)
    ensures o.span == Span(0, |Nested(key, v)|) && Content(Nested(key, v), o.fields) == [Member(key, v)]
  {
    var t := "{}";
    var e := Object(Span(0, 2), [], false);
    EmptyBody(t, 1, 1);
    assert !HasNewline(t, e) by { assert t[0..1] == "{"; }
    var g;
    o, g := InsertHolds(t, e, key, v);
    assert Insertion(t, e, key, v) == Encode(key) + (":" + v);
    assert Splice(t, 1, Insertion(t, e, key, v), 1) == Nested(key, v);
    ObjectEnds(Nested(key, v), o);
  }

  /** An object of one text, found again in another. */
  lemma {:induction false} IsObjectHere(t: string, obj: Object, x: nat, cl: nat)
    requires CharAt(t, obj.span.start, '{') && x == obj.span.start + 1 && cl + 1 == obj.span.end
    requires ReadBody(t, x) == Body(obj.fields, cl, obj.trailingComma)
    ensures IsObject(t, obj)
  {
  }

  lemma {:induction false} ObjectMoves(v: string, u: string, o: Object, x: nat, cl: nat, n: nat, s: nat, x': nat,
      cl': nat, e: nat) returns (o': Object)
    requires IsObject(v, o) && o.span.start + 1 == x && cl + 1 == n == o.span.end && x <= cl < |v|
    requires ReadBody(v, x) == Body(o.fields, cl, o.trailingComma)
    requires Same(v, u, o.span.start, n, s) && x' == s + 1 && cl' + 1 == e && Aligned(x, cl, x', cl')
    ensures IsObject(u, o') && o'.span == Span(s, e) && Content(u, o'.fields) == Content(v, o.fields)
  {
    SameChar(v, u, o.span.start, n, s, o.span.start, s);
    SamePart(v, u, o.span.start, n, s, x, n, x');
    var gs := BodyFrame(v, u, x, o.fields, cl, o.trailingComma, x', cl');
    o' := Object(Span(s, e), gs, o.trailingComma);
    IsObjectHere(u, o', x', cl');
  }

  /** With one missing or unusable parent the member goes into a new object appended
      to the root; reading the path again finds it exactly when the root had no
      member of the parent's name and the new line can be indented. */
  lemma {:induction false} NewParentLaw(t: string, root: Object, p: string, key: string, v: string)
    requires
      && RootObject(t) == Ok(Some(root)) && IsObject(t, root) && Descend(t, Some(root), [p]) == Ok(None) && IsValue(v)
    ensures SetPath(t, [p, key], Some(v)).Ok?
    ensures var u := SetPath(t, [p, key], Some(v)).value;
      && (InsertSafe(t, root) <==> Holds(u, [], Content(t, root.fields) + [Member(p, Nested(key, v))]))
      && (InsertSafe(t, root) && Find(root.fields, p) == None <==> Holds(u, [p], [Member(key, v)]))
  {
    NewParentPath(t, root, p, key, v);
    if InsertSafe(t, root) {
      NewParentSafe(t, root, p, key, v);
    } else {
      NewParentUnsafe(t, root, p, Nested(key, v));
    }
  }

  /** An insertion into the root leaves the text before it. */
  lemma {:induction false} BeforeInsertion(t: string, root: Object, p: string, w: string) returns (at: nat)
    requires IsObject(t, root)
    ensures InsertionPoint(t, root) == Ok(at) && InsertField(t, root, p, w).Ok? && root.span.start < at <= |t|
    ensures Same(t, InsertField(t, root, p, w).value, 0, at, 0)
    ensures root.fields != [] ==> After(t, root, |root.fields| - 1) == At(at)
  {
    at := InsertionAt(t, root);
    SplicePrefix(t, InsertField(t, root, p, w).value, at, Insertion(t, root, p, w), at, at);
  }

  lemma {:induction false} NewParentSafe(t: string, root: Object, p: string, key: string, v: string)
    requires RootObject(t) == Ok(Some(root)) && IsObject(t, root) && Descend(t, Some(root), [p]) == Ok(None)
    requires IsValue(v) && InsertSafe(t, root)
    ensures InsertField(t, root, p, Nested(key, v)).Ok?
    ensures var u := InsertField(t, root, p, Nested(key, v)).value;
      && Holds(u, [], Content(t, root.fields) + [Member(p, Nested(key, v))])
      && (Find(root.fields, p) == None <==> Holds(u, [p], [Member(key, v)]))
  {
    var w := Nested(key, v);
    var o := NestedReads(key, v);
    var at := BeforeInsertion(t, root, p, w);
    var u := InsertField(t, root, p, w).value;
    var root', g := InsertHolds(t, root, p, w);
    SamePart(t, u, 0, at, 0, 0, root.span.start + 1, 0);
    RootStays(t, u, root, root', root.span.start + 1);
    if Find(root.fields, p) == None {
      ContentAt(u, root'.fields, |root.fields|);
      NewParentFound(u, root', g, root.fields, w, o, [Member(key, v)]);
    } else {
      OldParentStays(t, u, root, root', g, p, at);
    }
  }

  lemma {:induction false} NewParentUnsafe(t: string, root: Object, p: string, w: string)
    requires RootObject(t) == Ok(Some(root)) && IsObject(t, root) && !InsertSafe(t, root)
    ensures InsertField(t, root, p, w).Ok?
    ensures forall path, members :: !Holds(InsertField(t, root, p, w).value, path, members)
  {
    var at := BeforeInsertion(t, root, p, w);
    var u := InsertField(t, root, p, w).value;
    InsertFails(t, root, p, w);
    SamePart(t, u, 0, at, 0, 0, root.span.start + 1, 0);
    NoRoot(t, u, root);
  }

  lemma {:induction false} NewParentPath(t: string, root: Object, p: string, key: string, v: string)
    requires RootObject(t) == Ok(Some(root)) && IsObject(t, root) && Descend(t, Some(root), [p]) == Ok(None)
    ensures SetPath(t, [p, key], Some(v)) == InsertField(t, root, p, Nested(key, v))
  {
    var path := [p, key];
    assert path[..|path| - 1] == [p] && path[|path| - 1] == key;
  }

  lemma {:induction false} NoRoot(t: string, u: string, root: Object)
    requires RootObject(t) == Ok(Some(root)) && Same(t, u, 0, root.span.start + 1, 0)
    requires forall obj': Object :: obj'.span.start == root.span.start ==> !IsObject(u, obj')
    ensures forall path, members :: !Holds(u, path, members)
  {
    forall root': Object ensures RootObject(u) != Ok(Some(root')) {
      RootStays(t, u, root, root', root.span.start + 1);
    }
  }

  /** The new member, appended to a root without one of its name, is the object
      found there. */
  lemma {:induction false} NewParentFound(u: string, root': Object, g: Field, fields: seq<Field>, w: string, o: Object,
      members: seq<Member>)
    requires IsObject(u, root') && root'.fields == fields + [g] && RootObject(u) == Ok(Some(root'))
    requires Find(fields, g.key) == None && Slice(u, g.value) == w
    requires IsObject(w, o) && o.span == Span(0, |w|) && Content(w, o.fields) == members
    ensures Holds(u, [g.key], members)
  {
    var n := |fields|;
    FindIs(root'.fields, g.key, n);
    ValueStops(u, root', n);
    var o' := SlicedObject(w, u, o, g.value.start, g.value.end);
    DescendStep(u, root', [g.key], n, o');
    assert Descend(u, Some(root'), [g.key]) == Ok(Some(o'));
  }

  lemma {:induction false} SlicedObject(v: string, u: string, o: Object, s: nat, e: nat) returns (o': Object)
    requires IsObject(v, o) && o.span == Span(0, |v|) && s <= e <= |u| && u[s..e] == v
    ensures IsObject(u, o') && o'.span == Span(s, e) && Content(u, o'.fields) == Content(v, o.fields)
  {
    var n := |v|;
    ObjectEnds(v, o);
    var c := BodyStart(v, 1, o.fields, n - 1, o.trailingComma);
    SliceIsSame(v, u, s, e, n);
    o' := ObjectMoves(v, u, o, 1, n - 1, n, s, s + 1, e - 1, e);
  }

  lemma {:induction false} SliceIsSame(v: string, u: string, s: nat, e: nat, n: nat)
    requires s <= e <= |u| && u[s..e] == v && n == |v|
    ensures n == e - s && Same(v, u, 0, n, s)
  {
    assert forall k :: 0 <= k < n ==> v[k] == u[s..e][k];
  }

  lemma {:induction false} OldParentStays(t: string, u: string, root: Object, root': Object, g: Field, p: string,
      at: nat)
    requires IsObject(t, root) && Descend(t, Some(root), [p]) == Ok(None) && Find(root.fields, p).Some?
    requires IsObject(u, root') && root'.fields == root.fields + [g] && RootObject(u) == Ok(Some(root'))
    requires root.fields != [] && After(t, root, |root.fields| - 1) == At(at) && Same(t, u, 0, at, 0) && at <= |t|
    ensures forall members :: !Holds(u, [p], members)
  {
    var i := Find(root.fields, p).value;
    FindIs(root'.fields, p, i);
    ValueStops(t, root, i);
    ValueStops(u, root', i);
    BeforeLast(t, root, i, at);
    NotAnObject(t, u, root.fields[i].value.start, root.fields[i].value, at);
    assert Descend(u, Some(root'), [p]) == Ok(None);
  }

  lemma {:induction false} ValueStops(t: string, obj: Object, i: nat)
    requires IsObject(t, obj) && i < |obj.fields|
    ensures
      && obj.fields[i].value.start < obj.fields[i].value.end <= |t|
      && Skip(t, obj.fields[i].value.start) == At(obj.fields[i].value.start)
  {
    var q, a, y, cm := MemberTail(t, obj, i);
    var k := FieldParts(t, q, obj.fields[i], a);
  }

  /** Members stand in front of the separator after the last one. */
  lemma {:induction false} BeforeLast(t: string, obj: Object, i: nat, at: nat)
    requires IsObject(t, obj) && i < |obj.fields| && After(t, obj, |obj.fields| - 1) == At(at)
    ensures obj.fields[i].value.start < obj.fields[i].value.end <= at
    decreases |obj.fields| - i
  {
    ValueStops(t, obj, i);
    if i + 1 < |obj.fields| {
      NextAfter(t, obj, i);
      BeforeLast(t, obj, i + 1, at);
    }
  }

  lemma {:induction false} NextAfter(t: string, obj: Object, i: nat)
    requires IsObject(t, obj) && i + 1 < |obj.fields|
    ensures obj.fields[i].value.end < obj.fields[i + 1].keyStart < obj.fields[i + 1].value.start
  {
    var q, a, y, cm := MemberTail(t, obj, i);
    var k := FieldParts(t, q, obj.fields[i], a);
    FieldPlace(t, y, obj.fields[i + 1..], obj.span.end - 1, cm, 0);
  }

  lemma {:induction false} NotAnObject(t: string, u: string, s: nat, span: Span, at: nat)
    requires span.start == s < at <= |t| && Same(t, u, 0, at, 0) && Skip(t, s) == At(s) && ObjectAt(t, span) == Ok(None)
    requires s <= |u| && Skip(u, s) == At(s)
    ensures ObjectAt(u, span) == Ok(None)
  {
    SameChar(t, u, 0, at, 0, s, s);
  }
}
