/** Adding a member and taking it out again. */
module JsonRoundTrip {
  import opened Basics
  import opened JsonScan
  import opened JsonFrame
  import opened JsonString
  import opened JsonObject
  import opened JsonSplice
  import opened JsonEdit
  import opened JsonLaws
  import opened JsonPath
  import opened JsonPathLaws

  lemma {:induction false} SpliceBack(t: string, at: nat, x: string, u: string, i: nat, j: nat)
    requires at <= |t| && u == Splice(t, at, x, at) && i <= j <= |u|
    ensures j - i != |x| ==> Splice(u, i, "", j) != t
    ensures i == at && j == at + |x| ==> Splice(u, i, "", j) == t
    ensures i == at + 1 && j == at + |x| + 1 && CharAt(t, at, ',') && CharAt(x, 0, ',') ==> Splice(u, i, "", j) == t
  {
    assert |Splice(u, i, "", j)| == |u| - (j - i);
  }

  /** Adding a member may start a new line; taking it out leaves that line behind
      when it was the only member or another comma followed. */
  predicate LeavesLine(t: string, obj: Object)
    requires IsObject(t, obj)
  {
    HasNewline(t, obj) && (obj.fields == [] || obj.trailingComma)
  }

  /** The separator in front of the new member is the one found after the old last member. */
  lemma {:induction false} LastAfter(t: string, u: string, obj: Object, obj': Object, g: Field, at: nat)
    requires
      && IsObject(t, obj) && obj.fields != [] && After(t, obj, |obj.fields| - 1) == At(at) && at < |t|
      && IsDelimiter(t[at])
    requires Same(t, u, 0, at, 0) && CharAt(u, at, ',') && IsObject(u, obj') && obj'.fields == obj.fields + [g]
    ensures After(u, obj', |obj.fields| - 1) == At(at)
  {
    var m := |obj.fields| - 1;
    var f := obj.fields[m];
    var q, a, y, cm := MemberTail(t, obj, m);
    SamePart(t, u, 0, at, 0, q, at, q);
    CommaHead(t, u, q, f, at);
    var q', a', y', cm' := MemberTail(u, obj', m);
  }

  /** What the removal of a freshly added member cuts out. */
  lemma {:induction false} AddedSpan(u: string, fields: seq<Field>, obj': Object, g: Field, n: nat, at: nat, a: nat)
    requires IsObject(u, obj') && n == |fields| && obj'.fields == fields + [g]
    requires After(u, obj', n) == At(a) && (fields != [] ==> After(u, obj', n - 1) == At(at))
    ensures RemovedSpan(u, obj', n) == Ok(
      if obj'.trailingComma then Span(g.keyStart, a + 1)
      else if fields == [] then Span(g.keyStart, g.value.end)
      else Span(at, g.value.end))
  {
    assert obj'.fields[n] == g;
    var p, a' := RemovedSpanIs(u, obj', n);
  }

  /** How far that is from what was added. */
  lemma {:induction false} AddedLength(t: string, obj: Object, key: string, ins: string, g: Field, at: nat, a: nat,
      u: string, span: Span)
    requires
      && IsObject(t, obj) && PlacedIn(t, obj, key, at, g, a) && a == at + |ins| && at < |t|
      && u == Splice(t, at, ins, at)
    requires g.keyStart < g.value.end <= a < |u| && (obj.trailingComma ==> obj.fields != [] && t[at] == ',')
    requires obj.fields != [] ==> CharAt(ins, 0, ',')
    requires span == if obj.trailingComma then Span(g.keyStart, a + 1)
                     else if obj.fields == [] then Span(g.keyStart, g.value.end)
                     else Span(at, g.value.end)
    ensures span.start <= span.end <= |u| && (Splice(u, span.start, "", span.end) == t <==> !LeavesLine(t, obj))
  {
    SpliceBack(t, at, ins, u, span.start, span.end);
  }

  lemma {:induction false} HeadAfter(u: string, obj': Object, n: nat, g: Field, a: nat)
    requires IsObject(u, obj') && n < |obj'.fields| && obj'.fields[n] == g
    requires g.keyStart <= |u| && ReadField(u, g.keyStart) == Head(g, a)
    ensures After(u, obj', n) == At(a) && g.keyStart < g.value.end <= a < |u|
  {
    var q, a', y, cm := MemberTail(u, obj', n);
    var k := FieldParts(u, q, g, a);
  }

  /** The round trip on one object. */
  lemma {:induction false} InsertThenRemove(t: string, obj: Object, key: string, v: string) returns (obj': Object)
    requires IsObject(t, obj) && InsertSafe(t, obj) && IsValue(v) && Find(obj.fields, key) == None
    ensures InsertField(t, obj, key, v).Ok?
    ensures var u := InsertField(t, obj, key, v).value;
      && IsObject(u, obj') && obj'.span.start == obj.span.start
      && (EditMember(u, obj', key, None) == Ok(t) <==> !LeavesLine(t, obj))
  {
    var at := InsertionAt(t, obj);
    var ins := Insertion(t, obj, key, v);
    var u := Splice(t, at, ins, at);
    var g, a;
    obj', g, a := InsertPlaces(t, obj, key, v, at, u);
    HeadAfter(u, obj', |obj.fields|, g, a);
    FindIs(obj'.fields, key, |obj.fields|);
    RemovedAgain(t, obj, key, ins, g, at, a, u, obj', |obj.fields|);
  }

  lemma {:induction false} RemovedAgain(t: string, obj: Object, key: string, ins: string, g: Field, at: nat, a: nat,
      u: string, obj': Object, n: nat)
    requires
      && IsObject(t, obj) && PlacedIn(t, obj, key, at, g, a) && a == at + |ins| && at < |t|
      && u == Splice(t, at, ins, at)
    requires IsDelimiter(t[at]) && (obj.trailingComma ==> obj.fields != [] && t[at] == ',')
    requires obj.fields != [] ==> After(t, obj, |obj.fields| - 1) == At(at) && CharAt(ins, 0, ',')
    requires
      && IsObject(u, obj') && n == |obj.fields| && obj'.fields == obj.fields + [g]
      && obj'.trailingComma == obj.trailingComma
    requires g.keyStart < g.value.end <= a < |u| && After(u, obj', n) == At(a)
    ensures RemoveField(u, obj', n) == Ok(t) <==> !LeavesLine(t, obj)
  {
    SpliceSame(t, u, at, ins, at, a);
    if obj.fields != [] {
      SameChar(ins, u, 0, |ins|, at, 0, at);
      LastAfter(t, u, obj, obj', g, at);
    }
    AddedSpan(u, obj.fields, obj', g, n, at, a);
    AddedLength(t, obj, key, ins, g, at, a, u, RemovedSpan(u, obj', n).value);
  }

  /** Setting an absent member anywhere and removing it again gives back the very
      same text exactly when the new line could be indented and none is left. */
  lemma {:induction false} RoundTripLaw(t: string, root: Object, parents: seq<string>, parent: Object, key: string,
      v: string)
    requires Found(t, root, parents, parent) && Find(parent.fields, key) == None && IsValue(v)
    ensures SetPath(t, parents + [key], Some(v)).Ok?
    ensures var u := SetPath(t, parents + [key], Some(v)).value;
      SetPath(u, parents + [key], None) == Ok(t) <==> InsertSafe(t, parent) && !LeavesLine(t, parent)
  {
    SetPathEdits(t, root, parents, parent, key, Some(v));
    var at := InsertionAt(t, parent);
    var u := InsertField(t, parent, key, v).value;
    if InsertSafe(t, parent) {
      var parent' := InsertThenRemove(t, parent, key, v);
      var root' := SafeEdit(t, root, parents, parent, key, Some(v));
      FoundAgain(t, u, root, root', parents, parent, parent', Apply(Content(t, parent.fields), key, Some(v)));
      SetPathEdits(u, root', parents, parent', key, None);
    } else {
      InsertFails(t, parent, key, v);
      EditPrefix(t, parent, key, Some(v), u);
      Unreadable(t, u, root, parents, parent, key);
    }
  }

  lemma {:induction false} FoundAgain(t: string, u: string, root: Object, root': Object, parents: seq<string>,
      parent: Object, parent': Object, members: seq<Member>)
    requires Found(t, root, parents, parent) && Lifted(t, u, root, root', parents, members)
    requires IsObject(u, parent') && parent'.span.start == parent.span.start
    ensures Found(u, root', parents, parent')
  {
    var again := LiftedFound(t, u, root, root', parents, parent, members);
    LiftedStarts(t, u, root, root', parents, members);
    RootStays(t, u, root, root', root.span.start + 1);
    OneObject(u, again, parent');
  }

  /** A place holds at most one object. */
  lemma {:induction false} OneObject(t: string, a: Object, b: Object)
    requires IsObject(t, a) && IsObject(t, b) && a.span.start == b.span.start
    ensures a == b
  {
  }

  lemma {:induction false} LiftedStarts(t: string, u: string, obj: Object, obj': Object, path: seq<string>,
      members: seq<Member>)
    requires IsObject(t, obj) && Lifted(t, u, obj, obj', path, members)
    ensures IsObject(u, obj') && obj'.span.start == obj.span.start && Same(t, u, 0, obj.span.start + 1, 0)
  {
    if path != [] {
      var i, child, child' := LiftedStep(t, u, obj, obj', path, members);
    }
  }

  /** A text in which the object to edit cannot be read refuses every edit of it. */
  lemma {:induction false} Unreadable(t: string, u: string, root: Object, parents: seq<string>, parent: Object,
      key: string)
    requires Found(t, root, parents, parent) && Same(t, u, 0, parent.span.start + 1, 0)
    requires forall obj': Object :: obj'.span.start == parent.span.start ==> !IsObject(u, obj')
    ensures SetPath(u, parents + [key], None).Err?
  {
    var path := parents + [key];
    assert path[..|path| - 1] == parents && path[|path| - 1] == key;
    DescendInside(t, root, parents, parent);
    if RootObject(u).Ok? && RootObject(u).value.Some? {
      var root' := RootObject(u).value.value;
      RootStays(t, u, root, root', parent.span.start + 1);
      SameStart(t, u, root, root', parents, parent);
    }
  }
}
