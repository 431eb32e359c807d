/** Setting and removing a member at a path of names. */
module JsonPath {
  import opened Basics
  import opened JsonScan
  import opened JsonFrame
  import opened JsonString
  import opened JsonObject
  import opened JsonSplice
  import opened JsonEdit
  import opened JsonLaws

  // ---- Objects and the values they are -----------------------------------------

  lemma {:induction false} ItemEnds(t: string, c: nat, fs: seq<Field>, cl: nat, cm: bool, e: nat)
    requires CharAt(t, c, '"') && ReadItem(t, c) == Body(fs, cl, cm) && fs != [] && e == cl + 1
    ensures MembersEnd(t, c) == At(e)
    decreases |t| - c
  {
    var a, y, cm' := ItemTail(t, c, fs, cl, cm);
    FieldIsMember(t, c, fs[0], a);
    if t[a] == '}' {
      MembersStop(t, c, a, e, false);
    } else {
      var n := BodyStart(t, y, fs[1..], cl, cm');
      if fs[1..] == [] {
        CommaThen(t, a, y, n, e);
        MembersStop(t, c, a, e, true);
      } else {
        ItemEnds(t, n, fs[1..], cl, cm', e);
        CommaThen(t, a, y, n, n + 1);
        MembersGoOn(t, c, a, n);
      }
    }
  }

  lemma {:induction false} CommaThen(t: string, a: nat, y: nat, n: nat, e: nat)
    requires CharAt(t, a, ',') && y == a + 1 && Skip(t, y) == At(n) && e == n + 1
    ensures Separator(t, a, '}') == if CharAt(t, n, '}') then Close(e, true) else More(n)
  {
  }

  lemma {:induction false} MembersStop(t: string, c: nat, a: nat, e: nat, comma: bool)
    requires c <= |t| && MemberAfter(t, c) == At(a) && a <= |t| && Separator(t, a, '}') == Close(e, comma)
    ensures MembersEnd(t, c) == At(e)
  {
  }

  lemma {:induction false} MembersGoOn(t: string, c: nat, a: nat, n: nat)
    requires c <= |t| && MemberAfter(t, c) == At(a) && a <= |t| && Separator(t, a, '}') == More(n)
    ensures n <= |t| && MembersEnd(t, c) == MembersEnd(t, n)
  {
  }

  lemma {:induction false} FieldIsMember(t: string, c: nat, f: Field, a: nat)
    requires c <= |t| && ReadField(t, c) == Head(f, a)
    ensures MemberAfter(t, c) == At(a)
  {
    var k := FieldParts(t, c, f, a);
    assert ValueEnd(t, k + 1) == At(f.value.end);
    assert ValueAfter(t, k + 1) == At(a);
  }

  /** The two scans of an object, for its extent and for its members, agree. */
  lemma {:induction false} ObjectEnds(t: string, obj: Object)
    requires IsObject(t, obj)
    ensures RawEnd(t, obj.span.start) == At(obj.span.end) && obj.span.start < obj.span.end <= |t|
  {
    var x, cl := obj.span.start + 1, obj.span.end - 1;
    var c := BodyStart(t, x, obj.fields, cl, obj.trailingComma);
    if obj.fields != [] {
      ItemEnds(t, c, obj.fields, cl, obj.trailingComma, obj.span.end);
    }
    BraceIs(t, obj.span.start, x, c);
  }

  lemma {:induction false} ObjectAtIs(t: string, span: Span, obj: Object)
    requires span.start <= |t| && ObjectAt(t, span) == Ok(Some(obj))
    ensures IsObject(t, obj) && Skip(t, span.start) == At(obj.span.start) && obj.span.end <= span.end
  {
    var s := Skip(t, span.start).pos;
    var b := ReadBody(t, s + 1);
    var read := Object(Span(s, b.close + 1), b.fields, b.comma);
    assert IsObject(t, read);
    ObjectEnds(t, read);
  }

  /** An object of the text is what the parser reports at its place. */
  lemma {:induction false} ObjectAtHere(t: string, obj: Object)
    requires IsObject(t, obj)
    ensures obj.span.start <= |t| && ObjectAt(t, obj.span) == Ok(Some(obj))
  {
    ObjectEnds(t, obj);
    assert Skip(t, obj.span.start) == At(obj.span.start);
  }

  lemma {:induction false} RootIs(t: string, obj: Object)
    requires RootObject(t) == Ok(Some(obj))
    ensures IsObject(t, obj) && Skip(t, 0) == At(obj.span.start)
  {
    var s := Skip(t, 0).pos;
    ObjectAtIs(t, Span(s, ValueEnd(t, s).pos), obj);
    assert Skip(t, s) == At(s);
  }

  lemma {:induction false} RootHere(t: string, obj: Object)
    requires IsObject(t, obj) && Skip(t, 0) == At(obj.span.start)
    ensures RootObject(t) == Ok(Some(obj))
  {
    ObjectEnds(t, obj);
    ObjectAtHere(t, obj);
    assert Skip(t, obj.span.start) == At(obj.span.start);
  }

  // ---- Paths --------------------------------------------------------------------

  /** The object reached from `current` by the names of `path`. */
  function Descend(t: string, current: Option<Object>, path: seq<string>): (r: Result<Option<Object>>)
    requires current.Some? ==> IsObject(t, current.value)
    ensures r.Ok? && r.value.Some? ==> IsObject(t, r.value.value)
    decreases |path|
  {
    if path == [] || current.None? then Ok(current)
    else
      var obj := current.value;
      match Find(obj.fields, path[0])
      case None => Ok(None)
      case Some(i) =>
        FieldPlace(t, obj.span.start + 1, obj.fields, obj.span.end - 1, obj.trailingComma, i);
        match ObjectAt(t, obj.fields[i].value)
        case Err(f) => Err(f)
        case Ok(None) => Ok(None)
        case Ok(Some(child)) =>
          ObjectAtIs(t, obj.fields[i].value, child);
          Descend(t, Some(child), path[1..])
  }

  /** The loop that follows a path. */
  method FindObject(t: string, root: Object, path: seq<string>) returns (r: Result<Option<Object>>)
    requires IsObject(t, root)
    ensures r == Descend(t, Some(root), path)
  {
    var current: Option<Object> := Some(root);
    var n := 0;
    while n < |path|
      invariant n <= |path| && (current.Some? ==> IsObject(t, current.value))
      invariant Descend(t, Some(root), path) == Descend(t, current, path[n..])
    {
      if current.None? { return Ok(None); }
      var obj := current.value;
      var i := Find(obj.fields, path[n]);
      if i.None? { return Ok(None); }
      FieldPlace(t, obj.span.start + 1, obj.fields, obj.span.end - 1, obj.trailingComma, i.value);
      var child :- ParseObjectAt(t, obj.fields[i.value].value);
      if child.Some? {
        ObjectAtIs(t, obj.fields[i.value].value, child.value);
      }
      assert path[n..][1..] == path[n + 1..];
      current, n := child, n + 1;
    }
    return Ok(current);
  }

  /** The object written for a parent that does not exist yet. */
  function Nested(key: string, value: string): string { "{" + (Encode(key) + (":" + (value + "}"))) }

  /** Sets, adds or (without a value) removes one member of one object. */
  function EditMember(t: string, obj: Object, key: string, value: Option<string>): Result<string>
    requires IsObject(t, obj)
  {
    match (Find(obj.fields, key), value)
    case (Some(i), Some(v)) =>
      FieldPlace(t, obj.span.start + 1, obj.fields, obj.span.end - 1, obj.trailingComma, i);
      Ok(Splice(t, obj.fields[i].value.start, v, obj.fields[i].value.end))
    case (Some(i), None) => RemoveField(t, obj, i)
    case (None, Some(v)) => InsertField(t, obj, key, v)
    case (None, None) => Ok(t)
  }

  function SetPath(t: string, path: seq<string>, value: Option<string>): Result<string> {
    if path == [] then Err(InvalidPath)
    else match RootObject(t)
      case Err(f) => Err(f)
      case Ok(None) => Err(Malformed)
      case Ok(Some(root)) => RootIs(t, root); SetBelow(t, root, path[..|path| - 1], path[|path| - 1], value)
  }

  function SetBelow(t: string, root: Object, parents: seq<string>, key: string, value: Option<string>): Result<string>
    requires IsObject(t, root)
  {
    match Descend(t, Some(root), parents)
    case Err(f) => Err(f)
    case Ok(Some(parent)) => EditMember(t, parent, key, value)
    case Ok(None) =>
      if value.None? then Ok(t)
      else if |parents| == 1 then InsertField(t, root, parents[0], Nested(key, value.value))
      else Err(UnavailablePath)
  }
}
