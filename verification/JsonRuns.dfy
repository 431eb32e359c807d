/** Runs of edits of one object: a class of documents in which every edit is safe,
    closed under the edits. */
module JsonRuns {
  import opened Basics
  import opened JsonScan
  import opened JsonFrame
  import opened JsonString
  import opened JsonObject
  import opened JsonSplice
  import opened JsonEdit
  import opened JsonLaws
  import opened JsonPath
  import opened JsonPathLaws
  import opened JsonRoundTrip

  /** No value is directly followed by a comment. */
  ghost predicate Loose(t: string, fields: seq<Field>) {
    forall i :: 0 <= i < |fields| ==> !CharAt(t, fields[i].value.end, '/')
  }

  /** White space is only what the scanner skips: space, tab, CR, LF and form feed. */
  ghost predicate PlainSpace(t: string) {
    forall k :: 0 <= k < |t| ==> (IsWhitespace(t[k]) ==> IsBlank(t[k]))
  }

  ghost predicate Tidy(t: string, obj: Object) { Loose(t, obj.fields) && PlainSpace(t) }

  /** In a tidy document every edit is safe. */
  lemma {:induction false} TidySafe(t: string, obj: Object, key: string, value: Option<string>)
    requires IsObject(t, obj) && Tidy(t, obj)
    ensures EditSafe(t, obj, key, value)
  {
    var close := obj.span.end - 1;
    RunIsWhite(t, LineStart(t, close), close);
  }

  // ---- Looseness is kept ----------------------------------------------------------

  lemma {:induction false} ItemLoose(t: string, u: string, c: nat, fs: seq<Field>, cl: nat, cm: bool, c': nat, cl': nat,
      gs: seq<Field>)
    requires CharAt(t, c, '"') && ReadItem(t, c) == Body(fs, cl, cm) && fs != [] && Loose(t, fs)
    requires c <= cl < |t| && Same(t, u, c, cl + 1, c') && Aligned(c, cl, c', cl')
    requires c' <= |u| && ReadItem(u, c') == Body(gs, cl', cm)
    ensures Loose(u, gs)
    decreases |t| - c, 0
  {
    var a, y, cm' := ItemTail(t, c, fs, cl, cm);
    var a': nat := a + (c' - c);
    SamePart(t, u, c, cl + 1, c', c, y, c');
    var g := HeadFrame(t, u, c, fs[0], a, c', a');
    SameChar(t, u, c, cl + 1, c', fs[0].value.end, g.value.end);
    SameChar(t, u, c, cl + 1, c', a, a');
    SameChar(t, u, c, cl + 1, c', c, c');
    if t[a] == '}' {
      ItemLast(u, c', g, a');
    } else {
      var y' := a' + 1;
      SamePart(t, u, c, cl + 1, c', y, cl + 1, y');
      LooseTail(t, fs);
      TailLoose(t, u, y, fs[1..], cl, cm', c', g, a', y', cl');
    }
  }

  lemma {:induction false} LooseTail(t: string, fs: seq<Field>)
    requires Loose(t, fs) && fs != []
    ensures Loose(t, fs[1..])
  {
  }

  /** A member in front of a loose rest. */
  lemma {:induction false} TailLoose(t: string, u: string, y: nat, rest: seq<Field>, cl: nat, cm: bool, c': nat,
      g: Field, a': nat, y': nat, cl': nat)
    requires y <= |t| && ReadBody(t, y) == Body(rest, cl, cm) && Loose(t, rest)
    requires cl < |t| && Same(t, u, y, cl + 1, y') && Aligned(y, cl, y', cl')
    requires
      && CharAt(u, c', '"') && ReadField(u, c') == Head(g, a') && CharAt(u, a', ',') && y' == a' + 1
      && !CharAt(u, g.value.end, '/')
    ensures ReadItem(u, c').Body? && Loose(u, ReadItem(u, c').fields)
    decreases |t| - y, 2
  {
    var gs := BodyFrame(t, u, y, rest, cl, cm, y', cl');
    BodyLoose(t, u, y, rest, cl, cm, y', cl', gs);
    ItemMore(u, c', g, a', y', gs, cl', cm);
    LooseCons(u, g, gs);
  }

  lemma {:induction false} LooseCons(t: string, f: Field, rest: seq<Field>)
    requires !CharAt(t, f.value.end, '/') && Loose(t, rest)
    ensures Loose(t, [f] + rest)
  {
    forall i | 0 <= i < |[f] + rest| ensures !CharAt(t, ([f] + rest)[i].value.end, '/') {
      if i > 0 {
        assert ([f] + rest)[i] == rest[i - 1];
      }
    }
  }

  lemma {:induction false} BodyLoose(t: string, u: string, x: nat, fs: seq<Field>, cl: nat, cm: bool, x': nat, cl': nat,
      gs: seq<Field>)
    requires x <= |t| && ReadBody(t, x) == Body(fs, cl, cm) && Loose(t, fs)
    requires cl < |t| && Same(t, u, x, cl + 1, x') && Aligned(x, cl, x', cl')
    requires x' <= |u| && ReadBody(u, x') == Body(gs, cl', cm)
    ensures Loose(u, gs)
    decreases |t| - x, 1
  {
    var c := BodyStart(t, x, fs, cl, cm);
    var c': nat := c + (x' - x);
    SamePart(t, u, x, cl + 1, x', x, c + 1, x');
    SamePart(t, u, x, cl + 1, x', c, cl + 1, c');
    SkipToChar(t, u, x, c, x', c');
    if fs == [] {
      EmptyBody(u, x', c');
    } else {
      ItemLoose(t, u, c, fs, cl, cm, c', cl', gs);
    }
  }

  /** Members in front of the change keep the character after their value. */
  lemma {:induction false} FrontLoose(t: string, u: string, obj: Object, i: nat, q: nat)
    requires IsObject(t, obj) && i <= |obj.fields| && Loose(t, obj.fields) && Same(t, u, 0, q, 0)
    requires i > 0 ==> obj.fields[i - 1].value.end < q
    ensures Loose(u, obj.fields[..i])
  {
    forall j | 0 <= j < i ensures !CharAt(u, obj.fields[j].value.end, '/') {
      EndsIncrease(t, obj, j, i - 1);
      SameChar(t, u, 0, q, 0, obj.fields[j].value.end, obj.fields[j].value.end);
    }
  }

  lemma {:induction false} EndsIncrease(t: string, obj: Object, i: nat, j: nat)
    requires IsObject(t, obj) && i <= j < |obj.fields|
    ensures obj.fields[i].value.end <= obj.fields[j].value.end
    decreases j - i
  {
    if i < j {
      NextAfter(t, obj, i);
      ValueStops(t, obj, i + 1);
      EndsIncrease(t, obj, i + 1, j);
    }
  }

  lemma {:induction false} LooseJoin(t: string, xs: seq<Field>, ys: seq<Field>)
    requires Loose(t, xs) && Loose(t, ys)
    ensures Loose(t, xs + ys)
  {
  }

  lemma {:induction false} ReplacedLoose(t: string, u: string, q: nat, fs: seq<Field>, cl: nat, cm: bool, s: nat,
      e: nat, e': nat, cl': nat)
    requires
      && CharAt(t, q, '"') && ReadItem(t, q) == Body(fs, cl, cm) && fs != [] && fs[0].value == Span(s, e)
      && Loose(t, fs)
    requires q < s && Same(t, u, q, s, q) && s < |u| && Stops(u, s) && RawEnd(u, s) == At(e')
    requires e <= cl < |t| && Same(t, u, e, cl + 1, e') && Aligned(e, cl, e', cl')
    ensures ReadBody(u, q).Body? && Loose(u, ReadBody(u, q).fields)
  {
    var f := fs[0];
    var a, y, cm' := ItemTail(t, q, fs, cl, cm);
    var k := FieldParts(t, q, f, a);
    var a': nat := a + (e' - e);
    var y' := a' + 1;
    var g := Field(f.key, q, Span(s, e'));
    SamePart(t, u, e, cl + 1, e', e, a + 1, e');
    SkipToChar(t, u, e, a, e', a');
    SameChar(t, u, q, s, q, q, q);
    SameChar(t, u, e, cl + 1, e', e, e');
    HeadAt(t, u, q, f, a, q, s, e', a');
    ItemIsBody(u, q);
    if t[a] == '}' {
      ItemLast(u, q, g, a');
    } else {
      SamePart(t, u, e, cl + 1, e', y, cl + 1, y');
      LooseTail(t, fs);
      TailLoose(t, u, y, fs[1..], cl, cm', q, g, a', y', cl');
    }
  }

  lemma {:induction false} ReplaceKeepsLoose(t: string, u: string, obj: Object, obj': Object, i: nat, s: nat, e: nat,
      e': nat)
    requires IsObject(t, obj) && i < |obj.fields| && obj.fields[i].value == Span(s, e) && Loose(t, obj.fields)
    requires s <= e <= |t| && Same(t, u, 0, s, 0) && Same(t, u, e, |t|, e') && |u| - e' == |t| - e
    requires IsObject(u, obj') && obj'.span.start == obj.span.start
    requires s < |u| && Stops(u, s) && RawEnd(u, s) == At(e')
    ensures Loose(u, obj'.fields)
  {
    var cl := obj.span.end - 1;
    var q, a, y, cm := MemberTail(t, obj, i);
    var k := FieldParts(t, q, obj.fields[i], a);
    var cl': nat := cl + (e' - e);
    SamePart(t, u, 0, s, 0, 0, q, 0);
    SamePart(t, u, 0, s, 0, q, s, q);
    SamePart(t, u, e, |t|, e', e, cl + 1, e');
    ReplacedLoose(t, u, q, obj.fields[i..], cl, obj.trailingComma, s, e, e', cl');
    LooseAround(t, u, obj, obj', i, q);
  }

  /** Members kept in front of the change, and loose ones from there on. */
  lemma {:induction false} LooseAround(t: string, u: string, obj: Object, obj': Object, i: nat, q: nat)
    requires
      && IsObject(t, obj) && i < |obj.fields| && obj.fields[i].keyStart == q && Loose(t, obj.fields)
      && Same(t, u, 0, q, 0)
    requires IsObject(u, obj') && obj'.span.start == obj.span.start
    requires q <= |u| && ReadBody(u, q).Body? && Loose(u, ReadBody(u, q).fields)
    ensures Loose(u, obj'.fields)
  {
    if i > 0 {
      NextAfter(t, obj, i - 1);
    }
    FrontLoose(t, u, obj, i, q);
    var gs := RereadFrom(t, u, obj, obj', i, q);
    LooseJoin(u, obj.fields[..i], gs);
  }

  lemma {:induction false} RemoveKeepsLoose(t: string, u: string, obj: Object, obj': Object, i: nat)
    requires IsObject(t, obj) && i < |obj.fields| && Loose(t, obj.fields) && RemoveField(t, obj, i) == Ok(u)
    requires IsObject(u, obj') && obj'.span.start == obj.span.start
    ensures Loose(u, obj'.fields)
  {
    var q, a, y, cm := MemberTail(t, obj, i);
    RemovedText(t, obj, i, q, a, y);
    if i + 1 < |obj.fields| || obj.trailingComma {
      CommaCutLoose(t, u, obj, obj', i, q, a, y, cm);
    } else if i == 0 {
      var o := RemoveOnly(t, obj);
      OneObject(u, o, obj');
      assert |obj'.fields| == |Content(u, obj'.fields)|;
    } else {
      var q0, a0, y0, cm0 := MemberTail(t, obj, i - 1);
      LastCutLoose(t, u, obj, obj', i - 1, obj.fields[i - 1], q0, a0, obj.fields[i].value.end, obj.span.end - 1);
    }
  }

  lemma {:induction false} CommaCutLoose(t: string, u: string, obj: Object, obj': Object, i: nat, q: nat, a: nat,
      y: nat, cm: bool)
    requires IsObject(t, obj) && i < |obj.fields| && obj.fields[i].keyStart == q && q < y == a + 1 < obj.span.end <= |t|
    requires
      && ReadBody(t, y) == Body(obj.fields[i + 1..], obj.span.end - 1, cm) && u == Splice(t, q, "", y)
      && Loose(t, obj.fields)
    requires IsObject(u, obj') && obj'.span.start == obj.span.start
    ensures Loose(u, obj'.fields)
  {
    var rest, n := obj.fields[i + 1..], obj.span.end;
    var cl: nat := n - 1;
    var cl': nat := cl - (y - q);
    SpliceSame(t, u, q, "", y, q);
    SamePart(t, u, y, |t|, q, y, n, q);
    var gs := BodyFrame(t, u, y, rest, cl, cm, q, cl');
    BodyLoose(t, u, y, rest, cl, cm, q, cl', gs);
    LooseAround(t, u, obj, obj', i, q);
  }

  lemma {:induction false} LastCutLoose(t: string, u: string, obj: Object, obj': Object, m: nat, f: Field, q: nat,
      a: nat, e: nat, cl: nat)
    requires IsObject(t, obj) && |obj.fields| == m + 2 && obj.fields[m] == f && f.keyStart == q && Loose(t, obj.fields)
    requires CharAt(t, q, '"') && ReadField(t, q) == Head(f, a) && CharAt(t, a, ',') && obj.fields[m + 1].value.end == e
    requires
      && q < a < e <= cl < |t| && cl + 1 == obj.span.end && Skip(t, e) == At(cl) && CharAt(t, cl, '}')
      && u == Splice(t, a, "", e)
    requires IsObject(u, obj') && obj'.span.start == obj.span.start
    ensures Loose(u, obj'.fields)
  {
    var cl': nat := cl - (e - a);
    SpliceSame(t, u, a, "", e, a);
    SamePart(t, u, 0, a, 0, q, a, q);
    SamePart(t, u, 0, a, 0, 0, q, 0);
    SamePart(t, u, e, |t|, a, e, cl + 1, a);
    AfterValue(t, obj, m + 1);
    DropNext(t, u, q, f, a, e, cl, cl');
    var k := FieldParts(t, q, f, a);
    SameChar(t, u, e, |t|, a, e, a);
    if f.value.end < a {
      SameChar(t, u, 0, a, 0, f.value.end, f.value.end);
    }
    assert Loose(u, [f]);
    LooseAround(t, u, obj, obj', m, q);
  }

  lemma {:induction false} InsertKeepsLoose(t: string, u: string, obj: Object, obj': Object, key: string, v: string)
    requires
      && IsObject(t, obj) && Loose(t, obj.fields) && InsertSafe(t, obj) && IsValue(v)
      && InsertField(t, obj, key, v) == Ok(u)
    requires IsObject(u, obj') && obj'.span.start == obj.span.start
    ensures Loose(u, obj'.fields)
  {
    var at := InsertionAt(t, obj);
    var o, g, a := InsertPlaces(t, obj, key, v, at, u);
    OneObject(u, o, obj');
    var w := InsertionPlaced(t, obj, key, v, at, u);
    WrittenReads(u, key, v, w);
    AddedLoose(u, key, v, w, g);
    OldLoose(t, u, obj, at);
    LooseJoin(u, obj.fields, [g]);
  }

  lemma {:induction false} AddedLoose(u: string, key: string, v: string, w: Parts, g: Field)
    requires Written(u, key, v, w) && g.value.end == w.e
    ensures Loose(u, [g])
  {
  }

  lemma {:induction false} OldLoose(t: string, u: string, obj: Object, at: nat)
    requires IsObject(t, obj) && Loose(t, obj.fields) && Same(t, u, 0, at, 0)
    requires obj.fields != [] ==> After(t, obj, |obj.fields| - 1) == At(at) && CharAt(u, at, ',')
    ensures Loose(u, obj.fields)
  {
    forall j | 0 <= j < |obj.fields| ensures !CharAt(u, obj.fields[j].value.end, '/') {
      BeforeLast(t, obj, j, at);
      if obj.fields[j].value.end < at {
        SameChar(t, u, 0, at, 0, obj.fields[j].value.end, obj.fields[j].value.end);
      }
    }
  }

  // ---- Plain white space is kept ----------------------------------------------------

  lemma {:induction false} PlainJoin(x: string, y: string)
    requires PlainSpace(x) && PlainSpace(y)
    ensures PlainSpace(x + y)
  {
  }

  lemma {:induction false} PlainSplice(t: string, i: nat, x: string, j: nat)
    requires i <= j <= |t| && PlainSpace(t) && PlainSpace(x)
    ensures PlainSpace(Splice(t, i, x, j))
  {
    PlainJoin(t[..i], x);
    PlainJoin(t[..i] + x, t[j..]);
  }

  lemma {:induction false} PlainEscape(key: string)
    requires PlainSpace(key)
    ensures PlainSpace(Escape(key))
  {
    if key != "" {
      var rest := key[1..];
      assert forall k :: 0 <= k < |rest| ==> rest[k] == key[k + 1];
      PlainEscape(rest);
      PlainChar(key[0]);
      PlainJoin(EscapeChar(key[0]), Escape(rest));
    }
  }

  lemma {:induction false} PlainChar(c: char)
    requires IsWhitespace(c) ==> IsBlank(c)
    ensures PlainSpace(EscapeChar(c))
  {
    var e := EscapeChar(c);
    if |e| == 6 {
      HexIsPlain(c as nat / 16);
      HexIsPlain(c as nat % 16);
      forall k | 0 <= k < 6 ensures !IsWhitespace(e[k]) {
        assert e[k] in ['\\', 'u', '0', HexDigit(c as nat / 16), HexDigit(c as nat % 16)];
      }
    } else if |e| == 2 {
      assert e[0] == '\\' && !IsWhitespace(e[0]) && !IsWhitespace(e[1]);
    } else {
      assert e == [c];
    }
  }

  lemma {:induction false} HexIsPlain(n: nat)
    requires n < 16
    ensures !IsWhitespace(HexDigit(n))
  {
    assert '0' <= HexDigit(n) <= 'f';
  }

  lemma {:induction false} PlainInsertion(t: string, obj: Object, key: string, v: string)
    requires IsObject(t, obj) && PlainSpace(t) && PlainSpace(key) && PlainSpace(v)
    ensures PlainSpace(Insertion(t, obj, key, v))
  {
    PlainEscape(key);
    PlainJoin("\"" + Escape(key), "\"");
    var indent := CloseIndent(t, obj);
    var e := v + LastBreak(t, obj);
    PlainJoin(indent, "  ");
    PlainJoin("\n", indent + "  ");
    PlainJoin("\n", indent);
    PlainJoin(v, LastBreak(t, obj));
    var d := (if HasNewline(t, obj) then " " else "") + e;
    PlainJoin(if HasNewline(t, obj) then " " else "", e);
    PlainJoin(":", d);
    PlainJoin(Encode(key), ":" + d);
    PlainJoin(LineBreak(t, obj), Encode(key) + (":" + d));
    PlainJoin(Lead(obj), LineBreak(t, obj) + (Encode(key) + (":" + d)));
  }

  // ---- One edit, and runs of edits ----------------------------------------------------

  /** An edit that brings in no unusual white space. */
  ghost predicate PlainEdit(key: string, value: Option<string>) {
    PlainSpace(key) && IsNewValue(value) && (value.Some? ==> PlainSpace(value.value))
  }

  lemma {:induction false} EditKeepsPlain(t: string, obj: Object, key: string, value: Option<string>, u: string)
    requires IsObject(t, obj) && PlainSpace(t) && PlainEdit(key, value) && EditMember(t, obj, key, value) == Ok(u)
    ensures PlainSpace(u)
  {
    match (Find(obj.fields, key), value) {
      case (Some(i), Some(v)) =>
        ValueStops(t, obj, i);
        PlainSplice(t, obj.fields[i].value.start, v, obj.fields[i].value.end);
      case (Some(i), None) =>
        RemovedSpanFits(t, obj, i);
        var span := RemovedSpan(t, obj, i).value;
        PlainSplice(t, span.start, "", span.end);
      case (None, Some(v)) =>
        var at := InsertionAt(t, obj);
        PlainInsertion(t, obj, key, v);
        PlainSplice(t, at, Insertion(t, obj, key, v), at);
      case (None, None) =>
    }
  }

  lemma {:induction false} EditKeepsLoose(t: string, obj: Object, key: string, value: Option<string>, u: string,
      obj': Object)
    requires IsObject(t, obj) && Tidy(t, obj) && IsNewValue(value) && EditMember(t, obj, key, value) == Ok(u)
    requires IsObject(u, obj') && obj'.span.start == obj.span.start
    ensures Loose(u, obj'.fields)
  {
    TidySafe(t, obj, key, value);
    match (Find(obj.fields, key), value) {
      case (Some(i), Some(v)) =>
        ValueStops(t, obj, i);
        ReplaceValueLoose(t, obj, i, v, u, obj');
      case (Some(i), None) =>
        RemoveKeepsLoose(t, u, obj, obj', i);
      case (None, Some(v)) =>
        InsertKeepsLoose(t, u, obj, obj', key, v);
      case (None, None) =>
        OneObject(t, obj, obj');
    }
  }

  lemma {:induction false} ReplaceValueLoose(t: string, obj: Object, i: nat, v: string, u: string, obj': Object)
    requires IsObject(t, obj) && i < |obj.fields| && Loose(t, obj.fields) && IsValue(v)
    requires obj.fields[i].value.start <= obj.fields[i].value.end <= |t|
    requires u == Splice(t, obj.fields[i].value.start, v, obj.fields[i].value.end)
    requires IsObject(u, obj') && obj'.span.start == obj.span.start
    ensures Loose(u, obj'.fields)
  {
    var s, e := obj.fields[i].value.start, obj.fields[i].value.end;
    var e' := s + |v|;
    AfterValue(t, obj, i);
    SpliceSame(t, u, s, v, e, e');
    SameChar(t, u, e, |t|, e', e, e');
    RawFrame(v, u, 0, |v|, s, e');
    SameChar(v, u, 0, |v|, s, 0, s);
    ReplaceKeepsLoose(t, u, obj, obj', i, s, e, e');
  }

  /** One edit of a tidy document does what it should and leaves a tidy document. */
  lemma {:induction false} TidyStep(t: string, root: Object, parents: seq<string>, parent: Object, key: string,
      value: Option<string>)
      returns (u: string, root': Object, parent': Object)
    requires Found(t, root, parents, parent) && Tidy(t, parent) && PlainEdit(key, value)
    ensures SetPath(t, parents + [key], value) == Ok(u)
    ensures Found(u, root', parents, parent') && Tidy(u, parent')
    ensures Content(u, parent'.fields) == Apply(Content(t, parent.fields), key, value)
  {
    TidySafe(t, parent, key, value);
    SetPathEdits(t, root, parents, parent, key, value);
    root' := SafeEdit(t, root, parents, parent, key, value);
    u := EditMember(t, parent, key, value).value;
    var members := Apply(Content(t, parent.fields), key, value);
    parent' := LiftedFound(t, u, root, root', parents, parent, members);
    FoundAgain(t, u, root, root', parents, parent, parent', members);
    EditKeepsPlain(t, parent, key, value, u);
    EditKeepsLoose(t, parent, key, value, u, parent');
  }

  datatype Edit = Edit(key: string, value: Option<string>)

  /** A run of edits of one object, each made on the text the last one left. */
  function EditAll(t: string, parents: seq<string>, edits: seq<Edit>): Result<string>
    decreases |edits|
  {
    if edits == [] then Ok(t)
    else
      var u :- SetPath(t, parents + [edits[0].key], edits[0].value);
      EditAll(u, parents, edits[1..])
  }

  /** The same run on the list of members. */
  function ApplyAll(members: seq<Member>, edits: seq<Edit>): seq<Member>
    decreases |edits|
  {
    if edits == [] then members else ApplyAll(Apply(members, edits[0].key, edits[0].value), edits[1..])
  }

  /** Every run of plain edits of an object of a tidy document succeeds, and reading
      the final text again gives what the edits make of the list of members. */
  lemma {:induction false} RunLaw(t: string, root: Object, parents: seq<string>, parent: Object, edits: seq<Edit>)
    requires Found(t, root, parents, parent) && Tidy(t, parent)
    requires forall i :: 0 <= i < |edits| ==> PlainEdit(edits[i].key, edits[i].value)
    ensures EditAll(t, parents, edits).Ok?
    ensures Holds(EditAll(t, parents, edits).value, parents, ApplyAll(Content(t, parent.fields), edits))
    decreases |edits|
  {
    if edits != [] {
      var u, root', parent' := TidyStep(t, root, parents, parent, edits[0].key, edits[0].value);
      RunLaw(u, root', parents, parent', edits[1..]);
    }
  }
}
