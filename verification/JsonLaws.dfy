/** What an object holds after one of its members was set or removed. */
module JsonLaws {
  import opened Basics
  import opened JsonScan
  import opened JsonFrame
  import opened JsonString
  import opened JsonObject
  import opened JsonSplice
  import opened JsonEdit
  import opened JsonSlash

  /** The text of exactly one value, with nothing around it. No JSON value starts
      with a slash. */
  predicate IsValue(v: string) {
    |v| > 0 && v[0] != '/' && !IsBlank(v[0]) && RawEnd(v, 0) == At(|v|)
  }

  /** `u` is `t` with the object `obj` rewritten to hold `members`: it starts where
      it did, and the text before and after it is untouched. */
  ghost predicate Rewritten(t: string, u: string, obj: Object, obj': Object, members: seq<Member>) {
    && IsObject(u, obj') && obj'.span.start == obj.span.start && Content(u, obj'.fields) == members
    && Same(t, u, 0, obj.span.start + 1, 0)
    && Same(t, u, obj.span.end, |t|, obj'.span.end) && |u| - obj'.span.end == |t| - obj.span.end
  }

  lemma {:induction false} SpliceSame(t: string, u: string, i: nat, x: string, j: nat, n: nat)
    requires i <= j <= |t| && u == Splice(t, i, x, j) && n == i + |x|
    ensures Same(t, u, 0, i, 0) && Same(t, u, j, |t|, n) && |u| - n == |t| - j
    ensures Same(x, u, 0, |x|, i)
  {
  }

  /** Members kept in front, and whatever is now read where member `i` stood. */
  lemma {:induction false} Assemble(t: string, u: string, obj: Object, i: nat, q: nat, gs: seq<Field>, cl': nat,
      cm: bool, n': nat) returns (obj': Object)
    requires IsObject(t, obj) && i < |obj.fields| && obj.fields[i].keyStart == q
    requires Same(t, u, 0, q, 0) && q <= |u| && ReadBody(u, q) == Body(gs, cl', cm)
    requires n' == cl' + 1 && Same(t, u, obj.span.end, |t|, n') && |u| - n' == |t| - obj.span.end
    ensures Rewritten(t, u, obj, obj', Content(t, obj.fields)[..i] + Content(u, gs))
    ensures obj'.fields == obj.fields[..i] + gs && obj'.span.end == n'
    ensures obj'.trailingComma == if i == 0 then cm else gs == [] || cm
  {
    var x, fs, cl := obj.span.start + 1, obj.fields, obj.span.end - 1;
    FieldPlace(t, x, fs, cl, obj.trailingComma, i);
    SamePart(t, u, 0, q, 0, x, q, x);
    SamePart(t, u, 0, q, 0, 0, obj.span.start + 1, 0);
    SameChar(t, u, 0, q, 0, obj.span.start, obj.span.start);
    PrefixKept(t, u, x, fs, cl, obj.trailingComma, i, q);
    KeptContent(t, u, fs, i, gs);
    obj' := MakeObject(u, obj.span.start, x, fs[..i], gs, cl', cm, n');
  }

  lemma {:induction false} KeptContent(t: string, u: string, fs: seq<Field>, i: nat, gs: seq<Field>)
    requires i <= |fs| && Content(u, fs[..i]) == Content(t, fs[..i])
    ensures Content(u, fs[..i] + gs) == Content(t, fs)[..i] + Content(u, gs)
  {
    ContentJoin(u, fs[..i], gs);
    ContentPrefix(t, fs, i);
  }

  lemma {:induction false} MakeObject(t: string, s: nat, x: nat, front: seq<Field>, back: seq<Field>, cl: nat, cm: bool,
      n: nat) returns (obj: Object)
    requires n == cl + 1 && CharAt(t, s, '{') && x == s + 1 && ReadBody(t, x) == Join(front, Body(back, cl, cm))
    ensures IsObject(t, obj) && obj.span == Span(s, n) && obj.fields == front + back
    ensures obj.trailingComma == if front == [] then cm else back == [] || cm
  {
    assert [] + back == back;
    obj := Object(Span(s, n), front + back, if front == [] then cm else back == [] || cm);
  }

  lemma {:induction false} ContentPrefix(t: string, fs: seq<Field>, i: nat)
    requires i <= |fs|
    ensures Content(t, fs)[..i] == Content(t, fs[..i]) && Content(t, fs)[i..] == Content(t, fs[i..])
  {
    assert fs == fs[..i] + fs[i..];
    ContentJoin(t, fs[..i], fs[i..]);
  }

  lemma {:induction false} ItemIsBody(t: string, q: nat)
    requires CharAt(t, q, '"')
    ensures ReadBody(t, q) == ReadItem(t, q)
  {
    assert Skip(t, q) == At(q);
  }

  // ---- Replacing a value -----------------------------------------------------

  /** Another value in the place of the first one. */
  lemma {:induction false} ReplaceHere(t: string, u: string, q: nat, fs: seq<Field>, cl: nat, cm: bool, s: nat, e: nat,
      e': nat, cl': nat)
    returns (gs: seq<Field>)
    requires CharAt(t, q, '"') && ReadItem(t, q) == Body(fs, cl, cm) && fs != [] && fs[0].value == Span(s, e)
    requires q < s && Same(t, u, q, s, q) && s < |u| && Stops(u, s) && RawEnd(u, s) == At(e')
    requires e <= cl < |t| && Same(t, u, e, cl + 1, e') && Aligned(e, cl, e', cl')
    ensures ReadBody(u, q) == Body(gs, cl', cm) && gs != [] && gs[0] == Field(fs[0].key, q, Span(s, e'))
    ensures Content(u, gs) == [Member(fs[0].key, Slice(u, Span(s, e')))] + Content(t, fs[1..])
  {
    var f := fs[0];
    var a, y, cm' := ItemTail(t, q, fs, cl, cm);
    var k := FieldParts(t, q, f, a);
    var a': nat := a + (e' - e);
    var y' := a' + 1;
    var g := Field(f.key, q, Span(s, e'));
    SamePart(t, u, e, cl + 1, e', e, a + 1, e');
    SkipToChar(t, u, e, a, e', a');
    SameChar(t, u, q, s, q, q, q);
    HeadAt(t, u, q, f, a, q, s, e', a');
    ItemIsBody(u, q);
    if t[a] == '}' {
      ItemLast(u, q, g, a');
      gs := [g];
    } else {
      SamePart(t, u, e, cl + 1, e', y, cl + 1, y');
      var rest := BodyFrame(t, u, y, fs[1..], cl, cm', y', cl');
      ItemMore(u, q, g, a', y', rest, cl', cm');
      gs := [g] + rest;
      ContentCons(u, g, rest);
    }
  }

  /** A value replaced by any text that reads as one value: the members are the
      same, in the same order, but for that value. */
  lemma {:induction false} SubstituteValue(t: string, u: string, obj: Object, i: nat, s: nat, e: nat,
      e': nat) returns (obj': Object)
    requires IsObject(t, obj) && i < |obj.fields| && obj.fields[i].value == Span(s, e)
    requires s <= e <= |t| && Same(t, u, 0, s, 0) && Same(t, u, e, |t|, e') && |u| - e' == |t| - e
    requires s < |u| && Stops(u, s) && RawEnd(u, s) == At(e')
    ensures Rewritten(t, u, obj, obj', Content(t, obj.fields)[i := Member(obj.fields[i].key, Slice(u, Span(s, e')))])
    ensures |obj'.fields| == |obj.fields| && obj'.fields[..i] == obj.fields[..i]
    ensures obj'.fields[i] == Field(obj.fields[i].key, obj.fields[i].keyStart, Span(s, e'))
  {
    var q, a, y, cm := MemberTail(t, obj, i);
    var k := FieldParts(t, q, obj.fields[i], a);
    var cl := obj.span.end - 1;
    var cl': nat := cl + (e' - e);
    obj' := SubstituteAt(t, u, obj, obj.fields, i, q, s, e, e', cl, cl', cl' + 1);
  }

  lemma {:induction false} SubstituteAt(t: string, u: string, obj: Object, fs: seq<Field>, i: nat, q: nat, s: nat,
      e: nat, e': nat, cl: nat, cl': nat, n': nat)
    returns (obj': Object)
    requires IsObject(t, obj) && fs == obj.fields && i < |fs| && fs[i].value == Span(s, e) && fs[i].keyStart == q
    requires
      && CharAt(t, q, '"') && ReadItem(t, q) == Body(fs[i..], cl, obj.trailingComma) && cl + 1 == obj.span.end <= |t|
    requires q < s <= e <= cl && Same(t, u, 0, s, 0) && Same(t, u, e, |t|, e') && |u| - e' == |t| - e
    requires s < |u| && Stops(u, s) && RawEnd(u, s) == At(e') && Aligned(e, cl, e', cl') && n' == cl' + 1
    ensures Rewritten(t, u, obj, obj', Content(t, fs)[i := Member(fs[i].key, Slice(u, Span(s, e')))])
    ensures |obj'.fields| == |fs| && obj'.fields[..i] == fs[..i] && obj'.fields[i] == Field(fs[i].key, q, Span(s, e'))
  {
    SamePart(t, u, 0, s, 0, q, s, q);
    SamePart(t, u, 0, s, 0, 0, q, 0);
    SamePart(t, u, e, |t|, e', e, cl + 1, e');
    SamePart(t, u, e, |t|, e', obj.span.end, |t|, n');
    var gs := ReplaceHere(t, u, q, fs[i..], cl, obj.trailingComma, s, e, e', cl');
    obj' := Assemble(t, u, obj, i, q, gs, cl', obj.trailingComma, n');
    ReplacedContent(t, u, fs, i, gs, Member(fs[i].key, Slice(u, Span(s, e'))));
  }

  lemma {:induction false} ReplacedContent(t: string, u: string, fs: seq<Field>, i: nat, gs: seq<Field>, m: Member)
    requires i < |fs| && Content(u, gs) == [m] + Content(t, fs[i..][1..])
    ensures Content(t, fs)[..i] + Content(u, gs) == Content(t, fs)[i := m]
    ensures |gs| == |fs| - i
  {
    assert fs[i..][1..] == fs[i + 1..];
    ContentPrefix(t, fs, i + 1);
  }

  /** A value is followed by a delimiter or directly by a comment. */
  lemma {:induction false} AfterValue(t: string, obj: Object, i: nat)
    requires IsObject(t, obj) && i < |obj.fields|
    ensures obj.fields[i].value.end < |t|
    ensures IsDelimiter(t[obj.fields[i].value.end]) || t[obj.fields[i].value.end] == '/'
    ensures After(t, obj, i) == At(obj.fields[i].value.end) ==> IsDelimiter(t[obj.fields[i].value.end])
  {
    var q, a, y, cm := MemberTail(t, obj, i);
    var k := FieldParts(t, q, obj.fields[i], a);
  }

  /** A scalar must not land right in front of a comment. */
  predicate ReplaceSafe(t: string, obj: Object, i: nat, v: string)
    requires i < |obj.fields|
  {
    v != "" && !SelfDelimited(v[0]) ==> !CharAt(t, obj.fields[i].value.end, '/')
  }

  lemma {:induction false} ReplaceHolds(t: string, obj: Object, i: nat, v: string) returns (obj': Object)
    requires IsObject(t, obj) && i < |obj.fields| && obj.fields[i].value.end <= |t| && IsValue(v)
    requires obj.fields[i].value.start <= obj.fields[i].value.end && ReplaceSafe(t, obj, i, v)
    ensures Rewritten(t, Splice(t, obj.fields[i].value.start, v, obj.fields[i].value.end), obj, obj',
                      Content(t, obj.fields)[i := Member(obj.fields[i].key, v)])
  {
    var s, e := obj.fields[i].value.start, obj.fields[i].value.end;
    var u := Splice(t, s, v, e);
    var e' := s + |v|;
    AfterValue(t, obj, i);
    SpliceSame(t, u, s, v, e, e');
    SameChar(t, u, e, |t|, e', e, e');
    RawFrame(v, u, 0, |v|, s, e');
    SliceSame(v, u, 0, |v|, s, e');
    obj' := SubstituteValue(t, u, obj, i, s, e, e');
  }

  // ---- Removing a member -----------------------------------------------------

  /** Cutting out the last member puts a comment right behind the scalar before it. */
  predicate MeetsComment(t: string, obj: Object, i: nat)
    requires IsObject(t, obj) && i < |obj.fields|
  {
    && i > 0 && i + 1 == |obj.fields| && !obj.trailingComma
    && After(t, obj, i - 1) == At(obj.fields[i - 1].value.end)
    && obj.fields[i - 1].value.start < |t| && !SelfDelimited(t[obj.fields[i - 1].value.start])
    && CharAt(t, obj.fields[i].value.end, '/')
  }

  /** Where the object then ends if the scalar is a bare slash that is read again
      behind the line comment it now opens. */
  function StrayEnd(t: string, obj: Object, i: nat): (r: Scan)
    requires IsObject(t, obj) && i < |obj.fields|
  {
    if MeetsComment(t, obj, i) then SlashEnd(t, obj.fields[i - 1].value, obj.fields[i].value.end + 1)
    else Bad(Malformed)
  }

  /** No scalar lands in front of a comment, or it is a bare slash and the object
      is still closed by its own brace. */
  predicate RemoveSafe(t: string, obj: Object, i: nat)
    requires IsObject(t, obj) && i < |obj.fields|
  {
    MeetsComment(t, obj, i) ==> StrayEnd(t, obj, i) == At(obj.span.end)
  }

  function Without<T>(xs: seq<T>, i: nat): seq<T>
    requires i < |xs|
  {
    xs[..i] + xs[i + 1..]
  }

  /** The text after a removal, in each of the three ways it is done. */
  lemma {:induction false} RemovedText(t: string, obj: Object, i: nat, q: nat, a: nat, y: nat)
    requires
      && IsObject(t, obj) && i < |obj.fields| && obj.fields[i].keyStart == q && After(t, obj, i) == At(a) && y == a + 1
    ensures q <= obj.fields[i].value.end < y <= |t|
    ensures i + 1 < |obj.fields| || obj.trailingComma ==> RemoveField(t, obj, i) == Ok(Splice(t, q, "", y))
    ensures !(i + 1 < |obj.fields| || obj.trailingComma) && i == 0 ==>
      RemoveField(t, obj, i) == Ok(Splice(t, q, "", obj.fields[i].value.end))
    ensures !(i + 1 < |obj.fields| || obj.trailingComma) && i > 0 ==>
      After(t, obj, i - 1).At? && After(t, obj, i - 1).pos < q
      && RemoveField(t, obj, i) == Ok(Splice(t, After(t, obj, i - 1).pos, "", obj.fields[i].value.end))
  {
    var p, a0 := RemovedSpanIs(t, obj, i);
    if !(i + 1 < |obj.fields| || obj.trailingComma) && i > 0 {
      var q0, b, y0, cm := MemberTail(t, obj, i - 1);
      FieldPlace(t, y0, obj.fields[i..], obj.span.end - 1, cm, 0);
    }
  }

  lemma {:induction false} RemoveWithComma(t: string, obj: Object, i: nat) returns (obj': Object)
    requires IsObject(t, obj) && i < |obj.fields| && (i + 1 < |obj.fields| || obj.trailingComma)
    ensures RemoveField(t, obj, i).Ok?
    ensures Rewritten(t, RemoveField(t, obj, i).value, obj, obj', Without(Content(t, obj.fields), i))
  {
    var q, a, y, cm := MemberTail(t, obj, i);
    RemovedText(t, obj, i, q, a, y);
    obj' := CutToComma(t, Splice(t, q, "", y), obj, i, q, a, y, cm);
  }

  lemma {:induction false} CutToComma(t: string, u: string, obj: Object, i: nat, q: nat, a: nat, y: nat,
      cm: bool) returns (obj': Object)
    requires IsObject(t, obj) && i < |obj.fields| && obj.fields[i].keyStart == q && q < y == a + 1 < obj.span.end <= |t|
    requires ReadBody(t, y) == Body(obj.fields[i + 1..], obj.span.end - 1, cm) && u == Splice(t, q, "", y)
    ensures Rewritten(t, u, obj, obj', Without(Content(t, obj.fields), i))
  {
    var rest, n := obj.fields[i + 1..], obj.span.end;
    var cl: nat := n - 1;
    var n': nat := n - (y - q);
    var cl': nat := n' - 1;
    SpliceSame(t, u, q, "", y, q);
    SamePart(t, u, y, |t|, q, y, n, q);
    SamePart(t, u, y, |t|, q, n, |t|, n');
    var gs := BodyFrame(t, u, y, rest, cl, cm, q, cl');
    obj' := Assemble(t, u, obj, i, q, gs, cl', cm, n');
    WithoutContent(t, u, obj.fields, i, gs);
  }

  lemma {:induction false} WithoutContent(t: string, u: string, fs: seq<Field>, i: nat, gs: seq<Field>)
    requires i < |fs| && Content(u, gs) == Content(t, fs[i + 1..])
    ensures Content(t, fs)[..i] + Content(u, gs) == Without(Content(t, fs), i)
  {
    ContentPrefix(t, fs, i + 1);
  }

  lemma {:induction false} RemoveOnly(t: string, obj: Object) returns (obj': Object)
    requires IsObject(t, obj) && |obj.fields| == 1 && !obj.trailingComma
    ensures RemoveField(t, obj, 0).Ok?
    ensures Rewritten(t, RemoveField(t, obj, 0).value, obj, obj', [])
  {
    var e, cl := obj.fields[0].value.end, obj.span.end - 1;
    var q, a, y, cm := MemberTail(t, obj, 0);
    RemovedText(t, obj, 0, q, a, y);
    var u := Splice(t, q, "", e);
    var cl': nat := cl - (e - q);
    var n' := cl' + 1;
    SpliceSame(t, u, q, "", e, q);
    SamePart(t, u, e, |t|, q, e, cl + 1, q);
    SamePart(t, u, e, |t|, q, obj.span.end, |t|, n');
    SkipToChar(t, u, e, cl, q, cl');
    EmptyBody(u, q, cl');
    obj' := Assemble(t, u, obj, 0, q, [], cl', false, n');
  }

  /** The member before the removed last one now ends the object. */
  lemma {:induction false} DropNext(t: string, u: string, q: nat, f: Field, a: nat, e: nat, cl: nat, cl': nat)
    requires CharAt(t, q, '"') && ReadField(t, q) == Head(f, a) && CharAt(t, a, ',')
    requires Same(t, u, q, a, q) && e <= cl < |t| && Skip(t, e) == At(cl) && CharAt(t, cl, '}')
    requires Same(t, u, e, cl + 1, a) && Aligned(e, cl, a, cl')
    requires SelfDelimited(t[f.value.start]) || f.value.end < a || IsDelimiter(t[e])
    ensures ReadBody(u, q) == Body([f], cl', false) && Slice(u, f.value) == Slice(t, f.value)
  {
    var s, v := f.value.start, f.value.end;
    var k := FieldParts(t, q, f, a);
    SamePart(t, u, q, a, q, s, v, s);
    SamePart(t, u, q, a, q, q, s, q);
    SamePart(t, u, q, a, q, v, a, v);
    SkipJoin(t, u, v, a);
    SkipToChar(t, u, e, cl, a, cl');
    if v < a {
      SamePart(t, u, q, a, q, s, v + 1, s);
      AfterRaw(t, u, s, v, s, v);
    } else {
      SameChar(t, u, e, cl + 1, a, e, a);
    }
    RawFrame(t, u, s, v, s, v);
    HeadAt(t, u, q, f, a, q, s, v, cl');
    SliceSame(t, u, s, v, s, v);
    SameChar(t, u, q, a, q, q, q);
    ItemIsBody(u, q);
    ItemLast(u, q, f, cl');
  }

  /** What stands around a last member `i`: the member `f` before it, from `q` to the
      comma at `a`; its own end `e`; and the closing brace. */
  ghost predicate LastPlaces(t: string, obj: Object, i: nat, f: Field, q: nat, a: nat, e: nat, cl: nat) {
    && 0 < i < |obj.fields| == i + 1 && obj.fields[i - 1] == f && f.keyStart == q < a < e <= cl < |t|
    && CharAt(t, q, '"') && ReadField(t, q) == Head(f, a) && CharAt(t, a, ',') && f.value.start < |t|
    && Skip(t, e) == At(cl) && CharAt(t, cl, '}') && cl + 1 == obj.span.end && (IsDelimiter(t[e]) || t[e] == '/')
  }

  lemma {:induction false} LastCut(t: string, obj: Object, i: nat) returns (q: nat, a: nat, e: nat, cl: nat)
    requires IsObject(t, obj) && 0 < i < |obj.fields| == i + 1 && !obj.trailingComma
    ensures LastPlaces(t, obj, i, obj.fields[i - 1], q, a, e, cl)
    ensures After(t, obj, i - 1) == At(a) && obj.fields[i].value.end == e
    ensures RemoveField(t, obj, i) == Ok(Splice(t, a, "", e))
  {
    var q1, y1, cm1, y, cm;
    q1, cl, y1, cm1 := MemberTail(t, obj, i);
    q, a, y, cm := MemberTail(t, obj, i - 1);
    e := obj.fields[i].value.end;
    RemovedText(t, obj, i, q1, cl, y1);
    AfterValue(t, obj, i);
    var k := FieldParts(t, q1, obj.fields[i], cl);
  }

  predicate Meets(t: string, f: Field, a: nat, e: nat) {
    f.value.end == a && f.value.start < |t| && !SelfDelimited(t[f.value.start]) && CharAt(t, e, '/')
  }

  lemma {:induction false} MeetsIs(t: string, obj: Object, i: nat, f: Field, a: nat, e: nat)
    requires IsObject(t, obj) && 0 < i < |obj.fields| == i + 1 && obj.fields[i - 1] == f && !obj.trailingComma
    requires After(t, obj, i - 1) == At(a) && obj.fields[i].value.end == e < |t|
    ensures MeetsComment(t, obj, i) <==> Meets(t, f, a, e)
    ensures MeetsComment(t, obj, i) ==> StrayEnd(t, obj, i) == SlashEnd(t, f.value, e + 1)
  {
  }

  lemma {:induction false} RemoveLast(t: string, obj: Object, i: nat) returns (obj': Object)
    requires IsObject(t, obj) && 0 < i < |obj.fields| == i + 1 && !obj.trailingComma && RemoveSafe(t, obj, i)
    ensures RemoveField(t, obj, i).Ok?
    ensures Rewritten(t, RemoveField(t, obj, i).value, obj, obj', Without(Content(t, obj.fields), i))
  {
    var f, e := obj.fields[i - 1], obj.fields[i].value.end;
    var a := SafeMeets(t, obj, i, f, e, e + 1);
    obj' := CutHolds(t, obj, i, f, a, e, e + 1);
  }

  lemma {:induction false} SafeMeets(t: string, obj: Object, i: nat, f: Field, e: nat, p: nat) returns (a: nat)
    requires IsObject(t, obj) && 0 < i < |obj.fields| == i + 1 && !obj.trailingComma && RemoveSafe(t, obj, i)
    requires obj.fields[i - 1] == f && obj.fields[i].value.end == e && p == e + 1
    ensures After(t, obj, i - 1) == At(a) && e < |t|
    ensures Meets(t, f, a, e) ==> SlashEnd(t, f.value, p) == At(obj.span.end)
  {
    var q, y, cm;
    q, a, y, cm := MemberTail(t, obj, i - 1);
    AfterValue(t, obj, i);
    MeetsIs(t, obj, i, f, a, e);
  }

  lemma {:induction false} CutHolds(t: string, obj: Object, i: nat, f: Field, a: nat, e: nat,
      p: nat) returns (obj': Object)
    requires IsObject(t, obj) && 0 < i < |obj.fields| == i + 1 && !obj.trailingComma && obj.fields[i - 1] == f
    requires After(t, obj, i - 1) == At(a) && obj.fields[i].value.end == e < |t| && p == e + 1
    requires Meets(t, f, a, e) ==> SlashEnd(t, f.value, p) == At(obj.span.end)
    ensures RemoveField(t, obj, i).Ok?
    ensures Rewritten(t, RemoveField(t, obj, i).value, obj, obj', Without(Content(t, obj.fields), i))
  {
    var q, a1, e1, cl := LastCut(t, obj, i);
    obj' := SafeCut(t, Splice(t, a, "", e), obj, i, f, q, a, e, p, cl);
  }

  lemma {:induction false} SafeCut(t: string, u: string, obj: Object, i: nat, f: Field, q: nat, a: nat, e: nat, p: nat,
      cl: nat) returns (obj': Object)
    requires IsObject(t, obj) && LastPlaces(t, obj, i, f, q, a, e, cl) && u == Splice(t, a, "", e) && p == e + 1
    requires Meets(t, f, a, e) ==> SlashEnd(t, f.value, p) == At(obj.span.end)
    ensures Rewritten(t, u, obj, obj', Without(Content(t, obj.fields), i))
  {
    if Meets(t, f, a, e) {
      obj' := CutSlash(t, u, obj, i - 1, f, q, a, e, a - 1, p, a + 1, cl + 1);
    } else {
      obj' := CutLast(t, u, obj, i - 1, f, q, a, e, cl);
    }
  }

  /** A bare slash that meets a comment: what is read behind it in the new text. */
  lemma {:induction false} SlashMeets(t: string, u: string, q: nat, f: Field, a: nat, e: nat, s: nat,
      p: nat) returns (k: nat)
    requires CharAt(t, q, '"') && ReadField(t, q) == Head(f, a) && f.value == Span(s, a) && a == s + 1 && p == a + 1
    requires CharAt(t, s, '/') && a < e && CharAt(t, e, '/') && u == Splice(t, a, "", e)
    ensures CharAt(u, q, '"') && k < |u| && ReadField(u, q) == ReadValue(u, q, f.key, k)
    ensures p <= |u| && Skip(u, k + 1) == Skip(u, LineEnd(u, p))
  {
    k := FieldParts(t, q, f, a);
    SlashOpens(t, u, a, e, s);
    SlashSkipped(t, u, q, k, s, f.key);
  }

  lemma {:induction false} SlashOpens(t: string, u: string, a: nat, e: nat, s: nat)
    requires a == s + 1 && CharAt(t, s, '/') && a < e && CharAt(t, e, '/') && u == Splice(t, a, "", e)
    ensures Same(t, u, 0, s, 0) && CommentAt(u, s, '/')
  {
    SpliceSame(t, u, a, "", e, a);
    SameChar(t, u, e, |t|, a, e, a);
    SameChar(t, u, 0, a, 0, s, s);
    SamePart(t, u, 0, a, 0, 0, s, 0);
  }

  lemma {:induction false} CloseMoves(t: string, u: string, a: nat, e: nat, p: nat, p': nat)
    requires a <= e < |t| && u == Splice(t, a, "", e) && p == e + 1 && p' == a + 1
    ensures p' <= |u| && Agrees(SlashClose(t, p), SlashClose(u, p'), e, a)
  {
    SpliceSame(t, u, a, "", e, a);
    MovedOn(t, u, e, a, p, p');
    SlashMoves(t, u, p, p');
  }

  lemma {:induction false} SlashReads(t: string, u: string, q: nat, f: Field, a: nat, e: nat, s: nat, p: nat, p': nat,
      n: nat, n': nat) returns (g: Field, cm: bool)
    requires CharAt(t, q, '"') && ReadField(t, q) == Head(f, a) && f.value == Span(s, a) && a == s + 1
      && CharAt(t, s, '/')
    requires a < e && CharAt(t, e, '/') && u == Splice(t, a, "", e) && p == e + 1 && p' == a + 1
    requires SlashClose(t, p) == At(n) && Aligned(e, n, a, n')
    ensures n' > 0 && q <= |u| && ReadBody(u, q) == Body([g], n' - 1, cm)
    ensures g.key == f.key && Slice(u, g.value) == "/"
  {
    var k := SlashMeets(t, u, q, f, a, e, s, p');
    CloseMoves(t, u, a, e, p, p');
    g, cm := SlashRead(u, q, f.key, k, p', n');
    ItemIsBody(u, q);
  }

  lemma {:induction false} CutSlash(t: string, u: string, obj: Object, m: nat, f: Field, q: nat, a: nat, e: nat, s: nat,
      p: nat, p': nat, n: nat) returns (obj': Object)
    requires IsObject(t, obj) && |obj.fields| == m + 2 && obj.fields[m] == f && f.keyStart == q && n == obj.span.end
    requires CharAt(t, q, '"') && ReadField(t, q) == Head(f, a) && f.value == Span(s, a) && a == s + 1
      && CharAt(t, s, '/')
    requires q < a < e < n <= |t| && CharAt(t, e, '/') && u == Splice(t, a, "", e) && p == e + 1 && p' == a + 1
    requires SlashClose(t, p) == At(n)
    ensures Rewritten(t, u, obj, obj', Without(Content(t, obj.fields), m + 1))
  {
    var n': nat := n - (e - a);
    var g, cm := SlashReads(t, u, q, f, a, e, s, p, p', n, n');
    obj' := SlashPlaced(t, u, obj, m, q, a, e, s, g, n, n', cm);
  }

  lemma {:induction false} SlashPlaced(t: string, u: string, obj: Object, m: nat, q: nat, a: nat, e: nat, s: nat,
      g: Field, n: nat, n': nat, cm: bool) returns (obj': Object)
    requires IsObject(t, obj) && |obj.fields| == m + 2 && obj.fields[m].keyStart == q && n == obj.span.end
    requires obj.fields[m].value == Span(s, a) && obj.fields[m].key == g.key && a == s + 1 && CharAt(t, s, '/')
    requires q < a < e < n <= |t| && u == Splice(t, a, "", e) && Aligned(e, n, a, n')
    requires n' > 0 && q <= |u| && ReadBody(u, q) == Body([g], n' - 1, cm) && Slice(u, g.value) == "/"
    ensures Rewritten(t, u, obj, obj', Without(Content(t, obj.fields), m + 1))
  {
    SpliceSame(t, u, a, "", e, a);
    SamePart(t, u, 0, a, 0, 0, q, 0);
    SamePart(t, u, e, |t|, a, n, |t|, n');
    obj' := Assemble(t, u, obj, m, q, [g], n' - 1, cm, n');
    assert Slice(t, Span(s, a)) == "/";
    LastContent(t, u, obj.fields, m, g);
  }

  lemma {:induction false} CutLast(t: string, u: string, obj: Object, m: nat, f: Field, q: nat, a: nat, e: nat,
      cl: nat) returns (obj': Object)
    requires IsObject(t, obj) && |obj.fields| == m + 2 && obj.fields[m] == f && f.keyStart == q
    requires CharAt(t, q, '"') && ReadField(t, q) == Head(f, a) && CharAt(t, a, ',')
    requires
      && q < a < e <= cl < |t| && cl + 1 == obj.span.end && Skip(t, e) == At(cl) && CharAt(t, cl, '}')
      && u == Splice(t, a, "", e)
    requires SelfDelimited(t[f.value.start]) || f.value.end < a || IsDelimiter(t[e])
    ensures Rewritten(t, u, obj, obj', Without(Content(t, obj.fields), m + 1))
  {
    var cl': nat := cl - (e - a);
    var n' := cl' + 1;
    SpliceSame(t, u, a, "", e, a);
    SamePart(t, u, 0, a, 0, q, a, q);
    SamePart(t, u, 0, a, 0, 0, q, 0);
    SamePart(t, u, e, |t|, a, e, cl + 1, a);
    SamePart(t, u, e, |t|, a, obj.span.end, |t|, n');
    DropNext(t, u, q, f, a, e, cl, cl');
    obj' := Assemble(t, u, obj, m, q, [f], cl', false, n');
    LastContent(t, u, obj.fields, m, f);
  }

  lemma {:induction false} LastContent(t: string, u: string, fs: seq<Field>, m: nat, g: Field)
    requires |fs| == m + 2 && fs[m].key == g.key && Slice(u, g.value) == Slice(t, fs[m].value)
    ensures Content(t, fs)[..m] + Content(u, [g]) == Without(Content(t, fs), m + 1)
  {
    ContentPrefix(t, fs, m);
    ContentAt(t, fs, m);
    ContentCons(u, g, []);
    assert [g] + [] == [g];
  }

  // ---- Adding a member -------------------------------------------------------

  predicate AllBlank(t: string, i: nat, j: nat) {
    i <= j <= |t| && forall k :: i <= k < j ==> IsBlank(t[k])
  }

  lemma {:induction false} SkipBlanks(t: string, i: nat, j: nat)
    requires AllBlank(t, i, j) && j < |t| && Stops(t, j)
    ensures Skip(t, i) == At(j)
    decreases j - i
  {
    if i < j {
      SkipBlanks(t, i + 1, j);
    }
  }

  lemma {:induction false} SplitSame(x: string, y: string, u: string, i: nat, j: nat)
    requires Same(x + y, u, 0, |x + y|, i) && j == i + |x|
    ensures Same(x, u, 0, |x|, i) && Same(y, u, 0, |y|, j)
  {
    forall k | 0 <= k < |x| ensures x[k] == u[k + i] {
      assert x[k] == (x + y)[k];
    }
    forall k | 0 <= k < |y| ensures y[k] == u[k + j] {
      assert y[k] == (x + y)[k + |x|];
    }
  }

  lemma {:induction false} BlankSame(x: string, u: string, i: nat, j: nat)
    requires Same(x, u, 0, |x|, i) && AllBlank(x, 0, |x|) && j == i + |x|
    ensures AllBlank(u, i, j)
  {
    forall k | i <= k < j ensures IsBlank(u[k]) {
      assert u[k] == x[k - i];
    }
  }

  /** The positions of the parts of a new member written at `p0`. */
  datatype Parts = Parts(p: nat, n: nat, k: nat, s: nat, e: nat, a: nat)

  ghost predicate Written(u: string, key: string, v: string, w: Parts) {
    && w.p <= w.n <= w.k < w.s <= w.e <= w.a < |u|
    && AllBlank(u, w.p, w.n) && u[w.n..w.k] == Encode(key) && u[w.k] == ':' && AllBlank(u, w.k + 1, w.s)
    && w.e == w.s + |v| && Same(v, u, 0, |v|, w.s) && AllBlank(u, w.e, w.a)
    && (u[w.a] == ',' || u[w.a] == '}')
  }

  lemma {:induction false} PlaceParts(u: string, at: nat, lead: string, pre: string, key: string, mid: string,
      v: string, post: string) returns (w: Parts)
    requires Same(MemberText(lead, pre, key, mid, v, post), u, 0, |MemberText(lead, pre, key, mid, v, post)|, at)
    requires AllBlank(pre, 0, |pre|) && AllBlank(mid, 0, |mid|) && AllBlank(post, 0, |post|)
    requires var a := at + |MemberText(lead, pre, key, mid, v, post)|; a < |u| && (u[a] == ',' || u[a] == '}')
    ensures Written(u, key, v, w) && w.p == at + |lead| && w.a == at + |MemberText(lead, pre, key, mid, v, post)|
    ensures Same(lead, u, 0, |lead|, at) && w.n == w.p + |pre| && w.a == w.e + |post|
  {
    var t5 := v + post;
    var t4 := mid + t5;
    var t3 := ":" + t4;
    var t2 := Encode(key) + t3;
    var t1 := pre + t2;
    var p := at + |lead|;
    var n := p + |pre|;
    var k := n + |Encode(key)|;
    var m := k + 1;
    var s := m + |mid|;
    var e := s + |v|;
    var a := e + |post|;
    SplitSame(lead, t1, u, at, p);
    SplitSame(pre, t2, u, p, n);
    SplitSame(Encode(key), t3, u, n, k);
    SplitSame(":", t4, u, k, m);
    SplitSame(mid, t5, u, m, s);
    SplitSame(v, post, u, s, e);
    BlankSame(pre, u, p, n);
    BlankSame(mid, u, m, s);
    BlankSame(post, u, e, a);
    SliceSame(Encode(key), u, 0, |Encode(key)|, n, k);
    SameChar(":", u, 0, 1, k, 0, k);
    assert Slice(Encode(key), Span(0, |Encode(key)|)) == Encode(key);
    w := Parts(p, n, k, s, e, a);
  }

  lemma {:induction false} WrittenReads(u: string, key: string, v: string, w: Parts)
    requires Written(u, key, v, w) && IsValue(v)
    ensures Skip(u, w.p) == At(w.n) && CharAt(u, w.n, '"')
    ensures ReadField(u, w.n) == Head(Field(key, w.n, Span(w.s, w.e)), w.a)
    ensures Slice(u, Span(w.s, w.e)) == v
  {
    var n, k, s, e, a := w.n, w.k, w.s, w.e, w.a;
    WrittenName(u, key, n, k);
    SkipBlanks(u, w.p, n);
    WrittenValue(u, v, k, k + 1, s, e, a);
    NamedField(u, n, k, key);
  }

  lemma {:induction false} WrittenName(u: string, key: string, n: nat, k: nat)
    requires n <= k < |u| && u[n..k] == Encode(key) && u[k] == ':'
    ensures CharAt(u, n, '"') && StringEnd(u, n) == At(k) && ColonAfter(u, n) == At(k) && Decode(u[n..k]) == Some(key)
  {
    EncodeIsToken(u, n, key);
    DecodeEncode(key);
    assert Skip(u, k) == At(k);
  }

  lemma {:induction false} WrittenValue(u: string, v: string, k: nat, m: nat, s: nat, e: nat, a: nat)
    requires IsValue(v) && m == k + 1 && AllBlank(u, m, s) && e == s + |v| && Same(v, u, 0, |v|, s) && AllBlank(u, e, a)
    requires a < |u| && (u[a] == ',' || u[a] == '}')
    ensures Skip(u, m) == At(s) && s < |u| && RawEnd(u, s) == At(e) && Skip(u, e) == At(a) && Slice(u, Span(s, e)) == v
  {
    RawFrame(v, u, 0, |v|, s, e);
    SkipBlanks(u, m, s);
    SkipBlanks(u, e, a);
    SliceSame(v, u, 0, |v|, s, e);
  }

  /** The last member, with a comma where its separator used to be. */
  lemma {:induction false} CommaHead(t: string, u: string, q: nat, f: Field, a: nat)
    requires CharAt(t, q, '"') && ReadField(t, q) == Head(f, a) && a < |t| && IsDelimiter(t[a])
    requires Same(t, u, q, a, q) && CharAt(u, a, ',')
    ensures CharAt(u, q, '"') && ReadField(u, q) == Head(f, a) && Slice(u, f.value) == Slice(t, f.value)
  {
    var s, v := f.value.start, f.value.end;
    var k := FieldParts(t, q, f, a);
    SamePart(t, u, q, a, q, s, v, s);
    SamePart(t, u, q, a, q, q, s, q);
    SamePart(t, u, q, a, q, v, a, v);
    if v < a {
      SamePart(t, u, q, a, q, s, v + 1, s);
      AfterRaw(t, u, s, v, s, v);
    }
    RawFrame(t, u, s, v, s, v);
    SkipFrame(t, u, v, a, v, a);
    HeadAt(t, u, q, f, a, q, s, v, a);
    SliceSame(t, u, s, v, s, v);
    SameChar(t, u, q, a, q, q, q);
  }

  lemma {:induction false} CommaHere(t: string, u: string, q: nat, f: Field, a: nat, y: nat, gs: seq<Field>, cl': nat,
      cm: bool)
    requires CharAt(t, q, '"') && ReadField(t, q) == Head(f, a) && a < |t| && IsDelimiter(t[a])
    requires Same(t, u, q, a, q) && CharAt(u, a, ',') && y == a + 1 && ReadBody(u, y) == Body(gs, cl', cm)
    ensures ReadBody(u, q) == Body([f] + gs, cl', gs == [] || cm) && Slice(u, f.value) == Slice(t, f.value)
  {
    CommaHead(t, u, q, f, a);
    ItemIsBody(u, q);
    ItemMore(u, q, f, a, y, gs, cl', cm);
  }

  /** A new line may only be indented with characters the scanner skips. */
  predicate InsertSafe(t: string, obj: Object)
    requires IsObject(t, obj)
  {
    HasNewline(t, obj) ==> AllBlank(CloseIndent(t, obj), 0, |CloseIndent(t, obj)|)
  }

  lemma {:induction false} InsertionAt(t: string, obj: Object) returns (at: nat)
    requires IsObject(t, obj)
    ensures InsertionPoint(t, obj) == Ok(at) && obj.span.start < at < obj.span.end <= |t|
    ensures !obj.trailingComma ==> at == obj.span.end - 1 && t[at] == '}'
    ensures obj.trailingComma ==> obj.fields != [] && t[at] == ','
    ensures obj.fields != [] ==> After(t, obj, |obj.fields| - 1) == At(at)
  {
    if obj.fields == [] {
      at := obj.span.end - 1;
      var c := BodyStart(t, obj.span.start + 1, [], at, obj.trailingComma);
    } else {
      var q, a, y, cm := MemberTail(t, obj, |obj.fields| - 1);
      at := a;
    }
  }

  /** The new text and where its parts are. */
  lemma {:induction false} InsertionPlaced(t: string, obj: Object, key: string, v: string, at: nat,
      u: string) returns (w: Parts)
    requires IsObject(t, obj) && InsertSafe(t, obj) && at < |t| && (t[at] == ',' || t[at] == '}')
    requires u == Splice(t, at, Insertion(t, obj, key, v), at)
    ensures Written(u, key, v, w) && w.p == at + |Lead(obj)|
    ensures obj.fields != [] ==> CharAt(u, at, ',')
    ensures w.a == at + |Insertion(t, obj, key, v)| && Same(t, u, 0, at, 0)
    ensures Same(t, u, at, |t|, w.a) && |u| - w.a == |t| - at
    ensures w.n == w.p + |LineBreak(t, obj)| && w.a == w.e + |LastBreak(t, obj)|
  {
    BreaksBlank(t, obj);
    var space := if HasNewline(t, obj) then " " else "";
    w := PlacedAt(t, u, at, Lead(obj), LineBreak(t, obj), key, space, v, LastBreak(t, obj));
  }

  lemma {:induction false} PlacedAt(t: string, u: string, at: nat, lead: string, pre: string, key: string, mid: string,
      v: string, post: string) returns (w: Parts)
    requires
      && at < |t| && (t[at] == ',' || t[at] == '}') && u == Splice(t, at, MemberText(lead, pre, key, mid, v, post), at)
    requires AllBlank(pre, 0, |pre|) && AllBlank(mid, 0, |mid|) && AllBlank(post, 0, |post|)
    ensures Written(u, key, v, w) && w.p == at + |lead| && (lead == "," ==> CharAt(u, at, ','))
    ensures w.a == at + |MemberText(lead, pre, key, mid, v, post)| && Same(t, u, 0, at, 0)
    ensures Same(t, u, at, |t|, w.a) && |u| - w.a == |t| - at && w.n == w.p + |pre| && w.a == w.e + |post|
  {
    var ins := MemberText(lead, pre, key, mid, v, post);
    var n := at + |ins|;
    SpliceSame(t, u, at, ins, at, n);
    SameChar(t, u, at, |t|, n, at, n);
    w := PlaceParts(u, at, lead, pre, key, mid, v, post);
    if lead == "," {
      SameChar(lead, u, 0, 1, at, 0, at);
    }
  }

  lemma {:induction false} BreaksBlank(t: string, obj: Object)
    requires IsObject(t, obj) && InsertSafe(t, obj)
    ensures AllBlank(LineBreak(t, obj), 0, |LineBreak(t, obj)|) && AllBlank(LastBreak(t, obj), 0, |LastBreak(t, obj)|)
  {
  }

  lemma {:induction false} InsertFirst(t: string, u: string, obj: Object, g: Field, at: nat,
      w: nat) returns (obj': Object)
    requires IsObject(t, obj) && obj.fields == [] && at + 1 == obj.span.end
    requires
      && at <= |u| && Skip(u, at) == At(g.keyStart) && CharAt(u, g.keyStart, '"')
      && ReadField(u, g.keyStart) == Head(g, w)
    requires Same(t, u, 0, at, 0) && Same(t, u, at, |t|, w) && |u| - w == |t| - at
    ensures Rewritten(t, u, obj, obj', [Member(g.key, Slice(u, g.value))])
    ensures obj'.fields == [g] && !obj'.trailingComma
  {
    var x, n' := obj.span.start + 1, w + 1;
    var c := BodyStart(t, x, [], at, obj.trailingComma);
    SamePart(t, u, 0, at, 0, x, at, x);
    SamePart(t, u, 0, at, 0, 0, obj.span.start + 1, 0);
    SameChar(t, u, 0, at, 0, obj.span.start, obj.span.start);
    SameChar(t, u, at, |t|, w, at, w);
    SamePart(t, u, at, |t|, w, obj.span.end, |t|, n');
    SkipJoin(t, u, x, at);
    ItemLast(u, g.keyStart, g, w);
    obj' := MakeObject(u, obj.span.start, x, [], [g], w, false, n');
    ContentCons(u, g, []);
    assert [g] + [] == [g];
    assert [] + [g] == [g];
  }

  lemma {:induction false} LastTail(t: string, obj: Object, m: nat, f: Field, at: nat, p: nat, cl: nat) returns (q: nat,
      cm: bool)
    requires IsObject(t, obj) && |obj.fields| == m + 1 && obj.fields[m] == f && After(t, obj, m) == At(at)
    requires p == at + 1 && cl + 1 == obj.span.end
    ensures
      && f.keyStart == q && obj.span.start < q < at <= cl < |t| && CharAt(t, q, '"') && ReadField(t, q) == Head(f, at)
    ensures if obj.trailingComma then t[at] == ',' && ReadBody(t, p) == Body([], cl, cm) else t[at] == '}' && at == cl
  {
    var a, y;
    q, a, y, cm := MemberTail(t, obj, m);
  }

  lemma {:induction false} InsertNext(t: string, u: string, obj: Object, g: Field, at: nat, p: nat,
      w: nat) returns (obj': Object)
    requires IsObject(t, obj) && obj.fields != [] && After(t, obj, |obj.fields| - 1) == At(at)
    requires CharAt(u, at, ',') && p == at + 1 <= |t|
    requires Skip(u, p) == At(g.keyStart) && CharAt(u, g.keyStart, '"') && ReadField(u, g.keyStart) == Head(g, w)
    requires Same(t, u, 0, at, 0) && Same(t, u, at, |t|, w) && |u| - w == |t| - at
    ensures Rewritten(t, u, obj, obj', Content(t, obj.fields) + [Member(g.key, Slice(u, g.value))])
    ensures obj'.fields == obj.fields + [g] && obj'.trailingComma == obj.trailingComma
  {
    var m, cl := |obj.fields| - 1, obj.span.end - 1;
    var f := obj.fields[m];
    var q, cm := LastTail(t, obj, m, f, at, p, cl);
    var cl': nat := cl + (w - at);
    var n' := cl' + 1;
    SamePart(t, u, 0, at, 0, q, at, q);
    SamePart(t, u, 0, at, 0, 0, q, 0);
    SamePart(t, u, at, |t|, w, obj.span.end, |t|, n');
    TailWritten(t, u, g, at, p, w, obj.trailingComma, cl, cl', cm);
    CommaHere(t, u, q, f, at, p, [g], cl', obj.trailingComma);
    obj' := Assemble(t, u, obj, m, q, [f] + [g], cl', obj.trailingComma, n');
    AddedContent(t, u, obj.fields, m, g);
  }

  /** From the new member on: the brace, or the old trailing comma and the brace. */
  lemma {:induction false} TailWritten(t: string, u: string, g: Field, at: nat, p: nat, w: nat, comma: bool, cl: nat,
      cl': nat, cm: bool)
    requires p == at + 1 <= |t| && p <= |u| && at < |t| && Same(t, u, at, |t|, w) && cl < |t| && Aligned(at, cl, w, cl')
    requires Skip(u, p) == At(g.keyStart) && CharAt(u, g.keyStart, '"') && ReadField(u, g.keyStart) == Head(g, w)
    requires if comma then t[at] == ',' && ReadBody(t, p) == Body([], cl, cm) else t[at] == '}' && at == cl
    ensures ReadBody(u, p) == Body([g], cl', comma)
  {
    SameChar(t, u, at, |t|, w, at, w);
    assert ReadBody(u, p) == ReadItem(u, g.keyStart);
    if comma {
      var y' := w + 1;
      var c := BodyStart(t, p, [], cl, cm);
      SamePart(t, u, at, |t|, w, p, cl + 1, y');
      var rest := BodyFrame(t, u, p, [], cl, cm, y', cl');
      ItemMore(u, g.keyStart, g, w, y', rest, cl', cm);
      assert [g] + [] == [g];
    } else {
      ItemLast(u, g.keyStart, g, w);
    }
  }

  lemma {:induction false} AddedContent(t: string, u: string, fs: seq<Field>, m: nat, g: Field)
    requires |fs| == m + 1 && Slice(u, fs[m].value) == Slice(t, fs[m].value)
    ensures Content(t, fs)[..m] + Content(u, [fs[m]] + [g]) == Content(t, fs) + [Member(g.key, Slice(u, g.value))]
    ensures fs[..m] + ([fs[m]] + [g]) == fs + [g]
  {
    ContentPrefix(t, fs, m);
    ContentAt(t, fs, m);
    ContentCons(u, fs[m], [g]);
    ContentCons(u, g, []);
    assert [g] + [] == [g];
  }

  /** Where an insertion put the parts of the new member. */
  ghost predicate PlacedIn(t: string, obj: Object, key: string, at: nat, g: Field, a: nat)
    requires IsObject(t, obj)
  {
    && InsertionPoint(t, obj) == Ok(at) && g.key == key
    && g.keyStart == at + |Lead(obj)| + |LineBreak(t, obj)| && g.value.end + |LastBreak(t, obj)| == a
  }

  /** Adding a member appends it and keeps every other one as it was. */
  lemma {:induction false} InsertHolds(t: string, obj: Object, key: string, v: string) returns (obj': Object, g: Field)
    requires IsObject(t, obj) && InsertSafe(t, obj) && IsValue(v)
    ensures
      && InsertField(t, obj, key, v).Ok? && obj'.fields == obj.fields + [g] && obj'.trailingComma == obj.trailingComma
    ensures Rewritten(t, InsertField(t, obj, key, v).value, obj, obj', Content(t, obj.fields) + [Member(key, v)])
  {
    var at := InsertionAt(t, obj);
    var u := Splice(t, at, Insertion(t, obj, key, v), at);
    var a;
    obj', g, a := InsertPlaces(t, obj, key, v, at, u);
  }

  lemma {:induction false} InsertPlaces(t: string, obj: Object, key: string, v: string, at: nat,
      u: string) returns (obj': Object, g: Field, a: nat)
    requires IsObject(t, obj) && InsertSafe(t, obj) && IsValue(v) && InsertionPoint(t, obj) == Ok(at)
    requires u == Splice(t, at, Insertion(t, obj, key, v), at)
    ensures obj'.fields == obj.fields + [g] && obj'.trailingComma == obj.trailingComma
    ensures Rewritten(t, u, obj, obj', Content(t, obj.fields) + [Member(key, v)])
    ensures
      && a == at + |Insertion(t, obj, key, v)| && PlacedIn(t, obj, key, at, g, a) && g.keyStart <= |u|
      && ReadField(u, g.keyStart) == Head(g, a)
  {
    var at' := InsertionAt(t, obj);
    var p;
    p, g, a := InsertionReads(t, obj, key, v, at, u);
    if obj.fields == [] {
      obj' := InsertFirst(t, u, obj, g, at, a);
    } else {
      obj' := InsertNext(t, u, obj, g, at, p, a);
    }
  }

  lemma {:induction false} InsertionReads(t: string, obj: Object, key: string, v: string, at: nat,
      u: string) returns (p: nat, g: Field, a: nat)
    requires IsObject(t, obj) && InsertSafe(t, obj) && InsertionPoint(t, obj) == Ok(at)
    requires at < |t| && (t[at] == ',' || t[at] == '}') && IsValue(v)
    requires u == Splice(t, at, Insertion(t, obj, key, v), at)
    ensures a == at + |Insertion(t, obj, key, v)| && PlacedIn(t, obj, key, at, g, a)
    ensures p == if obj.fields == [] then at else at + 1
    ensures p <= |u| && Skip(u, p) == At(g.keyStart)
    ensures CharAt(u, g.keyStart, '"') && ReadField(u, g.keyStart) == Head(g, a) && Slice(u, g.value) == v
    ensures obj.fields != [] ==> CharAt(u, at, ',')
    ensures Same(t, u, 0, at, 0) && Same(t, u, at, |t|, a) && |u| - a == |t| - at
  {
    var w := InsertionPlaced(t, obj, key, v, at, u);
    WrittenReads(u, key, v, w);
    p, g, a := w.p, Field(key, w.n, Span(w.s, w.e)), w.a;
  }

  /** Removing a member keeps every other one as it was. */
  lemma {:induction false} RemoveHolds(t: string, obj: Object, i: nat) returns (obj': Object)
    requires IsObject(t, obj) && i < |obj.fields| && RemoveSafe(t, obj, i)
    ensures RemoveField(t, obj, i).Ok?
    ensures Rewritten(t, RemoveField(t, obj, i).value, obj, obj', Without(Content(t, obj.fields), i))
  {
    if i + 1 < |obj.fields| || obj.trailingComma {
      obj' := RemoveWithComma(t, obj, i);
    } else if i == 0 {
      obj' := RemoveOnly(t, obj);
    } else {
      obj' := RemoveLast(t, obj, i);
    }
  }

  // ---- The conditions are needed ----------------------------------------------

  lemma {:induction false} ScalarReaches(u: string, i: nat, j: nat)
    requires i <= j < |u| && forall k :: i <= k <= j ==> !IsDelimiter(u[k])
    ensures ScalarEnd(u, i) > j
    decreases j - i
  {
    if i < j {
      ScalarReaches(u, i + 1, j);
    }
  }

  /** A scalar that meets a slash runs into it. */
  lemma {:induction false} ScalarOverruns(t: string, u: string, s: nat, e: nat, s': nat, e': nat)
    requires s < |t| && RawEnd(t, s) == At(e) && !SelfDelimited(t[s])
    requires Same(t, u, s, e, s') && Aligned(s, e, s', e') && CharAt(u, e', '/')
    ensures RawEnd(u, s').At? && RawEnd(u, s').pos > e'
  {
    ScalarEndStops(t, s + 1);
    SameChar(t, u, s, e, s', s, s');
    forall k | s' + 1 <= k <= e' ensures !IsDelimiter(u[k]) {
      if k < e' {
        var k0: nat := k - (s' - s);
        SameChar(t, u, s, e, s', k0, k);
      }
    }
    ScalarReaches(u, s' + 1, e');
  }

  /** Where the value read at member `i` is too long, the members differ. */
  lemma {:induction false} TooLong(t: string, u: string, obj: Object, i: nat, q: nat, s: nat, n: nat,
      members: seq<Member>)
    requires IsObject(t, obj) && i < |obj.fields| && obj.fields[i].keyStart == q && obj.fields[i].value.start == s
    requires Same(t, u, 0, s, 0) && s < |u| && Stops(u, s) && RawEnd(u, s).At? && RawEnd(u, s).pos > s + n
    requires i < |members| && |members[i].raw| == n
    ensures forall obj': Object :: IsObject(u, obj') && obj'.span.start == obj.span.start ==>
      Content(u, obj'.fields) != members
  {
    forall obj': Object | IsObject(u, obj') && obj'.span.start == obj.span.start
      ensures Content(u, obj'.fields) != members
    {
      TooLongHere(t, u, obj, obj', i, q, s, n, members);
    }
  }

  lemma {:induction false} TooLongHere(t: string, u: string, obj: Object, obj': Object, i: nat, q: nat, s: nat, n: nat,
      members: seq<Member>)
    requires IsObject(t, obj) && i < |obj.fields| && obj.fields[i].keyStart == q && obj.fields[i].value.start == s
    requires Same(t, u, 0, s, 0) && s < |u| && Stops(u, s) && RawEnd(u, s).At? && RawEnd(u, s).pos > s + n
    requires i < |members| && |members[i].raw| == n
    requires IsObject(u, obj') && obj'.span.start == obj.span.start
    ensures Content(u, obj'.fields) != members
  {
    var q', a, y, cm := MemberTail(t, obj, i);
    var k := FieldParts(t, q, obj.fields[i], a);
    SamePart(t, u, 0, s, 0, 0, q, 0);
    var gs := RereadFrom(t, u, obj, obj', i, q);
    if i < |obj'.fields| {
      assert obj'.fields[i] == gs[0];
      LongField(t, u, q, obj.fields[i], a, s, gs);
      ContentAt(u, obj'.fields, i);
    }
  }

  /** An object read again: the members before the change and those read from there. */
  lemma {:induction false} RereadFrom(t: string, u: string, obj: Object, obj': Object, i: nat,
      q: nat) returns (gs: seq<Field>)
    requires IsObject(t, obj) && i < |obj.fields| && obj.fields[i].keyStart == q && Same(t, u, 0, q, 0)
    requires IsObject(u, obj') && obj'.span.start == obj.span.start
    ensures q <= |u| && ReadBody(u, q).Body? && ReadBody(u, q).fields == gs && obj'.fields == obj.fields[..i] + gs
    ensures ReadBody(u, q).close + 1 == obj'.span.end
  {
    var x, cl := obj.span.start + 1, obj.span.end - 1;
    FieldPlace(t, x, obj.fields, cl, obj.trailingComma, i);
    SamePart(t, u, 0, q, 0, x, q, x);
    PrefixKept(t, u, x, obj.fields, cl, obj.trailingComma, i, q);
    BodyOf(u, obj', x);
    gs := RereadHere(u, x, q, obj.fields[..i], obj', obj'.span.end - 1);
  }

  lemma {:induction false} BodyOf(t: string, obj: Object, x: nat)
    requires IsObject(t, obj) && x == obj.span.start + 1
    ensures x <= |t| && ReadBody(t, x) == Body(obj.fields, obj.span.end - 1, obj.trailingComma)
  {
  }

  lemma {:induction false} RereadHere(u: string, x: nat, q: nat, front: seq<Field>, obj': Object,
      cl': nat) returns (gs: seq<Field>)
    requires
      && x <= |u| && q <= |u| && ReadBody(u, x) == Body(obj'.fields, cl', obj'.trailingComma)
      && ReadBody(u, x) == Join(front, ReadBody(u, q))
    ensures ReadBody(u, q).Body? && ReadBody(u, q).fields == gs && ReadBody(u, q).close == cl'
    ensures obj'.fields == front + gs
  {
    JoinedFields(front, ReadBody(u, q), obj'.fields, cl', obj'.trailingComma);
    gs := ReadBody(u, q).fields;
  }

  lemma {:induction false} JoinedFields(front: seq<Field>, rest: Body, fs: seq<Field>, cl: nat, cm: bool)
    requires Join(front, rest) == Body(fs, cl, cm)
    ensures rest.Body? && rest.close == cl && fs == front + rest.fields
  {
    assert front == [] && rest.Body? ==> front + rest.fields == rest.fields;
  }

  lemma {:induction false} LongField(t: string, u: string, q: nat, f: Field, a: nat, s: nat, gs: seq<Field>)
    requires CharAt(t, q, '"') && ReadField(t, q) == Head(f, a) && f.value.start == s && q < s <= |t|
    requires Same(t, u, 0, s, 0) && s < |u| && Stops(u, s) && RawEnd(u, s).At?
    requires ReadBody(u, q).Body? && ReadBody(u, q).fields == gs && gs != []
    ensures gs[0].value == Span(s, RawEnd(u, s).pos)
  {
    var k := FieldParts(t, q, f, a);
    SameChar(t, u, 0, s, 0, q, q);
    ItemIsBody(u, q);
    SamePart(t, u, 0, s, 0, q, k + 1, q);
    SamePart(t, u, 0, s, 0, k, s, k);
    NameFrame(t, u, q, k, q, k);
    ValueFollows(t, u, k, s, k, s);
    NamedField(u, q, k, f.key);
    var a2, y2, cm2 := ItemTail(u, q, gs, ReadBody(u, q).close, ReadBody(u, q).comma);
  }

  lemma {:induction false} ReplaceFails(t: string, obj: Object, i: nat, v: string)
    requires IsObject(t, obj) && i < |obj.fields| && IsValue(v) && !ReplaceSafe(t, obj, i, v)
    requires obj.fields[i].value.start <= obj.fields[i].value.end <= |t|
    ensures var u := Splice(t, obj.fields[i].value.start, v, obj.fields[i].value.end);
      forall obj': Object :: IsObject(u, obj') && obj'.span.start == obj.span.start ==>
        Content(u, obj'.fields) != Content(t, obj.fields)[i := Member(obj.fields[i].key, v)]
  {
    var s, e := obj.fields[i].value.start, obj.fields[i].value.end;
    var u := Splice(t, s, v, e);
    var e' := s + |v|;
    SpliceSame(t, u, s, v, e, e');
    SameChar(t, u, e, |t|, e', e, e');
    ScalarOverruns(v, u, 0, |v|, s, e');
    ScalarStartStops(v, u, s);
    TooLong(t, u, obj, i, obj.fields[i].keyStart, s, |v|, Content(t, obj.fields)[i := Member(obj.fields[i].key, v)]);
  }

  lemma {:induction false} ScalarStartStops(v: string, u: string, s: nat)
    requires IsValue(v) && !SelfDelimited(v[0]) && Same(v, u, 0, |v|, s) && CharAt(u, s + |v|, '/')
    ensures s < |u| && Stops(u, s)
  {
    SameChar(v, u, 0, |v|, s, 0, s);
  }

  /** An object of `u` that starts where `obj` did and holds its members but one. */
  ghost predicate Again(t: string, u: string, obj: Object, obj': Object, i: nat) {
    && IsObject(u, obj') && obj'.span.start == obj.span.start && i < |obj.fields|
    && Content(u, obj'.fields) == Without(Content(t, obj.fields), i)
  }

  /** Every such object ends at `end`, counted from the end of the text. */
  ghost predicate Strays(t: string, u: string, obj: Object, i: nat, end: Scan) {
    forall obj': Object :: Again(t, u, obj, obj', i) ==> end.At? && |u| - obj'.span.end == |t| - end.pos
  }

  /** An unsafe removal leaves no object with the other members there, or one that
      ends elsewhere. */
  lemma {:induction false} RemoveFails(t: string, obj: Object, i: nat)
    requires IsObject(t, obj) && i < |obj.fields| && !RemoveSafe(t, obj, i)
    ensures RemoveField(t, obj, i).Ok? && Strays(t, RemoveField(t, obj, i).value, obj, i, StrayEnd(t, obj, i))
    ensures StrayEnd(t, obj, i) != At(obj.span.end)
  {
    AfterValue(t, obj, i);
    var a, e := After(t, obj, i - 1).pos, obj.fields[i].value.end;
    MeetsIs(t, obj, i, obj.fields[i - 1], a, e);
    CutFails(t, obj, i, obj.fields[i - 1], a, e, e + 1);
  }

  lemma {:induction false} CutFails(t: string, obj: Object, i: nat, f: Field, a: nat, e: nat, p: nat)
    requires IsObject(t, obj) && 0 < i < |obj.fields| == i + 1 && !obj.trailingComma && obj.fields[i - 1] == f
    requires After(t, obj, i - 1) == At(a) && obj.fields[i].value.end == e < |t| && p == e + 1 && Meets(t, f, a, e)
    ensures RemoveField(t, obj, i).Ok?
    ensures Strays(t, RemoveField(t, obj, i).value, obj, i, SlashEnd(t, f.value, p))
  {
    var q, a1, e1, cl := LastCut(t, obj, i);
    UnsafeCut(t, Splice(t, a, "", e), obj, i, f, q, a, e, p, cl);
  }

  lemma {:induction false} UnsafeCut(t: string, u: string, obj: Object, i: nat, f: Field, q: nat, a: nat, e: nat,
      p: nat, cl: nat)
    requires IsObject(t, obj) && LastPlaces(t, obj, i, f, q, a, e, cl) && u == Splice(t, a, "", e) && p == e + 1
    requires Meets(t, f, a, e)
    ensures Strays(t, u, obj, i, SlashEnd(t, f.value, p))
  {
    if BareSlash(t, f.value) {
      SlashStrays(t, u, obj, i - 1, i, f, q, a, e, a - 1, p, a + 1);
    } else {
      ScalarFails(t, u, obj, i - 1, i, f, q, a, e);
    }
  }

  lemma {:induction false} ScalarFails(t: string, u: string, obj: Object, m: nat, i: nat, f: Field, q: nat, a: nat,
      e: nat)
    requires IsObject(t, obj) && m + 1 == i < |obj.fields| == i + 1 && obj.fields[m] == f && f.keyStart == q
    requires CharAt(t, q, '"') && ReadField(t, q) == Head(f, a) && f.value.end == a < e && CharAt(t, e, '/')
    requires f.value.start < |t| && !SelfDelimited(t[f.value.start]) && !BareSlash(t, f.value)
    requires u == Splice(t, a, "", e)
    ensures forall obj': Object :: !Again(t, u, obj, obj', i)
  {
    var k := FieldParts(t, q, f, a);
    CutOverruns(t, u, obj, m, f, q, a, e);
    ContentAt(t, obj.fields, m);
    TooLong(t, u, obj, m, q, f.value.start, |Slice(t, f.value)|, Without(Content(t, obj.fields), i));
  }

  lemma {:induction false} SlashStrays(t: string, u: string, obj: Object, m: nat, i: nat, f: Field, q: nat, a: nat,
      e: nat, s: nat, p: nat, p': nat)
    requires IsObject(t, obj) && m + 1 == i < |obj.fields| == i + 1 && obj.fields[m] == f && f.keyStart == q
    requires CharAt(t, q, '"') && ReadField(t, q) == Head(f, a) && f.value == Span(s, a) && a == s + 1
      && CharAt(t, s, '/')
    requires q < a < e && CharAt(t, e, '/') && u == Splice(t, a, "", e) && p == e + 1 && p' == a + 1
    ensures Strays(t, u, obj, i, SlashClose(t, p))
  {
    var k := SlashMeets(t, u, q, f, a, e, s, p');
    CloseMoves(t, u, a, e, p, p');
    SpliceSame(t, u, a, "", e, a);
    SamePart(t, u, 0, a, 0, 0, q, 0);
    forall obj': Object | Again(t, u, obj, obj', i)
      ensures SlashClose(t, p).At? && |u| - obj'.span.end == |t| - SlashClose(t, p).pos
    {
      SlashStray(t, u, obj, obj', m, f, q, k, p');
    }
  }

  lemma {:induction false} SlashStray(t: string, u: string, obj: Object, obj': Object, m: nat, f: Field, q: nat, k: nat,
      p: nat)
    requires IsObject(t, obj) && m + 2 == |obj.fields| && obj.fields[m] == f && f.keyStart == q && BareSlash(t, f.value)
    requires Again(t, u, obj, obj', m + 1) && Same(t, u, 0, q, 0)
    requires CharAt(u, q, '"') && k < |u| && ReadField(u, q) == ReadValue(u, q, f.key, k)
    requires p <= |u| && Skip(u, k + 1) == Skip(u, LineEnd(u, p))
    ensures SlashClose(u, p) == At(obj'.span.end)
  {
    var gs := RereadFrom(t, u, obj, obj', m, q);
    OneLeft(t, u, obj.fields, obj'.fields, m, gs);
    ItemIsBody(u, q);
    SlashOnly(u, q, f.key, k, p, gs[0], obj'.span.end - 1, ReadBody(u, q).comma);
  }

  lemma {:induction false} OneLeft(t: string, u: string, fs: seq<Field>, fs': seq<Field>, m: nat, gs: seq<Field>)
    requires |fs| == m + 2 && fs' == fs[..m] + gs && Content(u, fs') == Without(Content(t, fs), m + 1)
    ensures |gs| == 1 && gs == [gs[0]] && Slice(u, gs[0].value) == Slice(t, fs[m].value)
  {
    ContentAt(t, fs, m);
    ContentAt(u, fs', m);
  }

  lemma {:induction false} CutOverruns(t: string, u: string, obj: Object, m: nat, f: Field, q: nat, a: nat, e: nat)
    requires
      && f.value.end == a < e <= |t| && f.value.start < a && RawEnd(t, f.value.start) == At(a)
      && !SelfDelimited(t[f.value.start])
    requires
      && Stops(t, f.value.start) && (t[f.value.start] != '/' || f.value.start + 1 < a) && CharAt(t, e, '/')
      && u == Splice(t, a, "", e)
    ensures Same(t, u, 0, f.value.start, 0) && f.value.start < |u| && Stops(u, f.value.start)
    ensures RawEnd(u, f.value.start).At? && RawEnd(u, f.value.start).pos > a && a - f.value.start == |Slice(t, f.value)|
  {
    var s := f.value.start;
    SpliceSame(t, u, a, "", e, a);
    SamePart(t, u, 0, a, 0, s, a, s);
    SamePart(t, u, 0, a, 0, 0, s, 0);
    SameChar(t, u, e, |t|, a, e, a);
    SameChar(t, u, 0, a, 0, s, s);
    if s + 1 < a {
      SameChar(t, u, 0, a, 0, s + 1, s + 1);
    }
    ScalarOverruns(t, u, s, a, s, a);
  }

  /** The first character of a run that is not all blank and is not skipped. */
  lemma {:induction false} FirstOdd(x: string) returns (r: nat)
    requires !AllBlank(x, 0, |x|)
    ensures r < |x| && !IsBlank(x[r]) && AllBlank(x, 0, r)
  {
    r := 0;
    while r < |x| && IsBlank(x[r])
      invariant r <= |x| && AllBlank(x, 0, r)
    {
      r := r + 1;
    }
  }

  lemma {:induction false} RunIsWhite(t: string, i: nat, j: nat)
    requires i <= j <= |t|
    ensures forall k :: i <= k < RunEnd(t, i, j) ==> IsWhitespace(t[k])
    decreases j - i
  {
    if i < j && IsWhitespace(t[i]) {
      RunIsWhite(t, i + 1, j);
    }
  }

  lemma {:induction false} OddIndentStops(u: string, p: nat, indent: string, rest: string)
    requires Same("\n" + (indent + rest), u, 0, |"\n" + (indent + rest)|, p)
    requires !AllBlank(indent, 0, |indent|) && forall k :: 0 <= k < |indent| ==> IsWhitespace(indent[k])
    ensures ReadBody(u, p).NoBody?
  {
    var r := FirstOdd(indent);
    var b := p + 1;
    var d := b + r;
    SplitSame("\n", indent + rest, u, p, b);
    SplitSame(indent, rest, u, b, b + |indent|);
    SameChar("\n", u, 0, 1, p, 0, p);
    forall k | p <= k < d ensures IsBlank(u[k]) {
      if k > p {
        SameChar(indent, u, 0, |indent|, b, k - b, k);
      }
    }
    SameChar(indent, u, 0, |indent|, b, r, d);
    SkipBlanks(u, p, d);
    assert ReadBody(u, p) == ReadItem(u, d);
  }

  lemma {:induction false} InsertFails(t: string, obj: Object, key: string, v: string)
    requires IsObject(t, obj) && !InsertSafe(t, obj)
    ensures InsertField(t, obj, key, v).Ok?
    ensures forall obj': Object :: obj'.span.start == obj.span.start ==>
      !IsObject(InsertField(t, obj, key, v).value, obj')
  {
    var at := InsertionAt(t, obj);
    InsertUnreadable(t, obj, key, v, at, Splice(t, at, Insertion(t, obj, key, v), at), Insertion(t, obj, key, v),
        obj.span.start + 1);
  }

  lemma {:induction false} InsertUnreadable(t: string, obj: Object, key: string, v: string, at: nat, u: string,
      ins: string, x: nat)
    requires IsObject(t, obj) && !InsertSafe(t, obj) && x == obj.span.start + 1 <= at <= |t|
    requires ins == Insertion(t, obj, key, v) && u == Splice(t, at, ins, at)
    requires if obj.fields == [] then at == obj.span.end - 1 else After(t, obj, |obj.fields| - 1) == At(at)
    ensures x <= |u| && ReadBody(u, x).NoBody?
  {
    SpliceSame(t, u, at, ins, at, at + |ins|);
    var p := OddInsertion(t, obj, key, v, at, u, ins);
    InsertRefused(t, u, obj, at, p, x);
  }

  lemma {:induction false} InsertRefused(t: string, u: string, obj: Object, at: nat, p: nat, x: nat)
    requires IsObject(t, obj) && x == obj.span.start + 1 <= at <= |t| && Same(t, u, 0, at, 0)
    requires p <= |u| && ReadBody(u, p).NoBody?
    requires if obj.fields == [] then p == at == obj.span.end - 1
             else p == at + 1 && After(t, obj, |obj.fields| - 1) == At(at) && CharAt(u, at, ',')
    ensures x <= |u| && ReadBody(u, x).NoBody?
  {
    if obj.fields == [] {
      FirstRefused(t, u, x, at, obj.trailingComma);
    } else {
      var m := |obj.fields| - 1;
      LastRefused(t, u, obj, x, m, obj.fields[m], at, p, obj.span.end - 1);
    }
  }

  lemma {:induction false} FirstRefused(t: string, u: string, x: nat, at: nat, cm: bool)
    requires x <= at <= |t| && ReadBody(t, x) == Body([], at, cm) && Same(t, u, 0, at, 0)
    requires at <= |u| && ReadBody(u, at).NoBody?
    ensures ReadBody(u, x).NoBody?
  {
    var c := BodyStart(t, x, [], at, cm);
    SamePart(t, u, 0, at, 0, x, at, x);
    SkipJoin(t, u, x, at);
  }

  lemma {:induction false} OddInsertion(t: string, obj: Object, key: string, v: string, at: nat, u: string,
      ins: string) returns (p: nat)
    requires IsObject(t, obj) && !InsertSafe(t, obj) && ins == Insertion(t, obj, key, v) && Same(ins, u, 0, |ins|, at)
    ensures p == at + |Lead(obj)| && p <= |u| && ReadBody(u, p).NoBody? && (obj.fields != [] ==> CharAt(u, at, ','))
  {
    p := at + |Lead(obj)|;
    IndentIsWhite(t, obj);
    OddText(u, at, Lead(obj), CloseIndent(t, obj), key, " ", v, LastBreak(t, obj), p, ins);
  }

  lemma {:induction false} IndentIsWhite(t: string, obj: Object)
    requires IsObject(t, obj)
    ensures forall k :: 0 <= k < |CloseIndent(t, obj)| ==> IsWhitespace(CloseIndent(t, obj)[k])
  {
    var close := obj.span.end - 1;
    RunIsWhite(t, LineStart(t, close), close);
  }

  /** A member written behind an indentation that is not skipped cannot be read. */
  lemma {:induction false} OddText(u: string, at: nat, lead: string, indent: string, key: string, mid: string,
      v: string, post: string, p: nat, ins: string)
    requires ins == MemberText(lead, "\n" + (indent + "  "), key, mid, v, post) && Same(ins, u, 0, |ins|, at)
    requires
      && !AllBlank(indent, 0, |indent|) && (forall k :: 0 <= k < |indent| ==> IsWhitespace(indent[k]))
      && p == at + |lead|
    ensures p <= |u| && ReadBody(u, p).NoBody? && (lead == "," ==> CharAt(u, at, ','))
  {
    var tail := Encode(key) + (":" + (mid + (v + post)));
    SplitSame(lead, ("\n" + (indent + "  ")) + tail, u, at, p);
    assert ("\n" + (indent + "  ")) + tail == "\n" + (indent + ("  " + tail));
    OddIndentStops(u, p, indent, "  " + tail);
    if lead == "," {
      SameChar(lead, u, 0, 1, at, 0, at);
    }
  }

  lemma {:induction false} RefusedHere(t: string, u: string, q: nat, f: Field, at: nat, p: nat)
    requires CharAt(t, q, '"') && ReadField(t, q) == Head(f, at) && at < |t| && IsDelimiter(t[at])
    requires Same(t, u, q, at, q) && CharAt(u, at, ',') && p == at + 1 && ReadBody(u, p).NoBody?
    ensures q < |u| && ReadBody(u, q).NoBody?
  {
    CommaHead(t, u, q, f, at);
    assert Skip(u, q) == At(q);
    BodyMore(u, q, q, f, at, p);
  }

  lemma {:induction false} LastRefused(t: string, u: string, obj: Object, x: nat, m: nat, f: Field, at: nat, p: nat,
      cl: nat)
    requires
      && IsObject(t, obj) && |obj.fields| == m + 1 && obj.fields[m] == f && After(t, obj, m) == At(at)
      && x == obj.span.start + 1
    requires
      && p == at + 1 && cl + 1 == obj.span.end && Same(t, u, 0, at, 0) && CharAt(u, at, ',') && ReadBody(u, p).NoBody?
    ensures x <= |u| && ReadBody(u, x).NoBody?
  {
    var q, cm := LastTail(t, obj, m, f, at, p, cl);
    SamePart(t, u, 0, at, 0, q, at, q);
    SamePart(t, u, 0, at, 0, x, q, x);
    RefusedHere(t, u, q, f, at, p);
    BodyOf(t, obj, x);
    PrefixKept(t, u, x, obj.fields, cl, obj.trailingComma, m, q);
    JoinKeeps(obj.fields[..m], ReadBody(u, q));
  }
}
