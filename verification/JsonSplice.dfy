/** Reading an object again after a stretch of it was replaced. */
module JsonSplice {
  import opened Basics
  import opened JsonScan
  import opened JsonFrame
  import opened JsonString
  import opened JsonObject

  /** A member with its place forgotten: its name and the exact text of its value. */
  datatype Member = Member(name: string, raw: string)

  function Slice(t: string, span: Span): string {
    if span.start <= span.end <= |t| then t[span.start..span.end] else ""
  }

  function Content(t: string, fields: seq<Field>): (r: seq<Member>)
    ensures |r| == |fields|
  {
    if fields == [] then []
    else [Member(fields[0].key, Slice(t, fields[0].value))] + Content(t, fields[1..])
  }

  lemma {:induction false} ContentAt(t: string, fields: seq<Field>, i: nat)
    requires i < |fields|
    ensures Content(t, fields)[i] == Member(fields[i].key, Slice(t, fields[i].value))
  {
    if i > 0 {
      ContentAt(t, fields[1..], i - 1);
    }
  }

  lemma {:induction false} ContentJoin(t: string, xs: seq<Field>, ys: seq<Field>)
    ensures Content(t, xs + ys) == Content(t, xs) + Content(t, ys)
  {
    if xs == [] {
      assert xs + ys == ys;
    } else {
      assert (xs + ys)[1..] == xs[1..] + ys;
      ContentJoin(t, xs[1..], ys);
    }
  }

  lemma SliceSame(t: string, u: string, s: nat, e: nat, s': nat, e': nat)
    requires s <= e && Same(t, u, s, e, s') && Aligned(s, e, s', e')
    ensures Slice(u, Span(s', e')) == Slice(t, Span(s, e))
  {
    assert forall k :: 0 <= k < e - s ==> t[s..e][k] == t[s + k];
  }

  /** A skip over a complete gap goes on with whatever now follows the gap. */
  lemma {:induction false} SkipJoin(t: string, u: string, i: nat, j: nat)
    requires i <= |t| && Skip(t, i) == At(j) && j < |t| && Same(t, u, i, j, i)
    ensures Skip(u, i) == Skip(u, j)
    decreases |t| - i
  {
    if i < j {
      assert t[i] == u[i];
      if IsBlank(t[i]) {
        SkipJoin(t, u, i + 1, j);
      } else if CommentAt(t, i, '/') {
        var e, e' := LineCommentFrame(t, u, i, j, i);
        SkipJoin(t, u, e, j);
      } else {
        var e, e' := BlockCommentFrame(t, u, i, j, i);
        SkipJoin(t, u, e, j);
      }
    }
  }

  /** The name part of a member, moved, in front of any value that can be read. */
  lemma {:induction false} HeadAt(t: string, u: string, c: nat, f: Field, a: nat, c': nat, s': nat, e': nat, a': nat)
    requires c <= |t| && ReadField(t, c) == Head(f, a)
    requires f.value.start <= |t| && Same(t, u, c, f.value.start, c') && Aligned(c, f.value.start, c', s')
    requires s' < |u| && Stops(u, s') && RawEnd(u, s') == At(e') && e' <= |u| && Skip(u, e') == At(a')
    ensures ReadField(u, c') == Head(Field(f.key, c', Span(s', e')), a')
  {
    var k := FieldParts(t, c, f, a);
    var k': nat := k + (c' - c);
    NameFrame(t, u, c, k, c', k');
    ValueFollows(t, u, k, f.value.start, k', s');
    NamedField(u, c', k', f.key);
  }

  lemma {:induction false} FieldParts(t: string, c: nat, f: Field, a: nat) returns (k: nat)
    requires c <= |t| && ReadField(t, c) == Head(f, a)
    ensures c < k < f.value.start < |t| && ColonAfter(t, c) == At(k) && StringEnd(t, c).At?
    ensures Decode(t[c..StringEnd(t, c).pos]) == Some(f.key)
    ensures Skip(t, k + 1) == At(f.value.start) && RawEnd(t, f.value.start) == At(f.value.end)
    ensures f.value.end <= |t| && Skip(t, f.value.end) == At(a)
  {
    k := ColonAfter(t, c).pos;
  }

  lemma {:induction false} ValueFollows(t: string, u: string, k: nat, s: nat, k': nat, s': nat)
    requires k < s < |t| && Skip(t, k + 1) == At(s) && Same(t, u, k, s, k') && Aligned(k, s, k', s')
    requires s' < |u| && Stops(u, s')
    ensures Skip(u, k' + 1) == At(s')
  {
    var v, v' := k + 1, k' + 1;
    SkipFrame(t, u, v, s, v', s');
  }

  lemma {:induction false} NamedField(t: string, c: nat, k: nat, key: string)
    requires c <= |t| && ColonAfter(t, c) == At(k) && StringEnd(t, c).At?
    requires Decode(t[c..StringEnd(t, c).pos]) == Some(key)
    ensures ReadField(t, c) == ReadValue(t, c, key, k)
  {
  }

  lemma {:induction false} NameFrame(t: string, u: string, c: nat, k: nat, c': nat, k': nat)
    requires c <= |t| && ColonAfter(t, c) == At(k)
    requires Same(t, u, c, k + 1, c') && Aligned(c, k, c', k')
    ensures ColonAfter(u, c') == At(k') && StringEnd(u, c').At?
    ensures u[c'..StringEnd(u, c').pos] == t[c..StringEnd(t, c).pos]
  {
    var q := StringEnd(t, c).pos;
    var q': nat := q + (c' - c);
    ColonFrame(t, u, c, k, c', k');
    StringFrame(t, u, c, q, c', q');
    SliceSame(t, u, c, q, c', q');
  }

  /** A whole member with its separator, moved. */
  lemma {:induction false} HeadFrame(t: string, u: string, c: nat, f: Field, a: nat, c': nat,
      a': nat) returns (g: Field)
    requires c <= |t| && ReadField(t, c) == Head(f, a) && a < |t| && t[a] != '/'
    requires Same(t, u, c, a + 1, c') && Aligned(c, a, c', a')
    ensures ReadField(u, c') == Head(g, a') && g.key == f.key && Slice(u, g.value) == Slice(t, f.value)
    ensures c' == c ==> g == f
    ensures Aligned(c, f.value.end, c', g.value.end)
  {
    var s, e := f.value.start, f.value.end;
    g := Field(f.key, c', Span(s + (c' - c), e + (c' - c)));
    HeadMoves(t, u, c, f, s, e, a, a + 1, c', g.value.start, g.value.end, a');
  }

  lemma {:induction false} HeadMoves(t: string, u: string, c: nat, f: Field, s: nat, e: nat, a: nat, n: nat, c': nat,
      s': nat, e': nat, a': nat)
    requires c <= |t| && ReadField(t, c) == Head(f, a) && a < |t| && n == a + 1 && t[a] != '/' && f.value == Span(s, e)
    requires Same(t, u, c, n, c') && Aligned(c, a, c', a') && Aligned(c, s, c', s') && Aligned(c, e, c', e')
    ensures ReadField(u, c') == Head(Field(f.key, c', Span(s', e')), a') && Slice(u, Span(s', e')) == Slice(t, f.value)
  {
    var k := FieldParts(t, c, f, a);
    SamePart(t, u, c, n, c', s, e + 1, s');
    SamePart(t, u, c, n, c', e, n, e');
    SamePart(t, u, c, n, c', c, s, c');
    SamePart(t, u, c, n, c', s, e, s');
    AfterRaw(t, u, s, e, s', e');
    RawFrame(t, u, s, e, s', e');
    SkipToChar(t, u, e, a, e', a');
    HeadAt(t, u, c, f, a, c', s', e', a');
    SliceSame(t, u, s, e, s', e');
  }

  /** A body with no member left. */
  lemma {:induction false} EmptyBody(t: string, x: nat, c: nat)
    requires x <= |t| && Skip(t, x) == At(c) && CharAt(t, c, '}')
    ensures ReadBody(t, x) == Body([], c, false)
  {
    assert ReadBody(t, x) == ReadItem(t, c);
  }

  /** Taking a body apart: the brace, or its first member. */
  lemma {:induction false} BodyStart(t: string, x: nat, fs: seq<Field>, cl: nat, cm: bool) returns (c: nat)
    requires x <= |t| && ReadBody(t, x) == Body(fs, cl, cm)
    ensures x <= c <= cl < |t| && Skip(t, x) == At(c) && t[c] != '/'
    ensures fs == [] ==> c == cl && t[c] == '}' && !cm
    ensures fs != [] ==> t[c] == '"' && ReadItem(t, c) == Body(fs, cl, cm)
  {
    c := Skip(t, x).pos;
    assert ReadBody(t, x) == ReadItem(t, c);
  }

  lemma {:induction false} ItemTail(t: string, c: nat, fs: seq<Field>, cl: nat, cm: bool) returns (a: nat, y: nat,
      cm': bool)
    requires CharAt(t, c, '"') && ReadItem(t, c) == Body(fs, cl, cm) && fs != []
    ensures c < a <= cl < |t| && ReadField(t, c) == Head(fs[0], a) && y == a + 1
    ensures t[a] == ',' || t[a] == '}'
    ensures t[a] == '}' ==> a == cl && fs == [fs[0]] && !cm
    ensures t[a] == ',' ==> a < cl && ReadBody(t, y) == Body(fs[1..], cl, cm') && cm == (fs[1..] == [] || cm')
  {
    a := ReadField(t, c).after;
    y, cm' := a + 1, false;
    if CharAt(t, a, ',') {
      assert ReadItem(t, c) == Cons(fs[0], ReadBody(t, y));
      cm' := ReadBody(t, y).comma;
    }
  }

  /** Putting a body together from its first member. */
  lemma {:induction false} ItemLast(t: string, c: nat, f: Field, a: nat)
    requires CharAt(t, c, '"') && ReadField(t, c) == Head(f, a) && CharAt(t, a, '}')
    ensures ReadItem(t, c) == Body([f], a, false)
  {
  }

  lemma {:induction false} ItemMore(t: string, c: nat, f: Field, a: nat, y: nat, rest: seq<Field>, cl: nat, cm: bool)
    requires CharAt(t, c, '"') && ReadField(t, c) == Head(f, a) && CharAt(t, a, ',')
    requires y == a + 1 && ReadBody(t, y) == Body(rest, cl, cm)
    ensures ReadItem(t, c) == Body([f] + rest, cl, rest == [] || cm)
  {
    var body := ReadBody(t, y);
    assert ReadItem(t, c) == Cons(f, body);
    ConsBody(f, body);
  }

  lemma {:induction false} ConsBody(f: Field, body: Body)
    requires body.Body?
    ensures Cons(f, body) == Body([f] + body.fields, body.close, body.fields == [] || body.comma)
  {
  }

  lemma ContentCons(t: string, f: Field, rest: seq<Field>)
    ensures Content(t, [f] + rest) == [Member(f.key, Slice(t, f.value))] + Content(t, rest)
  {
    assert ([f] + rest)[1..] == rest;
  }

  /** A body, moved with its closing brace, has the same members. */
  lemma {:induction false} BodyFrame(t: string, u: string, x: nat, fs: seq<Field>, cl: nat, cm: bool, x': nat,
      cl': nat) returns (gs: seq<Field>)
    requires x <= |t| && ReadBody(t, x) == Body(fs, cl, cm)
    requires cl < |t| && Same(t, u, x, cl + 1, x') && Aligned(x, cl, x', cl')
    ensures ReadBody(u, x') == Body(gs, cl', cm) && Content(u, gs) == Content(t, fs)
    decreases |t| - x, 1
  {
    var c := BodyStart(t, x, fs, cl, cm);
    var c': nat := c + (x' - x);
    SamePart(t, u, x, cl + 1, x', x, c + 1, x');
    SamePart(t, u, x, cl + 1, x', c, cl + 1, c');
    SkipToChar(t, u, x, c, x', c');
    if fs == [] {
      EmptyBody(u, x', c');
      gs := [];
    } else {
      gs := ItemFrame(t, u, c, fs, cl, cm, c', cl');
    }
  }

  lemma {:induction false} ItemFrame(t: string, u: string, c: nat, fs: seq<Field>, cl: nat, cm: bool, c': nat,
      cl': nat) returns (gs: seq<Field>)
    requires CharAt(t, c, '"') && ReadItem(t, c) == Body(fs, cl, cm) && fs != []
    requires c <= cl < |t| && Same(t, u, c, cl + 1, c') && Aligned(c, cl, c', cl')
    ensures ReadItem(u, c') == Body(gs, cl', cm) && Content(u, gs) == Content(t, fs)
    decreases |t| - c, 0
  {
    var a, y, cm' := ItemTail(t, c, fs, cl, cm);
    var a': nat := a + (c' - c);
    var y' := a' + 1;
    SamePart(t, u, c, cl + 1, c', c, y, c');
    var g := HeadFrame(t, u, c, fs[0], a, c', a');
    SameChar(t, u, c, cl + 1, c', a, a');
    SameChar(t, u, c, cl + 1, c', c, c');
    if t[a] == '}' {
      ItemLast(u, c', g, a');
      gs := [g];
    } else {
      SamePart(t, u, c, cl + 1, c', y, cl + 1, y');
      var rest := BodyFrame(t, u, y, fs[1..], cl, cm', y', cl');
      ItemMore(u, c', g, a', y', rest, cl', cm');
      gs := [g] + rest;
      ContentCons(u, g, rest);
    }
  }

  lemma {:induction false} FieldPlace(t: string, x: nat, fs: seq<Field>, cl: nat, cm: bool, m: nat)
    requires x <= |t| && ReadBody(t, x) == Body(fs, cl, cm) && m < |fs|
    ensures x <= fs[m].keyStart < fs[m].value.start < fs[m].value.end <= cl
    decreases |t| - x
  {
    var c := BodyStart(t, x, fs, cl, cm);
    var a, y, cm' := ItemTail(t, c, fs, cl, cm);
    if m > 0 {
      FieldPlace(t, y, fs[1..], cl, cm', m - 1);
    }
  }

  /** Where the text changed only from member `m` on, the earlier members stand
      and reading goes on from the place where member `m` used to start. */
  lemma {:induction false} PrefixKept(t: string, u: string, x: nat, fs: seq<Field>, cl: nat, cm: bool, m: nat, q: nat)
    requires x <= |t| && ReadBody(t, x) == Body(fs, cl, cm) && m < |fs| && fs[m].keyStart == q
    requires Same(t, u, x, q, x)
    ensures ReadBody(u, x) == Join(fs[..m], ReadBody(u, q))
    ensures Content(u, fs[..m]) == Content(t, fs[..m])
    decreases |t| - x
  {
    var c := BodyStart(t, x, fs, cl, cm);
    var a, y, cm' := ItemTail(t, c, fs, cl, cm);
    if m == 0 {
      SkipJoin(t, u, x, q);
    } else {
      FieldPlace(t, y, fs[1..], cl, cm', m - 1);
      SamePart(t, u, x, q, x, x, c + 1, x);
      SkipToChar(t, u, x, c, x, c);
      SamePart(t, u, x, q, x, c, y, c);
      var g := HeadFrame(t, u, c, fs[0], a, c, a);
      SamePart(t, u, x, q, x, y, q, y);
      SameChar(t, u, x, q, x, a, a);
      PrefixKept(t, u, y, fs[1..], cl, cm', m - 1, q);
      BodyMore(u, x, c, fs[0], a, y);
      PrefixCons(t, u, fs, m, ReadBody(u, q));
    }
  }

  lemma {:induction false} BodyMore(t: string, x: nat, c: nat, f: Field, a: nat, y: nat)
    requires x <= |t| && Skip(t, x) == At(c) && CharAt(t, c, '"') && ReadField(t, c) == Head(f, a) && CharAt(t, a, ',')
    requires y == a + 1
    ensures ReadBody(t, x) == Cons(f, ReadBody(t, y))
  {
    assert ReadBody(t, x) == ReadItem(t, c);
  }

  lemma {:induction false} PrefixCons(t: string, u: string, fs: seq<Field>, m: nat, rest: Body)
    requires 0 < m <= |fs| && Slice(u, fs[0].value) == Slice(t, fs[0].value)
    requires Content(u, fs[1..][..m - 1]) == Content(t, fs[1..][..m - 1])
    ensures Cons(fs[0], Join(fs[1..][..m - 1], rest)) == Join(fs[..m], rest)
    ensures Content(u, fs[..m]) == Content(t, fs[..m])
  {
    assert fs[..m] == [fs[0]] + fs[1..][..m - 1];
    ContentCons(t, fs[0], fs[1..][..m - 1]);
    ContentCons(u, fs[0], fs[1..][..m - 1]);
    if rest.Body? {
      assert [fs[0]] + (fs[1..][..m - 1] + rest.fields) == fs[..m] + rest.fields;
    }
  }

  /** What is left of the body at the place of member `m`. */
  lemma {:induction false} SuffixRead(t: string, x: nat, fs: seq<Field>, cl: nat, cm: bool, m: nat, q: nat)
    requires x <= |t| && ReadBody(t, x) == Body(fs, cl, cm) && m < |fs| && fs[m].keyStart == q
    ensures x <= q < cl < |t| && CharAt(t, q, '"') && ReadItem(t, q) == Body(fs[m..], cl, cm)
    decreases |t| - x
  {
    var c := BodyStart(t, x, fs, cl, cm);
    var a, y, cm' := ItemTail(t, c, fs, cl, cm);
    if m == 0 {
      assert fs[0..] == fs;
    } else {
      var rest := fs[1..];
      assert rest[m - 1] == fs[m] && rest[m - 1..] == fs[m..];
      SuffixRead(t, y, rest, cl, cm', m - 1, q);
    }
  }
}
