/** A value that is a slash and nothing else, with another slash cut to stand right
    behind it: the two open a line comment, and the value is whatever follows. */
module JsonSlash {
  import opened Basics
  import opened JsonScan
  import opened JsonFrame
  import opened JsonString
  import opened JsonObject
  import opened JsonSplice

  /** A bare slash: the scanner takes it for a scalar, JSON has none. */
  predicate BareSlash(t: string, value: Span) { CharAt(t, value.start, '/') && value.end == value.start + 1 }

  /** Where the object is closed whose last value is a bare slash at `c`. */
  function SlashAt(t: string, c: nat): (r: Scan)
    requires c <= |t|
  {
    if CharAt(t, c, '/') && EndsScalar(t, c + 1) then
      var a :- Skip(t, c + 1);
      match Separator(t, a, '}')
      case Close(n, _) => At(n)
      case _ => Bad(Malformed)
    else Bad(Malformed)
  }

  /** Where the object is closed whose last value is a bare slash behind a line
      comment that goes on at `p`. */
  function SlashClose(t: string, p: nat): (r: Scan)
    requires p <= |t|
  {
    var c :- Skip(t, LineEnd(t, p));
    SlashAt(t, c)
  }

  /** The same for the value before that comment, if it is a bare slash itself. */
  function SlashEnd(t: string, value: Span, p: nat): (r: Scan)
    requires p <= |t|
  {
    if BareSlash(t, value) then SlashClose(t, p) else Bad(Malformed)
  }

  // ---- The same text at another place --------------------------------------------

  ghost predicate Moved(t: string, u: string, i: nat, i': nat) {
    Same(t, u, i, |t|, i') && |u| - i' == |t| - i
  }

  lemma {:induction false} MovedOn(t: string, u: string, i: nat, i': nat, j: nat, j': nat)
    requires Moved(t, u, i, i') && i <= j <= |t| && Aligned(i, j, i', j')
    ensures Moved(t, u, j, j') && j' <= |u| && (j < |t| ==> j' < |u| && t[j] == u[j'])
    ensures forall c :: CharAt(t, j, c) <==> CharAt(u, j', c)
  {
    SamePart(t, u, i, |t|, i', j, |t|, j');
    if j < |t| {
      SameChar(t, u, i, |t|, i', j, j');
    }
  }

  lemma {:induction false} LineMoves(t: string, u: string, i: nat, i': nat)
    requires i <= |t| && Moved(t, u, i, i')
    ensures i' <= |u| && Aligned(i, LineEnd(t, i), i', LineEnd(u, i'))
    decreases |t| - i
  {
    MovedOn(t, u, i, i', i, i');
    if i < |t| {
      MovedOn(t, u, i, i', i + 1, i' + 1);
      LineMoves(t, u, i + 1, i' + 1);
    }
  }

  /** The same outcome, at the moved place. */
  ghost predicate Agrees(r: Scan, r': Scan, i: nat, i': nat) {
    (r.At? <==> r'.At?) && (r.At? ==> Aligned(i, r.pos, i', r'.pos))
  }

  lemma {:induction false} BlockMoves(t: string, u: string, i: nat, i': nat)
    requires i <= |t| && Moved(t, u, i, i')
    ensures i' <= |u| && Agrees(BlockEnd(t, i), BlockEnd(u, i'), i, i')
    decreases |t| - i
  {
    MovedOn(t, u, i, i', i, i');
    if i + 1 < |t| {
      MovedOn(t, u, i, i', i + 1, i' + 1);
      BlockMoves(t, u, i + 1, i' + 1);
    }
  }

  lemma {:induction false} SkipMoves(t: string, u: string, i: nat, i': nat)
    requires i <= |t| && Moved(t, u, i, i')
    ensures i' <= |u| && Agrees(Skip(t, i), Skip(u, i'), i, i')
    decreases |t| - i
  {
    MovedOn(t, u, i, i', i, i');
    if i < |t| {
      MovedOn(t, u, i, i', i + 1, i' + 1);
      if IsBlank(t[i]) {
        SkipMoves(t, u, i + 1, i' + 1);
      } else if CommentAt(t, i, '/') {
        MovedOn(t, u, i, i', i + 2, i' + 2);
        LineMoves(t, u, i + 2, i' + 2);
        SkipsOn(t, u, i, i', LineEnd(t, i + 2), LineEnd(u, i' + 2));
      } else if CommentAt(t, i, '*') {
        MovedOn(t, u, i, i', i + 2, i' + 2);
        BlockMoves(t, u, i + 2, i' + 2);
        if BlockEnd(t, i + 2).At? {
          SkipsOn(t, u, i, i', BlockEnd(t, i + 2).pos, BlockEnd(u, i' + 2).pos);
        }
      }
    }
  }

  lemma {:induction false} SkipsOn(t: string, u: string, i: nat, i': nat, j: nat, j': nat)
    requires i < j <= |t| && Moved(t, u, i, i') && Aligned(i, j, i', j')
    ensures j' <= |u| && Agrees(Skip(t, j), Skip(u, j'), i, i')
    decreases |t| - i, 0
  {
    MovedOn(t, u, i, i', j, j');
    SkipMoves(t, u, j, j');
  }

  lemma {:induction false} SeparatorMoves(t: string, u: string, a: nat, a': nat)
    requires a <= |t| && Moved(t, u, a, a')
    ensures a' <= |u| && (Separator(t, a, '}').Close? <==> Separator(u, a', '}').Close?)
    ensures Separator(t, a, '}').Close? ==> Aligned(a, Separator(t, a, '}').end, a', Separator(u, a', '}').end)
  {
    MovedOn(t, u, a, a', a, a');
    if CharAt(t, a, ',') {
      SkipsOn(t, u, a, a', a + 1, a' + 1);
      if Skip(t, a + 1).At? {
        MovedOn(t, u, a, a', Skip(t, a + 1).pos, Skip(u, a' + 1).pos);
      }
    }
  }

  lemma {:induction false} SlashMoves(t: string, u: string, p: nat, p': nat)
    requires p <= |t| && Moved(t, u, p, p')
    ensures p' <= |u| && Agrees(SlashClose(t, p), SlashClose(u, p'), p, p')
  {
    LineMoves(t, u, p, p');
    var n, n' := LineEnd(t, p), LineEnd(u, p');
    MovedOn(t, u, p, p', n, n');
    SkipMoves(t, u, n, n');
    if Skip(t, n).At? {
      SlashValueMoves(t, u, p, p', Skip(t, n).pos, Skip(u, n').pos);
    }
  }

  lemma {:induction false} SlashValueMoves(t: string, u: string, p: nat, p': nat, c: nat, c': nat)
    requires p <= c <= |t| && Moved(t, u, p, p') && Aligned(p, c, p', c')
    ensures c' <= |u| && Agrees(SlashAt(t, c), SlashAt(u, c'), p, p')
  {
    MovedOn(t, u, p, p', c, c');
    if CharAt(t, c, '/') {
      MovedOn(t, u, p, p', c + 1, c' + 1);
      SkipMoves(t, u, c + 1, c' + 1);
      if Skip(t, c + 1).At? {
        MovedOn(t, u, p, p', Skip(t, c + 1).pos, Skip(u, c' + 1).pos);
        SeparatorMoves(t, u, Skip(t, c + 1).pos, Skip(u, c' + 1).pos);
      }
    }
  }

  // ---- Reading the slash again ---------------------------------------------------

  /** The member's name is read as before, its value behind the comment. */
  lemma {:induction false} SlashSkipped(t: string, u: string, q: nat, k: nat, s: nat, key: string)
    requires CharAt(t, q, '"') && ColonAfter(t, q) == At(k) && StringEnd(t, q).At? && q < k < s < |t|
    requires Decode(t[q..StringEnd(t, q).pos]) == Some(key) && Skip(t, k + 1) == At(s)
    requires Same(t, u, 0, s, 0) && CommentAt(u, s, '/')
    ensures CharAt(u, q, '"') && ReadField(u, q) == ReadValue(u, q, key, k)
    ensures Skip(u, k + 1) == Skip(u, LineEnd(u, s + 2))
  {
    SameHere(t, u, s, q, k + 1);
    NameAgain(t, u, q, k, key);
    CommentJoin(t, u, k + 1, s);
  }

  lemma {:induction false} SameHere(t: string, u: string, s: nat, q: nat, y: nat)
    requires Same(t, u, 0, s, 0) && q < y <= s <= |t| && CharAt(t, q, '"')
    ensures CharAt(u, q, '"') && Same(t, u, q, y, q) && Same(t, u, y, s, y)
  {
    SameChar(t, u, 0, s, 0, q, q);
    SamePart(t, u, 0, s, 0, q, y, q);
    SamePart(t, u, 0, s, 0, y, s, y);
  }

  lemma {:induction false} CommentJoin(t: string, u: string, i: nat, s: nat)
    requires i <= s < |t| && Skip(t, i) == At(s) && Same(t, u, i, s, i) && CommentAt(u, s, '/')
    ensures Skip(u, i) == Skip(u, LineEnd(u, s + 2))
  {
    SkipJoin(t, u, i, s);
  }

  lemma {:induction false} NameAgain(t: string, u: string, q: nat, k: nat, key: string)
    requires q <= |t| && ColonAfter(t, q) == At(k) && StringEnd(t, q).At? && Same(t, u, q, k + 1, q)
    requires Decode(t[q..StringEnd(t, q).pos]) == Some(key)
    ensures k < |u| && ReadField(u, q) == ReadValue(u, q, key, k)
  {
    NameFrame(t, u, q, k, q, k);
    NamedField(u, q, k, key);
  }

  /** One character that ends there is a value. */
  lemma {:induction false} SlashValue(u: string, c: nat)
    requires CharAt(u, c, '/')
    ensures RawEnd(u, c) == At(c + 1) <==> EndsScalar(u, c + 1)
  {
    ScalarEndStops(u, c + 1);
  }

  lemma {:induction false} ValueIs(u: string, q: nat, key: string, k: nat, s: nat, e: nat)
    requires k < |u| && Skip(u, k + 1) == At(s) && s < |u| && RawEnd(u, s) == At(e) && Skip(u, e).At?
    ensures ReadValue(u, q, key, k) == Head(Field(key, q, Span(s, e)), Skip(u, e).pos)
  {
  }

  lemma {:induction false} ValueParts(u: string, q: nat, key: string, k: nat, g: Field, a: nat)
    requires k < |u| && ReadValue(u, q, key, k) == Head(g, a)
    ensures Skip(u, k + 1) == At(g.value.start) && g.value.start < g.value.end <= |u|
    ensures RawEnd(u, g.value.start) == At(g.value.end) && Skip(u, g.value.end) == At(a)
  {
  }

  /** A member is the last one exactly when the object closes behind it. */
  lemma {:induction false} LastItem(u: string, q: nat, g: Field, a: nat, n: nat, cm: bool)
    requires CharAt(u, q, '"') && a <= |u| && ReadField(u, q) == Head(g, a) && Separator(u, a, '}') == Close(n, cm)
    ensures n > 0 && ReadItem(u, q) == Body([g], n - 1, cm)
  {
    if cm {
      EmptyBody(u, a + 1, n - 1);
      ItemMore(u, q, g, a, a + 1, [], n - 1, false);
      assert [g] + [] == [g];
    } else {
      ItemLast(u, q, g, a);
    }
  }

  lemma {:induction false} LastCloses(u: string, q: nat, g: Field, cl: nat, cm: bool) returns (a: nat)
    requires CharAt(u, q, '"') && ReadItem(u, q) == Body([g], cl, cm)
    ensures a <= |u| && ReadField(u, q) == Head(g, a) && Separator(u, a, '}').Close?
    ensures Separator(u, a, '}').end == cl + 1
  {
    var y, cm';
    a, y, cm' := ItemTail(u, q, [g], cl, cm);
    if u[a] == ',' {
      assert [g][1..] == [];
      var b := BodyStart(u, y, [], cl, cm');
    }
  }

  lemma {:induction false} SlashRead(u: string, q: nat, key: string, k: nat, p: nat, n: nat)
      returns (g: Field, cm: bool)
    requires CharAt(u, q, '"') && k < |u| && ReadField(u, q) == ReadValue(u, q, key, k)
    requires p <= |u| && Skip(u, k + 1) == Skip(u, LineEnd(u, p)) && SlashClose(u, p) == At(n)
    ensures n > 0 && ReadItem(u, q) == Body([g], n - 1, cm) && g.key == key && Slice(u, g.value) == "/"
  {
    var c, a;
    c, a, cm := SlashParts(u, p, n);
    g := Field(key, q, Span(c, c + 1));
    SlashValue(u, c);
    ValueIs(u, q, key, k, c, c + 1);
    LastItem(u, q, g, a, n, cm);
  }

  lemma {:induction false} SlashParts(u: string, p: nat, n: nat) returns (c: nat, a: nat, cm: bool)
    requires p <= |u| && SlashClose(u, p) == At(n)
    ensures Skip(u, LineEnd(u, p)) == At(c) && CharAt(u, c, '/') && EndsScalar(u, c + 1)
      && Slice(u, Span(c, c + 1)) == "/"
    ensures Skip(u, c + 1) == At(a) && a <= |u| && Separator(u, a, '}') == Close(n, cm)
  {
    c := Skip(u, LineEnd(u, p)).pos;
    a := Skip(u, c + 1).pos;
    cm := Separator(u, a, '}').comma;
  }

  /** And only then is it. */
  lemma {:induction false} SlashOnly(u: string, q: nat, key: string, k: nat, p: nat, g: Field, cl: nat, cm: bool)
    requires CharAt(u, q, '"') && k < |u| && ReadField(u, q) == ReadValue(u, q, key, k)
    requires p <= |u| && Skip(u, k + 1) == Skip(u, LineEnd(u, p))
    requires ReadItem(u, q) == Body([g], cl, cm) && Slice(u, g.value) == "/"
    ensures SlashClose(u, p) == At(cl + 1)
  {
    var a := LastCloses(u, q, g, cl, cm);
    ValueParts(u, q, key, k, g, a);
    SliceIsSlash(u, g.value.start, g.value.end);
    SlashValue(u, g.value.start);
  }

  lemma {:induction false} SliceIsSlash(u: string, s: nat, e: nat)
    requires s < e <= |u| && Slice(u, Span(s, e)) == "/"
    ensures e == s + 1 && u[s] == '/'
  {
    assert |Slice(u, Span(s, e))| == e - s && Slice(u, Span(s, e))[0] == u[s];
  }
}
