/** Locality of the scanners: what a scanner reads is the stretch of text it
    covers and nothing else, so moving that stretch moves its answer. A primed
    position is the place in `u` of the unprimed position in `t`. */
module JsonFrame {
  import opened JsonScan

  /** Text `t` on `[i..j)` reappears in `u` from `i'` on. */
  ghost predicate Same(t: string, u: string, i: nat, j: nat, i': nat) {
    && i <= j <= |t| && i' + (j - i) <= |u|
    && forall k :: i <= k < j ==> t[k] == u[k + (i' - i)]
  }

  /** The stretches `[i..j)` and `[i'..j')` have one length. */
  ghost predicate Aligned(i: int, j: int, i': int, j': int) { i' - i == j' - j }

  lemma {:induction false} SameChar(t: string, u: string, i: nat, j: nat, i': nat, k: nat, k': nat)
    requires Same(t, u, i, j, i') && i <= k < j && Aligned(i, k, i', k')
    ensures k' < |u| && t[k] == u[k']
  {
  }

  lemma {:induction false} SamePart(t: string, u: string, i: nat, j: nat, i': nat, k: nat, l: nat, k': nat)
    requires Same(t, u, i, j, i') && i <= k <= l <= j && Aligned(i, k, i', k')
    ensures Same(t, u, k, l, k')
  {
  }

  lemma {:induction false} LineFrame(t: string, u: string, i: nat, j: nat, i': nat, e: nat, e': nat)
    requires Same(t, u, i, j, i') && LineEnd(t, i) == e < j && Aligned(i, e, i', e')
    ensures LineEnd(u, i') == e'
    decreases j - i
  {
    assert t[i] == u[i'];
    if t[i] != '\n' {
      LineFrame(t, u, i + 1, j, i' + 1, e, e');
    }
  }

  lemma {:induction false} BlockFrame(t: string, u: string, i: nat, j: nat, i': nat, e: nat, e': nat)
    requires Same(t, u, i, j, i')
    requires BlockEnd(t, i) == At(e) && e <= j && Aligned(i, e, i', e')
    ensures BlockEnd(u, i') == At(e')
    decreases j - i
  {
    assert t[i] == u[i'] && t[i + 1] == u[i' + 1];
    if !(t[i] == '*' && t[i + 1] == '/') {
      BlockFrame(t, u, i + 1, j, i' + 1, e, e');
    }
  }

  /** A skip that met a character keeps its answer wherever its stretch goes, as
      long as the character it now meets also ends a skip. */
  lemma {:induction false} SkipFrame(t: string, u: string, i: nat, j: nat, i': nat, j': nat)
    requires i <= |t| && Skip(t, i) == At(j) && j < |t|
    requires Same(t, u, i, j, i') && Aligned(i, j, i', j') && j' < |u| && Stops(u, j')
    ensures Skip(u, i') == At(j')
    decreases |t| - i
  {
    if i < j {
      assert t[i] == u[i'];
      if IsBlank(t[i]) {
        SkipFrame(t, u, i + 1, j, i' + 1, j');
      } else if CommentAt(t, i, '/') {
        var e, e' := LineCommentFrame(t, u, i, j, i');
        SkipFrame(t, u, e, j, e', j');
      } else {
        var e, e' := BlockCommentFrame(t, u, i, j, i');
        SkipFrame(t, u, e, j, e', j');
      }
    }
  }

  lemma {:induction false} LineCommentFrame(t: string, u: string, i: nat, j: nat, i': nat) returns (e: nat, e': nat)
    requires i <= |t| && CommentAt(t, i, '/') && Skip(t, i) == At(j) && j < |t| && Same(t, u, i, j, i')
    ensures i + 2 <= e < j && Aligned(i, e, i', e') && LineEnd(t, i + 2) == e
    ensures CommentAt(u, i', '/') && LineEnd(u, i' + 2) == e' && Skip(t, e) == At(j)
  {
    e := LineEnd(t, i + 2);
    e' := e + (i' - i);
    LineEndStops(t, i + 2);
    assert t[i] == u[i'] && t[i + 1] == u[i' + 1];
    LineFrame(t, u, i + 2, j, i' + 2, e, e');
  }

  lemma {:induction false} BlockCommentFrame(t: string, u: string, i: nat, j: nat, i': nat) returns (e: nat, e': nat)
    requires i <= |t| && CommentAt(t, i, '*') && Skip(t, i) == At(j) && j < |t| && Same(t, u, i, j, i')
    ensures i + 2 <= e <= j && Aligned(i, e, i', e') && BlockEnd(t, i + 2) == At(e)
    ensures CommentAt(u, i', '*') && BlockEnd(u, i' + 2) == At(e') && Skip(t, e) == At(j)
  {
    e := BlockEnd(t, i + 2).pos;
    e' := e + (i' - i);
    assert t[i] == u[i'] && t[i + 1] == u[i' + 1];
    BlockFrame(t, u, i + 2, j, i' + 2, e, e');
  }

  lemma {:induction false} LineEndStops(t: string, i: nat)
    requires i <= |t|
    ensures LineEnd(t, i) < |t| ==> t[LineEnd(t, i)] == '\n'
    decreases |t| - i
  {
    if i < |t| && t[i] != '\n' {
      LineEndStops(t, i + 1);
    }
  }

  /** The skip before a character that cannot start a comment. */
  lemma {:induction false} SkipToChar(t: string, u: string, i: nat, j: nat, i': nat, j': nat)
    requires i <= |t| && Skip(t, i) == At(j) && j < |t| && t[j] != '/'
    requires Same(t, u, i, j + 1, i') && Aligned(i, j, i', j')
    ensures Skip(u, i') == At(j') && j' < |u| && u[j'] == t[j]
  {
    assert t[j] == u[j'];
    SkipFrame(t, u, i, j, i', j');
  }

  lemma {:induction false} StringBodyFrame(t: string, u: string, i: nat, escaped: bool, e: nat, i': nat, e': nat)
    requires i <= |t| && StringBody(t, i, escaped) == At(e)
    requires Same(t, u, i, e, i') && Aligned(i, e, i', e')
    ensures StringBody(u, i', escaped) == At(e')
    decreases |t| - i
  {
    assert t[i] == u[i'];
    if !(t[i] == '"' && !escaped) {
      StringBodyFrame(t, u, i + 1, t[i] == '\\' && !escaped, e, i' + 1, e');
    }
  }

  lemma {:induction false} StringFrame(t: string, u: string, i: nat, e: nat, i': nat, e': nat)
    requires i <= |t| && StringEnd(t, i) == At(e)
    requires Same(t, u, i, e, i') && Aligned(i, e, i', e')
    ensures StringEnd(u, i') == At(e')
  {
    assert t[i] == u[i'];
    StringBodyFrame(t, u, i + 1, false, e, i' + 1, e');
  }

  predicate EndsScalar(u: string, i: nat) { i < |u| ==> IsDelimiter(u[i]) }

  predicate SelfDelimited(c: char) { c == '"' || c == '{' || c == '[' }

  lemma {:induction false} ScalarFrame(t: string, u: string, i: nat, e: nat, i': nat, e': nat)
    requires i <= |t| && ScalarEnd(t, i) == e && Same(t, u, i, e, i') && Aligned(i, e, i', e')
    requires EndsScalar(u, e')
    ensures ScalarEnd(u, i') == e'
    decreases |t| - i
  {
    if i < |t| && !IsDelimiter(t[i]) {
      assert t[i] == u[i'];
      ScalarFrame(t, u, i + 1, e, i' + 1, e');
    }
  }

  lemma {:induction false} ScalarEndStops(t: string, i: nat)
    requires i <= |t|
    ensures EndsScalar(t, ScalarEnd(t, i))
    ensures forall k :: i <= k < ScalarEnd(t, i) ==> !IsDelimiter(t[k])
    decreases |t| - i
  {
    if i < |t| && !IsDelimiter(t[i]) {
      ScalarEndStops(t, i + 1);
    }
  }

  /** A value keeps its extent wherever it goes. A scalar needs a delimiter (or
      the end of the text) after it; strings, objects and arrays need nothing. */
  lemma {:induction false} RawFrame(t: string, u: string, s: nat, e: nat, s': nat, e': nat)
    requires s < |t| && RawEnd(t, s) == At(e)
    requires Same(t, u, s, e, s') && Aligned(s, e, s', e')
    requires SelfDelimited(t[s]) || EndsScalar(u, e')
    ensures s' < |u| && u[s'] == t[s] && RawEnd(u, s') == At(e')
    ensures Stops(t, s) ==> Stops(u, s')
    decreases |t| - s, 0
  {
    assert t[s] == u[s'];
    if s + 1 < e {
      assert t[s + 1] == u[s' + 1];
    }
    if t[s] == '"' {
      StringFrame(t, u, s, e, s', e');
    } else if t[s] == '{' {
      ObjectFrame(t, u, s, e, s', e');
    } else if t[s] == '[' {
      ArrayFrame(t, u, s, e, s', e');
    } else {
      ScalarFrame(t, u, s + 1, e, s' + 1, e');
    }
  }

  lemma {:induction false} ObjectFrame(t: string, u: string, s: nat, e: nat, s': nat, e': nat)
    requires CharAt(t, s, '{') && RawEnd(t, s) == At(e)
    requires Same(t, u, s, e, s') && Aligned(s, e, s', e')
    ensures CharAt(u, s', '{') && RawEnd(u, s') == At(e')
    decreases |t| - s, 0, 0
  {
    var b, b' := s + 1, s' + 1;
    var c := Opens(t, s, b);
    var c' := c + (s' - s);
    BraceIs(t, s, b, c);
    SameChar(t, u, s, e, s', s, s');
    if !CharAt(t, c, '}') {
      MemberStart(t, c);
      SamePart(t, u, s, e, s', c, e, c');
      MembersFrame(t, u, c, e, c', e');
    }
    SamePart(t, u, s, e, s', b, c + 1, b');
    SkipToChar(t, u, b, c, b', c');
    BraceIs(u, s', b', c');
  }

  lemma {:induction false} ArrayFrame(t: string, u: string, s: nat, e: nat, s': nat, e': nat)
    requires CharAt(t, s, '[') && RawEnd(t, s) == At(e)
    requires Same(t, u, s, e, s') && Aligned(s, e, s', e')
    ensures CharAt(u, s', '[') && RawEnd(u, s') == At(e')
    decreases |t| - s, 0, 0
  {
    var b, b' := s + 1, s' + 1;
    var c := Opens(t, s, b);
    var c' := c + (s' - s);
    BracketIs(t, s, b, c);
    SameChar(t, u, s, e, s', s, s');
    if CharAt(t, c, ']') {
      SamePart(t, u, s, e, s', b, e, b');
      SkipToChar(t, u, b, c, b', c');
    } else {
      SamePart(t, u, s, e, s', c, e, c');
      SamePart(t, u, s, e, s', b, c, b');
      ElementsFrame(t, u, c, e, c', e');
      SkipFrame(t, u, b, c, b', c');
      SameChar(t, u, s, e, s', c, c');
    }
    BracketIs(u, s', b', c');
  }

  lemma {:induction false} MemberStart(t: string, c: nat)
    requires c <= |t| && MembersEnd(t, c).At?
    ensures c < |t| && t[c] == '"'
  {
  }

  lemma {:induction false} ValueFrame(t: string, u: string, i: nat, s: nat, e: nat, i': nat, s': nat, e': nat)
    requires i <= |t| && Skip(t, i) == At(s) && ValueEnd(t, i) == At(e)
    requires Same(t, u, i, e, i') && Aligned(i, e, i', e') && Aligned(i, s, i', s')
    requires SelfDelimited(t[s]) || EndsScalar(u, e')
    ensures ValueEnd(u, i') == At(e') && Skip(u, i') == At(s') && s' < |u| && u[s'] == t[s]
    decreases |t| - i, 1
  {
    RawFrame(t, u, s, e, s', e');
    SkipFrame(t, u, i, s, i', s');
  }

  /** What follows a value that is not self-delimited, moved along with it. */
  lemma {:induction false} AfterRaw(t: string, u: string, s: nat, e: nat, s': nat, e': nat)
    requires s < |t| && RawEnd(t, s) == At(e) && e < |t|
    requires Same(t, u, s, e + 1, s') && Aligned(s, e, s', e')
    ensures SelfDelimited(t[s]) || EndsScalar(u, e')
  {
    if !SelfDelimited(t[s]) {
      ScalarEndStops(t, s + 1);
      assert t[e] == u[e'];
    }
  }

  lemma {:induction false} ColonFrame(t: string, u: string, c: nat, k: nat, c': nat, k': nat)
    requires c <= |t| && ColonAfter(t, c) == At(k)
    requires Same(t, u, c, k + 1, c') && Aligned(c, k, c', k')
    ensures ColonAfter(u, c') == At(k')
  {
    var q := StringEnd(t, c).pos;
    var q' := q + (c' - c);
    StringFrame(t, u, c, q, c', q');
    SkipToChar(t, u, q, k, q', k');
  }

  /** A value, the space after it and the separator that follows. */
  lemma {:induction false} ValueAfterFrame(t: string, u: string, i: nat, a: nat, i': nat, a': nat)
    requires i <= |t| && ValueAfter(t, i) == At(a) && a < |t| && t[a] != '/'
    requires Same(t, u, i, a + 1, i') && Aligned(i, a, i', a')
    ensures ValueAfter(u, i') == At(a')
    ensures Stops(t, i) ==> Stops(u, i')
    decreases |t| - i, 2
  {
    var s, e := Skip(t, i).pos, ValueEnd(t, i).pos;
    var s': nat, e': nat := s + (i' - i), e + (i' - i);
    SamePart(t, u, i, a + 1, i', s, e + 1, s');
    SamePart(t, u, i, a + 1, i', i, e, i');
    SamePart(t, u, i, a + 1, i', e, a + 1, e');
    AfterRaw(t, u, s, e, s', e');
    ValueFrame(t, u, i, s, e, i', s', e');
    SkipToChar(t, u, e, a, e', a');
    if Stops(t, i) {
      RawFrame(t, u, s, e, s', e');
    }
  }

  lemma {:induction false} MemberFrame(t: string, u: string, c: nat, a: nat, c': nat, a': nat)
    requires c <= |t| && MemberAfter(t, c) == At(a) && a < |t| && t[a] != '/'
    requires Same(t, u, c, a + 1, c') && Aligned(c, a, c', a')
    ensures MemberAfter(u, c') == At(a')
    decreases |t| - c, 2
  {
    var k := ColonAfter(t, c).pos;
    var k' := k + (c' - c);
    var v, v' := k + 1, k' + 1;
    assert ValueAfter(t, v) == At(a);
    ValueAfterFrame(t, u, v, a, v', a');
    ColonFrame(t, u, c, k, c', k');
  }

  lemma {:induction false} SeparatorClose(t: string, u: string, a: nat, close: char, e: nat, comma: bool, a': nat,
      e': nat)
    requires a <= |t| && Separator(t, a, close) == Close(e, comma) && close != '/'
    requires Same(t, u, a, e, a') && Aligned(a, e, a', e')
    ensures Separator(u, a', close) == Close(e', comma)
  {
    assert t[a] == u[a'];
    if comma {
      SkipToChar(t, u, a + 1, e - 1, a' + 1, e' - 1);
    }
  }

  lemma {:induction false} SeparatorMore(t: string, u: string, a: nat, close: char, n: nat, a': nat, n': nat)
    requires a <= |t| && Separator(t, a, close) == More(n)
    requires Same(t, u, a, n, a') && Aligned(a, n, a', n')
    requires n < |t| && n' < |u| && t[n] == u[n'] && Stops(u, n')
    ensures Separator(u, a', close) == More(n')
  {
    assert t[a] == u[a'];
    SkipFrame(t, u, a + 1, n, a' + 1, n');
  }

  lemma {:induction false} LastMemberFrame(t: string, u: string, c: nat, a: nat, comma: bool, e: nat, c': nat, e': nat)
    requires c <= |t| && MemberAfter(t, c) == At(a) && a <= |t| && Separator(t, a, '}') == Close(e, comma)
    requires Same(t, u, c, e, c') && Aligned(c, e, c', e')
    ensures MembersEnd(u, c') == At(e')
    decreases |t| - c, 3, 0
  {
    var a' := a + (c' - c);
    MemberFrame(t, u, c, a, c', a');
    SeparatorClose(t, u, a, '}', e, comma, a', e');
  }

  lemma {:induction false} NextMemberFrame(t: string, u: string, c: nat, a: nat, n: nat, c': nat, n': nat)
    requires c <= |t| && MemberAfter(t, c) == At(a) && a <= |t| && Separator(t, a, '}') == More(n)
    requires Same(t, u, c, n, c') && Aligned(c, n, c', n')
    requires CharAt(t, n, '"') && CharAt(u, n', '"')
    ensures MembersEnd(u, c') == MembersEnd(u, n')
    decreases |t| - c, 3, 0
  {
    var a' := a + (c' - c);
    MemberFrame(t, u, c, a, c', a');
    SeparatorMore(t, u, a, '}', n, a', n');
  }

  lemma {:induction false} MembersFrame(t: string, u: string, c: nat, e: nat, c': nat, e': nat)
    requires c <= |t| && MembersEnd(t, c) == At(e)
    requires Same(t, u, c, e, c') && Aligned(c, e, c', e')
    ensures MembersEnd(u, c') == At(e')
    decreases |t| - c, 4
  {
    var a := MemberAfter(t, c).pos;
    match Separator(t, a, '}') {
      case Close(_, comma) =>
        LastMemberFrame(t, u, c, a, comma, e, c', e');
      case More(n) =>
        var n' := n + (c' - c);
        MemberStart(t, n);
        SamePart(t, u, c, e, c', n, e, n');
        MembersFrame(t, u, n, e, n', e');
        MemberStart(u, n');
        SamePart(t, u, c, e, c', c, n, c');
        NextMemberFrame(t, u, c, a, n, c', n');
    }
  }

  lemma {:induction false} LastElementFrame(t: string, u: string, c: nat, a: nat, comma: bool, e: nat, c': nat, e': nat)
    requires c <= |t| && ValueAfter(t, c) == At(a) && a <= |t| && Separator(t, a, ']') == Close(e, comma)
    requires Same(t, u, c, e, c') && Aligned(c, e, c', e')
    ensures ElementsEnd(u, c') == At(e') && (Stops(t, c) ==> Stops(u, c'))
    decreases |t| - c, 3, 0
  {
    var a' := a + (c' - c);
    ValueAfterFrame(t, u, c, a, c', a');
    SeparatorClose(t, u, a, ']', e, comma, a', e');
  }

  lemma {:induction false} NextElementFrame(t: string, u: string, c: nat, a: nat, n: nat, c': nat, n': nat)
    requires c <= |t| && ValueAfter(t, c) == At(a) && a <= |t| && Separator(t, a, ']') == More(n)
    requires n < |t| && Same(t, u, c, n + 1, c') && Aligned(c, n, c', n') && Stops(u, n')
    ensures ElementsEnd(u, c') == ElementsEnd(u, n') && (Stops(t, c) ==> Stops(u, c'))
    decreases |t| - c, 3, 0
  {
    var a' := a + (c' - c);
    ValueAfterFrame(t, u, c, a, c', a');
    assert t[n] == u[n'];
    SeparatorMore(t, u, a, ']', n, a', n');
  }

  lemma {:induction false} ElementsFrame(t: string, u: string, c: nat, e: nat, c': nat, e': nat)
    requires c <= |t| && ElementsEnd(t, c) == At(e)
    requires Same(t, u, c, e, c') && Aligned(c, e, c', e')
    ensures ElementsEnd(u, c') == At(e') && (Stops(t, c) ==> Stops(u, c'))
    decreases |t| - c, 4
  {
    var a := ValueAfter(t, c).pos;
    match Separator(t, a, ']') {
      case Close(_, comma) =>
        LastElementFrame(t, u, c, a, comma, e, c', e');
      case More(n) =>
        var n' := n + (c' - c);
        ElementsFrame(t, u, n, e, n', e');
        NextElementFrame(t, u, c, a, n, c', n');
    }
  }
}
