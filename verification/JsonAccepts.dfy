/** The scanner accepts no more than the grammar: whatever it takes for a value is the
    print of a tree. Together with the reading of trees this says exactly which texts
    are values, and where they end. */
module JsonAccepts {
  import opened Basics
  import opened JsonScan
  import opened JsonString
  import opened JsonGrammar

  // ---- Places put together ---------------------------------------------------------

  lemma {:induction false} Glue(t: string, i: nat, x: string, m: nat, y: string, j: nat)
    requires Stands(t, i, x, m) && Stands(t, m, y, j)
    ensures Stands(t, i, x + y, j)
  {
    assert t[i..j] == t[i..m] + t[m..j];
  }

  lemma {:induction false} GlueChar(t: string, i: nat, y: string, j: nat)
    requires i < |t| && Stands(t, i + 1, y, j)
    ensures Stands(t, i, [t[i]] + y, j)
  {
    assert t[i..i + 1] == [t[i]];
    Glue(t, i, [t[i]], i + 1, y, j);
  }

  // ---- Gaps ------------------------------------------------------------------------

  lemma {:induction false} LineText(t: string, i: nat, n: nat)
    requires i <= |t| && LineEnd(t, i) == n
    ensures forall k :: 0 <= k < |t[i..n]| ==> t[i..n][k] != '\n'
    ensures n < |t| ==> t[n] == '\n'
    decreases |t| - i
  {
    if i < |t| && t[i] != '\n' {
      LineText(t, i + 1, n);
      assert t[i..n] == [t[i]] + t[i + 1..n];
    }
  }

  lemma {:induction false} BlockText(t: string, i: nat, n: nat)
    requires i <= |t| && BlockEnd(t, i) == At(n + 2)
    ensures i <= n && n + 2 <= |t| && t[n] == '*' && t[n + 1] == '/'
    ensures forall k :: i <= k < n ==> !(t[k] == '*' && t[k + 1] == '/')
    decreases |t| - i
  {
    if !(t[i] == '*' && t[i + 1] == '/') {
      BlockText(t, i + 1, n);
    }
  }

  lemma {:induction false} AddPiece(t: string, i: nat, p: Piece, m: nat, g: Gap, j: nat) returns (h: Gap)
    requires IsPiece(p) && Stands(t, i, PrintPiece(p), m) && IsGap(g) && Stands(t, m, PrintGap(g), j)
    ensures h == [p] + g && IsGap(h) && Stands(t, i, PrintGap(h), j)
  {
    h := [p] + g;
    assert h[1..] == g;
    Glue(t, i, PrintPiece(p), m, PrintGap(g), j);
  }

  lemma {:induction false} LinePiece(t: string, i: nat, n: nat) returns (p: Piece)
    requires CommentAt(t, i, '/') && LineEnd(t, i + 2) == n < |t|
    ensures IsPiece(p) && Stands(t, i, PrintPiece(p), n + 1)
  {
    LineText(t, i + 2, n);
    p := Line(t[i + 2..n]);
    assert t[i..n + 1] == "//" + (t[i + 2..n] + "\n");
  }

  lemma {:induction false} BlockPiece(t: string, i: nat, n: nat) returns (p: Piece)
    requires CommentAt(t, i, '*') && BlockEnd(t, i + 2) == At(n)
    ensures IsPiece(p) && Stands(t, i, PrintPiece(p), n)
  {
    var m: nat := n - 2;
    BlockText(t, i + 2, m);
    var x := t[i + 2..m];
    forall k | 0 <= k < |x| - 1 ensures !(x[k] == '*' && x[k + 1] == '/') {
      assert x[k] == t[i + 2 + k] && x[k + 1] == t[i + 2 + k + 1];
    }
    p := Block(x);
    assert t[i..n] == "/*" + (x + "*/");
  }

  /** What the scanner skips is a gap. */
  lemma {:induction false} GapTree(t: string, i: nat, j: nat) returns (g: Gap)
    requires i <= |t| && Skip(t, i) == At(j) && j < |t|
    ensures IsGap(g) && Stands(t, i, PrintGap(g), j)
    ensures i < |t| && t[i] != '/' ==> g == [] || g[0].Space?
    decreases |t| - i
  {
    if IsBlank(t[i]) {
      var rest := GapTree(t, i + 1, j);
      g := SpaceTree(t, i, rest, j);
    } else if CommentAt(t, i, '/') {
      var p, n := LineComment(t, i, j);
      var rest := GapTree(t, n, j);
      g := AddPiece(t, i, p, n, rest, j);
    } else if CommentAt(t, i, '*') {
      var p, n := BlockComment(t, i, j);
      var rest := GapTree(t, n, j);
      g := AddPiece(t, i, p, n, rest, j);
    } else {
      g := [];
    }
  }

  lemma {:induction false} SpaceTree(t: string, i: nat, rest: Gap, j: nat) returns (g: Gap)
    requires i < |t| && White(t[i]) && IsGap(rest) && Stands(t, i + 1, PrintGap(rest), j)
    ensures IsGap(g) && g != [] && g[0].Space? && Stands(t, i, PrintGap(g), j)
  {
    assert t[i..i + 1] == [t[i]];
    g := AddPiece(t, i, Space(t[i]), i + 1, rest, j);
  }

  lemma {:induction false} LineComment(t: string, i: nat, j: nat) returns (p: Piece, n: nat)
    requires CommentAt(t, i, '/') && Skip(t, i) == At(j) && j < |t|
    ensures IsPiece(p) && i < n <= |t| && Stands(t, i, PrintPiece(p), n) && Skip(t, n) == At(j)
  {
    var m := LineEnd(t, i + 2);
    LineText(t, i + 2, m);
    n := PastLine(t, m, j);
    p := LinePiece(t, i, m);
  }

  lemma {:induction false} PastLine(t: string, m: nat, j: nat) returns (n: nat)
    requires m <= |t| && Skip(t, m) == At(j) && j < |t| && (m < |t| ==> t[m] == '\n')
    ensures n == m + 1 <= |t| && Skip(t, n) == At(j)
  {
    n := m + 1;
  }

  lemma {:induction false} BlockComment(t: string, i: nat, j: nat) returns (p: Piece, n: nat)
    requires CommentAt(t, i, '*') && Skip(t, i) == At(j) && j < |t|
    ensures IsPiece(p) && i < n <= |t| && Stands(t, i, PrintPiece(p), n) && Skip(t, n) == At(j)
  {
    n := BlockEnd(t, i + 2).pos;
    p := BlockPiece(t, i, n);
  }

  // ---- Strings and words -----------------------------------------------------------

  lemma {:induction false} BodyTree(t: string, i: nat, e: nat)
    requires i <= |t| && StringBody(t, i, false) == At(e)
    ensures i < e <= |t| && t[e - 1] == '"' && IsBody(t[i..e - 1])
    decreases |t| - i
  {
    if t[i] != '"' {
      if t[i] == '\\' {
        assert StringBody(t, i, false) == StringBody(t, i + 1, true) == StringBody(t, i + 2, false);
        BodyTree(t, i + 2, e);
        assert t[i..e - 1][2..] == t[i + 2..e - 1];
      } else {
        BodyTree(t, i + 1, e);
        assert t[i..e - 1][1..] == t[i + 1..e - 1];
      }
    }
  }

  lemma {:induction false} QuotedTree(t: string, s: nat, e: nat) returns (body: string)
    requires s <= |t| && StringEnd(t, s) == At(e)
    ensures IsBody(body) && Stands(t, s, Quote(body), e)
  {
    BodyTree(t, s + 1, e);
    body := t[s + 1..e - 1];
    assert t[s..e] == Quote(body);
  }

  lemma {:induction false} WordText(t: string, i: nat, e: nat)
    requires i <= |t| && ScalarEnd(t, i) == e
    ensures (forall k :: i <= k < e ==> !Ends(t[k])) && (e < |t| ==> Ends(t[e]))
    decreases |t| - i
  {
    if i < e {
      WordText(t, i + 1, e);
    }
  }

  lemma {:induction false} WordTree(t: string, s: nat, e: nat)
    requires s < |t| && Stops(t, s) && t[s] != '"' && t[s] != '{' && t[s] != '[' && RawEnd(t, s) == At(e)
    ensures IsWord(t[s..e]) && (e < |t| ==> Ends(t[e]))
  {
    WordText(t, s + 1, e);
    var x := t[s..e];
    forall k | 1 <= k < |x| ensures !Ends(x[k]) {
      assert x[k] == t[s + k];
    }
  }

  // ---- Whole values ----------------------------------------------------------------

  lemma {:induction false} GlueThree(t: string, i: nat, x: string, c: nat, y: string, b: nat, z: string, a: nat,
      rest: string, j: nat)
    requires Stands(t, i, x, c) && Stands(t, c, y, b) && Stands(t, b, z, a) && Stands(t, a, rest, j)
    ensures Stands(t, i, x + (y + (z + rest)), j)
  {
    Glue(t, b, z, a, rest, j);
    Glue(t, c, y, b, z + rest, j);
    Glue(t, i, x, c, y + (z + rest), j);
  }

  lemma {:induction false} Enclose(t: string, s: nat, x: string, cl: nat, e: nat)
    requires s < |t| && Stands(t, s + 1, x, cl) && cl < |t| && e == cl + 1
    ensures Stands(t, s, [t[s]] + x + [t[cl]], e)
  {
    GlueChar(t, s, x, cl);
    assert t[cl..e] == [t[cl]];
    Glue(t, s, [t[s]] + x, cl, [t[cl]], e);
  }

  /** Every value that the scanner reads is a tree. */
  lemma {:induction false} ValueTree(t: string, s: nat, e: nat) returns (v: Value)
    requires s < |t| && Stops(t, s) && RawEnd(t, s) == At(e)
    ensures IsTree(v) && Stands(t, s, Print(v), e) && Followed(v, t, e)
    ensures v.Word? ==> v.text != "" && v.text[0] == t[s]
    decreases |t| - s, 1
  {
    if t[s] == '"' {
      var body := QuotedTree(t, s, e);
      v := Quoted(body);
    } else if t[s] == '[' {
      v := ListTree(t, s, e);
    } else if t[s] == '{' {
      v := RecordTree(t, s, e);
    } else {
      WordTree(t, s, e);
      v := Word(t[s..e]);
    }
  }

  lemma {:induction false} ListTree(t: string, s: nat, e: nat) returns (v: Value)
    requires CharAt(t, s, '[') && RawEnd(t, s) == At(e)
    ensures v.List? && IsTree(v) && Stands(t, s, Print(v), e)
    decreases |t| - s, 0
  {
    var y := s + 1;
    var c := Opens(t, s, y);
    BracketIs(t, s, y, c);
    var items, cl := InList(t, y, c, e);
    Enclose(t, s, PrintItems(items), cl, e);
    v := List(items);
  }

  lemma {:induction false} RecordTree(t: string, s: nat, e: nat) returns (v: Value)
    requires CharAt(t, s, '{') && RawEnd(t, s) == At(e)
    ensures v.Record? && IsTree(v) && Stands(t, s, Print(v), e)
    decreases |t| - s, 0
  {
    var y := s + 1;
    var c := Opens(t, s, y);
    BraceIs(t, s, y, c);
    var members, cl := InRecord(t, y, c, e);
    Enclose(t, s, PrintMembers(members), cl, e);
    v := Record(members);
  }

  /** From an opening bracket or a comma to the closing bracket. */
  lemma {:induction false} InList(t: string, y: nat, c: nat, e: nat) returns (items: Items, cl: nat)
    requires y <= |t| && Skip(t, y) == At(c)
    requires if CharAt(t, c, ']') then e == c + 1 else ElementsEnd(t, c) == At(e)
    ensures cl + 1 == e && CharAt(t, cl, ']') && AreItems(items) && Stands(t, y, PrintItems(items), cl)
    decreases |t| - c, 4
  {
    if CharAt(t, c, ']') {
      var g := GapTree(t, y, c);
      items, cl := NoItem(g), c;
    } else {
      var a := ElementsParts(t, c, e);
      var c', b := AfterParts(t, c, a);
      items, cl := ItemsTree(t, y, c, b, a, e);
    }
  }

  lemma {:induction false} InRecord(t: string, y: nat, c: nat, e: nat) returns (members: Members, cl: nat)
    requires y <= |t| && Skip(t, y) == At(c)
    requires if CharAt(t, c, '}') then e == c + 1 else MembersEnd(t, c) == At(e)
    ensures cl + 1 == e && CharAt(t, cl, '}') && AreMembers(members) && Stands(t, y, PrintMembers(members), cl)
    decreases |t| - c, 4
  {
    if CharAt(t, c, '}') {
      var g := GapTree(t, y, c);
      members, cl := NoMember(g), c;
    } else {
      var a := MembersParts(t, c, e);
      var w := KeyParts(t, c, a);
      members, cl := MembersTree(t, y, w, e);
    }
  }

  /** A value read at `c`, with what stands behind it. */
  lemma {:induction false} ValueAfterTree(t: string, x: nat, c: nat, b: nat, a: nat)
      returns (before: Gap, v: Value, after: Gap)
    requires x <= |t| && Skip(t, x) == At(c) && c < |t| && RawEnd(t, c) == At(b) && Skip(t, b) == At(a) && a < |t|
    ensures IsGap(before) && IsTree(v) && IsGap(after) && Parted(v, after)
    ensures Stands(t, x, PrintGap(before), c) && Stands(t, c, Print(v), b) && Stands(t, b, PrintGap(after), a)
    ensures v.Word? ==> v.text != "" && v.text[0] == t[c]
    decreases |t| - c, 2
  {
    before := GapTree(t, x, c);
    v := ValueTree(t, c, b);
    after := GapTree(t, b, a);
  }

  lemma {:induction false} AfterParts(t: string, x: nat, a: nat) returns (c: nat, b: nat)
    requires x <= |t| && ValueAfter(t, x) == At(a)
    ensures Skip(t, x) == At(c) && c < |t| && RawEnd(t, c) == At(b) && Skip(t, b) == At(a) && x < b <= a <= |t|
    ensures Skip(t, c) == At(c)
  {
    c := Skip(t, x).pos;
    b := RawEnd(t, c).pos;
  }

  /** The closing character stands at `a`, or a comma with more behind it. */
  ghost predicate ElementsTail(t: string, a: nat, y: nat, e: nat) {
    a < |t| && y == a + 1 &&
    if t[a] != ',' then t[a] == ']' && e == y
    else Skip(t, y).At? && var n := Skip(t, y).pos; if CharAt(t, n, ']') then e == n + 1 else ElementsEnd(t, n) == At(e)
  }

  lemma {:induction false} ElementsParts(t: string, c: nat, e: nat) returns (a: nat)
    requires c <= |t| && ElementsEnd(t, c) == At(e)
    ensures ValueAfter(t, c) == At(a) && c < a && ElementsTail(t, a, a + 1, e)
  {
    a := ValueAfter(t, c).pos;
  }

  lemma {:induction false} ItemsTree(t: string, x: nat, c: nat, b: nat, a: nat, e: nat) returns (items: Items, cl: nat)
    requires x <= |t| && Skip(t, x) == At(c) && c < |t| && t[c] != ']' && RawEnd(t, c) == At(b) && Skip(t, b) == At(a)
    requires ElementsTail(t, a, a + 1, e)
    ensures cl + 1 == e && CharAt(t, cl, ']') && AreItems(items) && Stands(t, x, PrintItems(items), cl)
    decreases |t| - c, 3
  {
    var before, v, after := ValueAfterTree(t, x, c, b, a);
    var rest;
    rest, cl := MoreItemsTree(t, c, a, a + 1, e);
    items := Item(before, v, after, rest);
    GlueItem(t, x, items, c, b, a, cl);
  }

  lemma {:induction false} GlueItem(t: string, x: nat, items: Items, c: nat, b: nat, a: nat, cl: nat)
    requires items.Item? && Stands(t, x, PrintGap(items.before), c) && Stands(t, c, Print(items.value), b)
    requires Stands(t, b, PrintGap(items.after), a) && Stands(t, a, PrintMoreItems(items.rest), cl)
    ensures Stands(t, x, PrintItems(items), cl)
  {
    GlueThree(t, x, PrintGap(items.before), c, Print(items.value), b, PrintGap(items.after), a,
        PrintMoreItems(items.rest), cl);
  }

  lemma {:induction false} MoreItemsTree(t: string, c: nat, a: nat, y: nat, e: nat)
      returns (rest: Option<Items>, cl: nat)
    requires c < a && y == a + 1 && ElementsTail(t, a, y, e)
    ensures (rest.Some? ==> AreItems(rest.value)) && cl + 1 == e && CharAt(t, cl, ']')
    ensures Stands(t, a, PrintMoreItems(rest), cl)
    decreases |t| - c, 1
  {
    if t[a] == ']' {
      rest, cl := None, a;
    } else {
      var items;
      items, cl := InList(t, y, Skip(t, y).pos, e);
      GlueChar(t, a, PrintItems(items), cl);
      rest := Some(items);
    }
  }

  /** The closing character stands at `a`, or a comma with more behind it. */
  ghost predicate MembersTail(t: string, a: nat, y: nat, e: nat) {
    a < |t| && y == a + 1 &&
    if t[a] != ',' then t[a] == '}' && e == y
    else Skip(t, y).At? && var n := Skip(t, y).pos; if CharAt(t, n, '}') then e == n + 1 else MembersEnd(t, n) == At(e)
  }

  lemma {:induction false} MembersParts(t: string, c: nat, e: nat) returns (a: nat)
    requires c <= |t| && MembersEnd(t, c) == At(e)
    ensures MemberAfter(t, c) == At(a) && c < a && MembersTail(t, a, a + 1, e)
  {
    a := MemberAfter(t, c).pos;
  }

  lemma {:induction false} KeyParts(t: string, c: nat, a: nat) returns (w: Places)
    requires c <= |t| && MemberAfter(t, c) == At(a)
    ensures w.key == c && w.after == a && ReadAt(t, w)
  {
    var k := StringEnd(t, c).pos;
    var colon := Skip(t, k).pos;
    var s, b := AfterParts(t, colon + 1, a);
    w := Places(c, k, colon, s, b, a);
  }

  /** A member as the scanner reads it. */
  ghost predicate ReadAt(t: string, w: Places) {
    && w.key < w.keyEnd <= w.colon < w.value < w.end <= w.after <= |t|
    && StringEnd(t, w.key) == At(w.keyEnd) && Skip(t, w.keyEnd) == At(w.colon) && t[w.colon] == ':'
    && Skip(t, w.colon + 1) == At(w.value) && RawEnd(t, w.value) == At(w.end) && Skip(t, w.end) == At(w.after)
  }

  lemma {:induction false} MembersTree(t: string, x: nat, w: Places, e: nat) returns (members: Members, cl: nat)
    requires x <= |t| && Skip(t, x) == At(w.key) && ReadAt(t, w) && MembersTail(t, w.after, w.after + 1, e)
    ensures cl + 1 == e && CharAt(t, cl, '}') && AreMembers(members) && Stands(t, x, PrintMembers(members), cl)
    decreases |t| - w.key, 3
  {
    var ms := MemberTree(t, x, w);
    var rest;
    rest, cl := MoreMembersTree(t, w.key, w.after, w.after + 1, e);
    members := WithRest(t, x, ms, w, rest, cl);
  }

  lemma {:induction false} WithRest(t: string, x: nat, one: Members, w: Places, rest: Option<Members>, cl: nat)
      returns (ms: Members)
    requires one.Member? && AreMembers(one) && PlacedAt(t, x, one, w, w.after)
    requires (rest.Some? ==> AreMembers(rest.value)) && Stands(t, w.after, PrintMoreMembers(rest), cl)
    ensures AreMembers(ms) && Stands(t, x, PrintMembers(ms), cl)
  {
    ms := one.(rest := rest);
    GlueMember(t, x, ms, w, cl);
  }

  lemma {:induction false} MemberTree(t: string, x: nat, w: Places) returns (ms: Members)
    requires x <= |t| && Skip(t, x) == At(w.key) && ReadAt(t, w) && w.after < |t|
    ensures ms.Member? && ms.rest.None? && AreMembers(ms) && PlacedAt(t, x, ms, w, w.after)
    decreases |t| - w.key, 2
  {
    var before, key, gap := KeyTree(t, x, w.key, w.keyEnd, w.colon);
    var behind, v, after := ValueAfterTree(t, w.colon + 1, w.value, w.end, w.after);
    ms := Member(before, key, gap, behind, v, after, None);
  }

  lemma {:induction false} KeyTree(t: string, x: nat, c: nat, k: nat, colon: nat)
      returns (before: Gap, key: string, gap: Gap)
    requires x <= |t| && Skip(t, x) == At(c) && c < |t| && StringEnd(t, c) == At(k) && Skip(t, k) == At(colon)
    requires colon < |t|
    ensures IsGap(before) && IsBody(key) && IsGap(gap)
    ensures Stands(t, x, PrintGap(before), c) && Stands(t, c, Quote(key), k) && Stands(t, k, PrintGap(gap), colon)
  {
    before := GapTree(t, x, c);
    key := QuotedTree(t, c, k);
    gap := GapTree(t, k, colon);
  }

  lemma {:induction false} GlueMember(t: string, x: nat, ms: Members, w: Places, cl: nat)
    requires ms.Member? && PlacedAt(t, x, ms, w, cl)
    ensures Stands(t, x, PrintMembers(ms), cl)
  {
    var back := PrintGap(ms.behind) + (Print(ms.value) + (PrintGap(ms.after) + PrintMoreMembers(ms.rest)));
    GlueThree(t, w.colon + 1, PrintGap(ms.behind), w.value, Print(ms.value), w.end, PrintGap(ms.after), w.after,
        PrintMoreMembers(ms.rest), cl);
    GlueChar(t, w.colon, back, cl);
    GlueThree(t, x, PrintGap(ms.before), w.key, Quote(ms.key), w.keyEnd, PrintGap(ms.colon), w.colon, ":" + back, cl);
  }

  lemma {:induction false} MoreMembersTree(t: string, c: nat, a: nat, y: nat, e: nat)
      returns (rest: Option<Members>, cl: nat)
    requires c < a && y == a + 1 && MembersTail(t, a, y, e)
    ensures (rest.Some? ==> AreMembers(rest.value)) && cl + 1 == e && CharAt(t, cl, '}')
    ensures Stands(t, a, PrintMoreMembers(rest), cl)
    decreases |t| - c, 1
  {
    if t[a] == '}' {
      rest, cl := None, a;
    } else {
      var members;
      members, cl := InRecord(t, y, Skip(t, y).pos, e);
      GlueChar(t, a, PrintMembers(members), cl);
      rest := Some(members);
    }
  }

  // ---- Exactly the trees -----------------------------------------------------------

  /** A gap and a value stand in `t` from `i` to `e`, and the value ends there. */
  ghost predicate HoldsValue(t: string, i: nat, e: nat) {
    exists g: Gap, s: nat, v: Value ::
      && IsGap(g) && Stands(t, i, PrintGap(g), s)
      && IsTree(v) && Stands(t, s, Print(v), e) && Followed(v, t, e)
  }

  /** The scanner finds the end of a value exactly where the print of a tree ends. */
  lemma {:induction false} ScannerLaw(t: string, i: nat, e: nat)
    requires i <= |t|
    ensures ValueEnd(t, i) == At(e) <==> HoldsValue(t, i, e)
  {
    if HoldsValue(t, i, e) {
      var g: Gap, s: nat, v: Value :| IsGap(g) && Stands(t, i, PrintGap(g), s)
        && IsTree(v) && Stands(t, s, Print(v), e) && Followed(v, t, e);
      ValueRead(t, s, v, e);
      GapEnds(t, i, g, s);
    }
    if ValueEnd(t, i) == At(e) {
      var s := Skip(t, i).pos;
      var g := GapTree(t, i, s);
      var v := ValueTree(t, s, e);
    }
  }
}
