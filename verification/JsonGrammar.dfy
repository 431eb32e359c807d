/** Documents as trees that print to text: values and their separators as in sections
    4, 5 and 7 of RFC 8259, with comments, trailing commas and any word for a scalar.
    The scanner ends a value exactly where such a tree is printed. */
module JsonGrammar {
  import opened Basics
  import opened JsonScan
  import opened JsonString

  // ---- Trees and how they are printed ---------------------------------------------

  predicate White(c: char) { c == ' ' || c == '\t' || c == '\n' || c == '\r' || c == '\U{000C}' }

  /** What may end a scalar. */
  predicate Ends(c: char) { c == ',' || c == '}' || c == ']' || White(c) }

  /** White space or a comment. */
  datatype Piece = Space(c: char) | Line(text: string) | Block(text: string)

  predicate IsPiece(p: Piece) {
    match p
    case Space(c) => White(c)
    case Line(x) => forall k :: 0 <= k < |x| ==> x[k] != '\n'
    case Block(x) => forall k :: 0 <= k < |x| - 1 ==> !(x[k] == '*' && x[k + 1] == '/')
  }

  function PrintPiece(p: Piece): string {
    match p
    case Space(c) => [c]
    case Line(x) => "//" + (x + "\n")
    case Block(x) => "/*" + (x + "*/")
  }

  type Gap = seq<Piece>

  predicate IsGap(g: Gap) { forall i :: 0 <= i < |g| ==> IsPiece(g[i]) }

  function PrintGap(g: Gap): string { if g == [] then "" else PrintPiece(g[0]) + PrintGap(g[1..]) }

  datatype Value =
    | Quoted(body: string)
    | Word(text: string)
    | List(items: Items)
    | Record(members: Members)

  /** What stands in brackets from one place on; an end behind a comma is a trailing comma. */
  datatype Items = NoItem(gap: Gap) | Item(before: Gap, value: Value, after: Gap, rest: Option<Items>)

  datatype Members =
    | NoMember(gap: Gap)
    | Member(before: Gap, key: string, colon: Gap, behind: Gap, value: Value, after: Gap, rest: Option<Members>)

  function Quote(body: string): string { "\"" + (body + "\"") }

  function Print(v: Value): string {
    match v
    case Quoted(body) => Quote(body)
    case Word(text) => text
    case List(items) => "[" + PrintItems(items) + "]"
    case Record(members) => "{" + PrintMembers(members) + "}"
  }

  function PrintItems(items: Items): string {
    match items
    case NoItem(gap) => PrintGap(gap)
    case Item(before, value, after, rest) =>
      PrintGap(before) + (Print(value) + (PrintGap(after) + PrintMoreItems(rest)))
  }

  function PrintMoreItems(rest: Option<Items>): string {
    match rest
    case None => ""
    case Some(items) => "," + PrintItems(items)
  }

  function PrintMembers(members: Members): string {
    match members
    case NoMember(gap) => PrintGap(gap)
    case Member(before, key, colon, behind, value, after, rest) =>
      PrintGap(before) + (Quote(key) + (PrintGap(colon) + (":" + (PrintGap(behind) + (Print(value) +
      (PrintGap(after) + PrintMoreMembers(rest)))))))
  }

  function PrintMoreMembers(rest: Option<Members>): string {
    match rest
    case None => ""
    case Some(members) => "," + PrintMembers(members)
  }

  /** No quote ends the string before its end: a backslash takes the next character along. */
  predicate IsBody(b: string) {
    || b == ""
    || (b[0] != '"' && b[0] != '\\' && IsBody(b[1..]))
    || (|b| >= 2 && b[0] == '\\' && IsBody(b[2..]))
  }

  predicate IsWord(x: string) {
    && x != "" && x[0] != '"' && x[0] != '{' && x[0] != '[' && !White(x[0])
    && !(|x| >= 2 && x[0] == '/' && (x[1] == '/' || x[1] == '*'))
    && forall k :: 1 <= k < |x| ==> !Ends(x[k])
  }

  /** A word runs on until something ends it, also through a comment. */
  predicate Parted(v: Value, after: Gap) { v.Word? && after != [] ==> after[0].Space? }

  predicate IsTree(v: Value) {
    match v
    case Quoted(body) => IsBody(body)
    case Word(text) => IsWord(text)
    case List(items) => AreItems(items)
    case Record(members) => AreMembers(members)
  }

  predicate AreItems(items: Items) {
    match items
    case NoItem(gap) => IsGap(gap)
    case Item(before, value, after, rest) =>
      && IsGap(before) && IsTree(value) && IsGap(after) && Parted(value, after)
      && !(value.Word? && value.text != "" && value.text[0] == ']')
      && (rest.Some? ==> AreItems(rest.value))
  }

  predicate AreMembers(members: Members) {
    match members
    case NoMember(gap) => IsGap(gap)
    case Member(before, key, colon, behind, value, after, rest) =>
      && IsGap(before) && IsBody(key) && IsGap(colon) && IsGap(behind) && IsTree(value) && IsGap(after)
      && Parted(value, after) && (rest.Some? ==> AreMembers(rest.value))
  }

  /** The text `x` stands in `t` from `i` to `j`. */
  ghost predicate Stands(t: string, i: nat, x: string, j: nat) { i + |x| == j <= |t| && t[i..j] == x }

  /** What may follow a value. */
  predicate Followed(v: Value, t: string, e: nat) { v.Word? && e < |t| ==> Ends(t[e]) }

  // ---- Places ----------------------------------------------------------------------

  lemma {:induction false} Split(t: string, i: nat, x: string, y: string, j: nat) returns (m: nat)
    requires Stands(t, i, x + y, j)
    ensures m == i + |x| && Stands(t, i, x, m) && Stands(t, m, y, j)
  {
    m := SplitText(t, i, j, x, y);
  }

  lemma {:induction false} CharHere(t: string, i: nat, x: string, j: nat, k: nat)
    requires Stands(t, i, x, j) && k < |x|
    ensures i + k < |t| && t[i + k] == x[k]
  {
    assert t[i..j][k] == t[i + k];
  }

  // ---- Gaps are skipped ------------------------------------------------------------

  lemma {:induction false} LineHere(t: string, i: nat, x: string, j: nat)
    requires Stands(t, i, x + "\n", j) && forall k :: 0 <= k < |x| ==> x[k] != '\n'
    ensures i < j && LineEnd(t, i) == j - 1 && CharAt(t, j - 1, '\n')
    decreases |x|
  {
    CharHere(t, i, x + "\n", j, 0);
    if x != "" {
      assert x + "\n" == [x[0]] + (x[1..] + "\n");
      var m := Split(t, i, [x[0]], x[1..] + "\n", j);
      LineHere(t, m, x[1..], j);
    }
  }

  lemma {:induction false} BlockHere(t: string, i: nat, x: string, j: nat)
    requires Stands(t, i, x + "*/", j) && forall k :: 0 <= k < |x| - 1 ==> !(x[k] == '*' && x[k + 1] == '/')
    ensures BlockEnd(t, i) == At(j)
    decreases |x|
  {
    CharHere(t, i, x + "*/", j, 0);
    CharHere(t, i, x + "*/", j, 1);
    if x != "" {
      assert x + "*/" == [x[0]] + (x[1..] + "*/");
      var m := Split(t, i, [x[0]], x[1..] + "*/", j);
      var y := x[1..];
      forall k | 0 <= k < |y| - 1 ensures !(y[k] == '*' && y[k + 1] == '/') {
        assert y[k] == x[k + 1] && y[k + 1] == x[k + 2];
      }
      BlockHere(t, m, y, j);
    }
  }

  lemma {:induction false} LineSkipped(t: string, i: nat, x: string, j: nat)
    requires IsPiece(Line(x)) && Stands(t, i, "//" + (x + "\n"), j)
    ensures Skip(t, i) == Skip(t, j)
  {
    var m := Split(t, i, "//", x + "\n", j);
    CharHere(t, i, "//", m, 0);
    CharHere(t, i, "//", m, 1);
    LineHere(t, m, x, j);
  }

  lemma {:induction false} BlockSkipped(t: string, i: nat, x: string, j: nat)
    requires IsPiece(Block(x)) && Stands(t, i, "/*" + (x + "*/"), j)
    ensures Skip(t, i) == Skip(t, j)
  {
    var m := Split(t, i, "/*", x + "*/", j);
    CharHere(t, i, "/*", m, 0);
    CharHere(t, i, "/*", m, 1);
    BlockHere(t, m, x, j);
  }

  lemma {:induction false} PieceSkipped(t: string, i: nat, p: Piece, j: nat)
    requires IsPiece(p) && Stands(t, i, PrintPiece(p), j)
    ensures Skip(t, i) == Skip(t, j)
  {
    match p {
      case Space(c) => CharHere(t, i, [c], j, 0);
      case Line(x) => LineSkipped(t, i, x, j);
      case Block(x) => BlockSkipped(t, i, x, j);
    }
  }

  lemma {:induction false} GapSkipped(t: string, i: nat, g: Gap, j: nat)
    requires IsGap(g) && Stands(t, i, PrintGap(g), j)
    ensures Skip(t, i) == Skip(t, j)
    decreases |g|
  {
    if g != [] {
      var m := Split(t, i, PrintPiece(g[0]), PrintGap(g[1..]), j);
      PieceSkipped(t, i, g[0], m);
      GapSkipped(t, m, g[1..], j);
    }
  }

  /** A gap in front of something that is not skipped. */
  lemma {:induction false} GapEnds(t: string, i: nat, g: Gap, j: nat)
    requires IsGap(g) && Stands(t, i, PrintGap(g), j) && Stops(t, j)
    ensures Skip(t, i) == At(j)
  {
    GapSkipped(t, i, g, j);
  }

  // ---- Strings and words -----------------------------------------------------------

  lemma {:induction false} BodyRead(t: string, i: nat, b: string, j: nat)
    requires IsBody(b) && Stands(t, i, b, j)
    ensures StringBody(t, i, false) == StringBody(t, j, false)
    decreases |b|
  {
    if b != "" {
      CharHere(t, i, b, j, 0);
      if b[0] != '\\' {
        assert b == [b[0]] + b[1..];
        var m := Split(t, i, [b[0]], b[1..], j);
        BodyRead(t, m, b[1..], j);
      } else {
        CharHere(t, i, b, j, 1);
        assert b == b[..2] + b[2..];
        var m := Split(t, i, b[..2], b[2..], j);
        assert StringBody(t, i, false) == StringBody(t, i + 1, true) == StringBody(t, i + 2, false);
        BodyRead(t, m, b[2..], j);
      }
    }
  }

  lemma {:induction false} QuotedRead(t: string, s: nat, b: string, e: nat)
    requires IsBody(b) && Stands(t, s, Quote(b), e)
    ensures StringEnd(t, s) == At(e) && CharAt(t, s, '"') && t[s..e] == Quote(b)
  {
    var x := Quote(b);
    CharHere(t, s, x, e, 0);
    CharHere(t, s, x, e, |x| - 1);
    var m := Split(t, s, "\"", b + "\"", e);
    var n := Split(t, m, b, "\"", e);
    BodyRead(t, m, b, n);
  }

  lemma {:induction false} WordRead(t: string, i: nat, j: nat)
    requires i <= j <= |t| && (forall k :: i <= k < j ==> !Ends(t[k])) && (j < |t| ==> Ends(t[j]))
    ensures ScalarEnd(t, i) == j
    decreases j - i
  {
    if i < j {
      WordRead(t, i + 1, j);
    }
  }

  lemma {:induction false} WordStarts(t: string, s: nat, x: string, e: nat)
    requires IsWord(x) && Stands(t, s, x, e) && (e < |t| ==> Ends(t[e]))
    ensures s < |t| && Stops(t, s) && RawEnd(t, s) == At(e)
  {
    CharHere(t, s, x, e, 0);
    if |x| > 1 {
      CharHere(t, s, x, e, 1);
    }
    forall k | s + 1 <= k < e ensures !Ends(t[k]) {
      CharHere(t, s, x, e, k - s);
    }
    WordRead(t, s + 1, e);
  }

  // ---- Whole values ----------------------------------------------------------------

  /** Where something of a tree is printed, the scanner has something to read. */
  predicate Starts(t: string, s: nat) { s < |t| && Stops(t, s) }

  lemma {:induction false} ValueRead(t: string, s: nat, v: Value, e: nat)
    requires IsTree(v) && Stands(t, s, Print(v), e) && Followed(v, t, e)
    ensures Starts(t, s) && RawEnd(t, s) == At(e)
    decreases v, 0
  {
    match v {
      case Quoted(body) => QuotedRead(t, s, body, e);
      case Word(text) => WordStarts(t, s, text, e);
      case List(items) => ListRead(t, s, items, e);
      case Record(members) => RecordRead(t, s, members, e);
    }
  }

  /** The parts of something between an opening and a closing character. */
  lemma {:induction false} Enclosed(t: string, s: nat, open: char, x: string, close: char, e: nat) returns (cl: nat)
    requires Stands(t, s, [open] + x + [close], e)
    ensures cl + 1 == e && Stands(t, s + 1, x, cl) && CharAt(t, s, open) && CharAt(t, cl, close)
  {
    var m := Split(t, s, [open] + x, [close], e);
    CharHere(t, m, [close], e, 0);
    var n := Split(t, s, [open], x, m);
    CharHere(t, s, [open], n, 0);
    cl := m;
  }

  lemma {:induction false} ListRead(t: string, s: nat, items: Items, e: nat)
    requires AreItems(items) && Stands(t, s, "[" + PrintItems(items) + "]", e)
    ensures Starts(t, s) && RawEnd(t, s) == At(e)
    decreases items, 2
  {
    var cl := Enclosed(t, s, '[', PrintItems(items), ']', e);
    var c := ItemsRead(t, s + 1, items, cl);
    BracketIs(t, s, s + 1, c);
  }

  /** A value with what stands around it, up to a comma or a closing character. */
  lemma {:induction false} ValueBetween(t: string, x: nat, before: Gap, v: Value, after: Gap, c: nat, b: nat, a: nat)
    requires IsGap(before) && IsTree(v) && IsGap(after) && Parted(v, after)
    requires Stands(t, x, PrintGap(before), c) && Stands(t, c, Print(v), b) && Stands(t, b, PrintGap(after), a)
    requires a < |t| && (t[a] == ',' || t[a] == ']' || t[a] == '}')
    ensures Skip(t, x) == At(c) && Starts(t, c) && RawEnd(t, c) == At(b) && Skip(t, b) == At(a)
    decreases v, 1
  {
    PartedFollows(t, b, v, after, a);
    ValueRead(t, c, v, b);
    GapEnds(t, x, before, c);
    GapEnds(t, b, after, a);
  }

  lemma {:induction false} PartedFollows(t: string, b: nat, v: Value, after: Gap, a: nat)
    requires IsGap(after) && Parted(v, after) && Stands(t, b, PrintGap(after), a) && a < |t| && Ends(t[a])
    ensures Followed(v, t, b)
  {
    if v.Word? && after != [] {
      assert IsPiece(after[0]);
      CharHere(t, b, PrintGap(after), a, 0);
    }
  }

  lemma {:induction false} AfterIs(t: string, x: nat, c: nat, b: nat, a: nat)
    requires x <= |t| && Skip(t, x) == At(c) && c < |t| && RawEnd(t, c) == At(b) && Skip(t, b) == At(a)
    ensures ValueAfter(t, x) == At(a)
  {
    assert ValueEnd(t, x) == At(b);
  }

  lemma {:induction false} FirstChar(t: string, c: nat, v: Value, b: nat)
    requires IsTree(v) && Stands(t, c, Print(v), b) && !(v.Word? && v.text != "" && v.text[0] == ']')
    ensures !CharAt(t, c, ']')
  {
    CharHere(t, c, Print(v), b, 0);
  }

  /** What an element is followed by decides about the rest of the array. */
  lemma {:induction false} ElementsGoOn(t: string, c: nat, a: nat, y: nat, n: nat)
    requires c <= |t| && ValueAfter(t, c) == At(a) && CharAt(t, a, ',') && y == a + 1 && Skip(t, y) == At(n)
    ensures ElementsEnd(t, c) == if CharAt(t, n, ']') then At(n + 1) else ElementsEnd(t, n)
  {
  }

  lemma {:induction false} ElementsStop(t: string, c: nat, a: nat)
    requires c <= |t| && ValueAfter(t, c) == At(a) && CharAt(t, a, ']')
    ensures ElementsEnd(t, c) == At(a + 1)
  {
  }

  lemma {:induction false} MembersGoOn(t: string, c: nat, a: nat, y: nat, n: nat)
    requires c <= |t| && MemberAfter(t, c) == At(a) && CharAt(t, a, ',') && y == a + 1 && Skip(t, y) == At(n)
    ensures MembersEnd(t, c) == if CharAt(t, n, '}') then At(n + 1) else MembersEnd(t, n)
  {
  }

  lemma {:induction false} MembersStop(t: string, c: nat, a: nat)
    requires c <= |t| && MemberAfter(t, c) == At(a) && CharAt(t, a, '}')
    ensures MembersEnd(t, c) == At(a + 1)
  {
  }

  lemma {:induction false} ItemsRead(t: string, x: nat, items: Items, cl: nat) returns (c: nat)
    requires AreItems(items) && Stands(t, x, PrintItems(items), cl) && CharAt(t, cl, ']')
    ensures Skip(t, x) == At(c) && c <= |t|
    ensures if items.NoItem? then c == cl else !CharAt(t, c, ']') && ElementsEnd(t, c) == At(cl + 1)
    decreases items, 1
  {
    match items {
      case NoItem(gap) =>
        GapEnds(t, x, gap, cl);
        c := cl;
      case Item(before, value, after, rest) =>
        var b, a;
        c, b, a := ItemParts(t, x, items, cl);
        RestStarts(t, a, PrintMoreItems(rest), cl);
        ValueBetween(t, x, before, value, after, c, b, a);
        AfterIs(t, c, c, b, a);
        FirstChar(t, c, value, b);
        MoreItemsRead(t, c, a, rest, cl);
    }
  }

  lemma {:induction false} MoreItemsRead(t: string, c: nat, a: nat, rest: Option<Items>, cl: nat)
    requires c <= |t| && ValueAfter(t, c) == At(a) && (rest.Some? ==> AreItems(rest.value))
    requires Stands(t, a, PrintMoreItems(rest), cl) && CharAt(t, cl, ']')
    ensures ElementsEnd(t, c) == At(cl + 1)
    decreases rest, 0
  {
    if rest.None? {
      ElementsStop(t, c, a);
    } else {
      var y := CommaFirst(t, a, PrintItems(rest.value), cl);
      var n := ItemsRead(t, y, rest.value, cl);
      ElementsGoOn(t, c, a, y, n);
    }
  }

  lemma {:induction false} CommaFirst(t: string, a: nat, x: string, cl: nat) returns (y: nat)
    requires Stands(t, a, "," + x, cl)
    ensures CharAt(t, a, ',') && y == a + 1 && Stands(t, y, x, cl)
  {
    y := Split(t, a, ",", x, cl);
    CharHere(t, a, ",", y, 0);
  }

  /** After a value comes the closing character or a comma. */
  lemma {:induction false} RestStarts(t: string, a: nat, x: string, cl: nat)
    requires Stands(t, a, x, cl) && (x == "" || x[0] == ',') && cl < |t|
    ensures a < |t| && (t[a] == ',' || a == cl)
  {
    if x != "" {
      CharHere(t, a, x, cl, 0);
    }
  }

  lemma {:induction false} ItemParts(t: string, x: nat, items: Items, cl: nat) returns (c: nat, b: nat, a: nat)
    requires items.Item? && Stands(t, x, PrintItems(items), cl)
    ensures Stands(t, x, PrintGap(items.before), c) && Stands(t, c, Print(items.value), b)
    ensures Stands(t, b, PrintGap(items.after), a) && Stands(t, a, PrintMoreItems(items.rest), cl)
  {
    c, b, a := Three(t, x, PrintGap(items.before), Print(items.value), PrintGap(items.after),
        PrintMoreItems(items.rest), cl);
  }

  lemma {:induction false} Three(t: string, i: nat, x: string, y: string, z: string, rest: string, j: nat)
      returns (c: nat, b: nat, a: nat)
    requires Stands(t, i, x + (y + (z + rest)), j)
    ensures Stands(t, i, x, c) && Stands(t, c, y, b) && Stands(t, b, z, a) && Stands(t, a, rest, j)
  {
    c := Split(t, i, x, y + (z + rest), j);
    b := Split(t, c, y, z + rest, j);
    a := Split(t, b, z, rest, j);
  }

  lemma {:induction false} RecordRead(t: string, s: nat, members: Members, e: nat)
    requires AreMembers(members) && Stands(t, s, "{" + PrintMembers(members) + "}", e)
    ensures Starts(t, s) && RawEnd(t, s) == At(e)
    decreases members, 2
  {
    var cl := Enclosed(t, s, '{', PrintMembers(members), '}', e);
    var c := MembersRead(t, s + 1, members, cl);
    BraceIs(t, s, s + 1, c);
  }

  lemma {:induction false} MembersRead(t: string, x: nat, members: Members, cl: nat) returns (c: nat)
    requires AreMembers(members) && Stands(t, x, PrintMembers(members), cl) && CharAt(t, cl, '}')
    ensures Skip(t, x) == At(c) && c <= |t|
    ensures if members.NoMember? then c == cl else CharAt(t, c, '"') && MembersEnd(t, c) == At(cl + 1)
    decreases members, 1
  {
    match members {
      case NoMember(gap) =>
        GapEnds(t, x, gap, cl);
        c := cl;
      case Member(before, key, colon, behind, value, after, rest) =>
        var w := MemberParts(t, x, members, cl);
        c := w.key;
        MemberRead(t, x, members, w, cl);
        MoreMembersRead(t, c, w.after, rest, cl);
    }
  }

  lemma {:induction false} MemberRead(t: string, x: nat, ms: Members, w: Places, cl: nat)
    requires ms.Member? && AreMembers(ms) && PlacedAt(t, x, ms, w, cl) && CharAt(t, cl, '}')
    ensures KeyPlaced(t, x, ms.key, w) && ValuePlaced(t, w) && MemberAfter(t, w.key) == At(w.after)
    decreases ms, 0
  {
    KeyRead(t, x, ms.before, ms.key, ms.colon, w);
    RestStarts(t, w.after, PrintMoreMembers(ms.rest), cl);
    ValueBetween(t, w.colon + 1, ms.behind, ms.value, ms.after, w.value, w.end, w.after);
    MemberAfterIs(t, w.key, w.colon, w.colon + 1, w.value, w.end, w.after);
  }

  lemma {:induction false} MemberAfterIs(t: string, c: nat, k: nat, y: nat, s: nat, e: nat, a: nat)
    requires c <= |t| && ColonAfter(t, c) == At(k) && y == k + 1
    requires Skip(t, y) == At(s) && s < |t| && RawEnd(t, s) == At(e) && Skip(t, e) == At(a)
    ensures MemberAfter(t, c) == At(a)
  {
    AfterIs(t, y, s, e, a);
  }

  lemma {:induction false} MoreMembersRead(t: string, c: nat, a: nat, rest: Option<Members>, cl: nat)
    requires c <= |t| && MemberAfter(t, c) == At(a) && (rest.Some? ==> AreMembers(rest.value))
    requires Stands(t, a, PrintMoreMembers(rest), cl) && CharAt(t, cl, '}')
    ensures MembersEnd(t, c) == At(cl + 1)
    decreases rest, 0
  {
    if rest.None? {
      MembersStop(t, c, a);
    } else {
      var y := CommaFirst(t, a, PrintMembers(rest.value), cl);
      var n := MembersRead(t, y, rest.value, cl);
      MembersGoOn(t, c, a, y, n);
    }
  }

  /** Where the parts of a member stand. */
  datatype Places = Places(key: nat, keyEnd: nat, colon: nat, value: nat, end: nat, after: nat)

  ghost predicate PlacedAt(t: string, x: nat, ms: Members, w: Places, cl: nat)
    requires ms.Member?
  {
    && Stands(t, x, PrintGap(ms.before), w.key) && Stands(t, w.key, Quote(ms.key), w.keyEnd)
    && Stands(t, w.keyEnd, PrintGap(ms.colon), w.colon) && CharAt(t, w.colon, ':')
    && Stands(t, w.colon + 1, PrintGap(ms.behind), w.value) && Stands(t, w.value, Print(ms.value), w.end)
    && Stands(t, w.end, PrintGap(ms.after), w.after) && Stands(t, w.after, PrintMoreMembers(ms.rest), cl)
  }

  /** The key is read, up to its colon. */
  ghost predicate KeyPlaced(t: string, x: nat, key: string, w: Places) {
    && x <= |t| && Skip(t, x) == At(w.key) && CharAt(t, w.key, '"') && ColonAfter(t, w.key) == At(w.colon)
    && StringEnd(t, w.key) == At(w.keyEnd) && t[w.key..w.keyEnd] == Quote(key)
  }

  ghost predicate ValuePlaced(t: string, w: Places) {
    && w.colon < |t| && Skip(t, w.colon + 1) == At(w.value) && Starts(t, w.value)
    && RawEnd(t, w.value) == At(w.end) && Skip(t, w.end) == At(w.after)
  }

  lemma {:induction false} MemberParts(t: string, x: nat, ms: Members, cl: nat) returns (w: Places)
    requires ms.Member? && Stands(t, x, PrintMembers(ms), cl)
    ensures PlacedAt(t, x, ms, w, cl)
  {
    var fromBehind := PrintGap(ms.behind) + (Print(ms.value) + (PrintGap(ms.after) + PrintMoreMembers(ms.rest)));
    var c, k, colon := Three(t, x, PrintGap(ms.before), Quote(ms.key), PrintGap(ms.colon), ":" + fromBehind, cl);
    var y := Split(t, colon, ":", fromBehind, cl);
    CharHere(t, colon, ":", y, 0);
    var s, e, a := Three(t, y, PrintGap(ms.behind), Print(ms.value), PrintGap(ms.after),
        PrintMoreMembers(ms.rest), cl);
    w := Places(c, k, colon, s, e, a);
  }

  lemma {:induction false} KeyRead(t: string, x: nat, before: Gap, key: string, colon: Gap, w: Places)
    requires IsGap(before) && IsBody(key) && IsGap(colon) && Stands(t, x, PrintGap(before), w.key)
    requires Stands(t, w.key, Quote(key), w.keyEnd) && Stands(t, w.keyEnd, PrintGap(colon), w.colon)
    requires CharAt(t, w.colon, ':')
    ensures KeyPlaced(t, x, key, w)
  {
    QuotedRead(t, w.key, key, w.keyEnd);
    GapEnds(t, x, before, w.key);
    GapEnds(t, w.keyEnd, colon, w.colon);
  }
}
