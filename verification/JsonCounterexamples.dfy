/** Documents on which an edit does not do what it should. */
module JsonCounterexamples {
  import opened Basics
  import opened JsonScan
  import opened JsonFrame
  import opened JsonString
  import opened JsonObject
  import opened JsonSplice
  import opened JsonEdit
  import opened JsonSlash
  import opened JsonLaws
  import opened JsonPath
  import opened JsonPathLaws
  import opened JsonRoundTrip

  lemma {:induction false} NameReads(t: string, c: nat, name: char)
    requires c + 3 <= |t| && t[c] == '"' && t[c + 1] == name && t[c + 2] == '"' && 'a' <= name <= 'z'
    ensures StringEnd(t, c) == At(c + 3) && Decode(t[c..c + 3]) == Some([name])
  {
    assert StringBody(t, c + 1, false) == StringBody(t, c + 2, false);
    assert EscapeChar(name) == [name];
    assert Escape([name]) == [name] + Escape([]);
    assert t[c..c + 3] == Encode([name]);
    DecodeEncode([name]);
  }

  /** A one-letter name, a colon and a value that ends in front of a separator. */
  lemma {:induction false} ShortField(t: string, c: nat, name: char, e: nat, a: nat)
    requires
      && c + 4 < e <= a <= |t| && t[c] == '"' && t[c + 1] == name && t[c + 2] == '"' && t[c + 3] == ':'
      && 'a' <= name <= 'z'
    requires Stops(t, c + 4) && RawEnd(t, c + 4) == At(e) && Skip(t, e) == At(a)
    ensures ReadField(t, c) == Head(Field([name], c, Span(c + 4, e)), a)
  {
    NameReads(t, c, name);
    NamedField(t, c, c + 3, [name]);
  }

  lemma {:induction false} RootFound(t: string, root: Object)
    requires IsObject(t, root) && root.span.start == 0
    ensures Found(t, root, [], root)
  {
    assert Skip(t, 0) == At(0);
    RootHere(t, root);
  }

  // ---- A string replaced by a number directly in front of a comment ----------------

  lemma {:induction false} QuotedReads(t: string) returns (root: Object)
    requires t == "{\"a\":\"\"//\n}"
    ensures root == Object(Span(0, 11), [Field("a", 1, Span(5, 7))], false)
    ensures IsObject(t, root) && Content(t, root.fields) == [Member("a", "\"\"")]
  {
    root := Object(Span(0, 11), [Field("a", 1, Span(5, 7))], false);
    assert Skip(t, 10) == At(10);
    assert LineEnd(t, 9) == 9;
    assert Skip(t, 7) == At(10);
    assert StringBody(t, 6, false) == At(7);
    ShortField(t, 1, 'a', 7, 10);
    ItemLast(t, 1, root.fields[0], 10);
    assert t[5..7] == "\"\"";
  }

  /** The number swallows the comment. */
  lemma {:induction false} SwallowedComment(t: string, u: string)
    requires t == "{\"a\":\"\"//\n}" && u == "{\"a\":1//\n}"
    ensures SetPath(t, ["a"], Some("1")) == Ok(u) && !Holds(u, [], [Member("a", "1")])
  {
    var root := QuotedReads(t);
    RootFound(t, root);
    OneDigit("1");
    assert Splice(t, 5, "1", 7) == u;
    ReplacedInPlace(t, u, root, "a", "1");
  }

  lemma {:induction false} OneDigit(v: string)
    requires |v| == 1 && '0' <= v[0] <= '9'
    ensures IsValue(v)
  {
  }

  lemma {:induction false} ReplacedInPlace(t: string, u: string, root: Object, key: string, v: string)
    requires Found(t, root, [], root) && IsObject(t, root) && |root.fields| == 1 && root.fields[0].key == key
    requires
      && root.fields[0].value.start <= root.fields[0].value.end <= |t| && !CharAt(t, root.fields[0].value.start, '/')
    requires u == Splice(t, root.fields[0].value.start, v, root.fields[0].value.end)
    requires IsValue(v) && !SelfDelimited(v[0]) && CharAt(t, root.fields[0].value.end, '/')
    ensures SetPath(t, [key], Some(v)) == Ok(u) && !Holds(u, [], [Member(key, v)])
  {
    FindIs(root.fields, key, 0);
    FindContent(t, root.fields, key);
    SetPathLaw(t, root, [], root, key, Some(v));
    SetPathEdits(t, root, [], root, key, Some(v));
    assert [] + [key] == [key];
    assert Apply(Content(t, root.fields), key, Some(v)) == [Member(key, v)];
  }

  // ---- A last member removed from in front of a comment ----------------------------

  lemma {:induction false} PairReads(t: string) returns (root: Object)
    requires t == "{\"a\":1,\"b\":\"\"//\n}"
    ensures root == Object(Span(0, 17), [Field("a", 1, Span(5, 6)), Field("b", 7, Span(11, 13))], false)
    ensures IsObject(t, root) && Skip(t, 6) == At(6) && Skip(t, 13) == At(16)
  {
    root := Object(Span(0, 17), [Field("a", 1, Span(5, 6)), Field("b", 7, Span(11, 13))], false);
    SecondReads(t);
    FirstReads(t);
    PairIsObject(t, root.fields[0], root.fields[1], 16);
  }

  lemma {:induction false} PairIsObject(t: string, f: Field, g: Field, cl: nat)
    requires |t| == cl + 1 > 8 && t[0] == '{' && t[1] == '"' && t[6] == ',' && t[7] == '"' && t[cl] == '}'
    requires ReadField(t, 1) == Head(f, 6) && ReadItem(t, 7) == Body([g], cl, false)
    ensures IsObject(t, Object(Span(0, cl + 1), [f, g], false))
  {
    ItemIsBody(t, 7);
    ItemMore(t, 1, f, 6, 7, [g], cl, false);
    ItemIsBody(t, 1);
    assert [f] + [g] == [f, g];
  }

  lemma {:induction false} FirstReads(t: string)
    requires t == "{\"a\":1,\"b\":\"\"//\n}"
    ensures ReadField(t, 1) == Head(Field("a", 1, Span(5, 6)), 6) && Skip(t, 6) == At(6)
  {
    assert ScalarEnd(t, 6) == 6 && Skip(t, 6) == At(6);
    ShortField(t, 1, 'a', 6, 6);
  }

  lemma {:induction false} SecondReads(t: string)
    requires t == "{\"a\":1,\"b\":\"\"//\n}"
    ensures ReadItem(t, 7) == Body([Field("b", 7, Span(11, 13))], 16, false) && Skip(t, 13) == At(16)
  {
    assert Skip(t, 16) == At(16);
    assert LineEnd(t, 15) == 15;
    assert Skip(t, 13) == At(16);
    assert StringBody(t, 12, false) == At(13);
    ShortField(t, 7, 'b', 13, 16);
    ItemLast(t, 7, Field("b", 7, Span(11, 13)), 16);
  }

  /** The number before it swallows the comment. */
  lemma {:induction false} StrandedNumber(t: string, u: string)
    requires t == "{\"a\":1,\"b\":\"\"//\n}" && u == "{\"a\":1//\n}"
    ensures SetPath(t, ["b"], None) == Ok(u) && !Holds(u, [], [Member("a", "1")])
  {
    SwallowedAgain(u);
    var root := PairReads(t);
    RootFound(t, root);
    assert Splice(t, 6, "", 13) == u;
    FindIs(root.fields, "b", 1);
    CutFromPair(t, u, root, "b");
  }

  lemma {:induction false} SwallowedAgain(u: string)
    requires u == "{\"a\":1//\n}"
    ensures !Holds(u, [], [Member("a", "1")])
  {
    var quoted :| quoted == "{\"a\":\"\"//\n}";
    SwallowedComment(quoted, u);
  }

  lemma {:induction false} CutFromPair(t: string, u: string, root: Object, key: string)
    requires
      && Found(t, root, [], root) && IsObject(t, root) && |root.fields| == 2 && Find(root.fields, key) == Some(1)
      && !root.trailingComma
    requires
      && root.fields[0].value.end <= root.fields[1].value.end <= |t|
      && Skip(t, root.fields[0].value.end) == At(root.fields[0].value.end)
    requires u == Splice(t, root.fields[0].value.end, "", root.fields[1].value.end)
    ensures SetPath(t, [key], None) == Ok(u)
  {
    SetPathEdits(t, root, [], root, key, None);
    assert [] + [key] == [key];
    var p, a := RemovedSpanIs(t, root, 1);
  }

  // ---- A slash that strays -----------------------------------------------------------

  lemma {:induction false} SlashPairReads(t: string) returns (root: Object)
    requires t == "{\"a\":/,\"b\":\"\"/*\n/}*/}"
    ensures root == Object(Span(0, 21), [Field("a", 1, Span(5, 6)), Field("b", 7, Span(11, 13))], false)
    ensures IsObject(t, root) && Skip(t, 6) == At(6)
  {
    root := Object(Span(0, 21), [Field("a", 1, Span(5, 6)), Field("b", 7, Span(11, 13))], false);
    assert ScalarEnd(t, 6) == 6 && Skip(t, 6) == At(6);
    ShortField(t, 1, 'a', 6, 6);
    BehindSlash(t);
    PairIsObject(t, root.fields[0], root.fields[1], 20);
  }

  lemma {:induction false} BehindSlash(t: string)
    requires t == "{\"a\":/,\"b\":\"\"/*\n/}*/}"
    ensures ReadItem(t, 7) == Body([Field("b", 7, Span(11, 13))], 20, false)
  {
    assert BlockEnd(t, 18) == At(20);
    assert BlockEnd(t, 16) == At(20);
    assert BlockEnd(t, 15) == At(20);
    assert Skip(t, 20) == At(20);
    assert Skip(t, 13) == At(20);
    assert StringBody(t, 12, false) == At(13);
    ShortField(t, 7, 'b', 13, 20);
    ItemLast(t, 7, Field("b", 7, Span(11, 13)), 20);
  }

  lemma {:induction false} SlashStraysTo(t: string)
    requires t == "{\"a\":/,\"b\":\"\"/*\n/}*/}"
    ensures SlashClose(t, 14) == At(18)
  {
    assert LineEnd(t, 14) == 15;
    assert Skip(t, 15) == At(16);
    assert Skip(t, 17) == At(17);
  }

  lemma {:induction false} StrayReads(u: string)
    requires u == "{\"a\"://*\n/}*/}"
    ensures Holds(u, [], [Member("a", "/")])
  {
    NameReads(u, 1, 'a');
    NamedField(u, 1, 4, "a");
    assert LineEnd(u, 7) == 8 && Skip(u, 8) == At(9) && Skip(u, 10) == At(10);
    var g, cm := SlashRead(u, 1, "a", 4, 7, 11);
    ItemIsBody(u, 1);
    var root := Object(Span(0, 11), [g], cm);
    RootFound(u, root);
    ContentAt(u, [g], 0);
    assert Content(u, [g]) == [Member("a", "/")];
  }

  /** The member is removed, but the object now ends inside what was a comment. */
  lemma {:induction false} StraySlash(t: string, u: string) returns (root: Object)
    requires t == "{\"a\":/,\"b\":\"\"/*\n/}*/}" && u == "{\"a\"://*\n/}*/}"
    ensures Found(t, root, [], root) && SetPath(t, ["b"], None) == Ok(u) && Holds(u, [], [Member("a", "/")])
    ensures !OnlyThere(t, u, root, [], [Member("a", "/")])
  {
    root := SlashPairReads(t);
    RootFound(t, root);
    FindIs(root.fields, "b", 1);
    assert Splice(t, 6, "", 13) == u;
    CutFromPair(t, u, root, "b");
    StrayReads(u);
    StrayPair(t, root);
    StrayedAway(t, u, root);
  }

  lemma {:induction false} StrayPair(t: string, root: Object)
    requires t == "{\"a\":/,\"b\":\"\"/*\n/}*/}" && IsObject(t, root) && Skip(t, 6) == At(6)
    requires root == Object(Span(0, 21), [Field("a", 1, Span(5, 6)), Field("b", 7, Span(11, 13))], false)
    ensures MeetsComment(t, root, 1) && StrayEnd(t, root, 1) == At(18)
    ensures Apply(Content(t, root.fields), "b", None) == [Member("a", "/")]
  {
    SlashStraysTo(t);
    assert t[5..6] == "/";
    FirstLeft(t, root.fields);
  }

  lemma {:induction false} FirstLeft(t: string, fields: seq<Field>)
    requires |fields| == 2 && fields[0].key == "a" && fields[1].key == "b" && Slice(t, fields[0].value) == "/"
    ensures Apply(Content(t, fields), "b", None) == [Member("a", "/")]
  {
    FindIs(fields, "b", 1);
    FindContent(t, fields, "b");
    ContentAt(t, fields, 0);
  }

  lemma {:induction false} StrayedAway(t: string, u: string, root: Object)
    requires Found(t, root, [], root) && SetPath(t, ["b"], None) == Ok(u) && Find(root.fields, "b") == Some(1)
    requires MeetsComment(t, root, 1) && StrayEnd(t, root, 1) != At(root.span.end)
    requires Apply(Content(t, root.fields), "b", None) == [Member("a", "/")]
    ensures !OnlyThere(t, u, root, [], [Member("a", "/")])
  {
    SetPathLaw(t, root, [], root, "b", None);
    assert [] + ["b"] == ["b"];
  }

  // ---- A member added after a comment that ends on the line of the brace ------------

  /** The line of the closing brace starts inside the comment, with a vertical tab,
      and the new line is indented with it. */
  lemma {:induction false} OddIndent(t: string)
    requires t == "{/*\n\U{000B}*/}"
    ensures SetPath(t, ["k"], Some("1")).Ok? && !Holds(SetPath(t, ["k"], Some("1")).value, [], [Member("k", "1")])
  {
    var root := TabbedReads(t);
    RootFound(t, root);
    OneDigit("1");
    SetPathLaw(t, root, [], root, "k", Some("1"));
    assert [] + ["k"] == ["k"];
    assert Apply([], "k", Some("1")) == [Member("k", "1")];
  }

  lemma {:induction false} TabbedReads(t: string) returns (root: Object)
    requires t == "{/*\n\U{000B}*/}"
    ensures root.span.start == 0 && root.fields == [] && IsObject(t, root) && !InsertSafe(t, root)
  {
    root := Object(Span(0, 8), [], false);
    assert BlockEnd(t, 5) == At(7);
    assert BlockEnd(t, 3) == BlockEnd(t, 4) == At(7);
    assert Skip(t, 7) == At(7);
    EmptyBody(t, 1, 7);
    assert LineStart(t, 7) == LineStart(t, 6) == LineStart(t, 5) == LineStart(t, 4) == 4;
    assert RunEnd(t, 4, 7) == RunEnd(t, 5, 7) == 5;
    assert CloseIndent(t, root)[0] == '\U{000B}';
    assert t[0..7][3] == '\n';
  }

  // ---- A parent that is there but is no object --------------------------------------

  /** The new object is added under the name that is already there, and reading the
      path again does not find it. */
  lemma {:induction false} ShadowedParent(t: string)
    requires t == "{\"p\":1}"
    ensures SetPath(t, ["p", "k"], Some("2")).Ok?
    ensures var u := SetPath(t, ["p", "k"], Some("2")).value;
      Holds(u, [], [Member("p", "1"), Member("p", Nested("k", "2"))]) && !Holds(u, ["p"], [Member("k", "2")])
  {
    var root := ScalarReads(t);
    RootFound(t, root);
    assert Descend(t, Some(root), ["p"]) == Ok(None);
    OneDigit("2");
    NewParentLaw(t, root, "p", "k", "2");
  }

  lemma {:induction false} ScalarReads(t: string) returns (root: Object)
    requires t == "{\"p\":1}"
    ensures
      && IsObject(t, root) && root.span.start == 0 && !HasNewline(t, root)
      && Content(t, root.fields) == [Member("p", "1")]
    ensures
      && Find(root.fields, "p") == Some(0) && root.fields[0].value.start <= |t|
      && ObjectAt(t, root.fields[0].value) == Ok(None)
  {
    root := Object(Span(0, 7), [Field("p", 1, Span(5, 6))], false);
    assert ScalarEnd(t, 6) == 6 && Skip(t, 6) == At(6);
    ShortField(t, 1, 'p', 6, 6);
    ItemLast(t, 1, root.fields[0], 6);
    FindIs(root.fields, "p", 0);
    assert Skip(t, 5) == At(5);
    assert t[5..6] == "1";
    assert !HasNewline(t, root);
  }

  // ---- An empty object on two lines ---------------------------------------------------

  /** Adding a member and removing it again leaves an extra line. */
  lemma {:induction false} LineLeftBehind(t: string)
    requires t == "{\n}"
    ensures SetPath(t, ["k"], Some("1")).Ok?
    ensures SetPath(SetPath(t, ["k"], Some("1")).value, ["k"], None) != Ok(t)
  {
    var root := Object(Span(0, 3), [], false);
    EmptyBody(t, 1, 2);
    RootFound(t, root);
    assert t[0..2][1] == '\n';
    OneDigit("1");
    RoundTripLaw(t, root, [], root, "k", "1");
    assert [] + ["k"] == ["k"];
  }
}
