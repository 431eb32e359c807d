/** What a string token stands for: the characters and escapes of section 7 of RFC 8259,
    one mark after the other. */
module JsonNames {
  import opened Basics
  import opened JsonString
  import opened JsonGrammar

  /** A hexadecimal digit as it may be written. */
  datatype Hex = Hex(n: nat, upper: bool)

  function PrintHex(h: Hex): char
    requires h.n < 16
  {
    if h.upper then "0123456789ABCDEF"[h.n] else "0123456789abcdef"[h.n]
  }

  datatype Four = Four(w: Hex, x: Hex, y: Hex, z: Hex)

  predicate IsFour(f: Four) { f.w.n < 16 && f.x.n < 16 && f.y.n < 16 && f.z.n < 16 }

  function Number(f: Four): nat { f.w.n * 0x1000 + f.x.n * 0x100 + f.y.n * 0x10 + f.z.n }

  function PrintFour(f: Four): string
    requires IsFour(f)
  {
    [PrintHex(f.w), PrintHex(f.x), PrintHex(f.y), PrintHex(f.z)]
  }

  /** One character of a name, as it may be written. */
  datatype Mark = Plain(c: char) | Short(c: char) | Code(f: Four) | Pair(high: Four, low: Four)

  predicate IsMark(m: Mark) {
    match m
    case Plain(c) => c >= ' ' && c != '"' && c != '\\'
    case Short(c) =>
      c == '"' || c == '\\' || c == '/' || c == 'b' || c == 'f' || c == 'n' || c == 'r' || c == 't'
    case Code(f) => IsFour(f) && !(0xD800 <= Number(f) < 0xE000)
    case Pair(high, low) =>
      IsFour(high) && IsFour(low) && 0xD800 <= Number(high) < 0xDC00 && 0xDC00 <= Number(low) < 0xE000
  }

  function PrintMark(m: Mark): string
    requires IsMark(m)
  {
    match m
    case Plain(c) => [c]
    case Short(c) => ['\\', c]
    case Code(f) => "\\u" + PrintFour(f)
    case Pair(high, low) => "\\u" + PrintFour(high) + ("\\u" + PrintFour(low))
  }

  lemma FourIsSmall(f: Four)
    requires IsFour(f)
    ensures Number(f) < 0x10000
  {
  }

  function Meant(m: Mark): char
    requires IsMark(m)
  {
    match m
    case Plain(c) => c
    case Short(c) =>
      (match c
       case 'b' => '\U{0008}'
       case 'f' => '\U{000C}'
       case 'n' => '\n'
       case 'r' => '\r'
       case 't' => '\t'
       case _ => c)
    case Code(f) =>
      FourIsSmall(f);
      Number(f) as char
    case Pair(high, low) =>
      (0x10000 + (Number(high) - 0xD800) * 0x400 + (Number(low) - 0xDC00)) as char
  }

  predicate AreMarks(ms: seq<Mark>) { forall i :: 0 <= i < |ms| ==> IsMark(ms[i]) }

  function PrintMarks(ms: seq<Mark>): string
    requires AreMarks(ms)
  {
    if ms == [] then "" else PrintMark(ms[0]) + PrintMarks(ms[1..])
  }

  function Meaning(ms: seq<Mark>): string
    requires AreMarks(ms)
  {
    if ms == [] then "" else [Meant(ms[0])] + Meaning(ms[1..])
  }

  /** The text between the quotes spells the name. */
  ghost predicate Spells(body: string, name: string) {
    exists ms: seq<Mark> :: AreMarks(ms) && PrintMarks(ms) == body && Meaning(ms) == name
  }

  // ---- Marks are read --------------------------------------------------------------

  lemma {:induction false} HexRead(h: Hex)
    requires h.n < 16
    ensures HexValue(PrintHex(h)) == Some(h.n)
  {
    var n := h.n;
    if n < 10 {
      assert "0123456789ABCDEF"[n] == "0123456789abcdef"[n] == '0' + n as char;
    } else {
      assert "0123456789ABCDEF"[n] == 'A' + (n - 10) as char;
      assert "0123456789abcdef"[n] == 'a' + (n - 10) as char;
    }
  }

  lemma {:induction false} FourRead(f: Four, b: string)
    requires IsFour(f) && |b| >= 4 && b[..4] == PrintFour(f)
    ensures Unit(b) == Some(Number(f))
  {
    HexRead(f.w);
    HexRead(f.x);
    HexRead(f.y);
    HexRead(f.z);
    assert b[0] == b[..4][0] && b[1] == b[..4][1] && b[2] == b[..4][2] && b[3] == b[..4][3];
  }

  lemma {:induction false} MarkRead(m: Mark, rest: string)
    requires IsMark(m)
    ensures Unescape(PrintMark(m) + rest) == Prepend([Meant(m)], Unescape(rest))
  {
    var b := PrintMark(m) + rest;
    assert b[|PrintMark(m)|..] == rest;
    match m {
      case Plain(c) => PlainStep(c, b, rest);
      case Short(c) => SimpleStep(Meant(m), b, rest);
      case Code(f) => CodeRead(f, b, rest);
      case Pair(high, low) => PairRead(high, low, b, rest);
    }
  }

  lemma {:induction false} CodeRead(f: Four, b: string, rest: string)
    requires IsMark(Code(f)) && b == "\\u" + PrintFour(f) + rest
    ensures Unescape(b) == Prepend([Meant(Code(f))], Unescape(rest))
  {
    assert b[2..] == PrintFour(f) + rest && b[6..] == rest;
    assert b[2..][..4] == PrintFour(f);
    FourRead(f, b[2..]);
  }

  lemma {:induction false} PairRead(high: Four, low: Four, b: string, rest: string)
    requires IsMark(Pair(high, low)) && b == "\\u" + PrintFour(high) + ("\\u" + PrintFour(low)) + rest
    ensures Unescape(b) == Prepend([Meant(Pair(high, low))], Unescape(rest))
  {
    assert b[2..][..4] == PrintFour(high) && b[8..][..4] == PrintFour(low) && b[12..] == rest;
    FourRead(high, b[2..]);
    FourRead(low, b[8..]);
    PairStep(Number(high), Number(low), b, rest);
  }

  lemma {:induction false} PairStep(n: nat, m: nat, b: string, rest: string)
    requires |b| >= 12 && b[0] == '\\' && b[1] == 'u' && b[6] == '\\' && b[7] == 'u' && b[12..] == rest
    requires Unit(b[2..]) == Some(n) && Unit(b[8..]) == Some(m) && 0xD800 <= n < 0xDC00 <= m < 0xE000
    ensures Unescape(b) == Prepend([(0x10000 + (n - 0xD800) * 0x400 + (m - 0xDC00)) as char], Unescape(rest))
  {
  }

  lemma {:induction false} MarksRead(ms: seq<Mark>)
    requires AreMarks(ms)
    ensures Unescape(PrintMarks(ms)) == Some(Meaning(ms))
  {
    if ms != [] {
      MarkRead(ms[0], PrintMarks(ms[1..]));
      MarksRead(ms[1..]);
    }
  }

  // ---- Nothing else is -------------------------------------------------------------

  lemma {:induction false} HexWritten(c: char) returns (h: Hex)
    requires HexValue(c).Some?
    ensures h.n < 16 && PrintHex(h) == c && HexValue(c) == Some(h.n)
  {
    var n := HexValue(c).value;
    h := Hex(n, 'A' <= c <= 'F');
    HexRead(h);
    SameDigit(c, h);
  }

  lemma {:induction false} SameDigit(c: char, h: Hex)
    requires h.n < 16 && HexValue(c) == Some(h.n) && h.upper == ('A' <= c <= 'F')
    ensures PrintHex(h) == c
  {
    var n := h.n;
    if n < 10 {
      assert "0123456789ABCDEF"[n] == "0123456789abcdef"[n] == '0' + n as char;
    } else {
      assert "0123456789ABCDEF"[n] == 'A' + (n - 10) as char;
      assert "0123456789abcdef"[n] == 'a' + (n - 10) as char;
    }
  }

  lemma {:induction false} FourWritten(b: string) returns (f: Four)
    requires Unit(b).Some?
    ensures IsFour(f) && |b| >= 4 && b[..4] == PrintFour(f) && Unit(b) == Some(Number(f))
  {
    var w := HexWritten(b[0]);
    var x := HexWritten(b[1]);
    var y := HexWritten(b[2]);
    var z := HexWritten(b[3]);
    f := Four(w, x, y, z);
    assert b[..4] == [b[0], b[1], b[2], b[3]];
  }

  lemma {:induction false} MarksWritten(b: string) returns (ms: seq<Mark>)
    requires Unescape(b).Some?
    ensures AreMarks(ms) && PrintMarks(ms) == b && Unescape(b) == Some(Meaning(ms))
    decreases |b|
  {
    if b == "" {
      ms := [];
    } else {
      var m, rest := MarkWritten(b);
      var more := MarksWritten(rest);
      ms := [m] + more;
      assert ms[1..] == more;
      MarkRead(m, rest);
    }
  }

  /** The first mark of a text that is read. */
  lemma {:induction false} MarkWritten(b: string) returns (m: Mark, rest: string)
    requires Unescape(b).Some? && b != ""
    ensures IsMark(m) && b == PrintMark(m) + rest && Unescape(rest).Some? && |rest| < |b|
  {
    if b[0] != '\\' {
      m, rest := Plain(b[0]), b[1..];
    } else if b[1] != 'u' {
      m, rest := Short(b[1]), b[2..];
      assert b == ['\\', b[1]] + rest;
    } else {
      m, rest := CodeWritten(b);
    }
  }

  lemma {:induction false} CodeWritten(b: string) returns (m: Mark, rest: string)
    requires |b| >= 2 && b[0] == '\\' && b[1] == 'u' && Unescape(b).Some?
    ensures IsMark(m) && b == PrintMark(m) + rest && Unescape(rest).Some? && |rest| < |b|
  {
    var f := FourWritten(b[2..]);
    assert b[..6] == "\\u" + PrintFour(f) by { assert b[..6] == "\\u" + b[2..][..4]; }
    if 0xD800 <= Number(f) < 0xE000 {
      m, rest := PairWritten(b, f);
    } else {
      m, rest := Code(f), b[6..];
      assert b == b[..6] + rest;
    }
  }

  lemma {:induction false} PairWritten(b: string, f: Four) returns (m: Mark, rest: string)
    requires |b| >= 6 && b[0] == '\\' && b[1] == 'u' && Unescape(b).Some? && IsFour(f)
    requires Unit(b[2..]) == Some(Number(f)) && b[..6] == "\\u" + PrintFour(f) && 0xD800 <= Number(f) < 0xE000
    ensures IsMark(m) && b == PrintMark(m) + rest && Unescape(rest).Some? && |rest| < |b|
  {
    PairParts(b, Number(f));
    var g := FourWritten(b[8..]);
    m, rest := Pair(f, g), b[12..];
    assert b[6..12] == "\\u" + PrintFour(g) by { assert b[6..12] == "\\u" + b[8..][..4]; }
    assert b == b[..6] + b[6..12] + rest;
  }

  lemma {:induction false} PairParts(b: string, n: nat)
    requires |b| >= 6 && b[0] == '\\' && b[1] == 'u' && Unescape(b).Some?
    requires Unit(b[2..]) == Some(n) && 0xD800 <= n < 0xE000
    ensures n < 0xDC00 && |b| >= 12 && b[6] == '\\' && b[7] == 'u' && Unescape(b[12..]).Some?
    ensures Unit(b[8..]).Some? && 0xDC00 <= Unit(b[8..]).value < 0xE000
  {
  }

  /** A token is read as a name exactly when its marks spell that name. */
  lemma {:induction false} DecodeLaw(body: string, name: string)
    ensures Decode(Quote(body)) == Some(name) <==> Spells(body, name)
  {
    assert Quote(body)[1..|Quote(body)| - 1] == body;
    if Spells(body, name) {
      var ms: seq<Mark> :| AreMarks(ms) && PrintMarks(ms) == body && Meaning(ms) == name;
      MarksRead(ms);
    }
    if Decode(Quote(body)) == Some(name) {
      var ms := MarksWritten(body);
    }
  }
}
