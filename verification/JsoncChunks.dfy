/** What the two strippers remove, said on the pieces that a text is made of: strings,
    comments and single characters. */
module JsoncChunks {
  import opened Basics
  import opened JsonScan
  import opened JsonEdit
  import opened JsonGrammar
  import opened Jsonc

  /** A whole string, a comment without the newline that ends a line, or any other
      character. */
  datatype Chunk = Text(body: string) | ToLineEnd(text: string) | Enclosed(text: string) | Char(c: char)

  /** What may be left open at the end of a text. */
  datatype Tail = Done | OpenText(body: string) | OpenComment(text: string)

  function PrintChunk(c: Chunk): string {
    match c
    case Text(body) => Quote(body)
    case ToLineEnd(x) => "//" + x
    case Enclosed(x) => "/*" + (x + "*/")
    case Char(c) => [c]
  }

  function PrintTail(tail: Tail): string {
    match tail
    case Done => ""
    case OpenText(body) => "\"" + body
    case OpenComment(x) => "/*" + x
  }

  function PrintChunks(cs: seq<Chunk>, tail: Tail): string {
    if cs == [] then PrintTail(tail) else PrintChunk(cs[0]) + PrintChunks(cs[1..], tail)
  }

  /** No quote ends the string, and a backslash may be its last character. */
  predicate IsOpenBody(b: string) {
    || b == ""
    || (b[0] != '"' && b[0] != '\\' && IsOpenBody(b[1..]))
    || (b[0] == '\\' && (|b| == 1 || IsOpenBody(b[2..])))
  }

  predicate NoStarSlash(x: string) { forall k :: 0 <= k < |x| - 1 ==> !(x[k] == '*' && x[k + 1] == '/') }

  /** A chunk in front of the text `rest`. */
  predicate IsChunk(c: Chunk, rest: string) {
    match c
    case Text(body) => IsBody(body)
    case ToLineEnd(x) => (forall k :: 0 <= k < |x| ==> x[k] != '\n') && (rest == "" || rest[0] == '\n')
    case Enclosed(x) => NoStarSlash(x)
    case Char(c) => c != '"' && !(c == '/' && rest != "" && (rest[0] == '/' || rest[0] == '*'))
  }

  predicate IsTail(tail: Tail) {
    match tail
    case Done => true
    case OpenText(body) => IsOpenBody(body)
    case OpenComment(x) => NoStarSlash(x)
  }

  predicate AreChunks(cs: seq<Chunk>, tail: Tail) {
    if cs == [] then IsTail(tail)
    else IsChunk(cs[0], PrintChunks(cs[1..], tail)) && AreChunks(cs[1..], tail)
  }

  // ---- What is left --------------------------------------------------------------------

  /** The newlines of a comment, each as a character. */
  function LineBreaks(x: string): seq<Chunk> {
    if x == "" then [] else (if x[0] == '\n' then [Char('\n')] else []) + LineBreaks(x[1..])
  }

  /** A comment leaves a space, and in the editor the line breaks inside it. */
  function Blanked(cs: seq<Chunk>, lines: bool): seq<Chunk> {
    if cs == [] then []
    else (match cs[0]
          case ToLineEnd(_) => [Char(' ')]
          case Enclosed(x) => [Char(' ')] + (if lines then LineBreaks(x) else [])
          case _ => [cs[0]])
         + Blanked(cs[1..], lines)
  }

  predicate Spacing(c: Chunk, wide: bool) { c.Char? && if wide then IsWhitespace(c.c) else White(c.c) }

  predicate Closing(c: Chunk) { c == Char('}') || c == Char(']') }

  /** A closing bracket comes first, or behind nothing but white space. */
  predicate ClosesSoon(cs: seq<Chunk>, wide: bool) {
    exists k :: 0 <= k < |cs| && Closing(cs[k]) && forall m :: 0 <= m < k ==> Spacing(cs[m], wide)
  }

  /** The chunks without the commas from which only white space parts a closing bracket. */
  function Kept(cs: seq<Chunk>, wide: bool): seq<Chunk> {
    if cs == [] then []
    else (if cs[0] == Char(',') && ClosesSoon(cs[1..], wide) then [] else [cs[0]]) + Kept(cs[1..], wide)
  }

  // ---- Comments ------------------------------------------------------------------------

  /** The inside of a string is kept. */
  lemma {:induction false} BodyKept(t: string, i: nat, b: string, j: nat, lines: bool)
    requires IsBody(b) && Stands(t, i, b, j)
    ensures Clean(t, i, Mode(true, false), lines) == Prepend(b, Clean(t, j, Mode(true, false), lines))
    decreases |b|
  {
    var more := Clean(t, j, Mode(true, false), lines);
    if b == "" {
      PrependNothing(more);
    } else {
      CharHere(t, i, b, j, 0);
      if b[0] != '\\' {
        assert b == [b[0]] + b[1..];
        var m := Split(t, i, [b[0]], b[1..], j);
        BodyKept(t, m, b[1..], j, lines);
        PrependTwice([b[0]], b[1..], more);
      } else {
        CharHere(t, i, b, j, 1);
        assert b == b[..2] + b[2..] && b[..2] == [b[0]] + [b[1]];
        var m := Split(t, i, b[..2], b[2..], j);
        BodyKept(t, m, b[2..], j, lines);
        EscapeKept(t, i, b[0], b[1], lines);
        PrependTwice(b[..2], b[2..], more);
      }
    }
  }

  lemma {:induction false} EscapeKept(t: string, i: nat, c: char, d: char, lines: bool)
    requires i + 1 < |t| && t[i] == c == '\\' && t[i + 1] == d
    ensures Clean(t, i, Mode(true, false), lines) == Prepend([c] + [d], Clean(t, i + 2, Mode(true, false), lines))
  {
    var rest := Clean(t, i + 2, Mode(true, false), lines);
    assert Clean(t, i + 1, Mode(true, true), lines) == Prepend([d], rest);
    PrependTwice([c], [d], rest);
  }

  lemma {:induction false} OpenBodyKept(t: string, i: nat, b: string, lines: bool)
    requires IsOpenBody(b) && Stands(t, i, b, |t|)
    ensures Clean(t, i, Mode(true, false), lines) == Some(b)
    decreases |b|
  {
    if b != "" {
      CharHere(t, i, b, |t|, 0);
      if b[0] != '\\' {
        assert b == [b[0]] + b[1..];
        var m := Split(t, i, [b[0]], b[1..], |t|);
        OpenBodyKept(t, m, b[1..], lines);
      } else if |b| == 1 {
        assert Clean(t, i + 1, Mode(true, true), lines) == Some("") && b == [b[0]] + "";
      } else {
        CharHere(t, i, b, |t|, 1);
        assert b == b[..2] + b[2..] && b[..2] == [b[0]] + [b[1]];
        var m := Split(t, i, b[..2], b[2..], |t|);
        OpenBodyKept(t, m, b[2..], lines);
        EscapeKept(t, i, b[0], b[1], lines);
      }
    }
  }

  lemma {:induction false} ToNewline(t: string, i: nat, j: nat)
    requires i <= j <= |t| && (forall k :: i <= k < j ==> t[k] != '\n') && (j < |t| ==> t[j] == '\n')
    ensures LineEnd(t, i) == j
    decreases j - i
  {
    if i < j {
      ToNewline(t, i + 1, j);
    }
  }

  lemma {:induction false} NoEnd(t: string, i: nat)
    requires i <= |t| && forall k :: i <= k < |t| - 1 ==> !(t[k] == '*' && t[k + 1] == '/')
    ensures BlockEnd(t, i).Bad?
    decreases |t| - i
  {
    if i + 1 < |t| {
      NoEnd(t, i + 1);
    }
  }

  /** One chunk of the text: what the stripper makes of it. */
  function Left(c: Chunk, lines: bool): string {
    match c
    case ToLineEnd(_) => " "
    case Enclosed(x) => " " + if lines then Newlines(x) else ""
    case _ => PrintChunk(c)
  }

  lemma {:induction false} TextClean(t: string, i: nat, b: string, j: nat, lines: bool)
    requires IsBody(b) && Stands(t, i, Quote(b), j)
    ensures Clean(t, i, OUTSIDE, lines) == Prepend(Quote(b), Clean(t, j, OUTSIDE, lines))
  {
    var m := Split(t, i, "\"", b + "\"", j);
    var n := Split(t, m, b, "\"", j);
    CharHere(t, i, "\"", m, 0);
    CharHere(t, n, "\"", j, 0);
    var rest := Clean(t, j, OUTSIDE, lines);
    assert Clean(t, n, Mode(true, false), lines) == Prepend("\"", rest);
    BodyKept(t, m, b, n, lines);
    PrependTwice(b, "\"", rest);
    PrependTwice("\"", b + "\"", rest);
    assert Clean(t, i, OUTSIDE, lines) == Prepend("\"", Clean(t, m, Mode(true, false), lines));
  }

  lemma {:induction false} LineClean(t: string, i: nat, x: string, j: nat, lines: bool)
    requires (forall k :: 0 <= k < |x| ==> x[k] != '\n') && Stands(t, i, "//" + x, j) && (j < |t| ==> t[j] == '\n')
    ensures Clean(t, i, OUTSIDE, lines) == Prepend(" ", Clean(t, j, OUTSIDE, lines))
  {
    var m := Split(t, i, "//", x, j);
    CharHere(t, i, "//", m, 0);
    CharHere(t, i, "//", m, 1);
    forall k | m <= k < j ensures t[k] != '\n' {
      CharHere(t, m, x, j, k - m);
    }
    ToNewline(t, m, j);
  }

  lemma {:induction false} StarSlashFree(x: string)
    ensures Newlines(x + "*/") == Newlines(x)
  {
    if x == "" {
      assert (x + "*/")[1..] == "/" && "/"[1..] == "" && Newlines("/") == "";
    } else {
      StarSlashFree(x[1..]);
      assert (x + "*/")[1..] == x[1..] + "*/";
    }
  }

  lemma {:induction false} BlockClean(t: string, i: nat, x: string, j: nat, lines: bool)
    requires NoStarSlash(x) && Stands(t, i, "/*" + (x + "*/"), j)
    ensures Clean(t, i, OUTSIDE, lines) ==
      Prepend(" " + (if lines then Newlines(x) else ""), Clean(t, j, OUTSIDE, lines))
  {
    var m := Split(t, i, "/*", x + "*/", j);
    CharHere(t, i, "/*", m, 0);
    CharHere(t, i, "/*", m, 1);
    BlockHere(t, m, x, j);
    StarSlashFree(x);
  }

  lemma {:induction false} CharClean(t: string, i: nat, c: char, lines: bool)
    requires i < |t| && t[i] == c != '"' && !(c == '/' && i + 1 < |t| && (t[i + 1] == '/' || t[i + 1] == '*'))
    ensures Clean(t, i, OUTSIDE, lines) == Prepend([c], Clean(t, i + 1, OUTSIDE, lines))
  {
  }

  lemma {:induction false} ChunkClean(t: string, i: nat, c: Chunk, j: nat, lines: bool)
    requires Stands(t, i, PrintChunk(c), j) && IsChunk(c, t[j..])
    ensures Clean(t, i, OUTSIDE, lines) == Prepend(Left(c, lines), Clean(t, j, OUTSIDE, lines))
  {
    match c {
      case Text(body) => TextClean(t, i, body, j, lines);
      case ToLineEnd(x) => LineClean(t, i, x, j, lines);
      case Enclosed(x) => BlockClean(t, i, x, j, lines);
      case Char(c) =>
        CharHere(t, i, [c], j, 0);
        CharClean(t, i, c, lines);
    }
  }

  lemma {:induction false} TailClean(t: string, i: nat, tail: Tail, lines: bool)
    requires IsTail(tail) && Stands(t, i, PrintTail(tail), |t|)
    ensures Clean(t, i, OUTSIDE, lines) == if tail.OpenComment? then None else Some(PrintTail(tail))
  {
    match tail {
      case Done =>
      case OpenText(body) =>
        var m := Split(t, i, "\"", body, |t|);
        CharHere(t, i, "\"", m, 0);
        OpenBodyKept(t, m, body, lines);
      case OpenComment(x) =>
        var m := Split(t, i, "/*", x, |t|);
        CharHere(t, i, "/*", m, 0);
        CharHere(t, i, "/*", m, 1);
        forall k | m <= k < |t| - 1 ensures !(t[k] == '*' && t[k + 1] == '/') {
          CharHere(t, m, x, |t|, k - m);
          CharHere(t, m, x, |t|, k + 1 - m);
        }
        NoEnd(t, m);
    }
  }

  lemma {:induction false} PrintCons(c: Chunk, cs: seq<Chunk>, tail: Tail)
    ensures PrintChunks([c] + cs, tail) == PrintChunk(c) + PrintChunks(cs, tail)
  {
    assert ([c] + cs)[1..] == cs;
  }

  lemma {:induction false} BreakPrinted(breaks: seq<Chunk>, text: string, rest: seq<Chunk>, tail: Tail, more: string)
    requires PrintChunks(breaks + rest, tail) == text + more
    ensures PrintChunks([Char('\n')] + breaks + rest, tail) == "\n" + text + more
  {
    assert [Char('\n')] + breaks + rest == [Char('\n')] + (breaks + rest);
    PrintCons(Char('\n'), breaks + rest, tail);
    assert "\n" + (text + more) == "\n" + text + more;
  }

  lemma {:induction false} BreaksStep(x: string, y: string)
    requires x != "" && y == x[1..]
    ensures LineBreaks(x) == if x[0] == '\n' then [Char('\n')] + LineBreaks(y) else LineBreaks(y)
    ensures Newlines(x) == if x[0] == '\n' then "\n" + Newlines(y) else Newlines(y)
  {
    assert [] + LineBreaks(y) == LineBreaks(y) && "" + Newlines(y) == Newlines(y);
  }

  lemma {:induction false} BreaksPrinted(x: string, rest: seq<Chunk>, tail: Tail, more: string)
    requires PrintChunks(rest, tail) == more
    ensures PrintChunks(LineBreaks(x) + rest, tail) == Newlines(x) + more
    decreases |x|
  {
    if x == "" {
      assert [] + rest == rest && "" + more == more;
    } else {
      var y := x[1..];
      BreaksPrinted(y, rest, tail, more);
      BreaksStep(x, y);
      if x[0] == '\n' {
        BreakPrinted(LineBreaks(y), Newlines(y), rest, tail, more);
      }
    }
  }

  lemma {:induction false} LeftPrinted(c: Chunk, cs: seq<Chunk>, tail: Tail, lines: bool)
    ensures PrintChunks(Blanked([c] + cs, lines), tail) == Left(c, lines) + PrintChunks(Blanked(cs, lines), tail)
  {
    var rest := Blanked(cs, lines);
    assert ([c] + cs)[1..] == cs;
    if c.Enclosed? && lines {
      SpacePrinted(c.text, rest, tail, PrintChunks(rest, tail));
    } else if c.Enclosed? {
      assert [Char(' ')] + [] + rest == [Char(' ')] + rest && " " + "" == " ";
      PrintCons(Char(' '), rest, tail);
    } else {
      PrintCons(if c.ToLineEnd? then Char(' ') else c, rest, tail);
    }
  }

  lemma {:induction false} SpacePrinted(x: string, rest: seq<Chunk>, tail: Tail, more: string)
    requires PrintChunks(rest, tail) == more
    ensures PrintChunks([Char(' ')] + LineBreaks(x) + rest, tail) == " " + Newlines(x) + more
  {
    BreaksPrinted(x, rest, tail, more);
    assert [Char(' ')] + LineBreaks(x) + rest == [Char(' ')] + (LineBreaks(x) + rest);
    PrintCons(Char(' '), LineBreaks(x) + rest, tail);
    assert " " + (Newlines(x) + more) == " " + Newlines(x) + more;
  }

  /** Outside strings, what is taken away is exactly the comments, from two slashes to the
      end of the line and from slash and star to the next star and slash; a text with an
      open comment is refused. */
  lemma {:induction false} CleanLaw(t: string, i: nat, cs: seq<Chunk>, tail: Tail, lines: bool)
    requires AreChunks(cs, tail) && Stands(t, i, PrintChunks(cs, tail), |t|)
    ensures Clean(t, i, OUTSIDE, lines) ==
      if tail.OpenComment? then None else Some(PrintChunks(Blanked(cs, lines), tail))
    decreases |cs|
  {
    if cs == [] {
      TailClean(t, i, tail, lines);
    } else {
      var j := Split(t, i, PrintChunk(cs[0]), PrintChunks(cs[1..], tail), |t|);
      ChunkClean(t, i, cs[0], j, lines);
      CleanLaw(t, j, cs[1..], tail, lines);
      LeftPrinted(cs[0], cs[1..], tail, lines);
      assert [cs[0]] + cs[1..] == cs;
    }
  }

  // ---- Trailing commas -------------------------------------------------------------------

  /** Strings and characters that are not quotes. */
  predicate AreStrings(cs: seq<Chunk>, tail: Tail) {
    && (forall i :: 0 <= i < |cs| ==> match cs[i]
        case Text(body) => IsBody(body)
        case Char(c) => c != '"'
        case _ => false)
    && !tail.OpenComment? && (tail.OpenText? ==> IsOpenBody(tail.body))
  }

  lemma {:induction false} BodyTrimmed(b: string, rest: string, wide: bool)
    requires IsBody(b)
    ensures Trim(b + rest, Mode(true, false), wide) == b + Trim(rest, Mode(true, false), wide)
    ensures Open(b + rest, Mode(true, false)) == Open(rest, Mode(true, false))
    decreases |b|
  {
    var s := b + rest;
    if b == "" {
      assert s == rest;
    } else if b[0] != '\\' {
      BodyTrimmed(b[1..], rest, wide);
      PlainTrimmed(b[0], b[1..] + rest, wide);
      assert b == [b[0]] + b[1..] && s == [b[0]] + (b[1..] + rest);
      Assoc([b[0]], b[1..], Trim(rest, Mode(true, false), wide));
    } else {
      BodyTrimmed(b[2..], rest, wide);
      EscapeTrimmed(s, wide);
      assert s[2..] == b[2..] + rest && b == [s[0], s[1]] + b[2..];
      Assoc([s[0], s[1]], b[2..], Trim(rest, Mode(true, false), wide));
    }
  }

  lemma {:induction false} Assoc(x: string, y: string, z: string)
    ensures x + (y + z) == (x + y) + z
  {
  }

  lemma {:induction false} PlainTrimmed(c: char, rest: string, wide: bool)
    requires c != '"' && c != '\\'
    ensures Trim([c] + rest, Mode(true, false), wide) == [c] + Trim(rest, Mode(true, false), wide)
    ensures Open([c] + rest, Mode(true, false)) == Open(rest, Mode(true, false))
  {
    assert ([c] + rest)[1..] == rest;
  }

  lemma {:induction false} EscapeTrimmed(s: string, wide: bool)
    requires |s| >= 2 && s[0] == '\\'
    ensures Trim(s, Mode(true, false), wide) == [s[0], s[1]] + Trim(s[2..], Mode(true, false), wide)
    ensures Open(s, Mode(true, false)) == Open(s[2..], Mode(true, false))
  {
    var one, two := s[1..], s[2..];
    assert one[0] == s[1] && one[1..] == two;
    assert Trim(one, Mode(true, true), wide) == [s[1]] + Trim(two, Mode(true, false), wide);
    assert Trim(s, Mode(true, false), wide) == [s[0]] + Trim(one, Mode(true, true), wide);
    Assoc([s[0]], [s[1]], Trim(two, Mode(true, false), wide));
  }

  lemma {:induction false} OpenBodyTrimmed(b: string, wide: bool)
    requires IsOpenBody(b)
    ensures Trim(b, Mode(true, false), wide) == b && Open(b, Mode(true, false))
    decreases |b|
  {
    if b != "" {
      if b[0] != '\\' {
        OpenBodyTrimmed(b[1..], wide);
        assert b == [b[0]] + b[1..];
      } else if |b| > 1 {
        EscapeTrimmed(b, wide);
        OpenBodyTrimmed(b[2..], wide);
        assert b == [b[0], b[1]] + b[2..];
      } else {
        assert b[1..] == "";
      }
    }
  }

  lemma {:induction false} TextTrimmed(b: string, rest: string, wide: bool)
    requires IsBody(b)
    ensures Trim(Quote(b) + rest, OUTSIDE, wide) == Quote(b) + Trim(rest, OUTSIDE, wide)
    ensures Open(Quote(b) + rest, OUTSIDE) == Open(rest, OUTSIDE)
  {
    var s := Quote(b) + rest;
    assert s == "\"" + (b + ("\"" + rest));
    QuoteTrimmed(b + ("\"" + rest), OUTSIDE, Mode(true, false), wide);
    BodyTrimmed(b, "\"" + rest, wide);
    QuoteTrimmed(rest, Mode(true, false), OUTSIDE, wide);
    assert "\"" + (b + ("\"" + Trim(rest, OUTSIDE, wide))) == Quote(b) + Trim(rest, OUTSIDE, wide);
  }

  /** A quote that opens or closes a string. */
  lemma {:induction false} QuoteTrimmed(rest: string, mode: Mode, next: Mode, wide: bool)
    requires mode.After('"') == next && !mode.escaped
    ensures Trim("\"" + rest, mode, wide) == "\"" + Trim(rest, next, wide)
    ensures Open("\"" + rest, mode) == Open(rest, next)
  {
    assert ("\"" + rest)[1..] == rest;
  }

  /** The first solid character behind a comma, found on the text, is the first solid chunk. */
  lemma {:induction false} ClosesLaw(cs: seq<Chunk>, tail: Tail, wide: bool)
    requires AreStrings(cs, tail)
    ensures Closes(Solid(PrintChunks(cs, tail), wide)) <==> ClosesSoon(cs, wide)
  {
    var s := PrintChunks(cs, tail);
    if cs != [] {
      assert s[0] == PrintChunk(cs[0])[0];
      if Spacing(cs[0], wide) {
        assert s[1..] == PrintChunks(cs[1..], tail);
        ClosesLaw(cs[1..], tail, wide);
        SoonAfterSpace(cs, wide);
      } else if Closing(cs[0]) {
        assert ClosesSoon(cs, wide);
      } else {
        NotSoon(cs, wide);
      }
    }
  }

  lemma {:induction false} SoonAfterSpace(cs: seq<Chunk>, wide: bool)
    requires cs != [] && Spacing(cs[0], wide) && !Closing(cs[0])
    ensures ClosesSoon(cs, wide) <==> ClosesSoon(cs[1..], wide)
  {
    var rest := cs[1..];
    if k :| 0 <= k < |cs| && Closing(cs[k]) && forall m :: 0 <= m < k ==> Spacing(cs[m], wide) {
      assert Closing(rest[k - 1]) && forall m :: 0 <= m < k - 1 ==> rest[m] == cs[m + 1];
    }
    if k :| 0 <= k < |rest| && Closing(rest[k]) && forall m :: 0 <= m < k ==> Spacing(rest[m], wide) {
      assert Closing(cs[k + 1]);
      forall m | 0 <= m < k + 1 ensures Spacing(cs[m], wide) {
        assert m > 0 ==> cs[m] == rest[m - 1];
      }
    }
  }

  lemma {:induction false} NotSoon(cs: seq<Chunk>, wide: bool)
    requires cs != [] && !Spacing(cs[0], wide) && !Closing(cs[0])
    ensures !ClosesSoon(cs, wide)
  {
  }

  /** Of the commas outside strings exactly those go that white space alone parts from a
      closing bracket, and everything else stays. */
  lemma {:induction false} TrimLaw(cs: seq<Chunk>, tail: Tail, wide: bool)
    requires AreStrings(cs, tail)
    ensures Trim(PrintChunks(cs, tail), OUTSIDE, wide) == PrintChunks(Kept(cs, wide), tail)
    ensures Open(PrintChunks(cs, tail), OUTSIDE) <==> tail.OpenText?
  {
    if cs == [] {
      TailTrimmed(tail, wide);
    } else {
      var rest := cs[1..];
      TrimLaw(rest, tail, wide);
      match cs[0] {
        case Text(body) =>
          TextTrimmed(body, PrintChunks(rest, tail), wide);
          PrintCons(cs[0], Kept(rest, wide), tail);
        case Char(c) => CharTrimmed(c, rest, tail, wide);
      }
    }
  }

  lemma {:induction false} TailTrimmed(tail: Tail, wide: bool)
    requires AreStrings([], tail)
    ensures Trim(PrintTail(tail), OUTSIDE, wide) == PrintTail(tail)
    ensures Open(PrintTail(tail), OUTSIDE) <==> tail.OpenText?
  {
    if tail.OpenText? {
      OpenBodyTrimmed(tail.body, wide);
      assert PrintTail(tail)[1..] == tail.body;
    }
  }

  lemma {:induction false} CharTrimmed(c: char, rest: seq<Chunk>, tail: Tail, wide: bool)
    requires c != '"' && AreStrings(rest, tail)
    requires Trim(PrintChunks(rest, tail), OUTSIDE, wide) == PrintChunks(Kept(rest, wide), tail)
    ensures var s := [c] + PrintChunks(rest, tail);
      && Trim(s, OUTSIDE, wide) == PrintChunks(Kept([Char(c)] + rest, wide), tail)
      && Open(s, OUTSIDE) == Open(PrintChunks(rest, tail), OUTSIDE)
  {
    var s := [c] + PrintChunks(rest, tail);
    assert s[1..] == PrintChunks(rest, tail) && ([Char(c)] + rest)[1..] == rest;
    ClosesLaw(rest, tail, wide);
    PrintCons(Char(c), Kept(rest, wide), tail);
    assert [] + Kept(rest, wide) == Kept(rest, wide);
  }

  // ---- Every text ------------------------------------------------------------------------

  lemma {:induction false} BlankedStrings(cs: seq<Chunk>, tail: Tail, lines: bool)
    requires AreChunks(cs, tail) && !tail.OpenComment?
    ensures AreStrings(Blanked(cs, lines), tail)
  {
    if cs != [] {
      BlankedStrings(cs[1..], tail, lines);
      if cs[0].Enclosed? {
        BreaksAreChars(cs[0].text);
      }
    }
  }

  lemma {:induction false} BreaksAreChars(x: string)
    ensures forall i :: 0 <= i < |LineBreaks(x)| ==> LineBreaks(x)[i] == Char('\n')
  {
    if x != "" {
      BreaksAreChars(x[1..]);
    }
  }

  /** What the two strippers give for any text, by its chunks. */
  lemma {:induction false} StripLaw(t: string, cs: seq<Chunk>, tail: Tail)
    requires AreChunks(cs, tail) && t == PrintChunks(cs, tail)
    ensures JsoncToJson(t) == if tail.Done? then Some(PrintChunks(Kept(Blanked(cs, true), true), Done)) else None
    ensures ParseJsonc(t) ==
      if tail.OpenComment? then None else Some(PrintChunks(Kept(Blanked(cs, false), false), tail))
  {
    assert t[0..|t|] == t;
    CleanLaw(t, 0, cs, tail, true);
    CleanLaw(t, 0, cs, tail, false);
    if !tail.OpenComment? {
      BlankedStrings(cs, tail, true);
      BlankedStrings(cs, tail, false);
      TrimLaw(Blanked(cs, true), tail, true);
      TrimLaw(Blanked(cs, false), tail, false);
    }
  }

  /** A string that was opened ends somewhere, or it stays open. */
  lemma {:induction false} Opened(x: string) returns (b: string, rest: Option<string>)
    ensures rest.None? ==> IsOpenBody(x)
    ensures rest.Some? ==> IsBody(b) && x == b + ("\"" + rest.value)
    decreases |x|
  {
    b, rest := "", None;
    if x != "" && x[0] == '"' {
      rest := Some(x[1..]);
    } else if x != "" && x[0] != '\\' {
      b, rest := Opened(x[1..]);
      if rest.Some? {
        b := [x[0]] + b;
        assert b[1..] + ("\"" + rest.value) == x[1..];
      }
    } else if |x| >= 2 {
      b, rest := Opened(x[2..]);
      if rest.Some? {
        b := x[..2] + b;
        assert b[2..] + ("\"" + rest.value) == x[2..];
      }
    }
  }

  /** The rest of a line. */
  lemma {:induction false} UpToNewline(x: string) returns (line: string, rest: string)
    ensures x == line + rest && (forall k :: 0 <= k < |line| ==> line[k] != '\n') && (rest == "" || rest[0] == '\n')
  {
    var n := 0;
    while n < |x| && x[n] != '\n'
      invariant n <= |x| && forall k :: 0 <= k < n ==> x[k] != '\n'
    {
      n := n + 1;
    }
    line, rest := x[..n], x[n..];
  }

  /** The rest of a comment, if it ends. */
  lemma {:induction false} UpToStarSlash(x: string) returns (inside: string, rest: Option<string>)
    ensures NoStarSlash(inside) && x == inside + (if rest.Some? then "*/" + rest.value else "")
  {
    var n := 0;
    while n < |x| - 1 && !(x[n] == '*' && x[n + 1] == '/')
      invariant 0 <= n && (n == 0 || n <= |x| - 1) && forall k :: 0 <= k < n ==> !(x[k] == '*' && x[k + 1] == '/')
    {
      n := n + 1;
    }
    if n < |x| - 1 {
      inside, rest := x[..n], Some(x[n + 2..]);
      assert x == x[..n] + ("*/" + x[n + 2..]);
    } else {
      inside, rest := x, None;
    }
  }

  /** Every text is made of chunks. */
  lemma {:induction false} Chunked(t: string) returns (cs: seq<Chunk>, tail: Tail)
    ensures AreChunks(cs, tail) && t == PrintChunks(cs, tail)
    decreases |t|
  {
    if t == "" {
      cs, tail := [], Done;
    } else {
      var first, rest, open := FirstChunk(t);
      if rest.None? {
        cs, tail := [], open;
      } else {
        cs, tail := Chunked(rest.value);
        PrintCons(first, cs, tail);
        cs := [first] + cs;
      }
    }
  }

  lemma {:induction false} FirstChunk(t: string) returns (c: Chunk, rest: Option<string>, open: Tail)
    requires t != ""
    ensures rest.Some? ==> t == PrintChunk(c) + rest.value && |rest.value| < |t| && IsChunk(c, rest.value)
    ensures rest.None? ==> IsTail(open) && t == PrintTail(open)
  {
    c, rest, open := Char(t[0]), Some(t[1..]), Done;
    if t[0] == '"' {
      c, rest, open := FirstText(t);
    } else if |t| >= 2 && t[0] == '/' && t[1] == '/' {
      var line, more := UpToNewline(t[2..]);
      c, rest := ToLineEnd(line), Some(more);
      assert t == "//" + t[2..];
    } else if |t| >= 2 && t[0] == '/' && t[1] == '*' {
      c, rest, open := FirstComment(t);
    }
  }

  lemma {:induction false} FirstText(t: string) returns (c: Chunk, rest: Option<string>, open: Tail)
    requires t != "" && t[0] == '"'
    ensures rest.Some? ==> t == PrintChunk(c) + rest.value && |rest.value| < |t| && IsChunk(c, rest.value)
    ensures rest.None? ==> IsTail(open) && t == PrintTail(open)
  {
    var b, more := Opened(t[1..]);
    assert t == "\"" + t[1..];
    c, rest, open := Text(b), more, OpenText(t[1..]);
    if more.Some? {
      assert t == Quote(b) + more.value;
    }
  }

  lemma {:induction false} FirstComment(t: string) returns (c: Chunk, rest: Option<string>, open: Tail)
    requires |t| >= 2 && t[0] == '/' && t[1] == '*'
    ensures rest.Some? ==> t == PrintChunk(c) + rest.value && |rest.value| < |t| && IsChunk(c, rest.value)
    ensures rest.None? ==> IsTail(open) && t == PrintTail(open)
  {
    var inside, more := UpToStarSlash(t[2..]);
    assert t == "/*" + t[2..];
    c, rest, open := Enclosed(inside), more, OpenComment(inside);
    if more.Some? {
      assert t == "/*" + (inside + "*/") + more.value;
    }
  }
}
