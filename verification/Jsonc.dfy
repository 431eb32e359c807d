/** Two strippers of comments and trailing commas, written independently: the
    settings editor's over characters and the facts collector's over bytes. */
module Jsonc {
  import opened Basics
  import opened JsonScan
  import opened JsonEdit

  /** Inside a string or not, and just after a backslash of it or not. */
  datatype Mode = Mode(inString: bool, escaped: bool) {
    /** The mode after one character of the output. */
    function After(c: char): Mode {
      if inString then Mode(!(c == '"' && !escaped), c == '\\' && !escaped) else Mode(c == '"', false)
    }
  }

  const OUTSIDE := Mode(false, false)

  function Newlines(s: string): string {
    if s == "" then "" else (if s[0] == '\n' then "\n" else "") + Newlines(s[1..])
  }

  /** The text from `i` on without comments; `lines` keeps the newlines of block
      comments. Nothing when a block comment does not end. */
  function Clean(t: string, i: nat, mode: Mode, lines: bool): Option<string>
    requires i <= |t|
    decreases |t| - i
  {
    if i == |t| then Some("")
    else if mode.inString || !(CommentAt(t, i, '/') || CommentAt(t, i, '*')) then
      Prepend([t[i]], Clean(t, i + 1, mode.After(t[i]), lines))
    else if CommentAt(t, i, '/') then Prepend(" ", Clean(t, LineEnd(t, i + 2), mode, lines))
    else match BlockEnd(t, i + 2)
      case Bad(_) => None
      case At(e) => Prepend(" " + (if lines then Newlines(t[i + 2..e]) else ""), Clean(t, e, mode, lines))
  }

  /** The first character that is not white space, in the wide sense of Unicode or
      the narrow one of ASCII. */
  function Solid(s: string, wide: bool): Option<char> {
    if s == "" then None
    else if (if wide then IsWhitespace(s[0]) else IsBlank(s[0])) then Solid(s[1..], wide)
    else Some(s[0])
  }

  predicate Closes(c: Option<char>) { c == Some('}') || c == Some(']') }

  /** A comma that only white space parts from a closing bracket. */
  predicate Trailing(s: string, wide: bool) { s != "" && s[0] == ',' && Closes(Solid(s[1..], wide)) }

  function Trim(s: string, mode: Mode, wide: bool): string {
    if s == "" then ""
    else (if !mode.inString && Trailing(s, wide) then "" else [s[0]]) + Trim(s[1..], mode.After(s[0]), wide)
  }

  /** Does a string stay open at the end? */
  predicate Open(s: string, mode: Mode) { if s == "" then mode.inString else Open(s[1..], mode.After(s[0])) }

  /** `jsonc_to_json` of the settings editor. */
  function JsoncToJson(t: string): Option<string> {
    match Clean(t, 0, OUTSIDE, true)
    case None => None
    case Some(s) => if Open(s, OUTSIDE) then None else Some(Trim(s, OUTSIDE, true))
  }

  /** What `parse_jsonc` of the facts collector hands to the JSON parser. */
  function ParseJsonc(t: string): Option<string> {
    match Clean(t, 0, OUTSIDE, false)
    case None => None
    case Some(s) => Some(Trim(s, OUTSIDE, false))
  }

  /** The text with the white space outside strings erased. */
  function Erase(s: string, mode: Mode): string {
    if s == "" then ""
    else (if !mode.inString && IsWhitespace(s[0]) then "" else [s[0]]) + Erase(s[1..], mode.After(s[0]))
  }

  // ---- The loops of the settings editor ----------------------------------------------------

  method NewlinesUpTo(t: string, i: nat) returns (output: string, end: Option<nat>)
    requires i <= |t|
    ensures end == match BlockEnd(t, i) case At(e) => Some(e) case Bad(_) => None
    ensures end.Some? ==> i <= end.value <= |t| && output == Newlines(t[i..end.value])
  {
    output := "";
    var previous := '\0';
    var n := i;
    while n < |t|
      invariant i <= n <= |t| && output == Newlines(t[i..n])
      invariant previous == if n == i then '\0' else t[n - 1]
      invariant BlockEnd(t, i) == BlockEnd(t, if n == i then i else n - 1)
    {
      NewlinesStep(t, i, n);
      if t[n] == '\n' { output := output + "\n"; }
      if previous == '*' && t[n] == '/' {
        return output, Some(n + 1);
      }
      previous := t[n];
      n := n + 1;
    }
    end := None;
  }

  lemma {:induction false} NewlinesStep(t: string, i: nat, n: nat)
    requires i <= n < |t|
    ensures Newlines(t[i..n + 1]) == Newlines(t[i..n]) + if t[n] == '\n' then "\n" else ""
    decreases n - i
  {
    var x, y := t[i..n], t[i..n + 1];
    if i == n {
      assert x == "" && y == [t[n]] && y[1..] == "";
    } else {
      assert x[1..] == t[i + 1..n] && y[1..] == t[i + 1..n + 1];
      NewlinesStep(t, i + 1, n);
    }
  }

  lemma {:induction false} PrependNothing(rest: Option<string>)
    ensures Prepend("", rest) == rest
  {
    if rest.Some? {
      assert "" + rest.value == rest.value;
    }
  }

  lemma {:induction false} PrependTwice(x: string, y: string, rest: Option<string>)
    ensures Prepend(x, Prepend(y, rest)) == Prepend(x + y, rest)
  {
    if rest.Some? {
      assert x + (y + rest.value) == x + y + rest.value;
    }
  }

  /** A character that is kept moves from the rest to the output. */
  lemma {:induction false} CharNext(t: string, i: nat, mode: Mode, lines: bool, output: string, c: char, next: Mode)
    requires i < |t| && t[i] == c && mode.After(c) == next
    requires mode.inString || !(CommentAt(t, i, '/') || CommentAt(t, i, '*'))
    ensures Prepend(output, Clean(t, i, mode, lines)) == Prepend(output + [c], Clean(t, i + 1, next, lines))
  {
    PrependTwice(output, [c], Clean(t, i + 1, next, lines));
  }

  /** A line comment leaves a space. */
  lemma {:induction false} LineNext(t: string, i: nat, mode: Mode, lines: bool, output: string, e: nat)
    requires i < |t| && !mode.inString && CommentAt(t, i, '/') && LineEnd(t, i + 2) == e
    ensures Prepend(output, Clean(t, i, mode, lines)) == Prepend(output + " ", Clean(t, e, mode, lines))
  {
    PrependTwice(output, " ", Clean(t, e, mode, lines));
  }

  /** A block comment leaves a space and, for the editor, its newlines. */
  lemma {:induction false} BlockNext(t: string, i: nat, mode: Mode, lines: bool, output: string, kept: string, e: nat)
    requires i < |t| && !mode.inString && CommentAt(t, i, '*') && BlockEnd(t, i + 2) == At(e)
    requires kept == " " + if lines then Newlines(t[i + 2..e]) else ""
    ensures Prepend(output, Clean(t, i, mode, lines)) == Prepend(output + kept, Clean(t, e, mode, lines))
  {
    PrependTwice(output, kept, Clean(t, e, mode, lines));
  }

  /** Nothing is left of a text whose block comment does not end. */
  lemma {:induction false} OpenBlock(t: string, i: nat, mode: Mode, lines: bool)
    requires i < |t| && !mode.inString && CommentAt(t, i, '*') && BlockEnd(t, i + 2).Bad?
    ensures Clean(t, i, mode, lines) == None
  {
  }

  /** The first pass of the settings editor. */
  method StripComments(t: string) returns (r: Option<string>)
    ensures r == Clean(t, 0, OUTSIDE, true)
  {
    var output, i, inString, escaped := "", 0, false, false;
    ghost var all := Clean(t, 0, OUTSIDE, true);
    PrependNothing(all);
    while i < |t|
      invariant i <= |t| && (!inString ==> !escaped)
      invariant all == Prepend(output, Clean(t, i, Mode(inString, escaped), true))
      decreases |t| - i
    {
      var c := t[i];
      ghost var was := Mode(inString, escaped);
      if inString {
        if c == '"' && !escaped { inString := false; }
        escaped := c == '\\' && !escaped;
        CharNext(t, i, was, true, output, c, Mode(inString, escaped));
        output := output + [c];
        i := i + 1;
      } else if c == '"' {
        inString := true;
        CharNext(t, i, was, true, output, c, Mode(inString, escaped));
        output := output + [c];
        i := i + 1;
      } else if CommentAt(t, i, '/') {
        output, i := SkipLine(t, i, output);
      } else if CommentAt(t, i, '*') {
        var kept, end := NewlinesUpTo(t, i + 2);
        if end.None? {
          OpenBlock(t, i, was, true);
          return None;
        }
        BlockNext(t, i, was, true, output, " " + kept, end.value);
        output := output + (" " + kept);
        i := end.value;
      } else {
        CharNext(t, i, was, true, output, c, was);
        output := output + [c];
        i := i + 1;
      }
    }
    assert output + "" == output;
    return Some(output);
  }

  /** The editor's loop over a line comment, with the newline after it. */
  method SkipLine(t: string, at: nat, output: string) returns (more: string, i: nat)
    requires at < |t| && CommentAt(t, at, '/')
    ensures at < i <= |t|
    ensures Prepend(output, Clean(t, at, OUTSIDE, true)) == Prepend(more, Clean(t, i, OUTSIDE, true))
  {
    i := at + 2;
    while i < |t| && t[i] != '\n'
      invariant at + 2 <= i <= |t| && LineEnd(t, at + 2) == LineEnd(t, i)
    {
      i := i + 1;
    }
    LineNext(t, at, OUTSIDE, true, output, i);
    more := output + " ";
    if i < |t| {
      CharNext(t, i, OUTSIDE, true, more, '\n', OUTSIDE);
      more := more + "\n";
      i := i + 1;
    }
  }

  method IsTrailing(s: string, n: nat, wide: bool) returns (r: bool)
    requires n < |s| && s[n] == ','
    ensures r == Trailing(s[n..], wide)
  {
    var look := n + 1;
    assert s[n..][1..] == s[look..];
    while look < |s| && (if wide then IsWhitespace(s[look]) else IsBlank(s[look]))
      invariant n < look <= |s| && Solid(s[n + 1..], wide) == Solid(s[look..], wide)
    {
      assert s[look..][1..] == s[look + 1..];
      look := look + 1;
    }
    return look < |s| && (s[look] == '}' || s[look] == ']');
  }

  lemma {:induction false} TrimStep(s: string, n: nat, output: string, mode: Mode, wide: bool)
    requires n < |s|
    ensures output + Trim(s[n..], mode, wide) ==
      (if !mode.inString && Trailing(s[n..], wide) then output else output + [s[n]]) +
          Trim(s[n + 1..], mode.After(s[n]), wide)
  {
    assert s[n..][1..] == s[n + 1..];
  }

  /** The second pass of the settings editor: an open string is refused. */
  method RemoveTrailingCommas(s: string) returns (r: Option<string>)
    ensures r == if Open(s, OUTSIDE) then None else Some(Trim(s, OUTSIDE, true))
  {
    var output, n, inString, escaped := "", 0, false, false;
    while n < |s|
      invariant n <= |s| && (!inString ==> !escaped)
      invariant Open(s, OUTSIDE) == Open(s[n..], Mode(inString, escaped))
      invariant Trim(s, OUTSIDE, true) == output + Trim(s[n..], Mode(inString, escaped), true)
    {
      var c := s[n];
      assert s[n..][1..] == s[n + 1..];
      TrimStep(s, n, output, Mode(inString, escaped), true);
      if inString {
        output := output + [c];
        if c == '"' && !escaped { inString := false; }
        escaped := c == '\\' && !escaped;
      } else if c == '"' {
        inString := true;
        output := output + [c];
      } else if c == ',' {
        var trailing := IsTrailing(s, n, true);
        if !trailing { output := output + [c]; }
      } else {
        output := output + [c];
      }
      n := n + 1;
    }
    assert output + "" == output;
    return if inString then None else Some(output);
  }

  // ---- The loops of the facts collector -------------------------------------------------------

  method StripBytes(t: string) returns (r: Option<string>)
    ensures r == Clean(t, 0, OUTSIDE, false)
  {
    var clean, i, inString, escaped := "", 0, false, false;
    ghost var all := Clean(t, 0, OUTSIDE, false);
    PrependNothing(all);
    while i < |t|
      invariant i <= |t| && (!inString ==> !escaped)
      invariant all == Prepend(clean, Clean(t, i, Mode(inString, escaped), false))
      decreases |t| - i
    {
      var c := t[i];
      ghost var was, at := Mode(inString, escaped), i;
      if inString {
        if escaped {
          escaped := false;
        } else if c == '\\' {
          escaped := true;
        } else if c == '"' {
          inString := false;
        }
        CharNext(t, i, was, false, clean, c, Mode(inString, escaped));
        clean := clean + [c];
        i := i + 1;
      } else if c == '"' {
        inString := true;
        CharNext(t, i, was, false, clean, c, Mode(inString, escaped));
        clean := clean + [c];
        i := i + 1;
      } else if CommentAt(t, i, '/') {
        i := i + 2;
        while i < |t| && t[i] != '\n'
          invariant at + 2 <= i <= |t| && LineEnd(t, at + 2) == LineEnd(t, i)
        {
          i := i + 1;
        }
        LineNext(t, at, was, false, clean, i);
        clean := clean + " ";
      } else if CommentAt(t, i, '*') {
        i := i + 2;
        while i + 1 < |t| && !(t[i] == '*' && t[i + 1] == '/')
          invariant at + 2 <= i <= |t| && BlockEnd(t, at + 2) == BlockEnd(t, i)
        {
          i := i + 1;
        }
        if i + 1 >= |t| {
          OpenBlock(t, at, was, false);
          return None;
        }
        i := i + 2;
        BlockNext(t, at, was, false, clean, " ", i);
        clean := clean + " ";
      } else {
        CharNext(t, i, was, false, clean, c, was);
        clean := clean + [c];
        i := i + 1;
      }
    }
    assert clean + "" == clean;
    return Some(clean);
  }

  method DropTrailingCommas(s: string) returns (json: string)
    ensures json == Trim(s, OUTSIDE, false)
  {
    json := "";
    var n, inString, escaped := 0, false, false;
    while n < |s|
      invariant n <= |s| && (!inString ==> !escaped)
      invariant Trim(s, OUTSIDE, false) == json + Trim(s[n..], Mode(inString, escaped), false)
    {
      var c := s[n];
      assert s[n..][1..] == s[n + 1..];
      var dropped := false;
      TrimStep(s, n, json, Mode(inString, escaped), false);
      if inString {
        if escaped {
          escaped := false;
        } else if c == '\\' {
          escaped := true;
        } else if c == '"' {
          inString := false;
        }
      } else if c == '"' {
        inString := true;
      } else if c == ',' {
        dropped := IsTrailing(s, n, false);
      }
      if !dropped { json := json + [c]; }
      n := n + 1;
    }
  }

  // ---- Agreement ---------------------------------------------------------------------------------

  /** `Erase` after `Trim` in one pass. */
  function Gist(s: string, mode: Mode, wide: bool): string {
    if s == "" then ""
    else
      (if !mode.inString && (Trailing(s, wide) || IsWhitespace(s[0])) then "" else [s[0]]) +
      Gist(s[1..], mode.After(s[0]), wide)
  }

  lemma {:induction false} EraseTrim(s: string, mode: Mode, wide: bool)
    ensures Erase(Trim(s, mode, wide), mode) == Gist(s, mode, wide)
  {
    if s != "" {
      EraseTrim(s[1..], mode.After(s[0]), wide);
      var rest := Trim(s[1..], mode.After(s[0]), wide);
      if !mode.inString && Trailing(s, wide) {
        assert "" + rest == rest;
        ModeOutside(mode, s[0], rest);
      } else {
        assert ([s[0]] + rest)[1..] == rest;
      }
    }
  }

  lemma {:induction false} ModeOutside(mode: Mode, c: char, rest: string)
    requires !mode.inString && c == ','
    ensures Erase(rest, mode) == Erase(rest, mode.After(c))
  {
    if rest != "" {
      assert mode.After(rest[0]) == mode.After(c).After(rest[0]);
    }
  }

  /** A comma parted from its closing bracket by white space that ASCII does not know. */
  predicate Hidden(s: string, mode: Mode) {
    s != "" && ((!mode.inString && Trailing(s, true) && !Trailing(s, false)) || Hidden(s[1..], mode.After(s[0])))
  }

  predicate Blanks(s: string) { forall i :: 0 <= i < |s| ==> IsBlank(s[i]) }

  lemma {:induction false} NewlinesBlank(s: string)
    ensures Blanks(Newlines(s))
  {
    if s != "" {
      NewlinesBlank(s[1..]);
    }
  }

  lemma {:induction false} BlankIsWhite(c: char)
    requires IsBlank(c)
    ensures IsWhitespace(c) && c != ',' && c != '"'
  {
  }

  /** What two cleaned texts share for the rest of the pipeline. */
  ghost predicate Alike(x: string, y: string, mode: Mode) {
    && Open(x, mode) == Open(y, mode) && Hidden(x, mode) == Hidden(y, mode)
    && Gist(x, mode, true) == Gist(y, mode, true) && Gist(x, mode, false) == Gist(y, mode, false)
    && (!mode.inString ==> Solid(x, true) == Solid(y, true) && Solid(x, false) == Solid(y, false))
  }

  lemma {:induction false} AlikeChar(x: string, y: string, c: char, mode: Mode)
    requires Alike(x, y, mode.After(c)) && (mode.inString || mode == OUTSIDE)
    ensures Alike([c] + x, [c] + y, mode)
  {
    assert ([c] + x)[1..] == x && ([c] + y)[1..] == y;
  }

  lemma {:induction false} AlikeBlanks(b: string, s: string)
    requires Blanks(b)
    ensures Alike(b + s, s, OUTSIDE)
  {
    if b == "" {
      assert b + s == s;
    } else {
      AlikeBlanks(b[1..], s);
      BlankIsWhite(b[0]);
      assert (b + s)[1..] == b[1..] + s;
    }
  }

  lemma {:induction false} CleanAlike(t: string, i: nat, mode: Mode)
    requires i <= |t| && (mode.inString || mode == OUTSIDE)
    ensures Clean(t, i, mode, true).Some? <==> Clean(t, i, mode, false).Some?
    ensures Clean(t, i, mode, true).Some? ==> Alike(Clean(t, i, mode, true).value, Clean(t, i, mode, false).value, mode)
    decreases |t| - i
  {
    if i < |t| {
      if mode.inString || !(CommentAt(t, i, '/') || CommentAt(t, i, '*')) {
        CleanAlike(t, i + 1, mode.After(t[i]));
        var x, y := Clean(t, i + 1, mode.After(t[i]), true), Clean(t, i + 1, mode.After(t[i]), false);
        if x.Some? {
          AlikeChar(x.value, y.value, t[i], mode);
        }
      } else if CommentAt(t, i, '/') {
        var e := LineEnd(t, i + 2);
        CleanAlike(t, e, mode);
        var x, y := Clean(t, e, mode, true), Clean(t, e, mode, false);
        if x.Some? {
          AlikeComment("", x.value, y.value);
        }
      } else {
        match BlockEnd(t, i + 2)
        case Bad(_) =>
        case At(e) =>
          CleanAlike(t, e, mode);
          var x, y := Clean(t, e, mode, true), Clean(t, e, mode, false);
          if x.Some? {
            NewlinesBlank(t[i + 2..e]);
            AlikeComment(Newlines(t[i + 2..e]), x.value, y.value);
          }
      }
    }
  }

  lemma {:induction false} AlikeComment(b: string, x: string, y: string)
    requires Alike(x, y, OUTSIDE) && Blanks(b)
    ensures Alike(" " + b + x, " " + y, OUTSIDE) && Alike(" " + "" + x, " " + "" + y, OUTSIDE)
    ensures Alike(" " + b + x, " " + "" + y, OUTSIDE) && Alike(" " + x, " " + y, OUTSIDE)
  {
    AlikeBlanks(" " + b, x);
    AlikeBlanks(" ", x);
    AlikeBlanks(" ", y);
    assert " " + "" == " ";
  }

  /** The narrow sense finds fewer trailing commas. */
  lemma {:induction false} NarrowIsWide(s: string)
    ensures Closes(Solid(s, false)) ==> Closes(Solid(s, true))
  {
    if s != "" {
      if IsBlank(s[0]) {
        BlankIsWhite(s[0]);
      }
      NarrowIsWide(s[1..]);
    }
  }

  lemma {:induction false} GistsDiffer(s: string, mode: Mode)
    ensures |Gist(s, mode, true)| <= |Gist(s, mode, false)|
    ensures Gist(s, mode, true) == Gist(s, mode, false) <==> !Hidden(s, mode)
    ensures Hidden(s, mode) ==> |Gist(s, mode, true)| < |Gist(s, mode, false)|
  {
    if s != "" {
      GistsDiffer(s[1..], mode.After(s[0]));
      NarrowIsWide(s[1..]);
      var a, b := Gist(s[1..], mode.After(s[0]), true), Gist(s[1..], mode.After(s[0]), false);
      assert ([s[0]] + a)[1..] == a && ([s[0]] + b)[1..] == b;
      assert "" + a == a && "" + b == b;
    }
  }

  /** The two strippers fail together on a block comment that does not end, the
      editor's alone on a string that does not; where both succeed, they agree up to
      white space outside strings exactly when no comma is hidden from its bracket. */
  lemma {:induction false} StrippersLaw(t: string)
    ensures var clean := Clean(t, 0, OUTSIDE, false);
      && (ParseJsonc(t).Some? <==> clean.Some?)
      && (JsoncToJson(t).Some? <==> clean.Some? && !Open(clean.value, OUTSIDE))
      && (JsoncToJson(t).Some? ==>
          (Agree(JsoncToJson(t).value, ParseJsonc(t).value) <==> !Hidden(clean.value, OUTSIDE)))
  {
    CleanAlike(t, 0, OUTSIDE);
    if JsoncToJson(t).Some? {
      var x, y := Clean(t, 0, OUTSIDE, true).value, Clean(t, 0, OUTSIDE, false).value;
      EraseTrim(x, OUTSIDE, true);
      EraseTrim(y, OUTSIDE, false);
      GistsDiffer(y, OUTSIDE);
    }
  }

  predicate Agree(x: string, y: string) { Erase(x, OUTSIDE) == Erase(y, OUTSIDE) }

  /** White space that both senses know. */
  predicate Plain(s: string) { forall i :: 0 <= i < |s| ==> (IsWhitespace(s[i]) <==> IsBlank(s[i])) }

  lemma {:induction false} PlainSolid(s: string)
    requires Plain(s)
    ensures Solid(s, true) == Solid(s, false)
  {
    if s != "" {
      assert Plain(s[1..]) by { assert forall i :: 0 <= i < |s[1..]| ==> s[1..][i] == s[i + 1]; }
      PlainSolid(s[1..]);
    }
  }

  lemma {:induction false} PlainNotHidden(s: string, mode: Mode)
    requires Plain(s)
    ensures !Hidden(s, mode)
  {
    if s != "" {
      assert Plain(s[1..]) by { assert forall i :: 0 <= i < |s[1..]| ==> s[1..][i] == s[i + 1]; }
      PlainSolid(s[1..]);
      PlainNotHidden(s[1..], mode.After(s[0]));
    }
  }

  lemma {:induction false} CleanPlain(t: string, i: nat, mode: Mode)
    requires i <= |t| && Plain(t)
    ensures Clean(t, i, mode, false).Some? ==> Plain(Clean(t, i, mode, false).value)
    decreases |t| - i
  {
    if i < |t| {
      if mode.inString || !(CommentAt(t, i, '/') || CommentAt(t, i, '*')) {
        CleanPlain(t, i + 1, mode.After(t[i]));
      } else if CommentAt(t, i, '/') {
        CleanPlain(t, LineEnd(t, i + 2), mode);
      } else if BlockEnd(t, i + 2).At? {
        CleanPlain(t, BlockEnd(t, i + 2).pos, mode);
      }
    }
  }

  /** Texts without unusual white space are stripped alike. */
  lemma {:induction false} PlainTextsAgree(t: string)
    requires Plain(t) && JsoncToJson(t).Some?
    ensures ParseJsonc(t).Some? && Agree(JsoncToJson(t).value, ParseJsonc(t).value)
  {
    StrippersLaw(t);
    CleanPlain(t, 0, OUTSIDE);
    PlainNotHidden(Clean(t, 0, OUTSIDE, false).value, OUTSIDE);
  }

  /** With a vertical tab between a comma and its bracket they do not agree. */
  lemma {:induction false} VerticalTabHides(t: string)
    requires t == "[,\U{000B}]"
    ensures JsoncToJson(t).Some? && ParseJsonc(t).Some? && !Agree(JsoncToJson(t).value, ParseJsonc(t).value)
  {
    assert NoComment(t, 4, OUTSIDE);
    assert NoComment(t, 2, OUTSIDE);
    StrictClean(t, 0, OUTSIDE);
    assert t[0..] == t;
    assert t[1..][1..] == t[2..] && t[2..][1..] == t[3..] && t[3..][1..] == "";
    assert Solid(t[2..], true) == Solid(t[3..], true) == Some(']');
    assert Solid(t[2..], false) == Some('\U{000B}');
    assert Hidden(t[1..], OUTSIDE);
    assert !Open(t, OUTSIDE) by {
      assert Open(t, OUTSIDE) == Open(t[1..], OUTSIDE) == Open(t[2..], OUTSIDE) == Open(t[3..], OUTSIDE) == Open("",
          OUTSIDE);
    }
    StrippersLaw(t);
  }

  /** No comment starts outside a string. */
  predicate NoComment(t: string, i: nat, mode: Mode)
    requires i <= |t|
    decreases |t| - i
  {
    i == |t| || ((mode.inString || !(CommentAt(t, i, '/') || CommentAt(t, i, '*')))
        && NoComment(t, i + 1, mode.After(t[i])))
  }

  lemma {:induction false} StrictClean(t: string, i: nat, mode: Mode)
    requires i <= |t| && NoComment(t, i, mode)
    ensures Clean(t, i, mode, false) == Some(t[i..]) && Clean(t, i, mode, true) == Some(t[i..])
    decreases |t| - i
  {
    if i < |t| {
      StrictClean(t, i + 1, mode.After(t[i]));
      assert t[i..] == [t[i]] + t[i + 1..];
    } else {
      assert t[i..] == "";
    }
  }

  /** No trailing comma stands outside a string. */
  predicate NoTrailing(s: string, mode: Mode) {
    s == "" || ((mode.inString || !Trailing(s, true)) && NoTrailing(s[1..], mode.After(s[0])))
  }

  lemma {:induction false} StrictTrim(s: string, mode: Mode)
    requires NoTrailing(s, mode)
    ensures Trim(s, mode, true) == s && Trim(s, mode, false) == s
  {
    if s != "" {
      StrictTrim(s[1..], mode.After(s[0]));
      NarrowIsWide(s[1..]);
      assert s == [s[0]] + s[1..];
    }
  }

  /** Strict JSON passes both unchanged. */
  lemma {:induction false} StrictUnchanged(t: string)
    requires NoComment(t, 0, OUTSIDE) && NoTrailing(t, OUTSIDE) && !Open(t, OUTSIDE)
    ensures JsoncToJson(t) == Some(t) && ParseJsonc(t) == Some(t)
  {
    StrictClean(t, 0, OUTSIDE);
    assert t[0..] == t;
    StrictTrim(t, OUTSIDE);
  }
}
