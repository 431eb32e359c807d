/** Member names as JSON string tokens (section 7 of RFC 8259), with the escapes
    the serialiser emits and all those the parser accepts. */
module JsonString {
  import opened Basics
  import opened JsonScan

  function HexDigit(n: nat): (c: char)
    requires n < 16
  {
    "0123456789abcdef"[n]
  }

  function HexValue(c: char): (r: Option<nat>)
    ensures r.Some? ==> r.value < 16
  {
    if '0' <= c <= '9' then Some((c - '0') as nat)
    else if 'a' <= c <= 'f' then Some((c - 'a') as nat + 10)
    else if 'A' <= c <= 'F' then Some((c - 'A') as nat + 10)
    else None
  }

  /** The 16-bit unit written by four hexadecimal digits at the start of `b`. */
  function Unit(b: string): (r: Option<nat>)
    ensures r.Some? ==> |b| >= 4 && r.value < 0x10000
  {
    if |b| < 4 then None
    else match (HexValue(b[0]), HexValue(b[1]), HexValue(b[2]), HexValue(b[3]))
      case (Some(w), Some(x), Some(y), Some(z)) => Some(((w * 16 + x) * 16 + y) * 16 + z)
      case _ => None
  }

  function EscapeChar(c: char): (r: string)
    ensures r != "" && r[0] != '"'
  {
    if c == '"' then "\\\""
    else if c == '\\' then "\\\\"
    else if c == '\U{0008}' then "\\b"
    else if c == '\U{000C}' then "\\f"
    else if c == '\n' then "\\n"
    else if c == '\r' then "\\r"
    else if c == '\t' then "\\t"
    else if c < ' ' then "\\u00" + [HexDigit(c as nat / 16), HexDigit(c as nat % 16)]
    else [c]
  }

  function Escape(k: string): string {
    if k == "" then "" else EscapeChar(k[0]) + Escape(k[1..])
  }

  /** The token written for a member name. */
  function Encode(k: string): string { "\"" + Escape(k) + "\"" }

  function SimpleEscape(c: char): Option<char> {
    match c
    case '"' => Some('"')
    case '\\' => Some('\\')
    case '/' => Some('/')
    case 'b' => Some('\U{0008}')
    case 'f' => Some('\U{000C}')
    case 'n' => Some('\n')
    case 'r' => Some('\r')
    case 't' => Some('\t')
    case _ => None
  }

  function Unescape(b: string): Option<string> {
    if b == "" then Some("")
    else if b[0] == '"' || b[0] < ' ' then None
    else if b[0] != '\\' then Prepend([b[0]], Unescape(b[1..]))
    else if |b| < 2 then None
    else if b[1] != 'u' then
      match SimpleEscape(b[1])
      case Some(c) => Prepend([c], Unescape(b[2..]))
      case None => None
    else
      match Unit(b[2..])
      case None => None
      case Some(n) =>
        if n < 0xD800 || 0xE000 <= n then Prepend([n as char], Unescape(b[6..]))
        else if n >= 0xDC00 || |b| < 8 || b[6] != '\\' || b[7] != 'u' then None
        else match Unit(b[8..])
          case Some(m) =>
            if 0xDC00 <= m < 0xE000
            then Prepend([(0x10000 + (n - 0xD800) * 0x400 + (m - 0xDC00)) as char], Unescape(b[12..]))
            else None
          case None => None
  }

  /** The name a string token stands for, if it is well formed. */
  function Decode(token: string): Option<string> {
    if |token| < 2 || token[0] != '"' || token[|token| - 1] != '"' then None
    else Unescape(token[1..|token| - 1])
  }

  lemma HexRoundTrip(n: nat)
    requires n < 16
    ensures HexValue(HexDigit(n)) == Some(n)
  {
  }

  lemma UnescapeStep(c: char, rest: string)
    ensures Unescape(EscapeChar(c) + rest) == Prepend([c], Unescape(rest))
  {
    var e := EscapeChar(c);
    var b := e + rest;
    assert b[|e|..] == rest;
    if |e| == 6 {
      UnitOfControl(c, b);
      ControlStep(c, b, rest);
    } else if |e| == 2 {
      SimpleStep(c, b, rest);
    } else {
      PlainStep(c, b, rest);
    }
  }

  lemma {:induction false} SimpleStep(c: char, b: string, rest: string)
    requires |b| >= 2 && b[0] == '\\' && b[1] != 'u' && SimpleEscape(b[1]) == Some(c) && b[2..] == rest
    ensures Unescape(b) == Prepend([c], Unescape(rest))
  {
  }

  lemma {:induction false} PlainStep(c: char, b: string, rest: string)
    requires |b| >= 1 && b[0] == c && c != '"' && c != '\\' && c >= ' ' && b[1..] == rest
    ensures Unescape(b) == Prepend([c], Unescape(rest))
  {
  }

  lemma {:induction false} ControlStep(c: char, b: string, rest: string)
    requires |b| >= 6 && b[0] == '\\' && b[1] == 'u' && Unit(b[2..]) == Some(c as nat) && c < ' ' && b[6..] == rest
    ensures Unescape(b) == Prepend([c], Unescape(rest))
  {
  }

  /** The six-character escape of a control character spells its code. */
  lemma UnitOfControl(c: char, b: string)
    requires |EscapeChar(c)| == 6 <= |b| && b[..6] == EscapeChar(c)
    ensures Unit(b[2..]) == Some(c as nat)
  {
    var e := EscapeChar(c);
    HexRoundTrip(c as nat / 16);
    HexRoundTrip(c as nat % 16);
    assert forall j :: 0 <= j < 6 ==> e[j] == b[j];
    assert b[2..][0] == e[2] == '0' && b[2..][1] == e[3] == '0';
    assert b[2..][2] == e[4] && b[2..][3] == e[5];
  }

  lemma {:induction false} UnescapeEscape(k: string)
    ensures Unescape(Escape(k)) == Some(k)
  {
    if k != "" {
      UnescapeStep(k[0], Escape(k[1..]));
      UnescapeEscape(k[1..]);
      assert k == [k[0]] + k[1..];
    }
  }

  /** Every name survives being written and read back. */
  lemma DecodeEncode(k: string)
    ensures Decode(Encode(k)) == Some(k)
  {
    assert Encode(k)[1..|Encode(k)| - 1] == Escape(k);
    UnescapeEscape(k);
  }

  /** No escape leaves the string scanner inside an escape or lets it stop. */
  lemma BodyAfterEscape(t: string, i: nat, c: char)
    requires i + |EscapeChar(c)| <= |t| && t[i..i + |EscapeChar(c)|] == EscapeChar(c)
    ensures StringBody(t, i, false) == StringBody(t, i + |EscapeChar(c)|, false)
  {
    var e := EscapeChar(c);
    assert forall j :: 0 <= j < |e| ==> e[j] == t[i + j];
    if |e| == 2 {
      assert t[i] == '\\' && StringBody(t, i, false) == StringBody(t, i + 1, true);
    } else if |e| == 6 {
      assert t[i] == '\\' && StringBody(t, i, false) == StringBody(t, i + 1, true);
      assert t[i + 1] == 'u' && StringBody(t, i + 1, true) == StringBody(t, i + 2, false);
      PlainBody(t, i + 2, 4);
    }
  }

  lemma {:induction false} PlainBody(t: string, i: nat, n: nat)
    requires i + n <= |t| && forall j :: i <= j < i + n ==> t[j] != '"' && t[j] != '\\'
    ensures StringBody(t, i, false) == StringBody(t, i + n, false)
    decreases n
  {
    if n > 0 {
      PlainBody(t, i + 1, n - 1);
    }
  }

  lemma {:induction false} BodyAfterEscapes(t: string, i: nat, j: nat, k: string)
    requires i <= j <= |t| && t[i..j] == Escape(k)
    ensures StringBody(t, i, false) == StringBody(t, j, false)
    decreases |k|
  {
    if k != "" {
      var m := FirstEscape(t, i, j, k);
      BodyAfterEscape(t, i, k[0]);
      BodyAfterEscapes(t, m, j, k[1..]);
    }
  }

  lemma {:induction false} FirstEscape(t: string, i: nat, j: nat, k: string) returns (m: nat)
    requires i <= j <= |t| && t[i..j] == Escape(k) && k != ""
    ensures i <= m <= j && m == i + |EscapeChar(k[0])| && t[i..m] == EscapeChar(k[0]) && t[m..j] == Escape(k[1..])
  {
    m := SplitText(t, i, j, EscapeChar(k[0]), Escape(k[1..]));
  }

  lemma {:induction false} SplitText(t: string, i: nat, j: nat, e: string, rest: string) returns (m: nat)
    requires i <= j <= |t| && t[i..j] == e + rest
    ensures m == i + |e| && m <= j && t[i..m] == e && t[m..j] == rest
  {
    m := i + |e|;
    assert |t[i..j]| == |e| + |rest|;
    assert t[i..m] == t[i..j][..|e|];
    assert t[m..j] == t[i..j][|e|..];
  }

  /** An encoded name is one string token wherever it is written. */
  lemma EncodeIsToken(t: string, i: nat, k: string)
    requires i + |Encode(k)| <= |t| && t[i..i + |Encode(k)|] == Encode(k)
    ensures StringEnd(t, i) == At(i + |Encode(k)|)
  {
    var w, n := Encode(k), i + |Encode(k)|;
    assert forall j :: 0 <= j < |w| ==> w[j] == t[i + j];
    assert w[0] == '"' && w[|w| - 1] == '"';
    assert t[i] == '"' && t[n - 1] == '"';
    assert t[i + 1..n - 1] == t[i..n][1..|w| - 1] == Escape(k);
    BodyAfterEscapes(t, i + 1, n - 1, k);
  }
}
