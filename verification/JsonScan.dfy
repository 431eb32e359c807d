/** The cursor scanner of the settings editor: blank space and comments, quoted
    strings and whole values. Every scanner is given twice: as a function that
    specifies it and as the loop the program runs, proved equal to the function. */
module JsonScan {

  /** Why an edit or a scan is refused. */
  datatype Fault = Malformed | InvalidPath | UnavailablePath

  datatype Scan = At(pos: nat) | Bad(fault: Fault) {
    predicate IsFailure() { Bad? }
    function PropagateFailure(): Scan requires Bad? { this }
    function Extract(): nat requires At? { pos }
  }

  /** `u8::is_ascii_whitespace`. The vertical tab is not one of them. */
  predicate IsBlank(c: char) {
    c == ' ' || c == '\t' || c == '\n' || c == '\r' || c == '\U{000C}'
  }

  predicate IsDelimiter(c: char) {
    c == ',' || c == '}' || c == ']' || IsBlank(c)
  }

  predicate CharAt(t: string, i: nat, c: char) { i < |t| && t[i] == c }

  predicate CommentAt(t: string, i: nat, second: char) { CharAt(t, i, '/') && CharAt(t, i + 1, second) }

  function LineEnd(t: string, i: nat): (r: nat)
    requires i <= |t|
    ensures i <= r <= |t|
    decreases |t| - i
  {
    if i < |t| && t[i] != '\n' then LineEnd(t, i + 1) else i
  }

  /** The position just after the first block-comment end at or after `i`. */
  function BlockEnd(t: string, i: nat): (r: Scan)
    requires i <= |t|
    ensures r.At? ==> i + 2 <= r.pos <= |t|
    decreases |t| - i
  {
    if i + 1 >= |t| then Bad(Malformed)
    else if t[i] == '*' && t[i + 1] == '/' then At(i + 2)
    else BlockEnd(t, i + 1)
  }

  /** Specification of the blank-and-comment skipper. */
  function Skip(t: string, i: nat): (r: Scan)
    requires i <= |t|
    ensures r.At? ==> i <= r.pos <= |t| && Stops(t, r.pos)
    decreases |t| - i
  {
    if i >= |t| then At(i)
    else if IsBlank(t[i]) then Skip(t, i + 1)
    else if CommentAt(t, i, '/') then Skip(t, LineEnd(t, i + 2))
    else if CommentAt(t, i, '*') then
      var j :- BlockEnd(t, i + 2);
      Skip(t, j)
    else At(i)
  }

  /** Nothing at `i` is left to skip. */
  predicate Stops(t: string, i: nat) {
    i < |t| ==> !IsBlank(t[i]) && !CommentAt(t, i, '/') && !CommentAt(t, i, '*')
  }

  function StringBody(t: string, i: nat, escaped: bool): (r: Scan)
    requires i <= |t|
    ensures r.At? ==> i < r.pos <= |t|
    decreases |t| - i
  {
    if i >= |t| then Bad(Malformed)
    else if t[i] == '"' && !escaped then At(i + 1)
    else StringBody(t, i + 1, t[i] == '\\' && !escaped)
  }

  function StringEnd(t: string, i: nat): (r: Scan)
    requires i <= |t|
    ensures r.At? ==> i + 1 < r.pos <= |t| && t[i] == '"'
  {
    if CharAt(t, i, '"') then StringBody(t, i + 1, false) else Bad(Malformed)
  }

  function ScalarEnd(t: string, i: nat): (r: nat)
    requires i <= |t|
    ensures i <= r <= |t|
    decreases |t| - i
  {
    if i < |t| && !IsDelimiter(t[i]) then ScalarEnd(t, i + 1) else i
  }

  function ValueEnd(t: string, i: nat): (r: Scan)
    requires i <= |t|
    ensures r.At? ==> i < r.pos <= |t|
    decreases |t| - i, 1
  {
    var s :- Skip(t, i);
    if s >= |t| then Bad(Malformed) else RawEnd(t, s)
  }

  /** The end of the value whose first character is at `s`. */
  function RawEnd(t: string, s: nat): (r: Scan)
    requires s < |t|
    ensures r.At? ==> s < r.pos <= |t|
    decreases |t| - s, 0
  {
    if t[s] == '"' then StringEnd(t, s)
    else if t[s] == '{' then
      var c :- Skip(t, s + 1);
      if CharAt(t, c, '}') then At(c + 1) else MembersEnd(t, c)
    else if t[s] == '[' then
      var c :- Skip(t, s + 1);
      if CharAt(t, c, ']') then At(c + 1) else ElementsEnd(t, c)
    else At(ScalarEnd(t, s + 1))
  }

  /** Where the colon of the member starting at `c` stands. */
  function ColonAfter(t: string, c: nat): (r: Scan)
    requires c <= |t|
    ensures r.At? ==> c < r.pos < |t| && t[r.pos] == ':'
  {
    var k :- StringEnd(t, c);
    var colon :- Skip(t, k);
    if CharAt(t, colon, ':') then At(colon) else Bad(Malformed)
  }

  /** Where the separator after the value at or after `i` stands. */
  function ValueAfter(t: string, i: nat): (r: Scan)
    requires i <= |t|
    ensures r.At? ==> i < r.pos <= |t|
    decreases |t| - i, 2
  {
    var v :- ValueEnd(t, i);
    Skip(t, v)
  }

  /** Where the separator after the member starting at `c` stands. */
  function MemberAfter(t: string, c: nat): (r: Scan)
    requires c <= |t|
    ensures r.At? ==> c < r.pos <= |t|
    decreases |t| - c, 2
  {
    var colon :- ColonAfter(t, c);
    ValueAfter(t, colon + 1)
  }

  /** What a separator leads to: the next item, or the end of the container.
      A comma may stand before the end. */
  datatype Next = Close(end: nat, comma: bool) | More(item: nat) | Neither(fault: Fault)

  function Separator(t: string, a: nat, close: char): (r: Next)
    requires a <= |t|
    ensures r.More? ==> a < r.item <= |t|
    ensures r.Close? ==> a < r.end <= |t|
  {
    if CharAt(t, a, ',') then
      match Skip(t, a + 1)
      case Bad(f) => Neither(f)
      case At(n) => if CharAt(t, n, close) then Close(n + 1, true) else More(n)
    else if CharAt(t, a, close) then Close(a + 1, false)
    else Neither(Malformed)
  }

  /** The end of an object whose next key starts at `c`. */
  function MembersEnd(t: string, c: nat): (r: Scan)
    requires c <= |t|
    ensures r.At? ==> c < r.pos <= |t|
    decreases |t| - c, 3
  {
    var a :- MemberAfter(t, c);
    match Separator(t, a, '}')
    case Close(end, _) => At(end)
    case More(n) => MembersEnd(t, n)
    case Neither(f) => Bad(f)
  }

  /** The end of an array whose next element starts at `c`. */
  function ElementsEnd(t: string, c: nat): (r: Scan)
    requires c <= |t|
    ensures r.At? ==> c < r.pos <= |t|
    decreases |t| - c, 3
  {
    var a :- ValueAfter(t, c);
    match Separator(t, a, ']')
    case Close(end, _) => At(end)
    case More(n) => ElementsEnd(t, n)
    case Neither(f) => Bad(f)
  }

  /** What a brace opens. */
  lemma {:induction false} BraceIs(t: string, s: nat, x: nat, c: nat)
    requires CharAt(t, s, '{') && x == s + 1 && Skip(t, x) == At(c)
    ensures RawEnd(t, s) == if CharAt(t, c, '}') then At(c + 1) else MembersEnd(t, c)
  {
  }

  /** What a bracket opens. */
  lemma {:induction false} BracketIs(t: string, s: nat, x: nat, c: nat)
    requires CharAt(t, s, '[') && x == s + 1 && Skip(t, x) == At(c)
    ensures RawEnd(t, s) == if CharAt(t, c, ']') then At(c + 1) else ElementsEnd(t, c)
  {
  }

  /** An object or array that ends has a first character after its opening. */
  lemma {:induction false} Opens(t: string, s: nat, x: nat) returns (c: nat)
    requires s < |t| && SelfOpening(t[s]) && x == s + 1 && RawEnd(t, s).At?
    ensures x <= c <= |t| && Skip(t, x) == At(c)
  {
    c := Skip(t, x).pos;
  }

  predicate SelfOpening(c: char) { c == '{' || c == '[' }

  // ---- The loops ------------------------------------------------------------

  method JsonSkip(t: string, start: nat) returns (r: Scan)
    requires start <= |t|
    ensures r == Skip(t, start)
  {
    var cursor := start;
    while cursor < |t|
      invariant start <= cursor <= |t|
      invariant Skip(t, cursor) == Skip(t, start)
      decreases |t| - cursor
    {
      if IsBlank(t[cursor]) {
        cursor := cursor + 1;
        continue;
      }
      if CommentAt(t, cursor, '/') {
        ghost var before := cursor;
        cursor := cursor + 2;
        while cursor < |t| && t[cursor] != '\n'
          invariant before + 2 <= cursor <= |t|
          invariant LineEnd(t, cursor) == LineEnd(t, before + 2)
        {
          cursor := cursor + 1;
        }
        continue;
      }
      if CommentAt(t, cursor, '*') {
        ghost var before := cursor;
        cursor := cursor + 2;
        while cursor + 1 < |t| && !(t[cursor] == '*' && t[cursor + 1] == '/')
          invariant before + 2 <= cursor <= |t|
          invariant BlockEnd(t, cursor) == BlockEnd(t, before + 2)
        {
          cursor := cursor + 1;
        }
        if cursor + 1 >= |t| {
          return Bad(Malformed);
        }
        cursor := cursor + 2;
        continue;
      }
      break;
    }
    return At(cursor);
  }

  method JsonStringEnd(t: string, start: nat) returns (r: Scan)
    requires start <= |t|
    ensures r == StringEnd(t, start)
  {
    if !CharAt(t, start, '"') {
      return Bad(Malformed);
    }
    var escaped := false;
    var at := start + 1;
    while at < |t|
      invariant start + 1 <= at <= |t|
      invariant StringBody(t, at, escaped) == StringBody(t, start + 1, false)
    {
      if t[at] == '"' && !escaped {
        return At(at + 1);
      }
      escaped := t[at] == '\\' && !escaped;
      at := at + 1;
    }
    return Bad(Malformed);
  }

  method JsonValueEnd(t: string, start: nat) returns (r: Scan)
    requires start <= |t|
    ensures r == ValueEnd(t, start)
    decreases |t| - start, 1
  {
    var s :- JsonSkip(t, start);
    if s >= |t| {
      return Bad(Malformed);
    }
    if t[s] == '"' {
      r := JsonStringEnd(t, s);
    } else if t[s] == '{' {
      r := JsonObjectEnd(t, s);
    } else if t[s] == '[' {
      r := JsonArrayEnd(t, s);
    } else {
      var cursor := s;
      while cursor < |t| && !(cursor > s && (t[cursor] == ',' || t[cursor] == '}' || t[cursor] == ']'))
          && !IsBlank(t[cursor])
        invariant s <= cursor <= |t|
        invariant cursor > s ==> ScalarEnd(t, cursor) == ScalarEnd(t, s + 1)
      {
        cursor := cursor + 1;
      }
      // The scan never ends on an empty scalar: its first character is not blank.
      r := At(cursor);
    }
  }

  method JsonObjectEnd(t: string, s: nat) returns (r: Scan)
    requires CharAt(t, s, '{')
    ensures r == RawEnd(t, s)
    decreases |t| - s, 0
  {
    var cursor :- JsonSkip(t, s + 1);
    BraceIs(t, s, s + 1, cursor);
    if CharAt(t, cursor, '}') {
      return At(cursor + 1);
    }
    r := JsonMembersEnd(t, cursor);
  }

  /** The object loop. */
  method JsonMembersEnd(t: string, first: nat) returns (r: Scan)
    requires first <= |t|
    ensures r == MembersEnd(t, first)
    decreases |t| - first, 3
  {
    var cursor := first;
    while true
      invariant first <= cursor <= |t|
      invariant MembersEnd(t, cursor) == MembersEnd(t, first)
      decreases |t| - cursor
    {
      cursor :- JsonMemberAfter(t, cursor);
      if CharAt(t, cursor, ',') {
        cursor :- JsonSkip(t, cursor + 1);
        if CharAt(t, cursor, '}') {
          return At(cursor + 1);
        }
      } else if CharAt(t, cursor, '}') {
        return At(cursor + 1);
      } else {
        return Bad(Malformed);
      }
    }
  }

  /** The part of the object loop that reads one member. */
  method JsonMemberAfter(t: string, c: nat) returns (r: Scan)
    requires c <= |t|
    ensures r == MemberAfter(t, c)
    decreases |t| - c, 2
  {
    var cursor :- JsonStringEnd(t, c);
    cursor :- JsonSkip(t, cursor);
    if !CharAt(t, cursor, ':') {
      return Bad(Malformed);
    }
    cursor :- JsonValueEnd(t, cursor + 1);
    r := JsonSkip(t, cursor);
  }

  method JsonArrayEnd(t: string, s: nat) returns (r: Scan)
    requires CharAt(t, s, '[')
    ensures r == RawEnd(t, s)
    decreases |t| - s, 0
  {
    var cursor :- JsonSkip(t, s + 1);
    BracketIs(t, s, s + 1, cursor);
    if CharAt(t, cursor, ']') {
      return At(cursor + 1);
    }
    r := JsonElementsEnd(t, cursor);
  }

  /** The array loop. */
  method JsonElementsEnd(t: string, first: nat) returns (r: Scan)
    requires first <= |t|
    ensures r == ElementsEnd(t, first)
    decreases |t| - first, 3
  {
    var cursor := first;
    while true
      invariant first <= cursor <= |t|
      invariant ElementsEnd(t, cursor) == ElementsEnd(t, first)
      decreases |t| - cursor
    {
      cursor :- JsonValueEnd(t, cursor);
      cursor :- JsonSkip(t, cursor);
      if CharAt(t, cursor, ',') {
        cursor :- JsonSkip(t, cursor + 1);
        if CharAt(t, cursor, ']') {
          return At(cursor + 1);
        }
      } else if CharAt(t, cursor, ']') {
        return At(cursor + 1);
      } else {
        return Bad(Malformed);
      }
    }
  }
}
