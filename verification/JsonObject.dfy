/** Reading an object with the place of every member, and what the members are
    once places are forgotten. */
module JsonObject {
  import opened Basics
  import opened JsonScan
  import opened JsonFrame
  import opened JsonString

  datatype Result<+T> = Ok(value: T) | Err(fault: Fault) {
    predicate IsFailure() { Err? }
    function PropagateFailure<U>(): Result<U> requires Err? { Err(fault) }
    function Extract(): T requires Ok? { value }
  }

  datatype Span = Span(start: nat, end: nat)

  datatype Field = Field(key: string, keyStart: nat, value: Span)

  datatype Object = Object(span: Span, fields: seq<Field>, trailingComma: bool)

  /** One member and the place of the separator after it. */
  datatype Head = Head(field: Field, after: nat) | NoHead(fault: Fault)

  function ReadField(t: string, c: nat): (r: Head)
    requires c <= |t|
    ensures r.Head? ==> c < r.field.value.start < r.field.value.end <= r.after <= |t|
    ensures r.Head? ==> r.field.keyStart == c
  {
    match StringEnd(t, c)
    case Bad(f) => NoHead(f)
    case At(k) =>
      match (Decode(t[c..k]), ColonAfter(t, c))
      case (Some(key), At(colon)) => ReadValue(t, c, key, colon)
      case _ => NoHead(Malformed)
  }

  function ReadValue(t: string, c: nat, key: string, colon: nat): (r: Head)
    requires colon < |t|
    ensures r.Head? ==> colon < r.field.value.start < r.field.value.end <= r.after <= |t|
    ensures r.Head? ==> r.field.keyStart == c && r.field.key == key
  {
    match Skip(t, colon + 1)
    case Bad(f) => NoHead(f)
    case At(s) =>
      if s >= |t| then NoHead(Malformed)
      else match RawEnd(t, s)
        case Bad(f) => NoHead(f)
        case At(e) =>
          match Skip(t, e)
          case Bad(f) => NoHead(f)
          case At(a) => Head(Field(key, c, Span(s, e)), a)
  }

  /** The members of an object from just after its opening brace, or from just
      after a comma, and the place of its closing brace. */
  datatype Body = Body(fields: seq<Field>, close: nat, comma: bool) | NoBody(fault: Fault)

  function Cons(f: Field, rest: Body): Body {
    if rest.Body? then Body([f] + rest.fields, rest.close, rest.fields == [] || rest.comma) else rest
  }

  function ReadBody(t: string, x: nat): (r: Body)
    requires x <= |t|
    ensures r.Body? ==> x <= r.close < |t| && t[r.close] == '}'
    decreases |t| - x, 1
  {
    match Skip(t, x)
    case Bad(f) => NoBody(f)
    case At(c) => ReadItem(t, c)
  }

  /** The same, from the first character of the next member or the brace. */
  function ReadItem(t: string, c: nat): (r: Body)
    requires c <= |t|
    ensures r.Body? ==> c <= r.close < |t| && t[r.close] == '}'
    decreases |t| - c, 0
  {
    if CharAt(t, c, '}') then Body([], c, false)
    else match ReadField(t, c)
      case NoHead(f) => NoBody(f)
      case Head(f, a) =>
        if CharAt(t, a, ',') then Cons(f, ReadBody(t, a + 1))
        else if CharAt(t, a, '}') then Body([f], a, false)
        else NoBody(Malformed)
  }

  /** The object at or after `span.start`; nothing when the value there is of
      another kind. */
  function ObjectAt(t: string, span: Span): Result<Option<Object>>
    requires span.start <= |t|
  {
    match Skip(t, span.start)
    case Bad(f) => Err(f)
    case At(s) => if CharAt(t, s, '{') then ReadObject(t, s, span.end) else Ok(None)
  }

  function ReadObject(t: string, s: nat, limit: nat): Result<Option<Object>>
    requires CharAt(t, s, '{')
  {
    match RawEnd(t, s)
    case Bad(f) => Err(f)
    case At(e) =>
      if e > limit then Err(Malformed)
      else match ReadBody(t, s + 1)
        case NoBody(f) => Err(f)
        case Body(fields, _, comma) => Ok(Some(Object(Span(s, e), fields, comma)))
  }

  function RootObject(t: string): Result<Option<Object>> {
    match Skip(t, 0)
    case Bad(f) => Err(f)
    case At(s) =>
      if s >= |t| then Ok(None)
      else match ValueEnd(t, s)
        case Bad(f) => Err(f)
        case At(e) => ObjectAt(t, Span(s, e))
  }

  // ---- The parsing loop -------------------------------------------------------

  method ParseField(t: string, c: nat) returns (r: Head)
    requires c <= |t|
    ensures r == ReadField(t, c)
  {
    var keyEnd := JsonStringEnd(t, c);
    if keyEnd.Bad? { return NoHead(keyEnd.fault); }
    var key := Decode(t[c..keyEnd.pos]);
    var cursor := JsonSkip(t, keyEnd.pos);
    if key.None? { return NoHead(Malformed); }
    if cursor.Bad? || !CharAt(t, cursor.pos, ':') { return NoHead(Malformed); }
    var start := JsonSkip(t, cursor.pos + 1);
    if start.Bad? { return NoHead(start.fault); }
    var end := JsonValueEnd(t, start.pos);
    if end.Bad? { return NoHead(end.fault); }
    cursor := JsonSkip(t, end.pos);
    if cursor.Bad? { return NoHead(cursor.fault); }
    return Head(Field(key.value, c, Span(start.pos, end.pos)), cursor.pos);
  }

  /** The loop over the members of an object that is not empty. */
  method ParseMembers(t: string, first: nat) returns (r: Body)
    requires first <= |t| && !CharAt(t, first, '}')
    ensures r == ReadItem(t, first)
  {
    var fields: seq<Field>, cursor := [], first;
    while true
      invariant first <= cursor <= |t| && !CharAt(t, cursor, '}')
      invariant ReadItem(t, first) == Join(fields, ReadItem(t, cursor))
      decreases |t| - cursor
    {
      JoinKeeps(fields, ReadItem(t, cursor));
      var head := ParseField(t, cursor);
      if head.NoHead? { return NoBody(head.fault); }
      if CharAt(t, head.after, ',') {
        var next := JsonSkip(t, head.after + 1);
        if next.Bad? { return NoBody(next.fault); }
        ghost var rest := ReadItem(t, next.pos);
        assert ReadItem(t, cursor) == Cons(head.field, rest);
        JoinCons(fields, head.field, rest);
        fields := fields + [head.field];
        cursor := next.pos;
        if CharAt(t, cursor, '}') {
          assert fields + [] == fields;
          return Body(fields, cursor, true);
        }
      } else if CharAt(t, head.after, '}') {
        assert ReadItem(t, cursor) == Body([head.field], head.after, false);
        return Body(fields + [head.field], head.after, false);
      } else {
        return NoBody(Malformed);
      }
    }
  }

  method ParseObjectAt(t: string, span: Span) returns (r: Result<Option<Object>>)
    requires span.start <= |t|
    ensures r == ObjectAt(t, span)
  {
    var start := JsonSkip(t, span.start);
    if start.Bad? { return Err(start.fault); }
    var s := start.pos;
    if !CharAt(t, s, '{') { return Ok(None); }
    var end := JsonValueEnd(t, s);
    if end.Bad? { return Err(end.fault); }
    if end.pos > span.end { return Err(Malformed); }
    // The skip after the brace cannot fail: the scan for the end has made it.
    var first := JsonSkip(t, s + 1);
    assert first.At?;
    if CharAt(t, first.pos, '}') {
      assert ReadItem(t, first.pos) == Body([], first.pos, false);
      return Ok(Some(Object(Span(s, end.pos), [], false)));
    }
    var body := ParseMembers(t, first.pos);
    if body.NoBody? { return Err(body.fault); }
    return Ok(Some(Object(Span(s, end.pos), body.fields, body.comma)));
  }

  /** Members already read, in front of the rest of the body. */
  function Join(fields: seq<Field>, rest: Body): Body {
    if rest.NoBody? || fields == [] then rest
    else Body(fields + rest.fields, rest.close, rest.fields == [] || rest.comma)
  }

  lemma JoinKeeps(fields: seq<Field>, rest: Body)
    ensures Join(fields, rest).NoBody? <==> rest.NoBody?
    ensures rest.Body? && rest.fields != [] ==> Join(fields, rest) == Body(fields + rest.fields, rest.close, rest.comma)
  {
    assert fields + [] == fields;
    assert rest.Body? ==> [] + rest.fields == rest.fields;
  }

  lemma JoinCons(fields: seq<Field>, f: Field, rest: Body)
    ensures Join(fields, Cons(f, rest)) == Join(fields + [f], rest)
  {
    if rest.Body? {
      assert fields + ([f] + rest.fields) == fields + [f] + rest.fields;
    }
  }
}
