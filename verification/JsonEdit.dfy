/** The splice edits: replace, remove or add one member of one object and leave
    the rest of the text alone. */
module JsonEdit {
  import opened Basics
  import opened JsonScan
  import opened JsonFrame
  import opened JsonString
  import opened JsonObject
  import opened JsonSplice

  /** The text with `[i..j)` replaced by `x`. */
  function Splice(t: string, i: nat, x: string, j: nat): string
    requires i <= j <= |t|
  {
    t[..i] + x + t[j..]
  }

  /** `char::is_whitespace`: the Unicode White_Space property. */
  predicate IsWhitespace(c: char) {
    || '\U{0009}' <= c <= '\U{000D}' || c == ' ' || c == '\U{0085}' || c == '\U{00A0}' || c == '\U{1680}'
    || '\U{2000}' <= c <= '\U{200A}' || c == '\U{2028}' || c == '\U{2029}' || c == '\U{202F}'
    || c == '\U{205F}' || c == '\U{3000}'
  }

  /** Where the line that holds position `i` begins. */
  function LineStart(t: string, i: nat): (r: nat)
    requires i <= |t|
    ensures r <= i
  {
    if i == 0 || t[i - 1] == '\n' then i else LineStart(t, i - 1)
  }

  /** The end of the run of white space at `i`, looking no further than `j`. */
  function RunEnd(t: string, i: nat, j: nat): (r: nat)
    requires i <= j <= |t|
    ensures i <= r <= j
    decreases j - i
  {
    if i < j && IsWhitespace(t[i]) then RunEnd(t, i + 1, j) else i
  }

  /** The parser's account of an object of the text it was read from. */
  predicate IsObject(t: string, obj: Object) {
    && CharAt(t, obj.span.start, '{') && obj.span.end >= 1
    && ReadBody(t, obj.span.start + 1) == Body(obj.fields, obj.span.end - 1, obj.trailingComma)
  }

  /** The white space that opens the line of the closing brace. */
  function CloseIndent(t: string, obj: Object): string
    requires IsObject(t, obj)
  {
    var close := obj.span.end - 1;
    var start := LineStart(t, close);
    t[start..RunEnd(t, start, close)]
  }

  predicate HasNewline(t: string, obj: Object)
    requires IsObject(t, obj)
  {
    '\n' in t[obj.span.start..obj.span.end - 1]
  }

  /** A member with what stands around it. */
  function MemberText(lead: string, pre: string, key: string, mid: string, value: string, post: string): string {
    lead + (pre + (Encode(key) + (":" + (mid + (value + post)))))
  }

  /** The separator in front of a new member. */
  function Lead(obj: Object): string { if obj.fields != [] then "," else "" }

  /** The line break and indentation in front of its name. */
  function LineBreak(t: string, obj: Object): string
    requires IsObject(t, obj)
  {
    if HasNewline(t, obj) then "\n" + (CloseIndent(t, obj) + "  ") else ""
  }

  /** The line break and indentation after it. */
  function LastBreak(t: string, obj: Object): string
    requires IsObject(t, obj)
  {
    if HasNewline(t, obj) && obj.fields == [] then "\n" + CloseIndent(t, obj) else ""
  }

  /** A new member with its separator, on its own line when the object spans lines. */
  function Insertion(t: string, obj: Object, key: string, value: string): string
    requires IsObject(t, obj)
  {
    MemberText(Lead(obj), LineBreak(t, obj), key, if HasNewline(t, obj) then " " else "", value, LastBreak(t, obj))
  }

  /** Where a new member goes: before the closing brace or before a trailing comma. */
  function InsertionPoint(t: string, obj: Object): (r: Result<nat>)
    requires IsObject(t, obj)
    ensures r.Ok? ==> r.value <= |t|
  {
    if !obj.trailingComma then Ok(obj.span.end - 1)
    else if obj.fields == [] then Err(Malformed)
    else
      var last := |obj.fields| - 1;
      FieldPlace(t, obj.span.start + 1, obj.fields, obj.span.end - 1, obj.trailingComma, last);
      match Skip(t, obj.fields[last].value.end)
      case Bad(f) => Err(f)
      case At(at) => if CharAt(t, at, ',') then Ok(at) else Err(Malformed)
  }

  function InsertField(t: string, obj: Object, key: string, value: string): Result<string>
    requires IsObject(t, obj)
  {
    var at :- InsertionPoint(t, obj);
    Ok(Splice(t, at, Insertion(t, obj, key, value), at))
  }

  /** The separator after a member, which the removal looks for. */
  function After(t: string, obj: Object, i: nat): (r: Scan)
    requires IsObject(t, obj) && i < |obj.fields|
    ensures r.At? ==> obj.fields[i].value.end <= r.pos <= |t|
  {
    FieldPlace(t, obj.span.start + 1, obj.fields, obj.span.end - 1, obj.trailingComma, i);
    Skip(t, obj.fields[i].value.end)
  }

  /** The stretch that goes when member `i` is removed: the member with the comma
      after it or, failing that, with the comma before it. */
  function RemovedSpan(t: string, obj: Object, i: nat): Result<Span>
    requires IsObject(t, obj) && i < |obj.fields|
  {
    var field := obj.fields[i];
    match After(t, obj, i)
    case Bad(f) => Err(f)
    case At(after) =>
      if CharAt(t, after, ',') then Ok(Span(field.keyStart, after + 1))
      else if i == 0 then Ok(Span(field.keyStart, field.value.end))
      else match After(t, obj, i - 1)
        case Bad(f) => Err(f)
        case At(before) =>
          Ok(Span(if CharAt(t, before, ',') then before else field.keyStart, field.value.end))
  }

  /** What stands after member `i` and how reading goes on from there. */
  lemma {:induction false} MemberTail(t: string, obj: Object, i: nat) returns (q: nat, a: nat, y: nat, cm: bool)
    requires IsObject(t, obj) && i < |obj.fields|
    ensures obj.fields[i].keyStart == q && obj.span.start < q < a < obj.span.end <= |t| && y == a + 1
    ensures CharAt(t, q, '"') && ReadItem(t, q) == Body(obj.fields[i..], obj.span.end - 1, obj.trailingComma)
    ensures ReadField(t, q) == Head(obj.fields[i], a) && After(t, obj, i) == At(a)
    ensures t[a] == if i + 1 < |obj.fields| || obj.trailingComma then ',' else '}'
    ensures t[a] == '}' ==> a == obj.span.end - 1
    ensures t[a] == ',' ==> ReadBody(t, y) == Body(obj.fields[i + 1..], obj.span.end - 1, cm)
    ensures t[a] == ',' && i + 1 < |obj.fields| ==> cm == obj.trailingComma
  {
    var x, fs, cl := obj.span.start + 1, obj.fields, obj.span.end - 1;
    q := fs[i].keyStart;
    SuffixRead(t, x, fs, cl, obj.trailingComma, i, q);
    a, y, cm := ItemTail(t, q, fs[i..], cl, obj.trailingComma);
    assert fs[i..][1..] == fs[i + 1..];
    var k := FieldParts(t, q, fs[i], a);
  }

  lemma {:induction false} RemovedSpanIs(t: string, obj: Object, i: nat) returns (p: nat, a: nat)
    requires IsObject(t, obj) && i < |obj.fields|
    ensures obj.span.start < p <= obj.fields[i].keyStart < obj.fields[i].value.end <= a < obj.span.end <= |t|
    ensures After(t, obj, i) == At(a)
    ensures RemovedSpan(t, obj, i) ==
      if i + 1 < |obj.fields| || obj.trailingComma then Ok(Span(obj.fields[i].keyStart, a + 1))
      else Ok(Span(p, obj.fields[i].value.end))
    ensures p == if i + 1 < |obj.fields| || obj.trailingComma || i == 0 then obj.fields[i].keyStart
      else After(t, obj, i - 1).pos
  {
    if i + 1 < |obj.fields| || obj.trailingComma || i == 0 {
      a := RemovedHere(t, obj, i);
      p := obj.fields[i].keyStart;
    } else {
      p, a := RemovedBack(t, obj, i);
    }
  }

  /** A member that goes with the comma after it, or alone. */
  lemma {:induction false} RemovedHere(t: string, obj: Object, i: nat) returns (a: nat)
    requires IsObject(t, obj) && i < |obj.fields| && (i + 1 < |obj.fields| || obj.trailingComma || i == 0)
    ensures obj.span.start < obj.fields[i].keyStart < obj.fields[i].value.end <= a < obj.span.end <= |t|
    ensures After(t, obj, i) == At(a)
    ensures RemovedSpan(t, obj, i) ==
      Ok(Span(obj.fields[i].keyStart, if i + 1 < |obj.fields| || obj.trailingComma then a + 1
          else obj.fields[i].value.end))
  {
    var q, a', y, cm := MemberTail(t, obj, i);
    a := a';
    SpanHere(t, obj, i, a);
    var k := FieldParts(t, q, obj.fields[i], a);
  }

  lemma {:induction false} SpanHere(t: string, obj: Object, i: nat, a: nat)
    requires IsObject(t, obj) && i < |obj.fields| && After(t, obj, i) == At(a) && (CharAt(t, a, ',') || i == 0)
    ensures RemovedSpan(t, obj, i) ==
      Ok(Span(obj.fields[i].keyStart, if CharAt(t, a, ',') then a + 1 else obj.fields[i].value.end))
  {
  }

  lemma {:induction false} SpanBack(t: string, obj: Object, i: nat, a: nat, p: nat)
    requires IsObject(t, obj) && 0 < i < |obj.fields| && After(t, obj, i) == At(a) && !CharAt(t, a, ',')
    requires After(t, obj, i - 1) == At(p) && CharAt(t, p, ',')
    ensures RemovedSpan(t, obj, i) == Ok(Span(p, obj.fields[i].value.end))
  {
  }

  /** A last member that goes with the comma before it. */
  lemma {:induction false} RemovedBack(t: string, obj: Object, i: nat) returns (p: nat, a: nat)
    requires IsObject(t, obj) && 0 < i && i + 1 == |obj.fields| && !obj.trailingComma
    ensures obj.span.start < p <= obj.fields[i].keyStart < obj.fields[i].value.end <= a < obj.span.end <= |t|
    ensures After(t, obj, i) == At(a) && After(t, obj, i - 1) == At(p)
    ensures RemovedSpan(t, obj, i) == Ok(Span(p, obj.fields[i].value.end))
  {
    var q, a', y, cm := MemberTail(t, obj, i);
    a := a';
    var k := FieldParts(t, q, obj.fields[i], a);
    var q0, a0, y0, cm0 := MemberTail(t, obj, i - 1);
    FieldPlace(t, y0, obj.fields[i..], obj.span.end - 1, cm0, 0);
    p := a0;
    SpanBack(t, obj, i, a, p);
  }

  lemma {:induction false} RemovedSpanFits(t: string, obj: Object, i: nat)
    requires IsObject(t, obj) && i < |obj.fields|
    ensures RemovedSpan(t, obj, i).Ok?
    ensures RemovedSpan(t, obj, i).value.start < RemovedSpan(t, obj, i).value.end <= |t|
  {
    var p, a := RemovedSpanIs(t, obj, i);
  }

  function RemoveField(t: string, obj: Object, i: nat): Result<string>
    requires IsObject(t, obj) && i < |obj.fields|
  {
    RemovedSpanFits(t, obj, i);
    var span :- RemovedSpan(t, obj, i);
    Ok(Splice(t, span.start, "", span.end))
  }

  /** The first member with the given name. */
  function Find(fields: seq<Field>, key: string): (r: Option<nat>)
    ensures r.Some? ==> r.value < |fields| && fields[r.value].key == key
    ensures r.Some? ==> forall i :: 0 <= i < r.value ==> fields[i].key != key
    ensures r.None? ==> forall i :: 0 <= i < |fields| ==> fields[i].key != key
  {
    if fields == [] then None
    else if fields[0].key == key then Some(0)
    else match Find(fields[1..], key)
      case Some(i) => Some(i + 1)
      case None => None
  }
}
