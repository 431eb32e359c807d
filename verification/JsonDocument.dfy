/** Whole documents: what the editor reads of the print of a tree. */
module JsonDocument {
  import opened Basics
  import opened JsonScan
  import opened JsonString
  import opened JsonFrame
  import opened JsonObject
  import opened JsonSplice
  import opened JsonEdit
  import opened JsonLaws
  import opened JsonPath
  import opened JsonPathLaws
  import G = JsonGrammar
  import opened JsonAccepts

  /** The members of a printed object: names, and values as they are printed. Nothing if
      a name is not well formed. */
  function Listed(ms: G.Members): Option<seq<Member>> {
    match ms
    case NoMember(_) => Some([])
    case Member(_, key, _, _, value, _, rest) =>
      match (Decode(G.Quote(key)), if rest.None? then Some([]) else Listed(rest.value))
      case (Some(name), Some(more)) => Some([Member(name, G.Print(value))] + more)
      case _ => None
  }

  /** Does a comma stand before the closing brace? */
  predicate Trailing(ms: G.Members) {
    ms.Member? && ms.rest.Some? && (ms.rest.value.NoMember? || Trailing(ms.rest.value))
  }

  /** The object read is the one printed. */
  ghost predicate Reads(t: string, body: Body, ms: G.Members, cl: nat) {
    match Listed(ms)
    case None => body.NoBody?
    case Some(members) =>
      body.Body? && Content(t, body.fields) == members && body.close == cl && body.comma == Trailing(ms)
  }

  lemma {:induction false} FieldRead(t: string, x: nat, key: string, w: G.Places)
    requires G.KeyPlaced(t, x, key, w) && G.ValuePlaced(t, w)
    ensures match Decode(G.Quote(key))
      case None => ReadField(t, w.key).NoHead?
      case Some(name) => ReadField(t, w.key) == Head(Field(name, w.key, Span(w.value, w.end)), w.after)
  {
  }

  lemma {:induction false} BodyReads(t: string, x: nat, ms: G.Members, cl: nat)
    requires G.AreMembers(ms) && G.Stands(t, x, G.PrintMembers(ms), cl) && CharAt(t, cl, '}')
    ensures x <= |t| && Reads(t, ReadBody(t, x), ms, cl)
    decreases ms
  {
    match ms {
      case NoMember(gap) =>
        G.GapEnds(t, x, gap, cl);
      case Member(before, key, colon, behind, value, after, rest) =>
        var w := G.MemberParts(t, x, ms, cl);
        G.MemberRead(t, x, ms, w, cl);
        FieldRead(t, x, key, w);
        if rest.Some? {
          var y := G.CommaFirst(t, w.after, G.PrintMembers(rest.value), cl);
          BodyReads(t, y, rest.value, cl);
          MoreReads(t, x, ms, w, y, cl);
        } else {
          LastReads(t, x, ms, w, cl);
        }
    }
  }

  lemma {:induction false} NoName(t: string, x: nat, c: nat)
    requires x <= |t| && Skip(t, x) == At(c) && CharAt(t, c, '"') && ReadField(t, c).NoHead?
    ensures ReadBody(t, x).NoBody?
  {
  }

  lemma {:induction false} LastReads(t: string, x: nat, ms: G.Members, w: G.Places, cl: nat)
    requires ms.Member? && ms.rest.None? && G.PlacedAt(t, x, ms, w, cl) && CharAt(t, cl, '}')
    requires G.KeyPlaced(t, x, ms.key, w)
    requires match Decode(G.Quote(ms.key))
      case None => ReadField(t, w.key).NoHead?
      case Some(name) => ReadField(t, w.key) == Head(Field(name, w.key, Span(w.value, w.end)), w.after)
    ensures Reads(t, ReadBody(t, x), ms, cl)
  {
    match Decode(G.Quote(ms.key)) {
      case None => NoName(t, x, w.key);
      case Some(name) =>
        var f := Field(name, w.key, Span(w.value, w.end));
        ItemLast(t, w.key, f, cl);
        BodyIsItem(t, x, w.key);
        PrintedField(t, f, ms.value, []);
    }
  }

  lemma {:induction false} BodyIsItem(t: string, x: nat, c: nat)
    requires x <= |t| && Skip(t, x) == At(c)
    ensures ReadBody(t, x) == ReadItem(t, c)
  {
  }

  lemma {:induction false} PrintedField(t: string, f: Field, v: G.Value, rest: seq<Field>)
    requires G.Stands(t, f.value.start, G.Print(v), f.value.end)
    ensures Content(t, [f] + rest) == [Member(f.key, G.Print(v))] + Content(t, rest)
  {
    ContentCons(t, f, rest);
  }

  lemma {:induction false} MoreReads(t: string, x: nat, ms: G.Members, w: G.Places, y: nat, cl: nat)
    requires ms.Member? && ms.rest.Some? && G.PlacedAt(t, x, ms, w, cl) && G.KeyPlaced(t, x, ms.key, w)
    requires CharAt(t, w.after, ',') && y == w.after + 1 && Reads(t, ReadBody(t, y), ms.rest.value, cl)
    requires match Decode(G.Quote(ms.key))
      case None => ReadField(t, w.key).NoHead?
      case Some(name) => ReadField(t, w.key) == Head(Field(name, w.key, Span(w.value, w.end)), w.after)
    ensures Reads(t, ReadBody(t, x), ms, cl)
  {
    match Decode(G.Quote(ms.key)) {
      case None => NoName(t, x, w.key);
      case Some(name) =>
        var f := Field(name, w.key, Span(w.value, w.end));
        BodyMore(t, x, w.key, f, w.after, y);
        var rest := ReadBody(t, y);
        if rest.Body? {
          PrintedField(t, f, ms.value, rest.fields);
          NoFields(t, rest.fields, ms.rest.value);
        }
    }
  }

  lemma {:induction false} NoFields(t: string, fields: seq<Field>, ms: G.Members)
    requires Listed(ms) == Some(Content(t, fields))
    ensures fields == [] <==> ms.NoMember?
  {
  }

  // ---- The root and the objects below it -------------------------------------------

  /** The object that is read is the one printed, member by member. */
  ghost predicate Finds(t: string, r: Result<Option<Object>>, ms: G.Members, s: nat, e: nat) {
    match Listed(ms)
    case None => r.Err?
    case Some(members) =>
      && r.Ok? && r.value.Some?
      && var obj := r.value.value;
      && IsObject(t, obj) && obj.span == Span(s, e) && Content(t, obj.fields) == members
      && obj.trailingComma == Trailing(ms)
  }

  lemma {:induction false} ObjectReads(t: string, s: nat, ms: G.Members, e: nat, limit: nat)
    requires G.AreMembers(ms) && G.Stands(t, s, G.Print(G.Record(ms)), e) && e <= limit
    ensures s < |t| && Stops(t, s) && RawEnd(t, s) == At(e) && Finds(t, ObjectAt(t, Span(s, limit)), ms, s, e)
  {
    var cl := G.Enclosed(t, s, '{', G.PrintMembers(ms), '}', e);
    G.RecordRead(t, s, ms, e);
    BodyReads(t, s + 1, ms, cl);
    BodyFinds(t, s, s + 1, ms, cl, e, limit);
  }

  lemma {:induction false} BodyFinds(t: string, s: nat, x: nat, ms: G.Members, cl: nat, e: nat, limit: nat)
    requires CharAt(t, s, '{') && Stops(t, s) && RawEnd(t, s) == At(e) && x == s + 1 && e == cl + 1 <= limit
    requires Reads(t, ReadBody(t, x), ms, cl)
    ensures Finds(t, ObjectAt(t, Span(s, limit)), ms, s, e)
  {
    assert Skip(t, s) == At(s);
  }

  /** A document is white space and comments, an object, and anything behind it. Its
      names and values are read as they are printed; a name that is not well formed
      is refused. */
  lemma {:induction false} DocumentLaw(t: string, gap: G.Gap, ms: G.Members, s: nat, e: nat)
    requires G.IsGap(gap) && G.AreMembers(ms) && G.Stands(t, 0, G.PrintGap(gap), s)
    requires G.Stands(t, s, G.Print(G.Record(ms)), e)
    ensures Finds(t, RootObject(t), ms, s, e)
  {
    ObjectReads(t, s, ms, e, e);
    G.GapEnds(t, 0, gap, s);
    RootIsAt(t, s, e);
  }

  lemma {:induction false} RootIsAt(t: string, s: nat, e: nat)
    requires Skip(t, 0) == At(s) && s < |t| && RawEnd(t, s) == At(e)
    ensures RootObject(t) == ObjectAt(t, Span(s, e))
  {
    assert Skip(t, s) == At(s);
  }

  /** And nothing else is read as a document. */
  lemma {:induction false} DocumentTree(t: string, root: Object) returns (gap: G.Gap, ms: G.Members)
    requires RootObject(t) == Ok(Some(root))
    ensures G.IsGap(gap) && G.AreMembers(ms) && G.Stands(t, 0, G.PrintGap(gap), root.span.start)
    ensures G.Stands(t, root.span.start, G.Print(G.Record(ms)), root.span.end)
    ensures Listed(ms) == Some(Content(t, root.fields)) && Trailing(ms) == root.trailingComma
  {
    RootIs(t, root);
    ObjectEnds(t, root);
    gap := GapTree(t, 0, root.span.start);
    var v := RecordTree(t, root.span.start, root.span.end);
    ms := v.members;
    DocumentLaw(t, gap, ms, root.span.start, root.span.end);
  }

  function Values(ms: G.Members): seq<G.Value> {
    match ms
    case NoMember(_) => []
    case Member(_, _, _, _, value, _, rest) => [value] + if rest.None? then [] else Values(rest.value)
  }

  lemma {:induction false} ValuesListed(ms: G.Members, members: seq<Member>)
    requires Listed(ms) == Some(members) && G.AreMembers(ms)
    ensures |Values(ms)| == |members|
    ensures forall i :: 0 <= i < |members| ==> G.IsTree(Values(ms)[i]) && members[i].raw == G.Print(Values(ms)[i])
  {
    if ms.Member? && ms.rest.Some? {
      ValuesListed(ms.rest.value, members[1..]);
    }
  }

  /** Where a path of names leads on the tree: to an object, to none because a name is
      missing or names something else, or to one with a name that is not well formed. */
  datatype Way = To(members: G.Members) | Nowhere | Unreadable

  function Leads(ms: G.Members, path: seq<string>): (r: Way)
    decreases |path|
  {
    match Listed(ms)
    case None => Unreadable
    case Some(members) =>
      if path == [] then To(ms)
      else match FindName(members, path[0])
        case None => Nowhere
        case Some(i) =>
          if i < |Values(ms)| && Values(ms)[i].Record? then Leads(Values(ms)[i].members, path[1..]) else Nowhere
  }

  /** What going down the path in the text gives. */
  ghost predicate Arrives(t: string, r: Result<Option<Object>>, way: Way) {
    match way
    case To(ms) =>
      && r.Ok? && r.value.Some? && IsObject(t, r.value.value)
      && G.AreMembers(ms) && Listed(ms) == Some(Content(t, r.value.value.fields))
    case Nowhere => r == Ok(None)
    case Unreadable => r.Err?
  }

  /** Going down a path in the text leads where it leads on the tree. */
  lemma {:induction false} PathReads(t: string, obj: Object, ms: G.Members, path: seq<string>)
    requires IsObject(t, obj) && G.AreMembers(ms) && Listed(ms) == Some(Content(t, obj.fields))
    ensures Arrives(t, Descend(t, Some(obj), path), Leads(ms, path))
    decreases |path|
  {
    if path != [] {
      FindContent(t, obj.fields, path[0]);
      var at := FindName(Content(t, obj.fields), path[0]);
      ValuesListed(ms, Content(t, obj.fields));
      if at.Some? {
        StepReads(t, obj, ms, path, at.value);
      }
    }
  }

  lemma {:induction false} StepReads(t: string, obj: Object, ms: G.Members, path: seq<string>, i: nat)
    requires IsObject(t, obj) && G.AreMembers(ms) && Listed(ms) == Some(Content(t, obj.fields)) && path != []
    requires Find(obj.fields, path[0]) == Some(i) == FindName(Content(t, obj.fields), path[0]) && i < |Values(ms)|
    ensures Arrives(t, Descend(t, Some(obj), path), Leads(ms, path))
    decreases |path|, 0
  {
    var v := Values(ms)[i];
    LeadsStep(ms, Content(t, obj.fields), path, i);
    if v.Record? {
      ChildReads(t, obj, ms, i, v.members);
      if Listed(v.members).Some? {
        var child := ObjectAt(t, obj.fields[i].value).value.value;
        PathReads(t, child, v.members, path[1..]);
        DescendStep(t, obj, path, i, child);
      } else {
        DescendStops(t, obj, path, i);
      }
    } else {
      NoChild(t, obj, ms, i);
      DescendStops(t, obj, path, i);
    }
  }

  lemma {:induction false} LeadsStep(ms: G.Members, members: seq<Member>, path: seq<string>, i: nat)
    requires Listed(ms) == Some(members) && path != [] && FindName(members, path[0]) == Some(i) && i < |Values(ms)|
    ensures Leads(ms, path) == if Values(ms)[i].Record? then Leads(Values(ms)[i].members, path[1..]) else Nowhere
    ensures Values(ms)[i].Record? && Listed(Values(ms)[i].members).None? ==> Leads(ms, path) == Unreadable
  {
  }

  lemma {:induction false} DescendStops(t: string, obj: Object, path: seq<string>, i: nat)
    requires IsObject(t, obj) && path != [] && Find(obj.fields, path[0]) == Some(i) && obj.fields[i].value.start <= |t|
    ensures ObjectAt(t, obj.fields[i].value).Err? ==> Descend(t, Some(obj), path).Err?
    ensures ObjectAt(t, obj.fields[i].value) == Ok(None) ==> Descend(t, Some(obj), path) == Ok(None)
  {
  }

  /** Where the value of a member stands. */
  lemma {:induction false} ValueStands(t: string, obj: Object, ms: G.Members, i: nat)
    requires IsObject(t, obj) && G.AreMembers(ms) && Listed(ms) == Some(Content(t, obj.fields)) && i < |obj.fields|
    ensures i < |Values(ms)| && G.IsTree(Values(ms)[i]) && obj.fields[i].value.start <= |t|
    ensures G.Stands(t, obj.fields[i].value.start, G.Print(Values(ms)[i]), obj.fields[i].value.end)
  {
    ValuesListed(ms, Content(t, obj.fields));
    ContentAt(t, obj.fields, i);
    FieldPlace(t, obj.span.start + 1, obj.fields, obj.span.end - 1, obj.trailingComma, i);
  }

  lemma {:induction false} ChildReads(t: string, obj: Object, ms: G.Members, i: nat, inner: G.Members)
    requires IsObject(t, obj) && G.AreMembers(ms) && Listed(ms) == Some(Content(t, obj.fields)) && i < |obj.fields|
    requires i < |Values(ms)| && Values(ms)[i] == G.Record(inner)
    ensures G.AreMembers(inner) && obj.fields[i].value.start <= |t|
    ensures Finds(t, ObjectAt(t, obj.fields[i].value), inner, obj.fields[i].value.start, obj.fields[i].value.end)
  {
    var span := obj.fields[i].value;
    ValueStands(t, obj, ms, i);
    ObjectReads(t, span.start, inner, span.end, span.end);
  }

  lemma {:induction false} NoChild(t: string, obj: Object, ms: G.Members, i: nat)
    requires IsObject(t, obj) && G.AreMembers(ms) && Listed(ms) == Some(Content(t, obj.fields)) && i < |obj.fields|
    requires i < |Values(ms)| && !Values(ms)[i].Record?
    ensures obj.fields[i].value.start <= |t| && ObjectAt(t, obj.fields[i].value) == Ok(None)
  {
    var span, v := obj.fields[i].value, Values(ms)[i];
    ValueStands(t, obj, ms, i);
    var q, a, y, cm := MemberTail(t, obj, i);
    var k := FieldParts(t, q, obj.fields[i], a);
    G.CharHere(t, span.start, G.Print(v), span.end, 0);
    assert Skip(t, span.start) == At(span.start);
  }

  /** A text that is a document. */
  ghost predicate IsDocument(t: string, gap: G.Gap, ms: G.Members, s: nat, e: nat) {
    && G.IsGap(gap) && G.AreMembers(ms) && Listed(ms).Some?
    && G.Stands(t, 0, G.PrintGap(gap), s) && G.Stands(t, s, G.Print(G.Record(ms)), e)
  }

  /** Every edit below a path of objects of a document is made, and the object there holds
      the edited members with nothing else changed exactly when the edit is safe. */
  lemma {:induction false} DocumentEdits(t: string, gap: G.Gap, ms: G.Members, s: nat, e: nat, parents: seq<string>,
      sub: G.Members, key: string, value: Option<string>) returns (root: Object, parent: Object)
    requires IsDocument(t, gap, ms, s, e) && Leads(ms, parents) == To(sub) && IsNewValue(value)
    ensures Found(t, root, parents, parent) && Listed(sub) == Some(Content(t, parent.fields))
    ensures SetPath(t, parents + [key], value).Ok?
    ensures EditSafe(t, parent, key, value) <==>
      OnlyThere(t, SetPath(t, parents + [key], value).value, root, parents, Apply(Listed(sub).value, key, value))
  {
    DocumentLaw(t, gap, ms, s, e);
    root := RootObject(t).value.value;
    PathReads(t, root, ms, parents);
    parent := Descend(t, Some(root), parents).value.value;
    SetPathLaw(t, root, parents, parent, key, value);
  }

  /** Where the path leads to no object, removing changes nothing; setting needs the path to
      lack one name only, and is refused otherwise. A name that is not well formed on the way
      is an error. */
  lemma {:induction false} DocumentWithout(t: string, gap: G.Gap, ms: G.Members, s: nat, e: nat, parents: seq<string>,
      key: string, value: Option<string>)
    requires IsDocument(t, gap, ms, s, e) && !Leads(ms, parents).To?
    ensures var r := SetPath(t, parents + [key], value);
      if Leads(ms, parents).Unreadable? then r.Err?
      else if value.None? then r == Ok(t)
      else if |parents| == 1 then r.Ok? else r == Err(UnavailablePath)
  {
    DocumentLaw(t, gap, ms, s, e);
    var root := RootObject(t).value.value;
    PathReads(t, root, ms, parents);
    var path := parents + [key];
    assert path[..|path| - 1] == parents && path[|path| - 1] == key;
    var at := InsertionAt(t, root);
  }

  /** Nothing is set in a text without a document, or at no path. */
  lemma {:induction false} NoDocument(t: string, path: seq<string>, value: Option<string>)
    ensures path == [] ==> SetPath(t, path, value) == Err(InvalidPath)
    ensures path != [] && !(RootObject(t).Ok? && RootObject(t).value.Some?) ==> SetPath(t, path, value).Err?
  {
  }
}
