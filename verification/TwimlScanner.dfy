/** `parseConnectStreamTwiML`: two flags follow the open and close tags of a document. Against the element tree the
  scanner never accepts too much, and accepts everything exactly when no Stream that counts follows the end of an inner
  Connect, and no Parameter that counts the end of an inner Stream. */
module TwimlScanner {
  import opened Options

  /** A well-formed document as a forest: an element with its attributes and children, and what follows it. */
  datatype Forest = Nil | Element(name: string, attributes: map<string, string>, children: Forest, next: Forest)

  datatype Tag = Open(name: string, attributes: map<string, string>) | Close(name: string)

  /** The tags the XML parser reports. */
  function Tags(f: Forest): seq<Tag> {
    match f
    case Nil => []
    case Element(name, attributes, children, next) =>
      [Open(name, attributes)] + Tags(children) + [Close(name)] + Tags(next)
  }

  /** What the scanner reads: the streams it enters and the parameters it accepts. */
  datatype Item = StreamEntered(attributes: map<string, string>) | ParameterAccepted(attributes: map<string, string>)

  datatype Scan = Scan(insideConnect: bool, insideStream: bool, items: seq<Item>)

  datatype ElementKind = Connect | Stream | Parameter | Other

  function KindOf(name: string): ElementKind {
    if name == "Connect" then Connect
    else if name == "Stream" then Stream
    else if name == "Parameter" then Parameter
    else Other
  }

  const START := Scan(false, false, [])

  function OnOpen(s: Scan, name: string, attributes: map<string, string>): Scan {
    match KindOf(name)
    case Connect => s.(insideConnect := true)
    case Stream =>
      if s.insideConnect then s.(insideStream := true, items := s.items + [StreamEntered(attributes)]) else s
    case Parameter => if s.insideStream then s.(items := s.items + [ParameterAccepted(attributes)]) else s
    case Other => s
  }

  function OnClose(s: Scan, name: string): Scan {
    s.(insideStream := s.insideStream && !KindOf(name).Stream?,
       insideConnect := s.insideConnect && !KindOf(name).Connect?)
  }

  function OnTag(s: Scan, tag: Tag): Scan {
    match tag
    case Open(name, attributes) => OnOpen(s, name, attributes)
    case Close(name) => OnClose(s, name)
  }

  function ScanAll(s: Scan, tags: seq<Tag>): Scan {
    if tags == [] then s else OnTag(ScanAll(s, tags[..|tags| - 1]), tags[|tags| - 1])
  }

  lemma {:induction false} ScanAppends(s: Scan, a: seq<Tag>, b: seq<Tag>)
    ensures ScanAll(s, a + b) == ScanAll(ScanAll(s, a), b)
  {
    if b == [] {
      assert a + b == a;
    } else {
      assert (a + b)[..|a + b| - 1] == a + b[..|b| - 1];
      ScanAppends(s, a, b[..|b| - 1]);
    }
  }

  // ---------------------------------------------------------------- the stack of open elements

  /** The names of the open elements, outermost first; a closing tag closes the innermost. */
  function OpenPath(tags: seq<Tag>): seq<string> {
    if tags == [] then []
    else
      var path, last := OpenPath(tags[..|tags| - 1]), tags[|tags| - 1];
      if last.Open? then path + [last.name] else if path == [] then [] else path[..|path| - 1]
  }

  /** Every closing tag names the innermost open element (the element type match of section 2.1 of XML 1.0). */
  predicate Nested(tags: seq<Tag>) {
    tags != [] ==>
      var path, last := OpenPath(tags[..|tags| - 1]), tags[|tags| - 1];
      Nested(tags[..|tags| - 1]) && (last.Close? ==> path != [] && last.name == path[|path| - 1])
  }

  ghost predicate ConnectOpen(path: seq<string>) {
    exists i :: 0 <= i < |path| && KindOf(path[i]).Connect?
  }

  ghost predicate StreamInConnect(path: seq<string>) {
    exists i, j :: 0 <= i < j < |path| && KindOf(path[i]).Connect? && KindOf(path[j]).Stream?
  }

  /** At every point of a nested document, complete or not, the flags are right when they are up: inside a Connect one is
    open, and inside a Stream - where parameters are accepted - a Stream is open below an open Connect. */
  lemma {:induction false} FlagsFollowTheStack(tags: seq<Tag>)
    requires Nested(tags)
    ensures ScanAll(START, tags).insideConnect ==> ConnectOpen(OpenPath(tags))
    ensures ScanAll(START, tags).insideStream ==> StreamInConnect(OpenPath(tags))
  {
    if tags != [] {
      var init, last := tags[..|tags| - 1], tags[|tags| - 1];
      FlagsFollowTheStack(init);
      var s, path := ScanAll(START, init), OpenPath(init);
      if last.Open? {
        OpeningKeeps(s, path, last);
      } else {
        assert last.name == path[|path| - 1];
        ClosingKeeps(s, path);
      }
    }
  }

  lemma OpeningKeeps(s: Scan, path: seq<string>, tag: Tag)
    requires tag.Open?
    requires s.insideConnect ==> ConnectOpen(path)
    requires s.insideStream ==> StreamInConnect(path)
    ensures OnTag(s, tag).insideConnect ==> ConnectOpen(path + [tag.name])
    ensures OnTag(s, tag).insideStream ==> StreamInConnect(path + [tag.name])
  {
    var longer := path + [tag.name];
    if KindOf(tag.name).Connect? {
      assert KindOf(longer[|path|]).Connect?;
    }
    if s.insideConnect {
      var i :| 0 <= i < |path| && KindOf(path[i]).Connect?;
      assert longer[i] == path[i];
    }
    if s.insideStream {
      var i, j :| 0 <= i < j < |path| && KindOf(path[i]).Connect? && KindOf(path[j]).Stream?;
      assert longer[i] == path[i] && longer[j] == path[j];
    } else if KindOf(tag.name).Stream? && s.insideConnect {
      var i :| 0 <= i < |path| && KindOf(path[i]).Connect?;
      assert longer[i] == path[i] && longer[|path|] == tag.name;
    }
  }

  lemma ClosingKeeps(s: Scan, path: seq<string>)
    requires path != []
    requires s.insideConnect ==> ConnectOpen(path)
    requires s.insideStream ==> StreamInConnect(path)
    ensures var r := OnClose(s, path[|path| - 1]);
      && (r.insideConnect ==> ConnectOpen(path[..|path| - 1]))
      && (r.insideStream ==> StreamInConnect(path[..|path| - 1]))
  {
  }

  // ---------------------------------------------------------------- the element tree

  /** What the tree says: a Stream counts below a Connect, a Parameter below such a Stream. */
  function TreeItems(f: Forest, inConnect: bool, inStream: bool): seq<Item> {
    match f
    case Nil => []
    case Element(name, attributes, children, next) =>
      OwnItems(name, attributes, inConnect, inStream)
      + TreeItems(children, BelowConnect(name, inConnect), BelowStream(name, inConnect, inStream))
      + TreeItems(next, inConnect, inStream)
  }

  predicate BelowConnect(name: string, inConnect: bool) {
    inConnect || KindOf(name).Connect?
  }

  predicate BelowStream(name: string, inConnect: bool, inStream: bool) {
    inStream || (KindOf(name).Stream? && inConnect)
  }

  function OwnItems(name: string, attributes: map<string, string>, inConnect: bool, inStream: bool): seq<Item> {
    if KindOf(name).Stream? && inConnect then [StreamEntered(attributes)]
    else if KindOf(name).Parameter? && inStream then [ParameterAccepted(attributes)]
    else []
  }

  lemma ScanElement(s: Scan, name: string, attributes: map<string, string>, children: Forest, next: Forest)
    ensures ScanAll(s, Tags(Element(name, attributes, children, next)))
         == ScanAll(OnClose(ScanAll(OnOpen(s, name, attributes), Tags(children)), name), Tags(next))
  {
    var open, close: seq<Tag> := [Open(name, attributes)], [Close(name)];
    ScanAppends(s, open + Tags(children) + close, Tags(next));
    ScanAppends(s, open + Tags(children), close);
    ScanAppends(s, open, Tags(children));
    assert open[..0] == [] && close[..0] == [];
    assert ScanAll(s, open) == OnOpen(s, name, attributes);
    var inner := ScanAll(OnOpen(s, name, attributes), Tags(children));
    assert ScanAll(inner, close) == OnClose(inner, name);
  }

  // ---------------------------------------------------------------- nothing but what the tree says

  predicate IsSubsequence(xs: seq<Item>, ys: seq<Item>) {
    if xs == [] then true
    else if ys == [] then false
    else (xs[0] == ys[0] && IsSubsequence(xs[1..], ys[1..])) || IsSubsequence(xs, ys[1..])
  }

  lemma {:induction false} SubsequencesJoin(a: seq<Item>, b: seq<Item>, c: seq<Item>, d: seq<Item>)
    requires IsSubsequence(a, b) && IsSubsequence(c, d)
    ensures IsSubsequence(a + c, b + d)
  {
    if b == [] {
      assert a + c == c && b + d == d;
    } else {
      assert (b + d)[1..] == b[1..] + d;
      if a != [] && a[0] == b[0] && IsSubsequence(a[1..], b[1..]) {
        SubsequencesJoin(a[1..], b[1..], c, d);
        assert (a + c)[1..] == a[1..] + c;
      } else {
        SubsequencesJoin(a, b[1..], c, d);
      }
    }
  }

  /** The new items of a scan. */
  function NewItems(s: Scan, r: Scan): seq<Item>
    requires |s.items| <= |r.items|
  {
    r.items[|s.items|..]
  }

  lemma {:induction false} ScanWithinTree(s: Scan, f: Forest, inConnect: bool, inStream: bool)
    requires (s.insideConnect ==> inConnect) && (s.insideStream ==> inStream)
    ensures var r := ScanAll(s, Tags(f));
      && (r.insideConnect ==> s.insideConnect) && (r.insideStream ==> s.insideStream)
      && s.items <= r.items && IsSubsequence(NewItems(s, r), TreeItems(f, inConnect, inStream))
    decreases f
  {
    match f
    case Nil =>
    case Element(name, attributes, children, next) =>
      hide KindOf, ScanAll, Tags;
      ScanElement(s, name, attributes, children, next);
      var entered := OnOpen(s, name, attributes);
      var below, stream := BelowConnect(name, inConnect), BelowStream(name, inConnect, inStream);
      var inner := ScanAll(entered, Tags(children));
      var closed := OnClose(inner, name);
      var r := ScanAll(closed, Tags(next));
      var own, inside, after :=
        OwnItems(name, attributes, inConnect, inStream), TreeItems(children, below, stream), TreeItems(next, inConnect, inStream);
      assert TreeItems(f, inConnect, inStream) == own + inside + after;
      hide TreeItems, OwnItems, IsSubsequence;
      OpeningAccepts(s, name, attributes, inConnect, inStream);
      ScanWithinTree(entered, children, below, stream);
      ScanWithinTree(closed, next, inConnect, inStream);
      SubsequencesJoin(NewItems(s, entered), own, NewItems(entered, inner), inside);
      SubsequencesJoin(NewItems(s, entered) + NewItems(entered, inner), own + inside, NewItems(closed, r), after);
      NewInParts(s, entered, inner, r);
      assert NewItems(closed, r) == NewItems(inner, r);
  }

  lemma NewInParts(s: Scan, entered: Scan, inner: Scan, r: Scan)
    requires s.items <= entered.items <= inner.items <= r.items
    ensures NewItems(s, r) == NewItems(s, entered) + NewItems(entered, inner) + NewItems(inner, r)
  {
  }

  lemma OpeningAccepts(s: Scan, name: string, attributes: map<string, string>, inConnect: bool, inStream: bool)
    requires (s.insideConnect ==> inConnect) && (s.insideStream ==> inStream)
    ensures var r := OnOpen(s, name, attributes);
      && s.items <= r.items && IsSubsequence(NewItems(s, r), OwnItems(name, attributes, inConnect, inStream))
      && (r.insideConnect ==> BelowConnect(name, inConnect)) && (r.insideStream ==> BelowStream(name, inConnect, inStream))
  {
    hide KindOf;
    var r := OnOpen(s, name, attributes);
    assert NewItems(s, r) == [] || NewItems(s, r) == OwnItems(name, attributes, inConnect, inStream);
  }

  /** On every document the scanner accepts, in order, only what the tree says. */
  lemma ScannerAcceptsOnlyTree(f: Forest)
    ensures IsSubsequence(ScanAll(START, Tags(f)).items, TreeItems(f, false, false))
  {
    ScanWithinTree(START, f, false, false);
    assert NewItems(START, ScanAll(START, Tags(f))) == ScanAll(START, Tags(f)).items;
  }

  // ---------------------------------------------------------------- exactly what the tree says

  predicate Has(f: Forest, kind: ElementKind) {
    match f
    case Nil => false
    case Element(name, _, children, next) => KindOf(name) == kind || Has(children, kind) || Has(next, kind)
  }

  /** Every Stream that counts opens while the last Connect tag before it is an opening one, and every Parameter that
    counts while the last Stream tag before it is. `connectLast` and `streamLast` say so of the tags before the forest;
    an element in between that has ended made the last tag of its kind a closing one. */
  predicate NothingLost(f: Forest, inConnect: bool, inStream: bool, connectLast: bool, streamLast: bool) {
    match f
    case Nil => true
    case Element(name, _, children, next) =>
      var kind := KindOf(name);
      && (kind.Stream? && inConnect ==> connectLast) && (kind.Parameter? && inStream ==> streamLast)
      && NothingLost(children, BelowConnect(name, inConnect), BelowStream(name, inConnect, inStream),
                     connectLast || kind.Connect?, streamLast || kind.Stream?)
      && NothingLost(next, inConnect, inStream, connectLast && !kind.Connect? && !Has(children, Connect),
                     streamLast && !kind.Stream? && !Has(children, Stream))
  }

  /** After a whole element of its kind a flag is down, and without one it is what it was. */
  lemma {:induction false} FlagsAfter(s: Scan, f: Forest)
    ensures var r := ScanAll(s, Tags(f));
      && r.insideConnect == (s.insideConnect && !Has(f, Connect)) && r.insideStream == (s.insideStream && !Has(f, Stream))
    decreases f
  {
    match f
    case Nil =>
    case Element(name, attributes, children, next) =>
      hide KindOf, ScanAll, Tags;
      ScanElement(s, name, attributes, children, next);
      var entered := OnOpen(s, name, attributes);
      FlagsAfter(entered, children);
      FlagsAfter(OnClose(ScanAll(entered, Tags(children)), name), next);
  }

  lemma {:induction false} SubsequencesFit(xs: seq<Item>, ys: seq<Item>)
    requires IsSubsequence(xs, ys)
    ensures |xs| <= |ys| && (|xs| == |ys| ==> xs == ys)
  {
    if xs != [] {
      if xs[0] == ys[0] && IsSubsequence(xs[1..], ys[1..]) {
        SubsequencesFit(xs[1..], ys[1..]);
      } else {
        SubsequencesFit(xs, ys[1..]);
      }
    }
  }

  /** The scanner's flags are those of the tags before, as far as they can matter in the forest. */
  predicate InStep(s: Scan, inConnect: bool, inStream: bool, connectLast: bool, streamLast: bool) {
    && s.insideConnect == connectLast && (s.insideConnect ==> inConnect)
    && (s.insideStream ==> inStream) && (inStream ==> inConnect && s.insideStream == streamLast)
  }

  /** How many items a scan adds; never more than the tree has. */
  function ItemCount(s: Scan, f: Forest): int {
    |ScanAll(s, Tags(f)).items| - |s.items|
  }

  lemma CountWithinTree(s: Scan, f: Forest, inConnect: bool, inStream: bool)
    requires (s.insideConnect ==> inConnect) && (s.insideStream ==> inStream)
    ensures 0 <= ItemCount(s, f) <= |TreeItems(f, inConnect, inStream)|
  {
    ScanWithinTree(s, f, inConnect, inStream);
    SubsequencesFit(NewItems(s, ScanAll(s, Tags(f))), TreeItems(f, inConnect, inStream));
  }

  lemma CountInParts(s: Scan, name: string, attributes: map<string, string>, children: Forest, next: Forest)
    ensures var entered := OnOpen(s, name, attributes);
      var closed := OnClose(ScanAll(entered, Tags(children)), name);
      ItemCount(s, Element(name, attributes, children, next))
      == |entered.items| - |s.items| + ItemCount(entered, children) + ItemCount(closed, next)
  {
    ScanElement(s, name, attributes, children, next);
    hide ScanAll, Tags, KindOf, OnOpen;
  }

  lemma {:induction false} AcceptsAllExactly(
      s: Scan, f: Forest, inConnect: bool, inStream: bool, connectLast: bool, streamLast: bool)
    requires InStep(s, inConnect, inStream, connectLast, streamLast)
    ensures ItemCount(s, f) == |TreeItems(f, inConnect, inStream)|
       <==> NothingLost(f, inConnect, inStream, connectLast, streamLast)
    decreases f
  {
    match f
    case Nil =>
    case Element(name, attributes, children, next) =>
      hide KindOf, ScanAll, Tags, ItemCount;
      var kind, entered := KindOf(name), OnOpen(s, name, attributes);
      var closed := OnClose(ScanAll(entered, Tags(children)), name);
      var below, stream := BelowConnect(name, inConnect), BelowStream(name, inConnect, inStream);
      CountInParts(s, name, attributes, children, next);
      FlagsAfter(entered, children);
      CountWithinTree(entered, children, below, stream);
      CountWithinTree(closed, next, inConnect, inStream);
      if |entered.items| - |s.items| == |OwnItems(name, attributes, inConnect, inStream)| {
        AcceptsAllExactly(entered, children, below, stream, connectLast || kind.Connect?, streamLast || kind.Stream?);
        AcceptsAllExactly(closed, next, inConnect, inStream, connectLast && !kind.Connect? && !Has(children, Connect),
                          streamLast && !kind.Stream? && !Has(children, Stream));
      }
  }

  /** The scanner accepts the tree's streams and parameters, all of them and in order, exactly on the documents in which
    nothing is lost. */
  lemma ScannerRefinesTree(f: Forest)
    ensures ScanAll(START, Tags(f)).items == TreeItems(f, false, false) <==> NothingLost(f, false, false, false, false)
  {
    ScannerAcceptsOnlyTree(f);
    SubsequencesFit(ScanAll(START, Tags(f)).items, TreeItems(f, false, false));
    AcceptsAllExactly(START, f, false, false, false, false);
    hide ScanAll, Tags, TreeItems, NothingLost;
  }

  /** Neither element nests in itself. */
  predicate NoSelfNesting(f: Forest, inConnect: bool, inStream: bool) {
    match f
    case Nil => true
    case Element(name, _, children, next) =>
      && !(KindOf(name).Connect? && inConnect) && !(KindOf(name).Stream? && inStream)
      && NoSelfNesting(children, inConnect || KindOf(name).Connect?, inStream || KindOf(name).Stream?)
      && NoSelfNesting(next, inConnect, inStream)
  }

  lemma {:induction false} NoneInside(f: Forest, inConnect: bool, hasStream: bool)
    requires NoSelfNesting(f, inConnect, hasStream)
    ensures (inConnect ==> !Has(f, Connect)) && (hasStream ==> !Has(f, Stream))
    decreases f
  {
    match f
    case Nil =>
    case Element(name, _, children, next) =>
      hide KindOf;
      NoneInside(children, inConnect || KindOf(name).Connect?, hasStream || KindOf(name).Stream?);
      NoneInside(next, inConnect, hasStream);
  }

  /** Without self-nesting nothing is lost; `hasStream` says that some Stream is open, in a Connect or not. */
  lemma {:induction false} NoSelfNestingLosesNothing(
      f: Forest, inConnect: bool, inStream: bool, hasStream: bool, connectLast: bool, streamLast: bool)
    requires NoSelfNesting(f, inConnect, hasStream) && (inStream ==> hasStream)
    requires (inConnect ==> connectLast) && (inStream ==> streamLast)
    ensures NothingLost(f, inConnect, inStream, connectLast, streamLast)
    decreases f
  {
    match f
    case Nil =>
    case Element(name, _, children, next) =>
      hide KindOf;
      var kind := KindOf(name);
      NoneInside(children, inConnect || kind.Connect?, hasStream || kind.Stream?);
      NoSelfNestingLosesNothing(children, BelowConnect(name, inConnect), BelowStream(name, inConnect, inStream),
                                hasStream || kind.Stream?, connectLast || kind.Connect?, streamLast || kind.Stream?);
      NoSelfNestingLosesNothing(next, inConnect, inStream, hasStream,
                                connectLast && !kind.Connect? && !Has(children, Connect),
                                streamLast && !kind.Stream? && !Has(children, Stream));
  }

  /** On a document in which neither element nests in itself, the scanner accepts exactly what the tree says. */
  lemma FlatDocumentsLoseNothing(f: Forest)
    requires NoSelfNesting(f, false, false)
    ensures ScanAll(START, Tags(f)).items == TreeItems(f, false, false)
  {
    NoSelfNestingLosesNothing(f, false, false, false, false, false);
    ScannerRefinesTree(f);
    hide ScanAll, Tags, TreeItems, NothingLost;
  }

  lemma {:induction false} TagsNestAfter(before: seq<Tag>, f: Forest)
    requires Nested(before)
    ensures Nested(before + Tags(f)) && OpenPath(before + Tags(f)) == OpenPath(before)
    decreases f
  {
    match f
    case Nil => assert before + Tags(f) == before;
    case Element(name, attributes, children, next) =>
      var opening, closing: Tag := Open(name, attributes), Close(name);
      assert Tags(f) == [opening] + Tags(children) + [closing] + Tags(next);
      hide Nested, OpenPath, Tags;
      var inside := before + [opening];
      NestedGrows(before, opening);
      TagsNestAfter(inside, children);
      NestedGrows(inside + Tags(children), closing);
      var done := inside + Tags(children) + [closing];
      TagsNestAfter(done, next);
      RegroupTags(before, [opening], Tags(children), [closing], Tags(next));
  }

  lemma RegroupTags(a: seq<Tag>, b: seq<Tag>, c: seq<Tag>, d: seq<Tag>, e: seq<Tag>)
    ensures a + (b + c + d + e) == a + b + c + d + e
  {
  }

  lemma NestedGrows(tags: seq<Tag>, tag: Tag)
    requires Nested(tags)
    requires tag.Close? ==> OpenPath(tags) != [] && tag.name == OpenPath(tags)[|OpenPath(tags)| - 1]
    ensures Nested(tags + [tag])
    ensures OpenPath(tags + [tag])
         == if tag.Open? then OpenPath(tags) + [tag.name] else OpenPath(tags)[..|OpenPath(tags)| - 1]
  {
  }

  /** The tags of a document are properly nested and leave nothing open. */
  lemma DocumentsAreNested(f: Forest)
    ensures Nested(Tags(f)) && OpenPath(Tags(f)) == []
  {
    TagsNestAfter([], f);
    assert [] + Tags(f) == Tags(f);
  }

  lemma ScanNil(s: Scan)
    ensures ScanAll(s, Tags(Nil)) == s
  {
  }

  function Leaf(name: string, attributes: map<string, string>, next: Forest): Forest {
    Element(name, attributes, Nil, next)
  }

  lemma ScanLeaf(s: Scan, name: string, attributes: map<string, string>, next: Forest)
    ensures ScanAll(s, Tags(Leaf(name, attributes, next)))
         == ScanAll(OnClose(OnOpen(s, name, attributes), name), Tags(next))
  {
    ScanElement(s, name, attributes, Nil, next);
    ScanNil(OnOpen(s, name, attributes));
  }

  /** A Connect inside a Connect loses the stream that follows it. */
  lemma NestedConnectLosesStream(a: map<string, string>)
    ensures var f := Element("Connect", map[], Leaf("Connect", map[], Leaf("Stream", a, Nil)), Nil);
      ScanAll(START, Tags(f)).items == [] && TreeItems(f, false, false) == [StreamEntered(a)]
  {
    var inside := Leaf("Connect", map[], Leaf("Stream", a, Nil));
    ScanElement(START, "Connect", map[], inside, Nil);
    ScanLeaf(Scan(true, false, []), "Connect", map[], Leaf("Stream", a, Nil));
    ScanLeaf(START, "Stream", a, Nil);
    ScanNil(START);
    hide ScanAll, Tags;
    assert TreeItems(Leaf("Stream", a, Nil), true, false) == [StreamEntered(a)];
    assert TreeItems(inside, true, false) == [StreamEntered(a)];
  }

  /** A Stream inside a Stream loses the parameters that follow it. */
  lemma NestedStreamLosesParameter(a: map<string, string>, b: map<string, string>, p: map<string, string>)
    ensures var outer := Element("Stream", a, Leaf("Stream", b, Leaf("Parameter", p, Nil)), Nil);
      var f := Element("Connect", map[], outer, Nil);
      && ScanAll(START, Tags(f)).items == [StreamEntered(a), StreamEntered(b)]
      && TreeItems(f, false, false) == [StreamEntered(a), StreamEntered(b), ParameterAccepted(p)]
  {
    var inside := Leaf("Stream", b, Leaf("Parameter", p, Nil));
    var outer := Element("Stream", a, inside, Nil);
    var connected, entered, closed :=
      Scan(true, false, []), Scan(true, true, [StreamEntered(a)]), Scan(true, false, [StreamEntered(a), StreamEntered(b)]);
    ScanElement(START, "Connect", map[], outer, Nil);
    ScanElement(connected, "Stream", a, inside, Nil);
    ScanLeaf(entered, "Stream", b, Leaf("Parameter", p, Nil));
    ScanLeaf(closed, "Parameter", p, Nil);
    ScanNil(closed);
    ScanNil(Scan(false, false, closed.items));
    hide ScanAll, Tags;
    assert OnOpen(connected, "Stream", a) == entered;
    assert OnClose(OnOpen(entered, "Stream", b), "Stream") == closed;
    assert ScanAll(entered, Tags(inside)) == closed;
    assert ScanAll(connected, Tags(outer)) == closed;
    assert TreeItems(outer, true, false) == [StreamEntered(a), StreamEntered(b), ParameterAccepted(p)] by {
      assert TreeItems(inside, true, true) == [StreamEntered(b), ParameterAccepted(p)];
    }
  }

  // ---------------------------------------------------------------- what the parser returns

  datatype RuntimePath = Sandwich | PremiumRealtime

  datatype Fields = Fields(
    streamUrl: Option<string>,
    streamToken: Option<string>,
    runtimePath: Option<RuntimePath>,
    workerId: Option<string>,
    workerReleaseId: Option<string>)

  const NO_FIELDS := Fields(None, None, None, None, None)

  function ReadAttribute(attributes: map<string, string>, key: string): Option<string> {
    if key in attributes && attributes[key] != "" then Some(attributes[key]) else None
  }

  /** The URL of the last stream, and the last value of each parameter; an unknown runtime path changes nothing. */
  function Apply(fields: Fields, item: Item): Fields {
    match item
    case StreamEntered(attributes) => fields.(streamUrl := ReadAttribute(attributes, "url"))
    case ParameterAccepted(attributes) =>
      var name, value := ReadAttribute(attributes, "name"), ReadAttribute(attributes, "value");
      if name == Some("zaraStreamToken") then fields.(streamToken := value)
      else if name == Some("zaraRuntimePath") then
        if value == Some("pstn-sandwich") then fields.(runtimePath := Some(Sandwich))
        else if value == Some("pstn-premium-realtime") then fields.(runtimePath := Some(PremiumRealtime))
        else fields
      else if name == Some("zaraWorkerId") then fields.(workerId := value)
      else if name == Some("zaraWorkerReleaseId") then fields.(workerReleaseId := value)
      else fields
  }

  function FieldsOf(items: seq<Item>): Fields {
    if items == [] then NO_FIELDS else Apply(FieldsOf(items[..|items| - 1]), items[|items| - 1])
  }

  datatype Url = Url(protocol: string, search: string)

  datatype Parsed =
    | InvalidXml
    | RequiredParametersMissing
    | InvalidUrl
    | NotQuerylessWss
    | Accepted(streamUrl: string, streamToken: string, runtimePath: RuntimePath, workerId: Option<string>,
               workerReleaseId: Option<string>)

  function Conclude(fields: Fields, parseError: bool, readUrl: string -> Option<Url>): Parsed {
    if parseError then InvalidXml
    else if fields.streamUrl.None? || fields.streamToken.None? || fields.runtimePath.None?
         || (fields.runtimePath.value.PremiumRealtime? && (fields.workerId.None? || fields.workerReleaseId.None?))
    then RequiredParametersMissing
    else
      var url := readUrl(fields.streamUrl.value);
      if url.None? then InvalidUrl
      else if url.value.protocol != "wss:" || url.value.search != "" then NotQuerylessWss
      else Accepted(fields.streamUrl.value, fields.streamToken.value, fields.runtimePath.value, fields.workerId,
                    fields.workerReleaseId)
  }

  /** The parser's captured variables. */
  class ConnectStreamParser {
    var insideConnect: bool
    var insideStream: bool
    var fields: Fields
    ghost var items: seq<Item>

    ghost function Model(): Scan
      reads this
    {
      Scan(insideConnect, insideStream, items)
    }

    ghost predicate Valid()
      reads this
    {
      fields == FieldsOf(items)
    }

    constructor ()
      ensures Valid() && Model() == START
    {
      insideConnect, insideStream, fields, items := false, false, NO_FIELDS, [];
    }

    method Accept(item: Item)
      requires Valid()
      modifies this`fields, this`items
      ensures Valid() && items == old(items) + [item]
    {
      hide Apply;
      fields := Apply(fields, item);
      items := items + [item];
      assert items[..|items| - 1] == old(items);
    }

    method OnOpenTag(name: string, attributes: map<string, string>)
      requires Valid()
      modifies this
      ensures Valid() && Model() == OnOpen(old(Model()), name, attributes)
    {
      hide Apply, FieldsOf;
      if name == "Connect" {
        insideConnect := true;
        return;
      }
      if name == "Stream" && insideConnect {
        insideStream := true;
        Accept(StreamEntered(attributes));
        return;
      }
      if name == "Parameter" && insideStream {
        Accept(ParameterAccepted(attributes));
      }
    }

    method OnCloseTag(name: string)
      requires Valid()
      modifies this
      ensures Valid() && Model() == OnClose(old(Model()), name)
    {
      hide FieldsOf;
      if name == "Stream" {
        insideStream := false;
      }
      if name == "Connect" {
        insideConnect := false;
      }
    }
  }

  method ParseConnectStreamTwiML(tags: seq<Tag>, parseError: bool, readUrl: string -> Option<Url>)
    returns (parsed: Parsed)
    ensures parsed == Conclude(FieldsOf(ScanAll(START, tags).items), parseError, readUrl)
  {
    hide FieldsOf, OnOpen, OnClose, Conclude;
    var parser := new ConnectStreamParser();
    for k := 0 to |tags|
      invariant parser.Valid() && fresh(parser)
      invariant parser.Model() == ScanAll(START, tags[..k])
    {
      assert tags[..k + 1][..k] == tags[..k];
      match tags[k]
      case Open(name, attributes) => parser.OnOpenTag(name, attributes);
      case Close(name) => parser.OnCloseTag(name);
    }
    assert tags[..|tags|] == tags;
    parsed := Conclude(parser.fields, parseError, readUrl);
  }

  /** What the parser returns for a document in which nothing is lost is what the tree determines. */
  lemma ParserRefinesTree(f: Forest, readUrl: string -> Option<Url>)
    requires NothingLost(f, false, false, false, false)
    ensures Conclude(FieldsOf(ScanAll(START, Tags(f)).items), false, readUrl)
         == Conclude(FieldsOf(TreeItems(f, false, false)), false, readUrl)
  {
    ScannerRefinesTree(f);
  }
}
