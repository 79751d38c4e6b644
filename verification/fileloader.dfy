/**
  The OTB tree format: what a file may contain, and a one-pass scan that keeps the
  open nodes on a stack. The grammar comes first and knows nothing of the scan; the
  scan is then shown to accept exactly what the grammar allows.
 */
module OtbFormat {
  import opened Bytes

  const ESCAPE: byte := 0xFD
  const START: byte := 0xFE
  const END: byte := 0xFF

  predicate Special(b: byte) { b == ESCAPE || b == START || b == END }

  /** A list that grows at its end, as the children of a node and the parse stack do. */
  datatype List<T> = Nil | Snoc(front: List<T>, last: T)

  /** What a reader of the format works with: a node type, property bytes, children. */
  datatype Tree = Tree(kind: byte, props: seq<byte>, children: List<Tree>)

  /** What the parser leaves behind: the properties are still a range of the file. */
  datatype Span = Span(kind: byte, propsBegin: nat, propsEnd: nat, children: List<Span>)

  // ---------------------------------------------------------------------------
  // The grammar
  // ---------------------------------------------------------------------------

  /** One property byte as written: as itself, or behind an escape byte. */
  datatype Token = Plain(b: byte) | Escaped(b: byte)

  predicate ValidToken(t: Token) { t.Plain? ==> !Special(t.b) }

  predicate ValidTokens(ts: List<Token>) {
    ts.Snoc? ==> ValidTokens(ts.front) && ValidToken(ts.last)
  }

  /**
    A tree together with how it is written down. Bytes that follow a child, before the
    next child or the end of its parent, belong to nobody; `junk` keeps them.
   */
  datatype Layout = Layout(kind: byte, props: List<Token>, children: List<Child>)
  datatype Child = Child(node: Layout, junk: List<Token>)

  predicate ValidLayout(l: Layout)
    decreases l, 1
  {
    ValidTokens(l.props) && ValidChildren(l.children)
  }

  predicate ValidChildren(cs: List<Child>)
    decreases cs, 0
  {
    cs.Snoc? ==> ValidChildren(cs.front) && ValidLayout(cs.last.node) && ValidTokens(cs.last.junk)
  }

  function TokenBytes(t: Token): seq<byte> {
    match t
    case Plain(b) => [b]
    case Escaped(b) => [ESCAPE, b]
  }

  function Flat(ts: List<Token>): seq<byte> {
    match ts
    case Nil => []
    case Snoc(front, t) => Flat(front) + TokenBytes(t)
  }

  function Values(ts: List<Token>): seq<byte> {
    match ts
    case Nil => []
    case Snoc(front, t) => Values(front) + [t.b]
  }

  /** The bytes of a node: START, its raw type byte, properties, children, END. */
  function Text(l: Layout): seq<byte>
    decreases l, 1
  {
    [START, l.kind] + Flat(l.props) + TextAll(l.children) + [END]
  }

  function TextAll(cs: List<Child>): seq<byte>
    decreases cs, 0
  {
    match cs
    case Nil => []
    case Snoc(front, c) => TextAll(front) + Text(c.node) + Flat(c.junk)
  }

  /** Where the nodes of a layout that starts at offset `i` have their properties. */
  function SpanOf(l: Layout, i: nat): Span
    decreases l, 1
  {
    var end := i + 2 + |Flat(l.props)|;
    Span(l.kind, i + 2, end, SpansOf(l.children, end))
  }

  function SpansOf(cs: List<Child>, i: nat): List<Span>
    decreases cs, 0
  {
    match cs
    case Nil => Nil
    case Snoc(front, c) => Snoc(SpansOf(front, i), SpanOf(c.node, i + |TextAll(front)|))
  }

  /** The tree a layout stands for. */
  function TreeOf(l: Layout): Tree
    decreases l, 1
  {
    Tree(l.kind, Values(l.props), TreesOf(l.children))
  }

  function TreesOf(cs: List<Child>): List<Tree>
    decreases cs, 0
  {
    match cs
    case Nil => Nil
    case Snoc(front, c) => Snoc(TreesOf(front), TreeOf(c.node))
  }

  /** The way a writer lays a tree out: special bytes escaped, nothing between nodes. */
  function Canonical(t: Tree): Layout
    decreases t, 1
  {
    Layout(t.kind, Quote(t.props), CanonicalAll(t.children))
  }

  function CanonicalAll(ts: List<Tree>): List<Child>
    decreases ts, 0
  {
    match ts
    case Nil => Nil
    case Snoc(front, t) => Snoc(CanonicalAll(front), Child(Canonical(t), Nil))
  }

  function Quote(bytes: seq<byte>): List<Token> {
    if bytes == [] then Nil
    else
      var b := bytes[|bytes| - 1];
      Snoc(Quote(bytes[..|bytes| - 1]), if Special(b) then Escaped(b) else Plain(b))
  }

  function Print(t: Tree): seq<byte> { Text(Canonical(t)) }

  lemma {:induction false} QuoteKeepsValues(bytes: seq<byte>)
    ensures ValidTokens(Quote(bytes)) && Values(Quote(bytes)) == bytes
  {
    if bytes != [] {
      QuoteKeepsValues(bytes[..|bytes| - 1]);
      assert bytes == bytes[..|bytes| - 1] + [bytes[|bytes| - 1]];
    }
  }

  /** Printing loses nothing: the canonical layout of a tree stands for that tree. */
  lemma {:induction false} CanonicalStandsForTree(t: Tree)
    ensures ValidLayout(Canonical(t)) && TreeOf(Canonical(t)) == t
    decreases t, 1
  {
    QuoteKeepsValues(t.props);
    CanonicalAllStand(t.children);
  }

  lemma {:induction false} CanonicalAllStand(ts: List<Tree>)
    ensures ValidChildren(CanonicalAll(ts)) && TreesOf(CanonicalAll(ts)) == ts
    decreases ts, 0
  {
    match ts
    case Nil =>
    case Snoc(front, t) =>
      CanonicalAllStand(front);
      CanonicalStandsForTree(t);
  }

  // ---------------------------------------------------------------------------
  // Unescaping a property range
  // ---------------------------------------------------------------------------

  /** The bytes kept by the copy, and whether it stands right behind an escape byte. */
  function Unescape(s: seq<byte>): (seq<byte>, bool) {
    if s == [] then ([], false) else UnescapeNext(Unescape(s[..|s| - 1]), s[|s| - 1])
  }

  /** An escape byte is dropped unless it was itself escaped. */
  function UnescapeNext(sofar: (seq<byte>, bool), b: byte): (seq<byte>, bool) {
    var escaped := b == ESCAPE && !sofar.1;
    (if escaped then sofar.0 else sofar.0 + [b], escaped)
  }

  lemma UnescapeSnoc(s: seq<byte>, b: byte)
    ensures Unescape(s + [b]) == UnescapeNext(Unescape(s), b)
  {
    assert (s + [b])[..|s|] == s;
  }

  /** The copy undoes the escaping of every token list and ends outside an escape. */
  lemma {:induction false} UnescapeFlat(ts: List<Token>)
    requires ValidTokens(ts)
    ensures Unescape(Flat(ts)) == (Values(ts), false)
  {
    match ts
    case Nil =>
    case Snoc(front, t) =>
      UnescapeFlat(front);
      if t.Plain? {
        UnescapeSnoc(Flat(front), t.b);
      } else {
        UnescapeSnoc(Flat(front), ESCAPE);
        UnescapeSnoc(Flat(front) + [ESCAPE], t.b);
        assert Flat(ts) == Flat(front) + [ESCAPE] + [t.b];
      }
  }

  /** The tree a reader gets from a parsed node: every property range unescaped. */
  function Decode(c: seq<byte>, s: Span): Tree
    decreases s, 1
  {
    var raw := if s.propsBegin <= s.propsEnd <= |c| then c[s.propsBegin..s.propsEnd] else [];
    Tree(s.kind, Unescape(raw).0, DecodeAll(c, s.children))
  }

  function DecodeAll(c: seq<byte>, ss: List<Span>): List<Tree>
    decreases ss, 0
  {
    match ss
    case Nil => Nil
    case Snoc(front, s) => Snoc(DecodeAll(c, front), Decode(c, s))
  }

  /** Reading a laid-out tree back from its ranges gives the tree. */
  lemma {:induction false} DecodeSpan(c: seq<byte>, i: nat, l: Layout)
    requires At(c, i, Text(l)) && ValidLayout(l)
    ensures Decode(c, SpanOf(l, i)) == TreeOf(l)
    decreases l, 1
  {
    NodeParts(c, i, l);
    UnescapeFlat(l.props);
    DecodeSpans(c, i + 2 + |Flat(l.props)|, l.children);
  }

  lemma {:induction false} DecodeSpans(c: seq<byte>, i: nat, cs: List<Child>)
    requires At(c, i, TextAll(cs)) && ValidChildren(cs)
    ensures DecodeAll(c, SpansOf(cs, i)) == TreesOf(cs)
    decreases cs, 0
  {
    match cs
    case Nil =>
    case Snoc(front, x) =>
      ChildParts(c, i, front, x);
      DecodeSpans(c, i, front);
      DecodeSpan(c, i + |TextAll(front)|, x.node);
  }

  lemma NodeParts(c: seq<byte>, i: nat, l: Layout)
    requires At(c, i, Text(l))
    ensures |Text(l)| == 3 + |Flat(l.props)| + |TextAll(l.children)| && i + |Text(l)| <= |c|
    ensures c[i] == START && c[i + 1] == l.kind && c[i + |Text(l)| - 1] == END
    ensures At(c, i + 2, Flat(l.props)) && At(c, i + 2 + |Flat(l.props)|, TextAll(l.children))
  {
    var props, kids := Flat(l.props), TextAll(l.children);
    AtSplit(c, i, [START, l.kind] + props + kids, [END]);
    AtSplit(c, i, [START, l.kind] + props, kids);
    AtSplit(c, i, [START, l.kind], props);
    AtByte(c, i, [START, l.kind], 0);
    AtByte(c, i, [START, l.kind], 1);
    AtByte(c, i + |Text(l)| - 1, [END], 0);
  }

  lemma ChildParts(c: seq<byte>, i: nat, front: List<Child>, x: Child)
    requires At(c, i, TextAll(Snoc(front, x)))
    ensures At(c, i, TextAll(front))
    ensures At(c, i + |TextAll(front)|, Text(x.node))
    ensures At(c, i + |TextAll(front)| + |Text(x.node)|, Flat(x.junk))
  {
    AtSplit(c, i, TextAll(front) + Text(x.node), Flat(x.junk));
    AtSplit(c, i, TextAll(front), Text(x.node));
  }

  lemma AtByte(c: seq<byte>, i: nat, s: seq<byte>, k: nat)
    requires At(c, i, s) && k < |s|
    ensures c[i + k] == s[k]
  {
    assert c[i..i + |s|][k] == c[i + k];
  }

  // ---------------------------------------------------------------------------
  // The scan as a machine on values
  // ---------------------------------------------------------------------------

  /** A node that has been opened and not closed; `children` are its closed children. */
  datatype Frame = Frame(kind: byte, propsBegin: nat, propsEnd: nat, children: List<Span>)

  datatype State = Scanning(below: List<Frame>, top: Frame) | Complete(root: Span)

  datatype Result<+T> = Ok(value: T) | InvalidFormat

  /** The first child of a node, or its END, fixes where its properties stop. */
  function SealProps(f: Frame, i: nat): Frame {
    if f.children.Nil? then f.(propsEnd := i) else f
  }

  function Opened(below: List<Frame>, top: Frame, kind: byte, i: nat): State {
    Scanning(Snoc(below, SealProps(top, i)), Frame(kind, i + 2, 0, Nil))
  }

  function Closed(below: List<Frame>, top: Frame, i: nat): State {
    var f := SealProps(top, i);
    Attached(below, Span(f.kind, f.propsBegin, f.propsEnd, f.children))
  }

  function Attached(below: List<Frame>, s: Span): State {
    match below
    case Nil => Complete(s)
    case Snoc(rest, f) => Scanning(rest, f.(children := Snoc(f.children, s)))
  }

  /** What the rest of the scan returns when it stands at offset `i` in state `st`. */
  function Scan(c: seq<byte>, i: nat, st: State): Result<Span>
    requires i <= |c|
    decreases |c| - i
  {
    if i == |c| then
      if st.Complete? then Ok(st.root) else InvalidFormat
    else if c[i] == START then
      if st.Complete? || i + 1 == |c| then InvalidFormat
      else Scan(c, i + 2, Opened(st.below, st.top, c[i + 1], i))
    else if c[i] == END then
      if st.Complete? then InvalidFormat
      else Scan(c, i + 1, Closed(st.below, st.top, i))
    else if c[i] == ESCAPE then
      if i + 1 == |c| then InvalidFormat else Scan(c, i + 2, st)
    else
      Scan(c, i + 1, st)
  }

  /** The whole parse: the file starts with a four-byte identifier, then the root. */
  function Parse(c: seq<byte>): Result<Span>
    requires |c| > 7
  {
    if c[4] != START then InvalidFormat else Scan(c, 6, Scanning(Nil, Frame(c[5], 6, 0, Nil)))
  }

  // ---------------------------------------------------------------------------
  // Everything the grammar allows is accepted
  // ---------------------------------------------------------------------------

  lemma {:induction false} ScanTokens(c: seq<byte>, i: nat, st: State, ts: List<Token>)
    requires At(c, i, Flat(ts)) && ValidTokens(ts)
    ensures Scan(c, i, st) == Scan(c, i + |Flat(ts)|, st)
  {
    match ts
    case Nil =>
    case Snoc(front, t) =>
      AtSplit(c, i, Flat(front), TokenBytes(t));
      ScanTokens(c, i, st, front);
      AtByte(c, i + |Flat(front)|, TokenBytes(t), 0);
  }

  /** From behind a node's type byte to behind its END. */
  lemma {:induction false} ScanNode(c: seq<byte>, i: nat, below: List<Frame>, l: Layout)
    requires At(c, i, Text(l)) && ValidLayout(l)
    ensures Scan(c, i + 2, Scanning(below, Frame(l.kind, i + 2, 0, Nil)))
         == Scan(c, i + |Text(l)|, Attached(below, SpanOf(l, i)))
    decreases l, 1
  {
    hide Scan, ValidTokens, ValidChildren, TextAll, Flat, At;
    NodeParts(c, i, l);
    var open := Frame(l.kind, i + 2, 0, Nil);
    var end := i + 2 + |Flat(l.props)|;
    ScanTokens(c, i + 2, Scanning(below, open), l.props);
    ScanChildren(c, end, below, open, l.children);
    var full := Filled(open, l.children, end);
    ScanEnd(c, end + |TextAll(l.children)|, below, full);
    SealFilled(open, l.children, end);
  }

  lemma ScanEnd(c: seq<byte>, j: nat, below: List<Frame>, top: Frame)
    requires j < |c| && c[j] == END
    ensures Scan(c, j, Scanning(below, top)) == Scan(c, j + 1, Closed(below, top, j))
  {
  }

  lemma ScanStart(c: seq<byte>, j: nat, below: List<Frame>, top: Frame)
    requires j + 1 < |c| && c[j] == START
    ensures Scan(c, j, Scanning(below, top)) == Scan(c, j + 2, Opened(below, top, c[j + 1], j))
  {
  }

  /** The frame of an open node after the children `cs`, the first of which starts at `i`. */
  function Filled(f: Frame, cs: List<Child>, i: nat): Frame {
    if cs.Nil? then f else f.(propsEnd := i, children := SpansOf(cs, i))
  }

  lemma SealFilled(f: Frame, cs: List<Child>, i: nat)
    requires f.children.Nil?
    ensures SealProps(Filled(f, cs, i), i + |TextAll(cs)|) == f.(propsEnd := i, children := SpansOf(cs, i))
  {
  }

  lemma {:induction false} ChildrenLast(cs: List<Child>, i: nat)
    requires cs.Snoc?
    ensures var x := cs.last;
            && TextAll(cs) == TextAll(cs.front) + Text(x.node) + Flat(x.junk)
            && SpansOf(cs, i) == Snoc(SpansOf(cs.front, i), SpanOf(x.node, i + |TextAll(cs.front)|))
            && (ValidChildren(cs) ==> ValidChildren(cs.front) && ValidLayout(x.node) && ValidTokens(x.junk))
  {
  }

  /** The frame that holds the children in front gains the last one. */
  lemma {:induction false} FilledMore(f: Frame, cs: List<Child>, i: nat, below: List<Frame>)
    requires cs.Snoc? && f.children.Nil?
    ensures var j := i + |TextAll(cs.front)|;
            Attached(Snoc(below, SealProps(Filled(f, cs.front, i), j)), SpanOf(cs.last.node, j)) == Scanning(below, Filled(f, cs, i))
  {
    ChildrenLast(cs, i);
    hide TextAll, SpansOf, SpanOf;
    SealFilled(f, cs.front, i);
  }

  /** One child and the bytes behind it. */
  lemma {:induction false} ScanChild(c: seq<byte>, j: nat, below: List<Frame>, g: Frame, x: Child)
    requires At(c, j, Text(x.node)) && At(c, j + |Text(x.node)|, Flat(x.junk)) && ValidLayout(x.node) && ValidTokens(x.junk)
    ensures Scan(c, j, Scanning(below, g)) ==
            Scan(c, j + |Text(x.node)| + |Flat(x.junk)|, Attached(Snoc(below, SealProps(g, j)), SpanOf(x.node, j)))
    decreases x, 2
  {
    NodeParts(c, j, x.node);
    hide Scan, At, Flat, Text, SpanOf, SealProps, Attached, ValidLayout, ValidTokens;
    ScanNode(c, j, Snoc(below, SealProps(g, j)), x.node);
    ScanStart(c, j, below, g);
    ScanTokens(c, j + |Text(x.node)|, Attached(Snoc(below, SealProps(g, j)), SpanOf(x.node, j)), x.junk);
  }

  lemma {:induction false} ScanChildren(c: seq<byte>, i: nat, below: List<Frame>, f: Frame, cs: List<Child>)
    requires At(c, i, TextAll(cs)) && f.children.Nil? && ValidChildren(cs)
    ensures Scan(c, i, Scanning(below, f)) == Scan(c, i + |TextAll(cs)|, Scanning(below, Filled(f, cs, i)))
    decreases cs, 0
  {
    hide *;
    if cs.Nil? {
      FilledByNone(f, cs, i);
    } else {
      ChildrenLast(cs, i);
      ChildParts(c, i, cs.front, cs.last);
      FilledMore(f, cs, i, below);
      ScanChildren(c, i, below, f, cs.front);
      ScanChild(c, i + |TextAll(cs.front)|, below, Filled(f, cs.front, i), cs.last);
    }
  }

  lemma {:induction false} FilledByNone(f: Frame, cs: List<Child>, i: nat)
    requires cs.Nil?
    ensures TextAll(cs) == [] && Filled(f, cs, i) == f
  {
  }

  /** A root laid out behind the identifier, then tokens that belong to nobody. */
  ghost predicate Fits(c: seq<byte>, l: Layout, junk: List<Token>) {
    && ValidLayout(l) && ValidTokens(junk)
    && |c| > 7 && c[4..] == Text(l) + Flat(junk)
  }

  /** Every file that fits the grammar is accepted, and every range is where it was written. */
  lemma ParseComplete(c: seq<byte>, l: Layout, junk: List<Token>)
    requires Fits(c, l, junk)
    ensures Parse(c) == Ok(SpanOf(l, 4)) && Decode(c, SpanOf(l, 4)) == TreeOf(l)
  {
    assert At(c, 4, Text(l) + Flat(junk));
    AtSplit(c, 4, Text(l), Flat(junk));
    NodeParts(c, 4, l);
    ScanNode(c, 4, Nil, l);
    ScanTokens(c, 4 + |Text(l)|, Complete(SpanOf(l, 4)), junk);
    DecodeSpan(c, 4, l);
  }

  // ---------------------------------------------------------------------------
  // Everything accepted is allowed by the grammar
  // ---------------------------------------------------------------------------

  /** A node whose END has not been read. */
  datatype Open = Open(kind: byte, props: List<Token>, children: List<Child>)

  predicate ValidOpen(o: Open) { ValidTokens(o.props) && ValidChildren(o.children) }

  function OpenText(o: Open): seq<byte> {
    [START, o.kind] + Flat(o.props) + TextAll(o.children)
  }

  function OpenTexts(os: List<Open>): seq<byte> {
    match os
    case Nil => []
    case Snoc(below, o) => OpenTexts(below) + OpenText(o)
  }

  /** The frame records the open node `o`, whose START stands at offset `at`. */
  predicate TracksNode(f: Frame, o: Open, at: nat) {
    var end := at + 2 + |Flat(o.props)|;
    && ValidOpen(o)
    && f.kind == o.kind
    && f.propsBegin == at + 2
    && f.children == SpansOf(o.children, end)
    && (o.children.Snoc? ==> f.propsEnd == end)
  }

  /** The stack records the open nodes `os`, written from offset `i` on: the rightmost spine. */
  predicate Tracks(fs: List<Frame>, os: List<Open>, i: nat) {
    match fs
    case Nil => os.Nil?
    case Snoc(below, f) =>
      os.Snoc? && Tracks(below, os.front, i) && TracksNode(f, os.last, i + |OpenTexts(os.front)|)
  }

  /** Appends one data token to the node, or to the gap behind its last child. */
  function AddToken(o: Open, t: Token): Open {
    match o.children
    case Nil => o.(props := Snoc(o.props, t))
    case Snoc(front, c) => o.(children := Snoc(front, Child(c.node, Snoc(c.junk, t))))
  }

  lemma {:induction false} AddTokenText(o: Open, t: Token, f: Frame, at: nat)
    requires TracksNode(f, o, at) && ValidToken(t)
    ensures OpenText(AddToken(o, t)) == OpenText(o) + TokenBytes(t)
    ensures TracksNode(f, AddToken(o, t), at)
  {
    var p := AddToken(o, t);
    if o.children.Snoc? {
      assert TextAll(p.children) == TextAll(o.children) + TokenBytes(t);
    }
  }

  /** An open node that gets a complete child. */
  function AddChild(o: Open, l: Layout): Open { o.(children := Snoc(o.children, Child(l, Nil))) }

  lemma AddChildText(o: Open, l: Layout, f: Frame, at: nat)
    requires TracksNode(f, o, at) && ValidLayout(l)
    requires f.propsEnd == at + 2 + |Flat(o.props)|
    ensures OpenText(AddChild(o, l)) == OpenText(o) + Text(l)
    ensures TracksNode(f.(children := Snoc(f.children, SpanOf(l, at + |OpenText(o)|))), AddChild(o, l), at)
  {
    assert TextAll(AddChild(o, l).children) == TextAll(o.children) + Text(l);
  }

  /** Closing an open node gives a layout with the span the machine attaches. */
  lemma CloseNode(o: Open, f: Frame, at: nat) returns (l: Layout)
    requires TracksNode(f, o, at)
    ensures ValidLayout(l) && Text(l) == OpenText(o) + [END]
    ensures var s := SealProps(f, at + |OpenText(o)|);
            Span(s.kind, s.propsBegin, s.propsEnd, s.children) == SpanOf(l, at)
  {
    l := Layout(o.kind, o.props, o.children);
  }

  /** The frames below the top have had their properties sealed by the node above them. */
  predicate Sealed(fs: List<Frame>, os: List<Open>, i: nat) {
    fs.Snoc? && os.Snoc? ==>
      && Sealed(fs.front, os.front, i)
      && fs.last.propsEnd == i + |OpenTexts(os.front)| + 2 + |Flat(os.last.props)|
  }

  /** Everything the machine knows in front of offset `j`, with the root's START at `i`. */
  ghost predicate Reads(c: seq<byte>, i: nat, j: nat, below: List<Frame>, top: Frame, os: List<Open>, o: Open) {
    && i <= j <= |c|
    && Tracks(below, os, i) && Sealed(below, os, i)
    && TracksNode(top, o, i + |OpenTexts(os)|)
    && c[i..j] == OpenTexts(os) + OpenText(o)
  }

  ghost predicate Finished(c: seq<byte>, i: nat, j: nat, root: Span, l: Layout, junk: List<Token>) {
    && i <= j <= |c|
    && ValidLayout(l) && ValidTokens(junk)
    && root == SpanOf(l, i)
    && c[i..j] == Text(l) + Flat(junk)
  }

  lemma ReadsToken(c: seq<byte>, i: nat, j: nat, below: List<Frame>, top: Frame, os: List<Open>, o: Open, t: Token)
    requires Reads(c, i, j, below, top, os, o) && ValidToken(t) && At(c, j, TokenBytes(t))
    ensures Reads(c, i, j + |TokenBytes(t)|, below, top, os, AddToken(o, t))
  {
    hide OpenText, OpenTexts, TracksNode, AddToken, Tracks, Sealed, TokenBytes, ValidToken;
    AddTokenText(o, t, top, i + |OpenTexts(os)|);
    Extend(c, i, j, TokenBytes(t));
    assert OpenTexts(os) + (OpenText(o) + TokenBytes(t)) == OpenTexts(os) + OpenText(o) + TokenBytes(t);
  }

  lemma Extend(c: seq<byte>, i: nat, j: nat, s: seq<byte>)
    requires i <= j <= |c| && At(c, j, s)
    ensures c[i..j + |s|] == c[i..j] + s
  {
  }

  lemma ReadsOpened(c: seq<byte>, i: nat, j: nat, below: List<Frame>, top: Frame, os: List<Open>, o: Open)
    requires Reads(c, i, j, below, top, os, o) && j + 1 < |c| && c[j] == START
    ensures var st := Opened(below, top, c[j + 1], j);
            Reads(c, i, j + 2, st.below, st.top, Snoc(os, o), Open(c[j + 1], Nil, Nil))
  {
    hide OpenText, OpenTexts, TracksNode, SealProps;
    assert At(c, j, [START, c[j + 1]]);
    Extend(c, i, j, [START, c[j + 1]]);
    PlaceOfNext(os, o, c[i..j], j - i);
    FreshNode(c[j + 1], j);
    SealTracks(top, o, i + |OpenTexts(os)|);
  }

  lemma PlaceOfNext(os: List<Open>, o: Open, s: seq<byte>, n: nat)
    requires s == OpenTexts(os) + OpenText(o) && n == |s|
    ensures n == |OpenTexts(os)| + |OpenText(o)| && OpenTexts(Snoc(os, o)) == s
  {
  }

  lemma FreshNode(kind: byte, j: nat)
    ensures OpenText(Open(kind, Nil, Nil)) == [START, kind] && TracksNode(Frame(kind, j + 2, 0, Nil), Open(kind, Nil, Nil), j)
  {
  }

  lemma SealTracks(f: Frame, o: Open, at: nat)
    requires TracksNode(f, o, at)
    ensures TracksNode(SealProps(f, at + |OpenText(o)|), o, at)
    ensures SealProps(f, at + |OpenText(o)|).propsEnd == at + 2 + |Flat(o.props)|
  {
  }

  lemma ReadsClosedRoot(c: seq<byte>, i: nat, j: nat, below: List<Frame>, top: Frame, os: List<Open>, o: Open)
    returns (l: Layout)
    requires Reads(c, i, j, below, top, os, o) && j < |c| && c[j] == END && os.Nil?
    ensures Closed(below, top, j) == Complete(SpanOf(l, i)) && Finished(c, i, j + 1, SpanOf(l, i), l, Nil)
  {
    l := CloseNode(o, top, i);
    assert At(c, j, [END]);
    Extend(c, i, j, [END]);
    assert j == i + |OpenText(o)|;
  }

  lemma ReadsClosed(c: seq<byte>, i: nat, j: nat, below: List<Frame>, top: Frame, os: List<Open>, o: Open)
    returns (l: Layout)
    requires Reads(c, i, j, below, top, os, o) && j < |c| && c[j] == END && os.Snoc?
    ensures Closed(below, top, j).Scanning?
    ensures var st := Closed(below, top, j);
            Reads(c, i, j + 1, st.below, st.top, os.front, AddChild(os.last, l))
  {
    hide Text, OpenText, Flat, TextAll, SpanOf, SpansOf, TracksNode, ValidLayout, AddChild;
    var at := i + |OpenTexts(os)|;
    l := CloseNode(o, top, at);
    Extend(c, i, j, [END]);
    assert j == at + |OpenText(o)|;
    var under := i + |OpenTexts(os.front)|;
    AddChildText(os.last, l, below.last, under);
    assert at == under + |OpenText(os.last)|;
    Regroup(OpenTexts(os.front), OpenText(os.last), OpenText(o), [END]);
  }

  lemma Regroup(a: seq<byte>, b: seq<byte>, d: seq<byte>, e: seq<byte>)
    ensures ((a + b) + d) + e == a + (b + (d + e))
  {
  }

  /** Behind the root a good scan can only meet data bytes. */
  lemma {:induction false} TailToken(c: seq<byte>, j: nat, root: Span) returns (t: Token)
    requires j < |c| && Scan(c, j, Complete(root)).Ok?
    ensures ValidToken(t) && At(c, j, TokenBytes(t)) && 0 < |TokenBytes(t)|
    ensures Scan(c, j, Complete(root)) == Scan(c, j + |TokenBytes(t)|, Complete(root))
  {
    t := if c[j] == ESCAPE then Escaped(c[j + 1]) else Plain(c[j]);
  }

  lemma {:induction false} FinishedMore(c: seq<byte>, i: nat, j: nat, root: Span, l: Layout, junk: List<Token>, t: Token)
    requires Finished(c, i, j, root, l, junk) && ValidToken(t) && At(c, j, TokenBytes(t))
    ensures Finished(c, i, j + |TokenBytes(t)|, root, l, Snoc(junk, t))
  {
    hide Text, SpanOf, ValidLayout, TokenBytes, ValidToken;
    Extend(c, i, j, TokenBytes(t));
  }

  lemma {:induction false} ScanSoundTail(c: seq<byte>, i: nat, j: nat, root: Span, l: Layout, junk: List<Token>)
    returns (junk': List<Token>)
    requires j <= |c| && Finished(c, i, j, root, l, junk) && Scan(c, j, Complete(root)).Ok?
    ensures Scan(c, j, Complete(root)) == Ok(root) && Finished(c, i, |c|, root, l, junk')
    decreases |c| - j
  {
    hide Finished, TokenBytes, At;
    if j == |c| {
      junk' := junk;
    } else {
      var t := TailToken(c, j, root);
      FinishedMore(c, i, j, root, l, junk, t);
      TokenFits(c, j, t);
      hide Scan;
      junk' := ScanSoundTail(c, i, j + |TokenBytes(t)|, root, l, Snoc(junk, t));
    }
  }

  lemma {:induction false} TokenFits(c: seq<byte>, j: nat, t: Token)
    requires At(c, j, TokenBytes(t))
    ensures j + |TokenBytes(t)| <= |c|
  {
  }

  lemma {:induction false} ScanSound(c: seq<byte>, i: nat, j: nat, below: List<Frame>, top: Frame, os: List<Open>, o: Open)
    returns (l: Layout, junk: List<Token>)
    requires j <= |c| && Reads(c, i, j, below, top, os, o) && Scan(c, j, Scanning(below, top)).Ok?
    ensures Finished(c, i, |c|, SpanOf(l, i), l, junk)
    ensures Scan(c, j, Scanning(below, top)) == Ok(SpanOf(l, i))
    decreases |c| - j
  {
    hide Reads, Closed, AddToken, AddChild, SpanOf, Finished;
    if c[j] == START {
      ScanStart(c, j, below, top);
      ReadsOpened(c, i, j, below, top, os, o);
      var st := Opened(below, top, c[j + 1], j);
      l, junk := ScanSound(c, i, j + 2, st.below, st.top, Snoc(os, o), Open(c[j + 1], Nil, Nil));
    } else if c[j] == END {
      ScanEnd(c, j, below, top);
      if os.Nil? {
        l := ReadsClosedRoot(c, i, j, below, top, os, o);
        junk := ScanSoundTail(c, i, j + 1, SpanOf(l, i), l, Nil);
      } else {
        l := ReadsClosed(c, i, j, below, top, os, o);
        var st := Closed(below, top, j);
        l, junk := ScanSound(c, i, j + 1, st.below, st.top, os.front, AddChild(os.last, l));
      }
    } else {
      var t := if c[j] == ESCAPE then Escaped(c[j + 1]) else Plain(c[j]);
      assert At(c, j, TokenBytes(t));
      ReadsToken(c, i, j, below, top, os, o, t);
      l, junk := ScanSound(c, i, j + |TokenBytes(t)|, below, top, os, AddToken(o, t));
    }
  }

  /** A file that is accepted fits the grammar. */
  lemma ParseSound(c: seq<byte>) returns (l: Layout, junk: List<Token>)
    requires |c| > 7 && Parse(c).Ok?
    ensures Fits(c, l, junk) && Parse(c) == Ok(SpanOf(l, 4))
  {
    var o := Open(c[5], Nil, Nil);
    assert OpenTexts(Nil) + OpenText(o) == [START, c[5]] == c[4..6];
    l, junk := ScanSound(c, 4, 6, Nil, Frame(c[5], 6, 0, Nil), Nil, o);
    assert c[4..|c|] == c[4..];
  }

  /**
    The parser accepts exactly the files that fit the grammar. Unbalanced START and END
    bytes, and an escape or a START at the very end of the file, fit no layout.
   */
  lemma AcceptsExactlyTheGrammar(c: seq<byte>)
    requires |c| > 7
    ensures Parse(c).Ok? <==> exists l, junk :: Fits(c, l, junk)
  {
    if Parse(c).Ok? {
      var l, junk := ParseSound(c);
    }
    if exists l, junk :: Fits(c, l, junk) {
      var l, junk :| Fits(c, l, junk);
      ParseComplete(c, l, junk);
    }
  }
}
