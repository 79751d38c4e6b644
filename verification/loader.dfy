/** The loader itself: nodes filled in place while the file is scanned once. */
module OtbLoader {
  import opened Bytes
  import opened OtbFormat
  import opened PropStreams

  const WILDCARD: seq<byte> := [0, 0, 0, 0]
  const MINIMAL_SIZE := 7  // identifier, START, type, END

  class Node {
    var kind: byte
    var propsBegin: nat
    var propsEnd: nat
    var children: seq<Node>

    constructor (kind: byte, propsBegin: nat)
      ensures this.kind == kind && this.propsBegin == propsBegin && children == []
    {
      this.kind, this.propsBegin, this.propsEnd, children := kind, propsBegin, 0, [];
    }
  }

  /** The node and everything below it, all of it in `repr`, is the span `s`. */
  ghost predicate Represents(n: Node, s: Span, repr: set<Node>)
    reads repr
    decreases s, 1
  {
    && n in repr
    && n.kind == s.kind && n.propsBegin == s.propsBegin && n.propsEnd == s.propsEnd
    && RepresentsAll(n.children, s.children, repr)
  }

  ghost predicate RepresentsAll(ns: seq<Node>, ss: List<Span>, repr: set<Node>)
    reads repr
    decreases ss, 0
  {
    match ss
    case Nil => ns == []
    case Snoc(front, s) =>
      ns != [] && RepresentsAll(ns[..|ns| - 1], front, repr) && Represents(ns[|ns| - 1], s, repr)
  }

  lemma {:induction false} RepresentsGrows(n: Node, s: Span, repr: set<Node>, more: set<Node>)
    requires Represents(n, s, repr) && repr <= more
    ensures Represents(n, s, more)
    decreases s, 1
  {
    RepresentsAllGrows(n.children, s.children, repr, more);
  }

  lemma {:induction false} RepresentsAllGrows(ns: seq<Node>, ss: List<Span>, repr: set<Node>, more: set<Node>)
    requires RepresentsAll(ns, ss, repr) && repr <= more
    ensures RepresentsAll(ns, ss, more)
    decreases ss, 0
  {
    match ss
    case Nil =>
    case Snoc(front, s) =>
      RepresentsAllGrows(ns[..|ns| - 1], front, repr, more);
      RepresentsGrows(ns[|ns| - 1], s, repr, more);
  }

  /** An open node: its closed children are the frame's, then comes the open child, if any. */
  ghost predicate Holds(n: Node, f: Frame, child: seq<Node>, closed: set<Node>)
    reads n, closed
  {
    && n !in closed
    && n.kind == f.kind && n.propsBegin == f.propsBegin
    && (f.children.Snoc? || child != [] ==> n.propsEnd == f.propsEnd)
    && |child| <= 1 && |child| <= |n.children|
    && (child != [] ==> n.children[|n.children| - 1] == child[0])
    && RepresentsAll(n.children[..|n.children| - |child|], f.children, closed)
  }

  /** The parse stack is the rightmost spine: each open node's last child is the next one. */
  ghost predicate Spine(stack: seq<Node>, fs: List<Frame>, child: seq<Node>, closed: set<Node>)
    reads stack, closed
    decreases fs
  {
    match fs
    case Nil => stack == []
    case Snoc(below, f) =>
      stack != [] &&
      var top := stack[|stack| - 1];
      var rest := stack[..|stack| - 1];
      top !in rest && Holds(top, f, child, closed) && Spine(rest, below, [top], closed)
  }

  lemma NoChildren(repr: set<Node>)
    ensures RepresentsAll([], Nil, repr)
  {
  }

  lemma BothChildless(n: Node, f: Frame, closed: set<Node>)
    requires Holds(n, f, [], closed)
    ensures n.children == [] <==> f.children.Nil?
  {
    assert n.children[..|n.children|] == n.children;
  }

  lemma RootAlone(root: Node)
    requires root.children == []
    ensures Spine([root], Snoc(Nil, Frame(root.kind, root.propsBegin, 0, Nil)), [], {})
  {
    assert [root][..0] == [];
    assert root.children[..0] == [];
    NoChildren({});
    assert Holds(root, Frame(root.kind, root.propsBegin, 0, Nil), [], {});
  }

  lemma {:induction false} SpineGrows(stack: seq<Node>, fs: List<Frame>, child: seq<Node>, closed: set<Node>, more: set<Node>)
    requires Spine(stack, fs, child, closed) && closed <= more
    requires forall n :: n in stack && n in more ==> n in closed
    ensures Spine(stack, fs, child, more)
    decreases fs
  {
    match fs
    case Nil =>
    case Snoc(below, f) =>
      var top := stack[|stack| - 1];
      RepresentsAllGrows(top.children[..|top.children| - |child|], f.children, closed, more);
      SpineGrows(stack[..|stack| - 1], below, [top], closed, more);
  }

  /** A finished top of the spine becomes a closed child of the node below it. */
  lemma CloseTop(rest: seq<Node>, top: Node, below: List<Frame>, f: Frame, closed: set<Node>)
    requires Holds(top, f, [], closed) && top.propsEnd == f.propsEnd
    requires Spine(rest, below, [top], closed) && top !in rest
    ensures var st := Attached(below, Span(f.kind, f.propsBegin, f.propsEnd, f.children));
            if below.Nil? then rest == [] && Represents(top, st.root, closed + {top})
            else Spine(rest, Snoc(st.below, st.top), [], closed + {top})
  {
    var more := closed + {top};
    assert top.children[..|top.children|] == top.children;
    RepresentsAllGrows(top.children, f.children, closed, more);
    assert Represents(top, Span(f.kind, f.propsBegin, f.propsEnd, f.children), more);
    if below.Snoc? {
      hide RepresentsAll;
      SpineGrows(rest, below, [top], closed, more);
      var under := rest[|rest| - 1];
      assert under.children[..|under.children|] == under.children;
      AppendChild(under.children, below.last.children, Span(f.kind, f.propsBegin, f.propsEnd, f.children), more);
    }
  }

  lemma AppendChild(ns: seq<Node>, front: List<Span>, s: Span, repr: set<Node>)
    requires ns != [] && RepresentsAll(ns[..|ns| - 1], front, repr) && Represents(ns[|ns| - 1], s, repr)
    ensures RepresentsAll(ns, Snoc(front, s), repr)
  {
  }

  /** The spine without its top. */
  lemma SpineTop(stack: seq<Node>, below: List<Frame>, f: Frame, child: seq<Node>, closed: set<Node>)
    requires Spine(stack, Snoc(below, f), child, closed)
    ensures stack != []
    ensures var top, rest := stack[|stack| - 1], stack[..|stack| - 1];
            top !in rest && top !in closed && Holds(top, f, child, closed) && Spine(rest, below, [top], closed)
  {
  }

  lemma SpinePush(stack: seq<Node>, below: List<Frame>, f: Frame, child: Node, g: Frame, closed: set<Node>)
    requires stack != [] && child !in stack && Holds(child, g, [], closed)
    requires var top, rest := stack[|stack| - 1], stack[..|stack| - 1];
             top !in rest && Holds(top, f, [child], closed) && Spine(rest, below, [top], closed)
    ensures Spine(stack + [child], Snoc(Snoc(below, f), g), [], closed)
  {
    hide Holds;
    assert (stack + [child])[..|stack|] == stack;
  }

  lemma NextOfRange(c: seq<byte>, begin: nat, end: nat, i: nat)
    requires begin + i < end <= |c|
    ensures c[begin..end][..i + 1] == c[begin..end][..i] + [c[begin + i]]
  {
  }

  lemma RangeEnds(s: seq<byte>)
    ensures s[..0] == [] && s[..|s|] == s
  {
  }

  lemma NothingToUnescape()
    ensures Unescape([]) == ([], false)
  {
  }

  class Loader {
    const contents: seq<byte>
    const root: Node
    var propBuffer: array<byte>

    constructor (contents: seq<byte>)
      ensures this.contents == contents && root.children == []
      ensures fresh(root) && fresh(propBuffer)
    {
      this.contents := contents;
      root := new Node(0, 0);
      propBuffer := new byte[0];
    }

    /** Opening a file checks its size and its identifier. */
    static method OpenFile(contents: seq<byte>, accepted: seq<byte>) returns (r: Result<Loader>)
      requires |accepted| == 4
      ensures r.Ok? <==> |contents| > MINIMAL_SIZE && (contents[..4] == accepted || contents[..4] == WILDCARD)
      ensures r.Ok? ==> r.value.contents == contents && r.value.root.children == []
      ensures r.Ok? ==> fresh(r.value) && fresh(r.value.root)
    {
      if |contents| <= MINIMAL_SIZE {
        return InvalidFormat;
      }
      var fileIdentifier := contents[..4];
      if fileIdentifier != accepted && fileIdentifier != WILDCARD {
        return InvalidFormat;
      }
      var loader := new Loader(contents);
      r := Ok(loader);
    }

    /** START: the node on top of the stack gets a child, which becomes the top. */
    static method OnStart(parseStack: seq<Node>, it: nat, kind: byte, ghost st: State, ghost closed: set<Node>)
      returns (parseStack': seq<Node>)
      requires st.Scanning? && Spine(parseStack, Snoc(st.below, st.top), [], closed)
      modifies parseStack[|parseStack| - 1]
      ensures parseStack' != [] && parseStack'[0] == parseStack[0]
      ensures forall n :: n in parseStack' ==> n in parseStack || fresh(n)
      ensures var st' := Opened(st.below, st.top, kind, it);
              Spine(parseStack', Snoc(st'.below, st'.top), [], closed)
    {
      hide Represents, RepresentsAll, Spine;
      SpineTop(parseStack, st.below, st.top, [], closed);
      var current := parseStack[|parseStack| - 1];
      BothChildless(current, st.top, closed);
      if current.children == [] {
        current.propsEnd := it;
      }
      var child := new Node(kind, it + 2);
      ghost var kids := current.children;
      assert kids[..|kids|] == kids;
      current.children := current.children + [child];
      parseStack' := parseStack + [child];
      assert current.children[..|kids|] == kids;
      var st' := Opened(st.below, st.top, kind, it);
      assert Holds(current, SealProps(st.top, it), [child], closed);
      assert child.children[..0] == [];
      NoChildren(closed);
      assert Holds(child, st'.top, [], closed);
      SpinePush(parseStack, st.below, SealProps(st.top, it), child, st'.top, closed);
    }

    /** END: the node on top of the stack is finished. */
    static method OnEnd(parseStack: seq<Node>, it: nat, ghost st: State, ghost closed: set<Node>)
      returns (parseStack': seq<Node>, ghost closed': set<Node>)
      requires st.Scanning? && Spine(parseStack, Snoc(st.below, st.top), [], closed)
      modifies parseStack[|parseStack| - 1]
      ensures parseStack' == parseStack[..|parseStack| - 1]
      ensures forall n :: n in parseStack' ==> n in parseStack
      ensures parseStack' != [] ==> parseStack'[0] == parseStack[0]
      ensures closed' == closed + {parseStack[|parseStack| - 1]}
      ensures var st' := Closed(st.below, st.top, it);
              if st'.Complete? then parseStack' == [] && Represents(parseStack[0], st'.root, closed')
              else Spine(parseStack', Snoc(st'.below, st'.top), [], closed')
    {
      hide Represents, RepresentsAll;
      var current := parseStack[|parseStack| - 1];
      BothChildless(current, st.top, closed);
      if current.children == [] {
        current.propsEnd := it;
      }
      parseStack' := parseStack[..|parseStack| - 1];
      closed' := closed + {current};
      assert Holds(current, SealProps(st.top, it), [], closed);
      CloseTop(parseStack', current, st.below, SealProps(st.top, it), closed);
    }

    /** One pass over the file. The nodes it fills in are the spans the machine returns. */
    method ParseTree() returns (r: Result<Node>, ghost repr: set<Node>)
      requires |contents| > MINIMAL_SIZE && root.children == []
      modifies root
      ensures r.Ok? <==> Parse(contents).Ok?
      ensures r.Ok? ==> r.value == root && Represents(root, Parse(contents).value, repr)
    {
      repr := {};
      var it := 4;
      if contents[it] != START {
        return InvalidFormat, {};
      }
      it := it + 1;
      root.kind := contents[it];
      it := it + 1;
      root.propsBegin := it;
      var parseStack := [root];
      ghost var st := Scanning(Nil, Frame(contents[5], 6, 0, Nil));
      RootAlone(root);
      hide Spine, Represents, RepresentsAll;

      while it != |contents|
        invariant it <= |contents|
        invariant Scan(contents, it, st) == Parse(contents)
        invariant forall n :: n in parseStack || n in repr ==> n == root || fresh(n)
        invariant st.Scanning? ==> Spine(parseStack, Snoc(st.below, st.top), [], repr) && parseStack[0] == root
        invariant st.Complete? ==> parseStack == [] && Represents(root, st.root, repr)
        decreases |contents| - it
      {
        var b := contents[it];
        if b == START {
          if parseStack == [] || it + 1 == |contents| {
            return InvalidFormat, {};
          }
          var at := it;
          it := it + 1;
          parseStack := OnStart(parseStack, at, contents[it], st, repr);
          st := Opened(st.below, st.top, contents[it], at);
        } else if b == END {
          if parseStack == [] {
            return InvalidFormat, {};
          }
          parseStack, repr := OnEnd(parseStack, it, st, repr);
          st := Closed(st.below, st.top, it);
        } else if b == ESCAPE {
          it := it + 1;
          if it == |contents| {
            return InvalidFormat, {};
          }
        }
        it := it + 1;
      }
      if parseStack != [] {
        return InvalidFormat, {};
      }
      r := Ok(root);
    }

    /** Copies one byte unless it escapes the next one. */
    static method CopyByte(buffer: array<byte>, copied: nat, b: byte, lastEscaped: bool, ghost s: seq<byte>)
      returns (copied': nat, lastEscaped': bool)
      requires copied < buffer.Length && Unescape(s) == (buffer[..copied], lastEscaped)
      modifies buffer
      ensures copied' <= copied + 1 && copied' <= buffer.Length && Unescape(s + [b]) == (buffer[..copied'], lastEscaped')
    {
      hide Unescape;
      UnescapeSnoc(s, b);
      copied' := copied;
      lastEscaped' := b == ESCAPE && !lastEscaped;
      if !lastEscaped' {
        ghost var kept := buffer[..copied];
        buffer[copied] := b;
        copied' := copied + 1;
        assert buffer[..copied'] == kept + [b];
      }
    }

    /** Copies the property range of a node without its escape bytes and points `props` at it. */
    method GetProps(node: Node, props: PropStream) returns (ok: bool)
      requires node.propsBegin <= node.propsEnd <= |contents|
      modifies this`propBuffer, props
      ensures ok <==> node.propsBegin != node.propsEnd
      ensures ok ==> props.Valid() && props.Rest() == Unescape(contents[node.propsBegin..node.propsEnd]).0
      ensures !ok ==> unchanged(props)
    {
      var size := node.propsEnd - node.propsBegin;
      if size == 0 {
        return false;
      }
      NothingToUnescape();
      hide Unescape;
      propBuffer := new byte[size];
      var lastEscaped := false;
      var copied := 0;
      ghost var range := contents[node.propsBegin..node.propsEnd];
      RangeEnds(range);
      for i := 0 to size
        invariant 0 <= copied <= i
        invariant fresh(propBuffer) && propBuffer.Length == size
        invariant Unescape(range[..i]) == (propBuffer[..copied], lastEscaped)
      {
        var b := contents[node.propsBegin + i];
        NextOfRange(contents, node.propsBegin, node.propsEnd, i);
        copied, lastEscaped := CopyByte(propBuffer, copied, b, lastEscaped, range[..i]);
      }
      props.Init(propBuffer[..copied]);
      ok := true;
    }
  }

  /** What a caller gets from opening a file, parsing it and reading every node's properties. */
  function Load(contents: seq<byte>, accepted: seq<byte>): Result<Tree>
    requires |accepted| == 4
  {
    if |contents| <= MINIMAL_SIZE || (contents[..4] != accepted && contents[..4] != WILDCARD) then InvalidFormat
    else
      match Parse(contents)
      case InvalidFormat => InvalidFormat
      case Ok(root) => Ok(Decode(contents, root))
  }

  /**
    A printed tree loads as itself, whatever its shape and its bytes, with one exception:
    the size check also turns away the seven-byte file of a root without properties and
    children.
   */
  lemma PrintedTreeLoads(id: seq<byte>, accepted: seq<byte>, t: Tree)
    requires |id| == |accepted| == 4
    ensures Load(id + Print(t), accepted) == Ok(t)
       <==> (id == accepted || id == WILDCARD) && !(t.props == [] && t.children.Nil?)
  {
    var c := id + Print(t);
    var l := Canonical(t);
    assert c[..4] == id && c[4..] == Text(l) + Flat(Nil);
    CanonicalStandsForTree(t);
    PrintedSize(t);
    if |c| > MINIMAL_SIZE {
      ParseComplete(c, l, Nil);
    }
  }

  lemma PrintedSize(t: Tree)
    ensures |Print(t)| >= 3
    ensures |Print(t)| == 3 <==> t.props == [] && t.children.Nil?
  {
    var l := Canonical(t);
    if t.props != [] {
      assert |Flat(l.props)| >= 1;
    }
    if t.children.Snoc? {
      assert l.children == CanonicalAll(t.children);
      assert |Text(l.children.last.node)| >= 1;
      assert |TextAll(l.children)| >= 1;
    }
  }

  /** No two trees print the same. */
  lemma PrintIsInjective(t: Tree, u: Tree)
    requires Print(t) == Print(u)
    ensures t == u
  {
    PrintedSize(t);
    PrintedSize(u);
    if |Print(t)| > 3 {
      PrintedTreeLoads(WILDCARD, WILDCARD, t);
      PrintedTreeLoads(WILDCARD, WILDCARD, u);
    } else {
      assert Print(t)[1] == t.kind && Print(u)[1] == u.kind;
    }
  }
}
