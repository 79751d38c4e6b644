/** Walking through everything inside a container. */
module Iterators {
  import opened Containers

  // ---------------------------------------------------------------------------
  // Level order: the reference
  // ---------------------------------------------------------------------------

  /** Everything in `layer` is nested `d` deep. */
  ghost predicate At(f: Forest, layer: seq<Item>, d: nat)
    requires Shaped(f)
  {
    forall x :: x in layer ==> x in f.parent && Depth(f.parent, x) == d
  }

  /** The lists of all of `layer`, one after the other. */
  ghost function Children(f: Forest, layer: seq<Item>): seq<Item>
    requires f.Keyed() && AllIn(f, layer)
  {
    if layer == [] then [] else (assert layer[0] in layer; f.list[layer[0]] + Children(f, layer[1..]))
  }

  ghost function From(parent: map<Item, Item?>, d: nat): set<Item>
    requires Acyclic(parent)
  {
    set y | y in parent && Depth(parent, y) >= d
  }

  lemma {:induction false} ListAt(f: Forest, x: Item, d: nat)
    requires Shaped(f) && x in f.parent && Depth(f.parent, x) == d
    ensures At(f, f.list[x], d + 1)
  {
    forall y | y in f.list[x]
      ensures y in f.parent && Depth(f.parent, y) == d + 1
    {
      Listed(f, y, x);
      DepthUp(f.parent, y);
    }
  }

  lemma {:induction false} ChildrenAt(f: Forest, layer: seq<Item>, d: nat)
    requires Shaped(f) && At(f, layer, d)
    ensures AllIn(f, layer) && At(f, Children(f, layer), d + 1)
  {
    if layer != [] {
      ListAt(f, layer[0], d);
      assert At(f, layer[1..], d);
      ChildrenAt(f, layer[1..], d);
    }
  }

  lemma {:induction false} FromShrinks(f: Forest, x: Item, d: nat)
    requires Shaped(f) && x in f.parent && Depth(f.parent, x) == d
    ensures From(f.parent, d + 1) < From(f.parent, d)
  {
    assert x in From(f.parent, d) && x !in From(f.parent, d + 1);
  }

  /** `layer`, then everything in it, then everything in that, and so on. */
  ghost function LevelOrder(f: Forest, layer: seq<Item>, d: nat): seq<Item>
    requires Shaped(f) && At(f, layer, d)
    decreases From(f.parent, d)
  {
    if layer == [] then []
    else (
      FromShrinks(f, layer[0], d);
      ChildrenAt(f, layer, d);
      layer + LevelOrder(f, Children(f, layer), d + 1)
    )
  }

  /** Everything inside `c`, in breadth-first order. */
  ghost function Contents(f: Forest, c: Item): seq<Item>
    requires Shaped(f) && c in f.parent
  {
    ListAt(f, c, Depth(f.parent, c));
    LevelOrder(f, f.list[c], Depth(f.parent, c) + 1)
  }

  // ---------------------------------------------------------------------------
  // Level order holds exactly what is inside, once
  // ---------------------------------------------------------------------------

  lemma {:induction false} ChildrenAre(f: Forest, layer: seq<Item>, y: Item)
    requires Shaped(f) && AllIn(f, layer)
    ensures y in Children(f, layer) <==> y in f.parent && f.parent[y] != null && f.parent[y] in layer
  {
    if layer != [] {
      assert layer == [layer[0]] + layer[1..];
      ChildrenAre(f, layer[1..], y);
      if y in f.parent {
        Listed(f, y, layer[0]);
      } else {
        ListIn(f, layer[0]);
      }
    }
  }

  /** `x` is in `layer` or inside something in `layer`. */
  ghost predicate Under(f: Forest, layer: seq<Item>, x: Item)
    requires Shaped(f) && x in f.parent
    decreases Depth(f.parent, x)
  {
    x in layer || (f.parent[x] != null && (DepthUp(f.parent, x); Under(f, layer, f.parent[x])))
  }

  lemma {:induction false} UnderStep(f: Forest, layer: seq<Item>, x: Item)
    requires Shaped(f) && AllIn(f, layer) && x in f.parent
    ensures Under(f, layer, x) <==> x in layer || Under(f, Children(f, layer), x)
    decreases Depth(f.parent, x)
  {
    ChildrenAre(f, layer, x);
    if f.parent[x] != null {
      DepthUp(f.parent, x);
      UnderStep(f, layer, f.parent[x]);
    }
  }

  lemma {:induction false} NothingUnder(f: Forest, x: Item)
    requires Shaped(f) && x in f.parent
    ensures !Under(f, [], x)
    decreases Depth(f.parent, x)
  {
    if f.parent[x] != null {
      DepthUp(f.parent, x);
      NothingUnder(f, f.parent[x]);
    }
  }

  lemma {:induction false} LevelOrderHolds(f: Forest, layer: seq<Item>, d: nat, x: Item)
    requires Shaped(f) && At(f, layer, d) && x in f.parent
    ensures x in LevelOrder(f, layer, d) <==> Under(f, layer, x)
    decreases From(f.parent, d)
  {
    if layer == [] {
      NothingUnder(f, x);
    } else {
      FromShrinks(f, layer[0], d);
      ChildrenAt(f, layer, d);
      LevelOrderHolds(f, Children(f, layer), d + 1, x);
      UnderStep(f, layer, x);
    }
  }

  lemma {:induction false} UnderList(f: Forest, c: Item, x: Item)
    requires Shaped(f) && c in f.parent && x in f.parent
    ensures Under(f, f.list[c], x) <==> x != c && Above(f.parent, c, x)
    decreases Depth(f.parent, x)
  {
    Listed(f, x, c);
    if f.parent[x] != null {
      DepthUp(f.parent, x);
      UnderList(f, c, f.parent[x]);
      if x == c && Under(f, f.list[c], f.parent[x]) {
        AboveIsShallow(f.parent, c, f.parent[x]);
      }
    }
  }

  /** The iterator's sequence contains exactly the items that have `c` above them. */
  lemma {:induction false} ContentsAreInside(f: Forest, c: Item, x: Item)
    requires Shaped(f) && c in f.parent
    ensures x in Contents(f, c) <==> x in f.parent && x != c && Above(f.parent, c, x)
  {
    var d := Depth(f.parent, c);
    ListAt(f, c, d);
    if x in f.parent {
      LevelOrderHolds(f, f.list[c], d + 1, x);
      UnderList(f, c, x);
    } else {
      LevelOrderIn(f, f.list[c], d + 1);
    }
  }

  lemma {:induction false} LevelOrderIn(f: Forest, layer: seq<Item>, d: nat)
    requires Shaped(f) && At(f, layer, d)
    ensures forall x :: x in LevelOrder(f, layer, d) ==> x in f.parent && Depth(f.parent, x) >= d
    decreases From(f.parent, d)
  {
    if layer != [] {
      FromShrinks(f, layer[0], d);
      ChildrenAt(f, layer, d);
      LevelOrderIn(f, Children(f, layer), d + 1);
    }
  }

  lemma {:induction false} JoinDistinct(a: seq<Item>, b: seq<Item>)
    requires Distinct(a) && Distinct(b) && forall x :: x in a ==> x !in b
    ensures Distinct(a + b)
  {
    forall i, j | 0 <= i < j < |a + b|
      ensures (a + b)[i] != (a + b)[j]
    {
      if i < |a| <= j {
        assert a[i] in a && b[j - |a|] in b;
      }
    }
  }

  lemma {:induction false} ChildrenDistinct(f: Forest, layer: seq<Item>)
    requires Shaped(f) && AllIn(f, layer) && Distinct(layer)
    ensures Distinct(Children(f, layer))
  {
    if layer != [] {
      var x, rest := layer[0], layer[1..];
      ChildrenDistinct(f, rest);
      assert x !in rest;
      Listed(f, x, x);
      forall y | y in f.list[x]
        ensures y !in Children(f, rest)
      {
        Listed(f, y, x);
        ChildrenAre(f, rest, y);
      }
      JoinDistinct(f.list[x], Children(f, rest));
    }
  }

  lemma {:induction false} LevelOrderDistinct(f: Forest, layer: seq<Item>, d: nat)
    requires Shaped(f) && At(f, layer, d) && Distinct(layer)
    ensures Distinct(LevelOrder(f, layer, d))
    decreases From(f.parent, d)
  {
    if layer != [] {
      FromShrinks(f, layer[0], d);
      ChildrenAt(f, layer, d);
      ChildrenDistinct(f, layer);
      LevelOrderDistinct(f, Children(f, layer), d + 1);
      LevelOrderIn(f, Children(f, layer), d + 1);
      JoinDistinct(layer, LevelOrder(f, Children(f, layer), d + 1));
    }
  }

  ghost predicate Deepening(f: Forest, s: seq<Item>)
    requires Shaped(f) && AllIn(f, s)
  {
    forall i, j :: 0 <= i < j < |s| ==> Depth(f.parent, s[i]) <= Depth(f.parent, s[j])
  }

  lemma {:induction false} LevelOrderDeepens(f: Forest, layer: seq<Item>, d: nat)
    requires Shaped(f) && At(f, layer, d)
    ensures AllIn(f, LevelOrder(f, layer, d)) && Deepening(f, LevelOrder(f, layer, d))
    decreases From(f.parent, d)
  {
    LevelOrderIn(f, layer, d);
    if layer != [] {
      FromShrinks(f, layer[0], d);
      ChildrenAt(f, layer, d);
      LevelOrderDeepens(f, Children(f, layer), d + 1);
      LevelOrderIn(f, Children(f, layer), d + 1);
    }
  }

  /** Nothing is visited twice, and nothing before something less deep. */
  lemma {:induction false} ContentsOnceByDepth(f: Forest, c: Item)
    requires Shaped(f) && c in f.parent
    ensures Distinct(Contents(f, c)) && AllIn(f, Contents(f, c)) && Deepening(f, Contents(f, c))
  {
    var d := Depth(f.parent, c);
    ListAt(f, c, d);
    Listed(f, c, c);
    LevelOrderDistinct(f, f.list[c], d + 1);
    LevelOrderDeepens(f, f.list[c], d + 1);
  }

  // ---------------------------------------------------------------------------
  // The iterator
  // ---------------------------------------------------------------------------

  /** What is still to come: the rest `a` of this level, then the next level, of which `b` is already queued. */
  ghost function ToCome(f: Forest, a: seq<Item>, b: seq<Item>, d: nat): seq<Item>
    requires Shaped(f) && At(f, a, d) && At(f, b, d + 1)
  {
    ChildrenAt(f, a, d);
    a + LevelOrder(f, b + Children(f, a), d + 1)
  }

  /** Visiting an item queues what it holds. */
  lemma {:induction false} VisitQueues(f: Forest, a: seq<Item>, b: seq<Item>, d: nat)
    requires Shaped(f) && At(f, a, d) && At(f, b, d + 1) && a != []
    ensures a[0] in f.parent && At(f, a[1..], d) && At(f, b + f.list[a[0]], d + 1)
    ensures ToCome(f, a, b, d) == [a[0]] + ToCome(f, a[1..], b + f.list[a[0]], d)
  {
    ListAt(f, a[0], d);
    ChildrenAt(f, a, d);
    ChildrenAt(f, a[1..], d);
    assert b + Children(f, a) == (b + f.list[a[0]]) + Children(f, a[1..]);
  }

  /** When a level is done the queued one takes its place. */
  lemma {:induction false} LevelDone(f: Forest, b: seq<Item>, d: nat)
    requires Shaped(f) && At(f, b, d + 1)
    ensures At(f, [], d) && ToCome(f, [], b, d) == ToCome(f, b, [], d + 1)
  {
    ChildrenAt(f, b, d + 1);
    assert b + [] == b && [] + Children(f, b) == Children(f, b);
    if b == [] {
    } else {
      FromShrinks(f, b[0], d + 1);
    }
  }

  lemma {:induction false} ChildrenJoin(f: Forest, a: seq<Item>, b: seq<Item>)
    requires f.Keyed() && AllIn(f, a) && AllIn(f, b)
    ensures AllIn(f, a + b) && Children(f, a + b) == Children(f, a) + Children(f, b)
  {
    if a == [] {
      assert a + b == b;
    } else {
      assert (a + b)[1..] == a[1..] + b;
      ChildrenJoin(f, a[1..], b);
    }
  }

  /** A queue of non-empty containers and a slot in the first of them. */
  ghost predicate Queue(f: Forest, over: seq<Item>, cur: nat)
    requires Shaped(f)
  {
    && AllIn(f, over) && (forall c :: c in over ==> c in f.parent && f.list[c] != [])
    && (over != [] ==> over[0] in f.parent && cur < |f.list[over[0]]|)
  }

  /** The items that the queue stands for. */
  ghost function Pending(f: Forest, over: seq<Item>, cur: nat): seq<Item>
    requires Shaped(f) && Queue(f, over, cur)
  {
    if over == [] then [] else f.list[over[0]][cur..] + Children(f, over[1..])
  }

  /** Queues the current item if it holds something, then goes to the next slot, or to the next container. */
  ghost function Advanced(f: Forest, over: seq<Item>, cur: nat): (seq<Item>, nat)
    requires Shaped(f) && Queue(f, over, cur) && over != []
  {
    ListIn(f, over[0]);
    var x := f.list[over[0]][cur];
    var next := if f.list[x] != [] then over + [x] else over;
    if cur + 1 < |f.list[over[0]]| then (next, cur + 1)
    else (next[1..], if next[1..] == [] then cur + 1 else 0)
  }

  lemma {:induction false} QueueKept(f: Forest, over: seq<Item>, cur: nat)
    requires Shaped(f) && Queue(f, over, cur) && over != []
    ensures var (next, slot) := Advanced(f, over, cur); Queue(f, next, slot)
  {
    ListIn(f, over[0]);
    hide Tree, Acyclic;
  }

  lemma {:induction false} ChildrenMore(f: Forest, s: seq<Item>, x: Item)
    requires f.Keyed() && AllIn(f, s) && x in f.parent
    ensures AllIn(f, s + [x]) && Children(f, s + [x]) == Children(f, s) + f.list[x]
  {
    ChildrenJoin(f, s, [x]);
    assert [x][1..] == [];
  }

  /** An advance takes the first pending item away and puts what it holds at the end. */
  lemma {:induction false} AdvanceServes(f: Forest, over: seq<Item>, cur: nat)
    requires Shaped(f) && Queue(f, over, cur) && over != []
    ensures var (next, slot) := Advanced(f, over, cur);
            var p := Pending(f, over, cur);
            && Queue(f, next, slot) && p != [] && p[0] in f.parent && p[0] in f.list && p[0] == f.list[over[0]][cur]
            && Pending(f, next, slot) == p[1..] + f.list[p[0]]
  {
    hide Tree, Acyclic, Queue, Children;
    QueueKept(f, over, cur);
    QueueHead(f, over, cur);
    var (next, slot) := Advanced(f, over, cur);
    var list, rest, x := f.list[over[0]], over[1..], f.list[over[0]][cur];
    ChildrenMore(f, rest, x);
    var more := if f.list[x] != [] then rest + [x] else rest;
    assert f.list[x] == [] ==> Children(f, rest) + f.list[x] == Children(f, rest);
    if cur + 1 < |list| {
      assert next[1..] == more;
      assert list[cur..] == [x] + list[cur + 1..];
    } else {
      assert list[cur..] == [x];
      assert next == more;
      PendingFromStart(f, next);
    }
  }

  lemma {:induction false} QueueHead(f: Forest, over: seq<Item>, cur: nat)
    requires Shaped(f) && Queue(f, over, cur) && over != []
    ensures over[0] in f.parent && over[0] in f.list && cur < |f.list[over[0]]| && AllIn(f, over[1..])
    ensures var x := f.list[over[0]][cur]; x in f.parent && x in f.list
  {
    ListIn(f, over[0]);
    hide Tree, Acyclic;
  }

  lemma {:induction false} PendingFromStart(f: Forest, over: seq<Item>)
    requires Shaped(f) && AllIn(f, over)
    ensures Children(f, over) == if over == [] then [] else f.list[over[0]][0..] + Children(f, over[1..])
  {
    hide Tree, Acyclic;
    if over != [] {
      assert over[0] in over;
    }
  }

  /** The queue is about to visit `rest`: `split` pending items are `d` deep and the others one deeper. */
  ghost predicate Going(f: Forest, over: seq<Item>, cur: nat, rest: seq<Item>, split: nat, d: nat)
    requires Shaped(f)
  {
    && Queue(f, over, cur)
    && var p := Pending(f, over, cur);
       && split <= |p| && (p != [] ==> split > 0) && At(f, p[..split], d) && At(f, p[split..], d + 1)
       && rest == ToCome(f, p[..split], p[split..], d)
  }

  lemma {:induction false} GoingIs(f: Forest, over: seq<Item>, cur: nat, rest: seq<Item>, split: nat, d: nat,
                                   a: seq<Item>, b: seq<Item>)
    requires Shaped(f) && Queue(f, over, cur) && Pending(f, over, cur) == a + b && split == |a|
    requires At(f, a, d) && At(f, b, d + 1) && rest == ToCome(f, a, b, d) && (a == [] ==> b == [])
    ensures Going(f, over, cur, rest, split, d)
  {
    assert (a + b)[..split] == a && (a + b)[split..] == b;
  }

  /** After a visit the rest of the level is pending, or the next level is. */
  lemma {:induction false} GoingNext(f: Forest, over: seq<Item>, cur: nat, rest: seq<Item>, d: nat, a: seq<Item>, b: seq<Item>)
    returns (split2: nat, d2: nat)
    requires Shaped(f) && Queue(f, over, cur) && Pending(f, over, cur) == a + b
    requires At(f, a, d) && At(f, b, d + 1) && rest == ToCome(f, a, b, d)
    ensures Going(f, over, cur, rest, split2, d2)
  {
    hide *;
    if a == [] {
      LevelDone(f, b, d);
      assert a + b == b + [];
      assert At(f, [], d + 2) by { NoneAt(f, d + 2); }
      split2, d2 := |b|, d + 1;
      GoingIs(f, over, cur, rest, split2, d2, b, []);
    } else {
      split2, d2 := |a|, d;
      GoingIs(f, over, cur, rest, split2, d2, a, b);
    }
  }

  lemma {:induction false} NoneAt(f: Forest, d: nat)
    requires Shaped(f)
    ensures At(f, [], d)
  {
  }

  lemma {:induction false} GoingParts(f: Forest, over: seq<Item>, cur: nat, rest: seq<Item>, split: nat, d: nat)
    requires Shaped(f) && Going(f, over, cur, rest, split, d) && over != []
    ensures Queue(f, over, cur) && over[0] in f.parent && f.list[over[0]] != [] && cur < |f.list[over[0]]|
    ensures var p := Pending(f, over, cur);
            0 < split <= |p| && At(f, p[..split], d) && At(f, p[split..], d + 1) && rest == ToCome(f, p[..split], p[split..], d)
  {
  }

  lemma {:induction false} SplitServed(p: seq<Item>, split: nat, more: seq<Item>)
    requires 0 < split <= |p|
    ensures p[..split] != [] && p[..split][0] == p[0] && p[1..] + more == p[..split][1..] + (p[split..] + more)
  {
  }

  /** An advance visits the first of what is to come. */
  lemma {:induction false} GoingOn(f: Forest, over: seq<Item>, cur: nat, rest: seq<Item>, split: nat, d: nat)
    returns (split2: nat, d2: nat)
    requires Shaped(f) && Going(f, over, cur, rest, split, d) && over != []
    ensures Queue(f, over, cur) && over[0] in f.parent && cur < |f.list[over[0]]|
    ensures rest != [] && rest[0] == f.list[over[0]][cur]
    ensures var (next, slot) := Advanced(f, over, cur); Going(f, next, slot, rest[1..], split2, d2)
  {
    hide *;
    GoingParts(f, over, cur, rest, split, d);
    AdvanceServes(f, over, cur);
    var p := Pending(f, over, cur);
    var (next, slot) := Advanced(f, over, cur);
    var a, b := p[..split], p[split..];
    SplitServed(p, split, f.list[p[0]]);
    VisitQueues(f, a, b, d);
    var b2 := b + f.list[a[0]];
    assert ([a[0]] + ToCome(f, a[1..], b2, d))[1..] == ToCome(f, a[1..], b2, d);
    split2, d2 := GoingNext(f, next, slot, rest[1..], d, a[1..], b2);
  }

  lemma {:induction false} QueueStarts(f: Forest, c: Item, over: seq<Item>)
    requires Shaped(f) && c in f.parent && over == if f.list[c] != [] then [c] else []
    ensures Queue(f, over, 0) && Pending(f, over, 0) == f.list[c]
  {
    if f.list[c] != [] {
      assert over[1..] == [] && f.list[c][0..] == f.list[c];
    }
  }

  lemma {:induction false} ContentsToCome(f: Forest, c: Item, s: seq<Item>, d: nat)
    requires Shaped(f) && c in f.parent && s == f.list[c] && d == Depth(f.parent, c) + 1
    ensures At(f, s, d) && At(f, [], d + 1) && Contents(f, c) == ToCome(f, s, [], d)
  {
    ListAt(f, c, d - 1);
    ChildrenAt(f, s, d);
    assert s + [] == s && [] + Children(f, s) == Children(f, s);
    if s != [] {
      FromShrinks(f, s[0], d);
    }
  }

  lemma {:induction false} GoingStarts(f: Forest, c: Item, over: seq<Item>)
    requires Shaped(f) && c in f.parent && over == if f.list[c] != [] then [c] else []
    ensures Going(f, over, 0, Contents(f, c), |f.list[c]|, Depth(f.parent, c) + 1)
  {
    var d, s := Depth(f.parent, c) + 1, f.list[c];
    hide *;
    QueueStarts(f, c, over);
    ContentsToCome(f, c, s, d);
    assert s + [] == s;
    GoingIs(f, over, 0, Contents(f, c), |s|, d, s, []);
  }

  lemma {:induction false} GoingEnds(f: Forest, over: seq<Item>, cur: nat, rest: seq<Item>, split: nat, d: nat)
    requires Shaped(f) && Going(f, over, cur, rest, split, d)
    ensures over == [] <==> rest == []
  {
    if over == [] {
    } else {
      var s2, d2 := GoingOn(f, over, cur, rest, split, d);
    }
  }

  /** Visits what a container holds, breadth first, with a queue of containers. */
  class ContainerIterator {
    var over: seq<Item>
    var cur: nat
    ghost var rest: seq<Item>
    ghost var split: nat
    ghost var depth: nat

    ghost predicate Valid(f: Forest)
      reads this
    {
      Shaped(f) && Going(f, over, cur, rest, split, depth)
    }

    lemma {:induction false} Opened(f: Forest)
      requires Valid(f)
      ensures Shaped(f) && Going(f, over, cur, rest, split, depth)
    {
    }

    /** Starts at the first thing in `c`. */
    constructor (c: Item, ghost w: set<Item>)
      requires c in w && Shaped(Item.View(w)) && c in Item.View(w).parent
      ensures Valid(Item.View(w)) && rest == Contents(Item.View(w), c)
    {
      hide *;
      ghost var f := Item.View(w);
      ShapedParts(f);
      c.Seen(w);
      over := if c.itemlist != [] then [c] else [];
      cur := 0;
      rest, split, depth := Contents(f, c), |f.list[c]|, Depth(f.parent, c) + 1;
      new;
      GoingStarts(f, c, over);
      ValidIs(f);
    }

    method HasNext(ghost f: Forest) returns (b: bool)
      requires Valid(f)
      ensures b <==> rest != []
    {
      GoingEnds(f, over, cur, rest, split, depth);
      return over != [];
    }

    method Current(ghost w: set<Item>) returns (x: Item)
      requires Valid(Item.View(w)) && rest != []
      ensures x == rest[0]
    {
      hide *;
      ghost var f := Item.View(w);
      Opened(f);
      GoingEnds(f, over, cur, rest, split, depth);
      ghost var s2, d2 := GoingOn(f, over, cur, rest, split, depth);
      Item.Member(w, over[0]);
      over[0].Seen(w);
      return over[0].itemlist[cur];
    }

    method Advance(ghost w: set<Item>)
      requires Valid(Item.View(w)) && rest != []
      modifies this
      ensures Valid(Item.View(w)) && rest == old(rest[1..])
    {
      hide *;
      ghost var f := Item.View(w);
      Opened(f);
      GoingEnds(f, over, cur, rest, split, depth);
      ghost var s2, d2 := GoingOn(f, over, cur, rest, split, depth);
      GoToNext(w);
      rest, split, depth := rest[1..], s2, d2;
      ValidIs(f);
    }

    /** Queues the current item if it holds something and leaves it. */
    method GoToNext(ghost w: set<Item>)
      requires Shaped(Item.View(w)) && Queue(Item.View(w), over, cur) && over != []
      modifies this`over, this`cur
      ensures over == Advanced(Item.View(w), old(over), old(cur)).0 && cur == Advanced(Item.View(w), old(over), old(cur)).1
    {
      ghost var f := Item.View(w);
      hide *;
      AdvancedIs(f, over, cur);
      Item.Member(w, over[0]);
      over[0].Seen(w);
      var list := over[0].itemlist;
      var x := list[cur];
      Item.Member(w, x);
      x.Seen(w);
      if x.isContainer && x.itemlist != [] {
        over := over + [x];
      }
      cur := cur + 1;
      if cur == |list| {
        over := over[1..];
        if over != [] {
          cur := 0;
        }
      }
    }

    lemma {:induction false} ValidIs(f: Forest)
      requires Shaped(f) && Going(f, over, cur, rest, split, depth)
      ensures Valid(f)
    {
    }
  }

  lemma {:induction false} AdvancedIs(f: Forest, over: seq<Item>, cur: nat)
    requires Shaped(f) && Queue(f, over, cur) && over != []
    ensures over[0] in f.parent && cur < |f.list[over[0]]| && f.list[over[0]][cur] in f.parent
    ensures var x := f.list[over[0]][cur];
            var next := if x.isContainer && f.list[x] != [] then over + [x] else over;
            Advanced(f, over, cur) == if cur + 1 < |f.list[over[0]]| then (next, cur + 1)
                                      else (next[1..], if next[1..] == [] then cur + 1 else 0)
  {
    ListIn(f, over[0]);
  }

  // ---------------------------------------------------------------------------
  // Counting and searching
  // ---------------------------------------------------------------------------

  /** Everything that has `c` above it. */
  ghost function Descendants(f: Forest, c: Item): set<Item>
    requires Shaped(f)
  {
    if c in f.parent then set x | x in f.parent && x != c && Above(f.parent, c, x) else {}
  }

  lemma {:induction false} DistinctSize(s: seq<Item>, all: set<Item>)
    requires Distinct(s) && forall x :: x in s <==> x in all
    ensures |all| == |s|
  {
    if s != [] {
      var n := |s| - 1;
      var x := s[n];
      assert s == s[..n] + [x];
      assert x !in s[..n];
      DistinctSize(s[..n], all - {x});
    }
  }

  lemma {:induction false} ContentsSize(f: Forest, c: Item)
    requires Shaped(f) && c in f.parent
    ensures |Contents(f, c)| == |Descendants(f, c)|
  {
    ContentsOnceByDepth(f, c);
    forall x
      ensures x in Contents(f, c) <==> x in Descendants(f, c)
    {
      ContentsAreInside(f, c, x);
    }
    DistinctSize(Contents(f, c), Descendants(f, c));
  }

  lemma {:induction false} InDescendants(f: Forest, c: Item, x: Item)
    requires Shaped(f) && c in f.parent
    ensures x in Contents(f, c) <==> x in Descendants(f, c)
  {
    ContentsAreInside(f, c, x);
  }

  /** How many things are inside `c`, at any depth. */
  method GetItemHoldingCount(c: Item, ghost w: set<Item>) returns (counter: u32)
    requires c in w && Shaped(Item.View(w))
    ensures counter == Wrap(|Descendants(Item.View(w), c)|)
  {
    hide *;
    ghost var f := Item.View(w);
    Item.Member(w, c);
    ContentsSize(f, c);
    var it := new ContainerIterator(c, w);
    counter := 0;
    ghost var n := 0;
    assert Wrap(0) == 0 by { WrapZero(); }
    var more := it.HasNext(f);
    while more
      invariant fresh(it) && it.Valid(f) && f == Item.View(w) && (more <==> it.rest != [])
      invariant n + |it.rest| == |Contents(f, c)| && counter == Wrap(n)
      decreases |it.rest|
    {
      it.Advance(w);
      WrapNext(n);
      counter := Wrap(counter as int + 1);
      n := n + 1;
      more := it.HasNext(f);
    }
  }

  lemma {:induction false} WrapZero()
    ensures Wrap(0) == 0
  {
  }

  lemma {:induction false} WrapNext(n: int)
    ensures Wrap(Wrap(n) as int + 1) == Wrap(n + 1)
  {
    WrapTurns(n + 1, Turns(n));
  }

  /** Whether `x` is inside `c`, at any depth. */
  method IsHoldingItem(c: Item, x: Item, ghost w: set<Item>) returns (b: bool)
    requires c in w && Shaped(Item.View(w))
    ensures b <==> x in Descendants(Item.View(w), c)
  {
    hide *;
    ghost var f := Item.View(w);
    Item.Member(w, c);
    InDescendants(f, c, x);
    var it := new ContainerIterator(c, w);
    var more := it.HasNext(f);
    while more
      invariant fresh(it) && it.Valid(f) && f == Item.View(w) && (more <==> it.rest != [])
      invariant x in Contents(f, c) <==> x in it.rest
      decreases |it.rest|
    {
      var y := it.Current(w);
      if y == x {
        return true;
      }
      assert it.rest == [y] + it.rest[1..];
      it.Advance(w);
      more := it.HasNext(f);
    }
    return false;
  }

  /** Everything inside `c`, in the order of the iterator. */
  method GetItems(c: Item, ghost w: set<Item>) returns (items: seq<Item>)
    requires c in w && Shaped(Item.View(w)) && c in Item.View(w).parent
    ensures items == Contents(Item.View(w), c)
  {
    hide *;
    ghost var f := Item.View(w);
    var it := new ContainerIterator(c, w);
    items := [];
    var more := it.HasNext(f);
    while more
      invariant fresh(it) && it.Valid(f) && f == Item.View(w) && (more <==> it.rest != [])
      invariant items + it.rest == Contents(f, c)
      decreases |it.rest|
    {
      var y := it.Current(w);
      items := items + [y];
      it.Advance(w);
      more := it.HasNext(f);
    }
  }
}
