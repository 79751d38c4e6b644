/** Items and containers: the objects, the state of all of them as one value, and what each operation does to it. */
module Containers {
  import opened Arithmetic

  type u16 = x: int | 0 <= x < 0x1_0000
  type u32 = x: int | 0 <= x < 0x1_0000_0000

  /** Unsigned 32-bit arithmetic, one turn at a time: the value in range that `a` wraps around to. */
  function Wrap(a: int): u32
    decreases if a < 0 then 0x1_0000_0000 - a else a
  {
    if a < 0 then Wrap(a + 0x1_0000_0000)
    else if a < 0x1_0000_0000 then a
    else Wrap(a - 0x1_0000_0000)
  }

  /** How many times 2^32 is added to bring `a` into range. */
  ghost function Turns(a: int): (k: int)
    ensures Wrap(a) == a + k * 0x1_0000_0000
    decreases if a < 0 then 0x1_0000_0000 - a else a
  {
    if a < 0 then Turns(a + 0x1_0000_0000) + 1
    else if a < 0x1_0000_0000 then 0
    else Turns(a - 0x1_0000_0000) - 1
  }

  lemma {:induction false} WrapTurns(a: int, k: int)
    ensures Wrap(a + k * 0x1_0000_0000) == Wrap(a)
    decreases if k < 0 then -k else k
  {
    if k > 0 {
      WrapTurns(a, k - 1);
      WrapOnce(a + (k - 1) * 0x1_0000_0000);
    } else if k < 0 {
      WrapTurns(a, k + 1);
      WrapOnce(a + k * 0x1_0000_0000);
    }
  }

  lemma {:induction false} WrapOnce(a: int)
    ensures Wrap(a + 0x1_0000_0000) == Wrap(a)
  {
  }

  lemma {:induction false} WrapIsRemainder(a: int)
    ensures Wrap(a) == Unsigned(a)
  {
    var k := Turns(a);
    hide Wrap, Turns;
  }

  /** Everything about an item except its count and its place: items are equal if their kinds are. */
  datatype Kind = Kind(id: nat, attributes: nat, stackable: bool, pickupable: bool, moveable: bool, weight: u32)

  /** An item; a container is an item that can hold others. */
  class Item {
    const isContainer: bool
    const maxSize: u16
    const unlocked: bool
    var kind: Kind
    var count: u16
    var parent: Item?
    var itemlist: seq<Item>
    var totalWeight: u32

    constructor (kind: Kind, count: u16, isContainer: bool, maxSize: u16, unlocked: bool)
      ensures this.kind == kind && this.count == count && parent == null && itemlist == [] && totalWeight == 0
      ensures this.isContainer == isContainer && this.maxSize == maxSize && this.unlocked == unlocked
    {
      this.kind, this.count, this.isContainer, this.maxSize, this.unlocked := kind, count, isContainer, maxSize, unlocked;
      parent, itemlist, totalWeight := null, [], 0;
    }

    static ghost function Parents(w: set<Item>): map<Item, Item?> reads w`parent { map x | x in w :: x.parent }

    static ghost function Lists(w: set<Item>): map<Item, seq<Item>> reads w`itemlist { map x | x in w :: x.itemlist }

    static ghost function Totals(w: set<Item>): map<Item, u32> reads w`totalWeight { map x | x in w :: x.totalWeight }

    static ghost function Kinds(w: set<Item>): map<Item, Kind> reads w`kind { map x | x in w :: x.kind }

    static ghost function Counts(w: set<Item>): map<Item, u16> reads w`count { map x | x in w :: x.count }

    /** The state of all items in `w`. */
    static ghost function View(w: set<Item>): (f: Forest)
      reads w
      ensures f.Keyed()
    {
      Forest(Parents(w), Lists(w), Totals(w), Kinds(w), Counts(w))
    }

    static lemma {:induction false} Members(w: set<Item>)
      ensures View(w).parent.Keys == w
    {
    }

    static lemma {:induction false} Member(w: set<Item>, x: Item)
      ensures x in View(w).parent <==> x in w
    {
    }

    /** The view shows the fields. */
    lemma {:induction false} Seen(w: set<Item>)
      requires this in w
      ensures var f := View(w);
              && this in f.parent && f.parent[this] == parent && f.list[this] == itemlist && f.total[this] == totalWeight
              && f.kind[this] == kind && f.count[this] == count
    {
    }

    method SetTotal(total: u32, ghost w: set<Item>)
      requires this in w
      modifies this`totalWeight
      ensures View(w) == WithTotal(old(View(w)), this, total)
    {
      totalWeight := total;
      assert Totals(w) == old(Totals(w))[this := total];
      hide Totals, Kinds, Counts, Lists, Parents;
    }

    method RaiseTotal(diff: int, ghost w: set<Item>)
      requires this in w
      modifies this`totalWeight
      ensures View(w) == Raised(old(View(w)), this, diff)
    {
      hide *;
      ghost var f := View(w);
      Seen(w);
      var total := Wrap(totalWeight as int + diff);
      SetTotal(total, w);
      RaisedIs(f, this, diff);
    }

    method UpdateItemWeight(diff: int, ghost w: set<Item>)
      requires this in w && Acyclic(View(w).parent)
      modifies w
      ensures View(w) == WeightUpdated(old(View(w)), this, diff)
      decreases Depth(View(w).parent, this)
    {
      ghost var f := View(w);
      Seen(w);
      RaiseTotal(diff, w);
      hide View;
      if parent != null {
        DepthUp(f.parent, this);
        hide Acyclic, Depth;
        parent.UpdateItemWeight(diff, w);
      }
    }

    method GetWeight(ghost w: set<Item>) returns (weight: u32)
      requires this in w
      ensures weight == Weight(View(w), this)
      ensures !isContainer && !kind.stackable ==> weight == kind.weight
      ensures !isContainer && kind.stackable && count == 0 ==> weight == kind.weight
      ensures !isContainer && kind.stackable && 0 < kind.weight * count < 0x1_0000_0000 ==> weight == kind.weight * count
    {
      weight := OwnWeight(kind, count);
      if isContainer {
        weight := Wrap(weight as int + totalWeight as int);
      }
    }

    method SetParent(p: Item?, ghost w: set<Item>)
      requires this in w
      modifies this`parent
      ensures View(w) == WithParent(old(View(w)), this, p)
    {
      parent := p;
      assert Parents(w) == old(Parents(w))[this := p];
      hide Totals, Kinds, Counts, Lists, Parents;
    }

    method SetItems(s: seq<Item>, ghost w: set<Item>)
      requires this in w
      modifies this`itemlist
      ensures View(w) == WithList(old(View(w)), this, s)
    {
      itemlist := s;
      assert Lists(w) == old(Lists(w))[this := s];
      hide Totals, Kinds, Counts, Lists, Parents;
    }

    /** Becomes an item of another kind and count. */
    method SetKindAndCount(k: Kind, n: u16, ghost w: set<Item>)
      requires this in w
      modifies this`kind, this`count
      ensures View(w) == Changed(old(View(w)), this, k, n)
    {
      hide Totals, Kinds, Counts, Lists, Parents;
      SetKind(k, w);
      SetCount(n, w);
    }

    method SetKind(k: Kind, ghost w: set<Item>)
      requires this in w
      modifies this`kind
      ensures kind == k && Kinds(w) == old(Kinds(w))[this := k]
    {
      kind := k;
    }

    method SetCount(n: u16, ghost w: set<Item>)
      requires this in w
      modifies this`count
      ensures count == n && Counts(w) == old(Counts(w))[this := n]
    {
      count := n;
    }

    /** A new item like this one, in no container. */
    method Clone(n: u16, ghost w: set<Item>) returns (y: Item)
      requires this in w && !isContainer
      ensures fresh(y) && y.isContainer == isContainer
      ensures View(w) == old(View(w)) && View(w + {y}) == Enter(old(View(w)), y, kind, n)
    {
      y := new Item(kind, n, isContainer, maxSize, unlocked);
      ghost var v := w + {y};
      assert Parents(v) == old(Parents(w))[y := null] && Lists(v) == old(Lists(w))[y := []];
      assert Totals(v) == old(Totals(w))[y := 0];
      assert Kinds(v) == old(Kinds(w))[y := kind] && Counts(v) == old(Counts(w))[y := n];
      hide Totals, Kinds, Counts, Lists, Parents;
    }

    method GetThingIndex(x: Item) returns (k: int)
      ensures k == Index(itemlist, x)
    {
      k := 0;
      while k < |itemlist|
        invariant 0 <= k <= |itemlist| && x !in itemlist[..k]
      {
        if itemlist[k] == x {
          IndexIs(itemlist, x, k);
          return;
        }
        k := k + 1;
      }
      return -1;
    }

    method AddThing(index: int, x: Item, ghost w: set<Item>)
      requires this in w && x in w && CanLink(View(w), this, x)
      modifies w
      ensures View(w) == ThingAdded(old(View(w)), this, index, x)
    {
      if index >= maxSize as int {
        return;
      }
      InternalAddThing(x, w);
    }

    method InternalAddThing(x: Item, ghost w: set<Item>)
      requires this in w && x in w && CanLink(View(w), this, x)
      modifies w
      ensures View(w) == ThingAddedInternally(old(View(w)), this, x)
    {
      Seen(w);
      ghost var f, s := View(w), [x] + itemlist;
      hide *;
      x.SetParent(this, w);
      SetItems([x] + itemlist, w);
      var weight := x.GetWeight(w);
      AttachIs(f, this, x, s, View(w));
      UpdateItemWeight(weight, w);
      AddedInternallyIs(f, this, x);
    }

    method AddItemBack(x: Item, ghost w: set<Item>)
      requires this in w && x in w && CanLink(View(w), this, x)
      modifies w
      ensures View(w) == ItemAddedBack(old(View(w)), this, x)
    {
      Seen(w);
      ghost var f, s := View(w), itemlist + [x];
      hide *;
      SetItems(itemlist + [x], w);
      x.SetParent(this, w);
      var weight := x.GetWeight(w);
      AttachIs(f, this, x, s, View(w));
      UpdateItemWeight(weight, w);
      AddedBackIs(f, this, x);
    }

    /** Changes a listed item and lets the totals follow. */
    method ChangeItem(x: Item, k: Kind, n: u16, ghost w: set<Item>)
      requires this in w && x in w && Shaped(View(w)) && this in View(w).parent && x in View(w).parent
      modifies w
      ensures View(w) == Change(old(View(w)), this, x, k, n)
    {
      hide *;
      ghost var f := View(w);
      var oldWeight := x.GetWeight(w);
      x.SetKindAndCount(k, n, w);
      var newWeight := x.GetWeight(w);
      ChangeIs(f, this, x, k, n, View(w));
      UpdateItemWeight(newWeight as int - oldWeight as int, w);
    }

    /** Lowers the totals and takes the item at slot `k` out. */
    method TakeOut(k: nat, x: Item, ghost w: set<Item>)
      requires this in w && x in w && Shaped(View(w)) && this in View(w).parent && x in View(w).parent
      requires k < |itemlist| && View(w).list[this] == itemlist
      modifies w
      ensures View(w) == Detach(old(View(w)), this, x, old(itemlist[..k] + itemlist[k + 1..]))
    {
      hide *;
      ghost var f, s := View(w), itemlist;
      ShapedParts(f);
      var oldWeight := x.GetWeight(w);
      UpdateItemWeight(-(oldWeight as int), w);
      ghost var g := View(w);
      Seen(w);
      DetachIs(f, this, x, s[..k] + s[k + 1..]);
      x.SetParent(null, w);
      SetItems(itemlist[..k] + itemlist[k + 1..], w);
    }

    method UpdateThing(x: Item, k: Kind, n: u16, ghost w: set<Item>)
      requires this in w && x in w && Shaped(View(w))
      modifies w
      ensures View(w) == ThingUpdated(old(View(w)), this, x, k, n)
    {
      Seen(w);
      hide View, Acyclic, Tree, Change;
      var index := GetThingIndex(x);
      if index != -1 {
        ChangeItem(x, k, n, w);
      }
    }

    /** Gives slot `k` to `x` and lets the totals follow. */
    method Exchange(k: nat, x: Item, r: Item, ghost w: set<Item>)
      requires this in w && x in w && r in w && CanLink(View(w), this, x)
      requires k < |itemlist| && r == itemlist[k] && View(w).list[this] == itemlist
      modifies w
      ensures View(w) == Swap(old(View(w)), this, k, x)
    {
      hide *;
      ghost var f := View(w);
      Seen(w);
      assert r in itemlist;
      SwapReady(f, this, x, r);
      var oldWeight := r.GetWeight(w);
      SetItems(itemlist[k := x], w);
      x.SetParent(this, w);
      var newWeight := x.GetWeight(w);
      ghost var h := View(w);
      SwapIs(f, this, k, x, r, h);
      UpdateItemWeight(newWeight as int - oldWeight as int, w);
      r.SetParent(null, w);
    }

    method ReplaceThing(k: nat, x: Item, ghost w: set<Item>)
      requires this in w && x in w && CanLink(View(w), this, x)
      modifies w
      ensures View(w) == ThingReplaced(old(View(w)), this, k, x)
    {
      Seen(w);
      if k < |itemlist| {
        SwapReady(View(w), this, x, itemlist[k]);
        hide View, Acyclic, Tree, Above, Swap;
        Exchange(k, x, itemlist[k], w);
      }
    }

    method RemoveThing(x: Item, n: u32, ghost w: set<Item>)
      requires this in w && x in w && Shaped(View(w))
      modifies w
      ensures View(w) == ThingRemoved(old(View(w)), this, x, n)
    {
      Seen(w);
      x.Seen(w);
      ghost var f := View(w);
      hide *;
      RemovedIs(f, this, x, n);
      var index := GetThingIndex(x);
      if index == -1 {
        return;
      }
      if x.kind.stackable && n != x.count {
        ChangeItem(x, x.kind, LeftOf(x.count, n), w);
      } else {
        TakeOut(index, x, w);
      }
    }

    /** Walks up from this container looking for `x`. */
    method IsUnder(x: Item, ghost w: set<Item>) returns (b: bool)
      requires this in w && x in w && Acyclic(View(w).parent)
      ensures b <==> Above(View(w).parent, x, this)
    {
      ghost var p := View(w).parent;
      var cylinder: Item? := this;
      while cylinder != null
        invariant cylinder != null ==> cylinder in w
        invariant Above(p, x, this) <==> cylinder != null && Above(p, x, cylinder)
        decreases if cylinder == null then 0 else Depth(p, cylinder) + 1
      {
        cylinder.Seen(w);
        if cylinder == x {
          return true;
        }
        if cylinder.parent != null {
          DepthUp(p, cylinder);
        }
        cylinder := cylinder.parent;
      }
      return false;
    }

    method QueryAdd(index: int, x: Item, flags: Flags, ghost w: set<Item>) returns (r: ReturnValue)
      requires this in w && x in w && Shaped(View(w))
      ensures r == AddAnswer(View(w), this, index, x, flags)
    {
      if flags.childIsOwner {
        return NoError;
      }
      if !unlocked {
        return NotPossible;
      }
      if !x.kind.pickupable {
        return CannotPickup;
      }
      var cyclic := IsUnder(x, w);
      if cyclic {
        return ThisIsImpossible;
      }
      if !flags.nolimit && index == INDEX_WHEREEVER && |itemlist| >= maxSize as int {
        return ContainerNotEnoughRoom;
      }
      return NoError;
    }
  }

  /** The fields of all items at one moment. */
  datatype Forest = Forest(parent: map<Item, Item?>, list: map<Item, seq<Item>>, total: map<Item, u32>,
                           kind: map<Item, Kind>, count: map<Item, u16>)
  {
    ghost predicate Keyed() {
      forall x {:trigger x in parent} :: x in parent ==> x in list && x in total && x in kind && x in count
    }
  }

  function WithParent(f: Forest, x: Item, p: Item?): Forest { f.(parent := f.parent[x := p]) }

  function WithTotal(f: Forest, x: Item, total: u32): Forest { f.(total := f.total[x := total]) }

  function WithList(f: Forest, c: Item, s: seq<Item>): Forest { f.(list := f.list[c := s]) }

  // ---------------------------------------------------------------------------
  // Upward walks
  // ---------------------------------------------------------------------------

  /** The upward walk from `x` ends within `n` steps. */
  ghost predicate Rooted(parent: map<Item, Item?>, x: Item, n: nat)
    decreases n
  {
    x in parent && (parent[x] == null || (n > 0 && Rooted(parent, parent[x], n - 1)))
  }

  ghost predicate Grounded(parent: map<Item, Item?>, x: Item) { exists n: nat :: Rooted(parent, x, n) }

  /** Every upward walk ends. */
  ghost predicate Acyclic(parent: map<Item, Item?>) {
    forall x {:trigger Grounded(parent, x)} :: x in parent ==> Grounded(parent, x)
  }

  ghost function Steps(parent: map<Item, Item?>, x: Item, n: nat): nat
    requires Rooted(parent, x, n)
    decreases n
  {
    if parent[x] == null then 0 else 1 + Steps(parent, parent[x], n - 1)
  }

  lemma {:induction false} StepsUnique(parent: map<Item, Item?>, x: Item, n: nat, m: nat)
    requires Rooted(parent, x, n) && Rooted(parent, x, m)
    ensures Steps(parent, x, n) == Steps(parent, x, m)
    decreases n
  {
    if parent[x] != null {
      StepsUnique(parent, parent[x], n - 1, m - 1);
    }
  }

  lemma {:induction false} RootedLonger(parent: map<Item, Item?>, x: Item, n: nat, m: nat)
    requires Rooted(parent, x, n) && n <= m
    ensures Rooted(parent, x, m)
    decreases n
  {
    if parent[x] != null {
      RootedLonger(parent, parent[x], n - 1, m - 1);
    }
  }

  /** How many containers `x` is nested in. */
  ghost function Depth(parent: map<Item, Item?>, x: Item): nat
    requires Acyclic(parent) && x in parent
  {
    assert Grounded(parent, x);
    var n: nat :| Rooted(parent, x, n);
    Steps(parent, x, n)
  }

  lemma {:induction false} DepthIs(parent: map<Item, Item?>, x: Item, n: nat)
    requires Acyclic(parent) && Rooted(parent, x, n)
    ensures Depth(parent, x) == Steps(parent, x, n)
  {
    assert Grounded(parent, x);
    var m: nat :| Rooted(parent, x, m) && Depth(parent, x) == Steps(parent, x, m);
    StepsUnique(parent, x, n, m);
  }

  lemma {:induction false} DepthUp(parent: map<Item, Item?>, x: Item)
    requires Acyclic(parent) && x in parent && parent[x] != null
    ensures parent[x] in parent && Depth(parent, x) == Depth(parent, parent[x]) + 1
  {
    assert Grounded(parent, x);
    var n: nat :| Rooted(parent, x, n);
    DepthIs(parent, x, n);
    DepthIs(parent, parent[x], n - 1);
  }

  /** `a` is `x` or a container above `x`. */
  ghost predicate Above(parent: map<Item, Item?>, a: Item, x: Item)
    requires Acyclic(parent) && x in parent
    decreases Depth(parent, x)
  {
    a == x || (parent[x] != null && (DepthUp(parent, x); Above(parent, a, parent[x])))
  }

  /** Hanging `x` under `c` closes no cycle if `x` is not above `c`. */
  lemma {:induction false} AttachAcyclic(parent: map<Item, Item?>, x: Item, c: Item)
    requires Acyclic(parent) && x in parent && c in parent && !Above(parent, x, c)
    ensures Acyclic(parent[x := c])
  {
    var p := parent[x := c];
    assert Grounded(parent, c);
    var n: nat :| Rooted(parent, c, n);
    ChainKept(parent, x, c, c, n);
    forall y | y in p
      ensures Grounded(p, y)
    {
      assert Grounded(parent, y);
      var k: nat :| Rooted(parent, y, k);
      ChainJoins(parent, x, c, n, y, k);
    }
  }

  lemma {:induction false} AboveStays(parent: map<Item, Item?>, x: Item, c: Item, y: Item)
    requires Acyclic(parent) && Acyclic(parent[x := c]) && x in parent && c in parent && y in parent && Above(parent, x, y)
    ensures Above(parent[x := c], x, y)
    decreases Depth(parent, y)
  {
    if y != x {
      DepthUp(parent, y);
      AboveStays(parent, x, c, parent[y]);
    }
  }

  /** Hanging `x` under `c` closes a cycle exactly if `x` is `c` or above it. */
  lemma {:induction false} CycleIff(parent: map<Item, Item?>, x: Item, c: Item)
    requires Acyclic(parent) && x in parent && c in parent
    ensures Acyclic(parent[x := c]) <==> !Above(parent, x, c)
  {
    if !Above(parent, x, c) {
      AttachAcyclic(parent, x, c);
    } else if Acyclic(parent[x := c]) {
      AboveStays(parent, x, c, c);
      DepthUp(parent[x := c], x);
      AboveIsShallow(parent[x := c], x, c);
      assert false;
    }
  }

  /** A chain that `x` is not on stays as it is when `x` moves. */
  lemma {:induction false} ChainKept(parent: map<Item, Item?>, x: Item, c: Item, y: Item, n: nat)
    requires Acyclic(parent) && x in parent && Rooted(parent, y, n) && !Above(parent, x, y)
    ensures Rooted(parent[x := c], y, n)
    decreases n
  {
    if parent[y] != null {
      ChainKept(parent, x, c, parent[y], n - 1);
    }
  }

  /** A chain through `x` continues along the chain of `c`. */
  lemma {:induction false} ChainJoins(parent: map<Item, Item?>, x: Item, c: Item, n: nat, y: Item, k: nat)
    requires x in parent && Rooted(parent, y, k) && Rooted(parent[x := c], c, n)
    ensures Rooted(parent[x := c], y, k + n + 1)
    decreases k
  {
    if y == x {
      RootedLonger(parent[x := c], c, n, k + n);
    } else if parent[y] != null {
      ChainJoins(parent, x, c, n, parent[y], k - 1);
    }
  }

  lemma {:induction false} DetachAcyclic(parent: map<Item, Item?>, x: Item)
    requires Acyclic(parent) && x in parent
    ensures Acyclic(parent[x := null])
  {
    var p := parent[x := null];
    forall y | y in p
      ensures Grounded(p, y)
    {
      assert Grounded(parent, y);
      var k: nat :| Rooted(parent, y, k);
      ChainCut(parent, x, y, k);
    }
  }

  lemma {:induction false} ChainCut(parent: map<Item, Item?>, x: Item, y: Item, k: nat)
    requires x in parent && Rooted(parent, y, k)
    ensures Rooted(parent[x := null], y, k)
    decreases k
  {
    if y != x && parent[y] != null {
      ChainCut(parent, x, parent[y], k - 1);
    }
  }

  // ---------------------------------------------------------------------------
  // Shape and weights
  // ---------------------------------------------------------------------------

  ghost predicate Distinct(s: seq<Item>) { forall a, b :: 0 <= a < b < |s| ==> s[a] != s[b] }

  /** Parents and lists tell the same story: an item is in one list, once, and that is its parent's. */
  ghost predicate Tree(parent: map<Item, Item?>, list: map<Item, seq<Item>>) {
    && (forall x :: x in parent ==> x in list)
    && (forall x {:trigger parent[x]} :: x in parent && parent[x] != null ==> parent[x] in parent && x in list[parent[x]])
    && (forall c, x {:trigger x in list[c]} :: c in parent && x in list[c] ==> x in parent && parent[x] == c)
    && (forall c {:trigger list[c]} :: c in parent ==> Distinct(list[c]) && (list[c] != [] ==> c.isContainer))
  }

  ghost predicate Shaped(f: Forest) { f.Keyed() && Tree(f.parent, f.list) && Acyclic(f.parent) }

  lemma {:induction false} ShapedParts(f: Forest)
    requires Shaped(f)
    ensures f.Keyed() && Tree(f.parent, f.list) && Acyclic(f.parent)
  {
  }

  /** The weight of an item without its contents. */
  function OwnWeight(k: Kind, count: u16): u32 {
    if k.stackable then Wrap(k.weight * (if count > 1 then count else 1)) else k.weight
  }

  /** The weight an item reports: a container adds its cached total. */
  function Weight(f: Forest, x: Item): u32
    requires f.Keyed() && x in f.parent
  {
    var own := OwnWeight(f.kind[x], f.count[x]);
    if x.isContainer then Wrap(own as int + f.total[x] as int) else own
  }

  ghost predicate AllIn(f: Forest, s: seq<Item>) { forall x :: x in s ==> x in f.parent }

  ghost function Sum(f: Forest, s: seq<Item>): int
    requires f.Keyed() && AllIn(f, s)
  {
    if s == [] then 0 else Sum(f, s[..|s| - 1]) + Weight(f, s[|s| - 1])
  }

  lemma {:induction false} ListIn(f: Forest, c: Item)
    requires f.Keyed() && Tree(f.parent, f.list) && c in f.parent
    ensures AllIn(f, f.list[c])
  {
  }

  /** What the cached total of `c` lacks, modulo 2^32. */
  ghost function Deficit(f: Forest, c: Item): u32
    requires f.Keyed() && Tree(f.parent, f.list) && c in f.parent
  {
    ListIn(f, c);
    Wrap(Sum(f, f.list[c]) - f.total[c])
  }

  /** Every cached total is the sum of what the listed items report. */
  ghost predicate WeightsOk(f: Forest)
    requires f.Keyed() && Tree(f.parent, f.list)
  {
    forall c {:trigger Deficit(f, c)} :: c in f.parent ==> Deficit(f, c) == 0
  }

  ghost predicate Sound(f: Forest) { Shaped(f) && WeightsOk(f) }

  // ---------------------------------------------------------------------------
  // Sums
  // ---------------------------------------------------------------------------

  lemma {:induction false} SumSame(f: Forest, g: Forest, s: seq<Item>)
    requires f.Keyed() && g.Keyed() && AllIn(f, s) && AllIn(g, s)
    requires forall x :: x in s ==> Weight(g, x) == Weight(f, x)
    ensures Sum(g, s) == Sum(f, s)
  {
    if s != [] {
      SumSame(f, g, s[..|s| - 1]);
    }
  }

  lemma {:induction false} SumSplit(f: Forest, a: seq<Item>, b: seq<Item>)
    requires f.Keyed() && AllIn(f, a) && AllIn(f, b)
    ensures AllIn(f, a + b) && Sum(f, a + b) == Sum(f, a) + Sum(f, b)
  {
    if b == [] {
      assert a + b == a;
    } else {
      SumSplit(f, a, b[..|b| - 1]);
      assert (a + b)[..|a + b| - 1] == a + b[..|b| - 1];
    }
  }

  lemma {:induction false} SumOne(f: Forest, x: Item)
    requires f.Keyed() && x in f.parent
    ensures AllIn(f, [x]) && Sum(f, [x]) == Weight(f, x)
  {
    assert [x][..0] == [];
  }

  /** A sum around one of its elements. */
  lemma {:induction false} SumAround(f: Forest, a: seq<Item>, x: Item, b: seq<Item>)
    requires f.Keyed() && AllIn(f, a) && x in f.parent && AllIn(f, b)
    ensures AllIn(f, (a + [x]) + b) && Sum(f, (a + [x]) + b) == Sum(f, a) + Weight(f, x) + Sum(f, b)
  {
    SumOne(f, x);
    SumSplit(f, a, [x]);
    SumSplit(f, a + [x], b);
  }

  /** Only one element of a list changes its weight. */
  lemma {:induction false} SumChange(f: Forest, g: Forest, s: seq<Item>, x: Item)
    requires f.Keyed() && g.Keyed() && AllIn(f, s) && AllIn(g, s) && Distinct(s) && x in s
    requires forall y :: y in s && y != x ==> Weight(g, y) == Weight(f, y)
    ensures Sum(g, s) == Sum(f, s) - Weight(f, x) + Weight(g, x)
  {
    hide Weight;
    var n := |s| - 1;
    if s[n] == x {
      SumSame(f, g, s[..n]);
    } else {
      SumChange(f, g, s[..n], x);
    }
  }

  // ---------------------------------------------------------------------------
  // Raising the cached totals
  // ---------------------------------------------------------------------------

  function Raised(f: Forest, c: Item, diff: int): (g: Forest)
    requires f.Keyed() && c in f.parent
    ensures g.Keyed() && g.parent == f.parent && g.list == f.list
  {
    f.(total := f.total[c := Wrap(f.total[c] as int + diff)])
  }

  /** Adds `diff` to the cached total of `c` and of every container above it. */
  ghost function WeightUpdated(f: Forest, c: Item, diff: int): (g: Forest)
    requires f.Keyed() && Acyclic(f.parent) && c in f.parent
    ensures g.Keyed() && g.parent == f.parent && g.list == f.list && g.kind == f.kind && g.count == f.count
    decreases Depth(f.parent, c)
  {
    var g := Raised(f, c, diff);
    if f.parent[c] == null then g else (DepthUp(f.parent, c); WeightUpdated(g, f.parent[c], diff))
  }

  lemma {:induction false} RaisedIs(f: Forest, c: Item, diff: int)
    requires f.Keyed() && c in f.parent
    ensures c in f.total && Raised(f, c, diff) == WithTotal(f, c, Wrap(f.total[c] as int + diff))
  {
    hide Wrap;
  }

  lemma {:induction false} WrapNests(own: int, total: int, diff: int)
    ensures Wrap(Wrap(own + Wrap(total + diff))) == Wrap(Wrap(own + total) + diff)
  {
    var t, u, v := Turns(total + diff), Turns(own + Wrap(total + diff)), Turns(own + total);
    hide Wrap, Turns;
    WrapTurns(own + total + diff, t + u);
    WrapTurns(own + total + diff, v);
  }

  lemma {:induction false} WeightRaised(f: Forest, c: Item, diff: int)
    requires f.Keyed() && c in f.parent && c.isContainer
    ensures Wrap(Weight(Raised(f, c, diff), c)) == Wrap(Weight(f, c) + diff)
  {
    var own := OwnWeight(f.kind[c], f.count[c]) as int;
    var total := f.total[c] as int;
    hide Wrap, OwnWeight;
    WrapNests(own, total, diff);
  }

  lemma {:induction false} Listed(f: Forest, c: Item, d: Item)
    requires f.Keyed() && Tree(f.parent, f.list) && c in f.parent && d in f.parent
    ensures AllIn(f, f.list[d]) && Distinct(f.list[d]) && (c in f.list[d] <==> f.parent[c] == d)
  {
  }

  lemma {:induction false} RaisedKeeps(f: Forest, c: Item, diff: int, s: seq<Item>)
    requires f.Keyed() && c in f.parent && AllIn(f, s)
    ensures Raised(f, c, diff).Keyed() && AllIn(Raised(f, c, diff), s)
    ensures forall x :: x in s && x != c ==> Weight(Raised(f, c, diff), x) == Weight(f, x)
  {
  }

  /** The sum of the list that `c` is in follows the cached total of `c`. */
  lemma {:induction false} SumRaisedAbove(f: Forest, g: Forest, c: Item, diff: int, s: seq<Item>)
    requires f.Keyed() && AllIn(f, s) && Distinct(s) && c in s && c.isContainer && g == Raised(f, c, diff)
    ensures AllIn(g, s) && Wrap(Sum(g, s)) == Wrap(Sum(f, s) + diff)
  {
    assert c in f.parent;
    hide *;
    WeightRaised(f, c, diff);
    RaisedKeeps(f, c, diff, s);
    SumChange(f, g, s, c);
    WrapMoves(Sum(f, s), Weight(f, c), Weight(g, c), diff);
  }

  lemma {:induction false} SumRaisedElsewhere(f: Forest, g: Forest, c: Item, diff: int, s: seq<Item>)
    requires f.Keyed() && c in f.parent && AllIn(f, s) && c !in s && g == Raised(f, c, diff)
    ensures AllIn(g, s) && Sum(g, s) == Sum(f, s)
  {
    hide *;
    RaisedKeeps(f, c, diff, s);
    SumSame(f, g, s);
  }

  lemma {:induction false} SumRaised(f: Forest, g: Forest, c: Item, diff: int, s: seq<Item>)
    requires f.Keyed() && c in f.parent && c.isContainer && AllIn(f, s) && Distinct(s) && g == Raised(f, c, diff)
    ensures AllIn(g, s) && Wrap(Sum(g, s)) == Wrap(Sum(f, s) + if c in s then diff else 0)
  {
    hide *;
    if c in s {
      SumRaisedAbove(f, g, c, diff, s);
    } else {
      SumRaisedElsewhere(f, g, c, diff, s);
    }
  }

  lemma {:induction false} WrapMoves(s: int, before: int, after: int, diff: int)
    requires Wrap(after) == Wrap(before + diff)
    ensures Wrap(s - before + after) == Wrap(s + diff)
  {
    var k := Turns(before + diff) - Turns(after);
    hide Wrap, Turns;
    WrapTurns(s + diff, k);
  }

  lemma {:induction false} DeficitMoves(sum: int, total: int, sum2: int, total2: int, up: int, own: int)
    requires Wrap(sum2) == Wrap(sum + up) && Wrap(total2) == Wrap(total + own)
    ensures Wrap(sum2 - total2) == Wrap(Wrap(sum - total) - own + up)
  {
    var k := Turns(sum + up) - Turns(sum2) - Turns(total + own) + Turns(total2) - Turns(sum - total);
    hide Wrap, Turns;
    WrapTurns(Wrap(sum - total) - own + up, k);
  }

  lemma {:induction false} DeficitOf(f: Forest, d: Item, s: seq<Item>)
    requires f.Keyed() && Tree(f.parent, f.list) && d in f.parent && s == f.list[d]
    ensures AllIn(f, s) && Distinct(s) && Deficit(f, d) == Wrap(Sum(f, s) - f.total[d])
  {
  }

  lemma {:induction false} RaisedTotal(f: Forest, c: Item, diff: int, d: Item)
    requires f.Keyed() && c in f.parent && d in f.parent
    ensures d in Raised(f, c, diff).total && Wrap(Raised(f, c, diff).total[d]) == Wrap(f.total[d] + if d == c then diff else 0)
  {
  }

  /** One step of the walk moves the deficit from a container to its parent. */
  lemma {:induction false} RaisedShifts(f: Forest, c: Item, diff: int, d: Item)
    requires Shaped(f) && c in f.parent && c.isContainer && d in f.parent
    ensures Deficit(Raised(f, c, diff), d) ==
            Wrap(Deficit(f, d) - (if d == c then diff else 0) + (if f.parent[c] == d then diff else 0))
  {
    var g, s := Raised(f, c, diff), f.list[d];
    RaisedTotal(f, c, diff, d);
    Listed(f, c, d);
    DeficitOf(f, d, s);
    DeficitOf(g, d, s);
    hide *;
    SumRaised(f, g, c, diff, s);
    DeficitMoves(Sum(f, s), f.total[d], Sum(g, s), g.total[d], if c in s then diff else 0, if d == c then diff else 0);
  }

  lemma {:induction false} DeficitSteps(start: int, mid: int, own: int, up: int)
    requires mid == Wrap(start - own + up)
    ensures Wrap(mid - up) == Wrap(start - own)
  {
    hide Wrap, Turns;
    WrapTurns(start - own, Turns(start - own + up));
  }

  lemma {:induction false} ParentHolds(f: Forest, c: Item)
    requires f.Keyed() && Tree(f.parent, f.list) && c in f.parent && f.parent[c] != null
    ensures f.parent[c] in f.parent && f.parent[c].isContainer
  {
  }

  /** The whole walk takes `diff` from the deficit of `c` and leaves every other deficit alone. */
  lemma {:induction false} WalkShifts(f: Forest, c: Item, diff: int, d: Item)
    requires Shaped(f) && c in f.parent && c.isContainer && d in f.parent
    ensures Deficit(WeightUpdated(f, c, diff), d) == Wrap(Deficit(f, d) - if d == c then diff else 0)
    decreases Depth(f.parent, c)
  {
    RaisedShifts(f, c, diff, d);
    var p := f.parent[c];
    if p != null {
      DepthUp(f.parent, c);
      ParentHolds(f, c);
      hide Tree, Acyclic, Deficit, Depth, Wrap;
      WalkShifts(Raised(f, c, diff), p, diff, d);
      DeficitSteps(Deficit(f, d), Deficit(Raised(f, c, diff), d), if d == c then diff else 0, if p == d then diff else 0);
    }
  }

  /** The walk does not look at lists, nor at the parent of an item that is not on it. */
  lemma {:induction false} WalkIgnores(f: Forest, g: Forest, c: Item, diff: int, r: Item, p: Item?)
    requires f.Keyed() && g.Keyed() && Acyclic(f.parent) && Acyclic(g.parent) && r in f.parent && c in f.parent
    requires g == f.(parent := f.parent[r := p], list := g.list) && !Above(f.parent, r, c)
    ensures WeightUpdated(g, c, diff) == WeightUpdated(f, c, diff).(parent := g.parent, list := g.list)
    decreases Depth(f.parent, c)
  {
    if f.parent[c] != null {
      DepthUp(f.parent, c);
      hide Acyclic, Depth;
      WalkIgnores(Raised(f, c, diff), Raised(g, c, diff), f.parent[c], diff, r, p);
    }
  }

  // ---------------------------------------------------------------------------
  // The operations of a container
  // ---------------------------------------------------------------------------

  datatype Flags = Flags(nolimit: bool, ignoreAutostack: bool, childIsOwner: bool, ignoreNotMoveable: bool)

  datatype ReturnValue = NoError | NotPossible | NotMoveable | CannotPickup | ThisIsImpossible
                       | ContainerNotEnoughRoom | NotEnoughRoom

  const INDEX_WHEREEVER := -1

  /** Whether container `c` accepts `x`. */
  ghost function AddAnswer(f: Forest, c: Item, index: int, x: Item, flags: Flags): ReturnValue
    requires Shaped(f) && c in f.parent && x in f.parent
  {
    if flags.childIsOwner then NoError
    else if !c.unlocked then NotPossible
    else if !f.kind[x].pickupable then CannotPickup
    else if Above(f.parent, x, c) then ThisIsImpossible
    else if !flags.nolimit && index == INDEX_WHEREEVER && |f.list[c]| >= c.maxSize then ContainerNotEnoughRoom
    else NoError
  }

  function Linked(f: Forest, c: Item, x: Item, s: seq<Item>): Forest {
    WithList(WithParent(f, x, c), c, s)
  }

  /** `x` is in no container and hanging it under `c` closes no cycle. */
  ghost predicate CanLink(f: Forest, c: Item, x: Item) {
    && Shaped(f) && c in f.parent && c.isContainer && x in f.parent && f.parent[x] == null && !Above(f.parent, x, c)
  }

  lemma {:induction false} InsertShape(f: Forest, c: Item, x: Item, a: seq<Item>, b: seq<Item>)
    requires CanLink(f, c, x) && f.list[c] == a + b
    ensures Shaped(Linked(f, c, x, (a + [x]) + b))
  {
    AttachAcyclic(f.parent, x, c);
    InsertDistinct(x, a, b);
    InsertTree(f.parent, f.list, c, x, (a + [x]) + b);
  }

  /** `x` goes into the list of `c`, which becomes `s`. */
  lemma {:induction false} InsertTree(parent: map<Item, Item?>, list: map<Item, seq<Item>>, c: Item, x: Item, s: seq<Item>)
    requires Tree(parent, list) && c in parent && c.isContainer && x in parent && parent[x] == null && c in list
    requires Distinct(s) && forall y :: y in s <==> y == x || y in list[c]
    ensures Tree(parent[x := c], list[c := s])
  {
  }

  lemma {:induction false} InsertDistinct(x: Item, a: seq<Item>, b: seq<Item>)
    requires Distinct(a + b) && x !in a + b
    ensures Distinct((a + [x]) + b)
    ensures forall y :: y in (a + [x]) + b <==> y == x || y in a + b
  {
    var s, t := (a + [x]) + b, a + b;
    forall i, j | 0 <= i < j < |s|
      ensures s[i] != s[j]
    {
      if i == |a| {
        assert s[j] == t[j - 1];
      } else if j == |a| {
        assert s[i] == t[i];
      } else {
        assert s[i] == t[if i < |a| then i else i - 1] && s[j] == t[if j < |a| then j else j - 1];
      }
    }
  }

  lemma {:induction false} RemoveDistinct(x: Item, a: seq<Item>, b: seq<Item>)
    requires Distinct((a + [x]) + b)
    ensures Distinct(a + b)
    ensures forall y :: y in a + b <==> y != x && y in (a + [x]) + b
  {
    var s, t := (a + [x]) + b, a + b;
    assert s[|a|] == x;
    forall i | 0 <= i < |t|
      ensures t[i] == s[if i < |a| then i else i + 1]
    {
    }
    forall y
      ensures y in t <==> y != x && y in s
    {
      assert y in s <==> y in a || y == x || y in b;
      assert y in t <==> y in a || y in b;
    }
  }

  /** `x` goes out of the list of `c`, which becomes `s`. */
  lemma {:induction false} RemoveTree(parent: map<Item, Item?>, list: map<Item, seq<Item>>, c: Item, x: Item, s: seq<Item>)
    requires Tree(parent, list) && c in parent && c in list && x in list[c]
    requires Distinct(s) && forall y :: y in s <==> y != x && y in list[c]
    ensures Tree(parent[x := null], list[c := s])
  {
  }

  /** A container whose list, total and listed weights stay has the same deficit. */
  lemma {:induction false} DeficitSame(f: Forest, g: Forest, d: Item)
    requires f.Keyed() && g.Keyed() && Tree(f.parent, f.list) && Tree(g.parent, g.list) && d in f.parent && d in g.parent
    requires g.list[d] == f.list[d] && g.total[d] == f.total[d]
    requires forall y :: y in f.list[d] && y in f.parent && y in g.parent ==> Weight(g, y) == Weight(f, y)
    ensures Deficit(g, d) == Deficit(f, d)
  {
    var s := f.list[d];
    DeficitOf(f, d, s);
    DeficitOf(g, d, s);
    hide Tree, Weight, Deficit, Wrap;
    SumSame(f, g, s);
  }

  lemma {:induction false} RightElsewhere(f: Forest, g: Forest, d: Item)
    requires Sound(f) && Shaped(g) && d in f.parent && d in g.parent
    requires g.list[d] == f.list[d] && g.total[d] == f.total[d]
    requires forall y :: y in f.list[d] && y in f.parent && y in g.parent ==> Weight(g, y) == Weight(f, y)
    ensures Deficit(g, d) == 0
  {
    assert Deficit(f, d) == 0;
    hide Tree, Acyclic, Deficit, Sum, Wrap;
    DeficitSame(f, g, d);
  }

  lemma {:induction false} WalkSettlesAt(f: Forest, c: Item, diff: int, d: Item)
    requires Shaped(f) && c in f.parent && c.isContainer && d in f.parent
    requires Deficit(f, d) == if d == c then Wrap(diff) else 0
    ensures Deficit(WeightUpdated(f, c, diff), d) == 0
  {
    WalkShifts(f, c, diff, d);
    hide Tree, Acyclic, Deficit, WeightUpdated;
    WrapCancels(diff);
  }

  /** After the walk from `c` everything is right if only `c` was off, by `diff`. */
  lemma {:induction false} WalkSettles(f: Forest, c: Item, diff: int)
    requires Shaped(f) && c in f.parent && c.isContainer
    requires forall d {:trigger Deficit(f, d)} :: d in f.parent ==> Deficit(f, d) == if d == c then Wrap(diff) else 0
    ensures Sound(WeightUpdated(f, c, diff))
  {
    var g := WeightUpdated(f, c, diff);
    hide Tree, Acyclic, Deficit, Wrap, WeightUpdated;
    forall d | d in g.parent
      ensures Deficit(g, d) == 0
    {
      WalkSettlesAt(f, c, diff, d);
    }
  }

  lemma {:induction false} WrapCancels(a: int)
    ensures Wrap(Wrap(a) - a) == 0 && Wrap(0 - 0) == 0
  {
    WrapTurns(0, Turns(a));
  }

  // ---------------------------------------------------------------------------
  // Adding
  // ---------------------------------------------------------------------------

  /** Hangs `x` under `c`, whose list becomes `s`, and raises the totals. */
  ghost function Attach(f: Forest, c: Item, x: Item, s: seq<Item>): Forest
    requires CanLink(f, c, x)
  {
    AttachAcyclic(f.parent, x, c);
    WeightUpdated(Linked(f, c, x, s), c, Weight(f, x))
  }

  lemma {:induction false} DeficitGrows(f: Forest, g: Forest, c: Item, s: seq<Item>, t: seq<Item>, w: int)
    requires f.Keyed() && Tree(f.parent, f.list) && g.Keyed() && Tree(g.parent, g.list) && c in f.parent && c in g.parent
    requires f.list[c] == s && g.list[c] == t && AllIn(f, s) && AllIn(g, t) && Sum(g, t) == Sum(f, s) + w
    requires Deficit(f, c) == 0 && g.total[c] == f.total[c]
    ensures Deficit(g, c) == Wrap(w)
  {
    DeficitOf(f, c, s);
    DeficitOf(g, c, t);
    hide *;
    WrapAdds(Sum(f, s) - f.total[c], w);
  }

  /** Inserting `x` into the list of `c`, all else equal, leaves the weight of `x` missing. */
  lemma {:induction false} InsertedDeficit(f: Forest, g: Forest, c: Item, x: Item, a: seq<Item>, b: seq<Item>)
    requires f.Keyed() && Tree(f.parent, f.list) && g.Keyed() && Tree(g.parent, g.list)
    requires c in f.parent && c in g.parent && f.list[c] == a + b && g.list[c] == (a + [x]) + b && x in f.parent
    requires forall y :: y in f.parent ==> y in g.parent && Weight(g, y) == Weight(f, y)
    requires Deficit(f, c) == 0 && g.total[c] == f.total[c]
    ensures Deficit(g, c) == Wrap(Weight(f, x))
  {
    assert AllIn(f, a + b) && AllIn(g, a + b);
    hide Tree, Deficit, Sum, Weight, AllIn;
    LinkedSum(f, g, x, a, b);
    DeficitGrows(f, g, c, a + b, (a + [x]) + b, Weight(f, x));
  }

  lemma {:induction false} AttachIs(f: Forest, c: Item, x: Item, s: seq<Item>, h: Forest)
    requires CanLink(f, c, x)
    requires h == WithParent(WithList(f, c, s), x, c) || h == WithList(WithParent(f, x, c), c, s)
    ensures h.Keyed() && c in h.parent && x in h.parent && Acyclic(h.parent) && Weight(h, x) == Weight(f, x)
    ensures Attach(f, c, x, s) == WeightUpdated(h, c, Weight(f, x))
  {
    AttachAcyclic(f.parent, x, c);
    LinkedIs(f, c, x, s, h);
    hide WeightUpdated, Tree, Acyclic, Above, Linked, WithParent, WithList;
  }

  lemma {:induction false} LinkedDeficit(f: Forest, g: Forest, c: Item, x: Item, a: seq<Item>, b: seq<Item>, d: Item)
    requires Sound(f) && CanLink(f, c, x) && f.list[c] == a + b && d in f.parent
    requires g == Linked(f, c, x, (a + [x]) + b) && Shaped(g)
    ensures Deficit(g, d) == if d == c then Wrap(Weight(f, x)) else 0
  {
    hide Tree, Acyclic, Deficit, Sum, Wrap, AllIn;
    if d == c {
      assert Deficit(f, c) == 0;
      InsertedDeficit(f, g, c, x, a, b);
    } else {
      RightElsewhere(f, g, d);
    }
  }

  lemma {:induction false} WrapAdds(a: int, b: int)
    requires Wrap(a) == 0
    ensures Wrap(a + b) == Wrap(b)
  {
    WrapTurns(b, -Turns(a));
  }

  lemma {:induction false} LinkedSum(f: Forest, g: Forest, x: Item, a: seq<Item>, b: seq<Item>)
    requires f.Keyed() && g.Keyed() && AllIn(f, a + b) && x in f.parent && AllIn(g, a + b)
    requires forall y :: y in f.parent ==> y in g.parent && Weight(g, y) == Weight(f, y)
    ensures AllIn(g, (a + [x]) + b) && Sum(g, (a + [x]) + b) == Sum(f, a + b) + Weight(f, x)
  {
    assert AllIn(f, a) && AllIn(f, b) by {
      assert forall y :: y in a || y in b ==> y in a + b;
    }
    hide Weight;
    SumSplit(f, a, b);
    SumAround(g, a, x, b);
    SumSame(f, g, a);
    SumSame(f, g, b);
  }

  lemma {:induction false} AttachSound(f: Forest, c: Item, x: Item, a: seq<Item>, b: seq<Item>)
    requires Sound(f) && CanLink(f, c, x) && f.list[c] == a + b
    ensures Sound(Attach(f, c, x, (a + [x]) + b))
  {
    var g := Linked(f, c, x, (a + [x]) + b);
    InsertShape(f, c, x, a, b);
    forall d | d in g.parent
      ensures Deficit(g, d) == if d == c then Wrap(Weight(f, x)) else 0
    {
      LinkedDeficit(f, g, c, x, a, b, d);
    }
    WalkSettles(g, c, Weight(f, x));
  }

  // ---------------------------------------------------------------------------
  // Changing an item in place
  // ---------------------------------------------------------------------------

  function Changed(f: Forest, x: Item, kind: Kind, count: u16): Forest {
    f.(kind := f.kind[x := kind], count := f.count[x := count])
  }

  /** `x`, listed in `c`, gets another kind and count, and the totals follow. */
  ghost function Change(f: Forest, c: Item, x: Item, kind: Kind, count: u16): Forest
    requires Shaped(f) && c in f.parent && x in f.parent
  {
    var g := Changed(f, x, kind, count);
    WeightUpdated(g, c, Weight(g, x) - Weight(f, x))
  }

  lemma {:induction false} ChangeIs(f: Forest, c: Item, x: Item, kind: Kind, count: u16, g: Forest)
    requires Shaped(f) && c in f.parent && x in f.parent && g == Changed(f, x, kind, count)
    ensures x in g.parent && c in g.parent && g.Keyed() && Acyclic(g.parent)
    ensures Change(f, c, x, kind, count) == WeightUpdated(g, c, Weight(g, x) - Weight(f, x))
  {
    hide WeightUpdated, Weight, Tree;
  }

  lemma {:induction false} ChangedDeficit(f: Forest, g: Forest, c: Item, x: Item, kind: Kind, count: u16, d: Item)
    requires Sound(f) && c in f.parent && x in f.parent && x in f.list[c] && d in f.parent
    requires g == Changed(f, x, kind, count)
    ensures Deficit(g, d) == if d == c then Wrap(Weight(g, x) - Weight(f, x)) else 0
  {
    Listed(f, x, d);
    Listed(f, x, c);
    if d == c {
      assert Deficit(f, c) == 0;
      ChangedHere(f, g, c, x, f.list[c]);
    } else {
      assert x !in f.list[d];
      hide Tree, Acyclic, Deficit, Sum, Wrap;
      RightElsewhere(f, g, d);
    }
  }

  lemma {:induction false} ChangedHere(f: Forest, g: Forest, c: Item, x: Item, s: seq<Item>)
    requires Shaped(f) && Shaped(g) && c in f.parent && c in g.parent && f.list[c] == s && g.list[c] == s
    requires x in s && AllIn(f, s) && AllIn(g, s) && Distinct(s)
    requires Deficit(f, c) == 0 && g.total[c] == f.total[c]
    requires forall y :: y in s && y != x ==> Weight(g, y) == Weight(f, y)
    ensures Deficit(g, c) == Wrap(Weight(g, x) - Weight(f, x))
  {
    hide Tree, Acyclic, Deficit, Weight, Wrap;
    SumChange(f, g, s, x);
    DeficitGrows(f, g, c, s, s, Weight(g, x) - Weight(f, x));
  }

  lemma {:induction false} ChangeSound(f: Forest, c: Item, x: Item, kind: Kind, count: u16)
    requires Sound(f) && c in f.parent && x in f.parent && x in f.list[c]
    ensures Sound(Change(f, c, x, kind, count))
  {
    var g := Changed(f, x, kind, count);
    assert c.isContainer;
    hide Tree, Acyclic, Deficit, Weight, Wrap, WeightUpdated;
    forall d | d in g.parent
      ensures Deficit(g, d) == if d == c then Wrap(Weight(g, x) - Weight(f, x)) else 0
    {
      ChangedDeficit(f, g, c, x, kind, count, d);
    }
    WalkSettles(g, c, Weight(g, x) - Weight(f, x));
  }

  // ---------------------------------------------------------------------------
  // Removing and replacing
  // ---------------------------------------------------------------------------

  function Unlinked(f: Forest, c: Item, x: Item, s: seq<Item>): Forest {
    WithList(WithParent(f, x, null), c, s)
  }

  /** Lowers the totals, then takes `x` out of `c`, whose list becomes `s`. */
  ghost function Detach(f: Forest, c: Item, x: Item, s: seq<Item>): Forest
    requires Shaped(f) && c in f.parent && x in f.parent
  {
    WithList(WithParent(WeightUpdated(f, c, -(Weight(f, x) as int)), x, null), c, s)
  }

  lemma {:induction false} DetachIs(f: Forest, c: Item, x: Item, s: seq<Item>)
    requires Shaped(f) && c in f.parent && x in f.parent
    ensures var g := WeightUpdated(f, c, -(Weight(f, x) as int));
            Detach(f, c, x, s) == WithList(WithParent(g, x, null), c, s)
  {
    hide WeightUpdated, Weight, Tree, Acyclic, WithParent, WithList;
  }

  lemma {:induction false} ChildNotAbove(f: Forest, c: Item, x: Item)
    requires Shaped(f) && c in f.parent && x in f.list[c]
    ensures x in f.parent && f.parent[x] == c && c.isContainer && !Above(f.parent, x, c)
  {
    DepthUp(f.parent, x);
    if Above(f.parent, x, c) {
      AboveIsShallow(f.parent, x, c);
    }
  }

  lemma {:induction false} AboveIsShallow(parent: map<Item, Item?>, a: Item, x: Item)
    requires Acyclic(parent) && x in parent && Above(parent, a, x)
    ensures a in parent && Depth(parent, a) <= Depth(parent, x)
    decreases Depth(parent, x)
  {
    if a != x {
      DepthUp(parent, x);
      AboveIsShallow(parent, a, parent[x]);
    }
  }

  lemma {:induction false} UnlinkedShape(f: Forest, c: Item, x: Item, a: seq<Item>, b: seq<Item>)
    requires Shaped(f) && c in f.parent && f.list[c] == (a + [x]) + b && x in f.list[c]
    ensures x in f.parent && Shaped(Unlinked(f, c, x, a + b))
  {
    ChildNotAbove(f, c, x);
    DetachAcyclic(f.parent, x);
    RemoveDistinct(x, a, b);
    hide Acyclic;
    RemoveTree(f.parent, f.list, c, x, a + b);
  }

  lemma {:induction false} UnlinkedDeficit(f: Forest, g: Forest, c: Item, x: Item, a: seq<Item>, b: seq<Item>, d: Item)
    requires Sound(f) && c in f.parent && f.list[c] == (a + [x]) + b && x in f.parent && d in f.parent
    requires g == Unlinked(f, c, x, a + b) && Shaped(g)
    ensures Deficit(g, d) == if d == c then Wrap(-(Weight(f, x) as int)) else 0
  {
    hide Tree, Acyclic, Deficit, Sum, Wrap;
    if d == c {
      assert Deficit(f, c) == 0;
      ListIn(f, c);
      ListIn(g, c);
      LinkedSum(g, f, x, a, b);
      DeficitGrows(f, g, c, (a + [x]) + b, a + b, -(Weight(f, x) as int));
    } else {
      RightElsewhere(f, g, d);
    }
  }

  lemma {:induction false} DetachSound(f: Forest, c: Item, x: Item, a: seq<Item>, b: seq<Item>)
    requires Sound(f) && c in f.parent && f.list[c] == (a + [x]) + b && x in f.list[c]
    ensures x in f.parent && Sound(Detach(f, c, x, a + b))
  {
    ChildNotAbove(f, c, x);
    UnlinkedShape(f, c, x, a, b);
    var g, w := Unlinked(f, c, x, a + b), -(Weight(f, x) as int);
    WalkIgnores(f, g, c, w, x, null);
    hide Tree, Acyclic, Above, Deficit, Weight, Wrap, WeightUpdated;
    forall d | d in g.parent
      ensures Deficit(g, d) == if d == c then Wrap(w) else 0
    {
      UnlinkedDeficit(f, g, c, x, a, b, d);
    }
    WalkSettles(g, c, w);
  }

  /** Puts `x` in the place of `r`, the item at slot `k`; the totals follow; then `r` is let go. */
  ghost function Swap(f: Forest, c: Item, k: nat, x: Item): Forest
    requires CanLink(f, c, x) && k < |f.list[c]|
  {
    AttachAcyclic(f.parent, x, c);
    ListIn(f, c);
    var r := f.list[c][k];
    var g := WeightUpdated(Linked(f, c, x, f.list[c][k := x]), c, Weight(f, x) - Weight(f, r));
    WithParent(g, r, null)
  }

  lemma {:induction false} AboveDetached(parent: map<Item, Item?>, r: Item, a: Item, x: Item)
    requires Acyclic(parent) && Acyclic(parent[r := null]) && r in parent && x in parent && Above(parent[r := null], a, x)
    ensures Above(parent, a, x)
    decreases Depth(parent, x)
  {
    if a != x {
      DepthUp(parent, x);
      AboveDetached(parent, r, a, parent[x]);
    }
  }

  lemma {:induction false} CanLinkDetached(f: Forest, c: Item, r: Item, a: seq<Item>, b: seq<Item>, x: Item)
    requires CanLink(f, c, x) && f.list[c] == (a + [r]) + b && r in f.list[c]
    ensures CanLink(Unlinked(f, c, r, a + b), c, x) && r in f.parent && x != r
  {
    UnlinkedShape(f, c, r, a, b);
    if Above(f.parent[r := null], x, c) {
      AboveDetached(f.parent, r, x, c);
    }
  }

  /** `f` with `x` in the place of `r` in the list of `c`. */
  function Swapped(f: Forest, c: Item, r: Item, x: Item, s: seq<Item>): Forest {
    f.(parent := f.parent[x := c][r := null], list := f.list[c := s])
  }

  lemma {:induction false} UpdatesCommute(parent: map<Item, Item?>, x: Item, c: Item, r: Item)
    requires x != r
    ensures parent[x := c][r := null] == parent[r := null][x := c]
  {
  }

  lemma {:induction false} SwappedShape(f: Forest, c: Item, r: Item, a: seq<Item>, b: seq<Item>, x: Item)
    requires CanLink(f, c, x) && f.list[c] == (a + [r]) + b && r in f.list[c]
    ensures Shaped(Swapped(f, c, r, x, (a + [x]) + b)) && r in f.parent && x != r
  {
    CanLinkDetached(f, c, r, a, b, x);
    UpdatesCommute(f.parent, x, c, r);
    var u, t := Unlinked(f, c, r, a + b), (a + [x]) + b;
    InsertShape(u, c, x, a, b);
    hide Tree, Acyclic;
    assert u.list[c := t] == f.list[c := t];
    assert Linked(u, c, x, t) == Swapped(f, c, r, x, t);
  }

  lemma {:induction false} SwappedSum(f: Forest, g: Forest, r: Item, x: Item, a: seq<Item>, b: seq<Item>)
    requires f.Keyed() && g.Keyed() && r in f.parent && x in f.parent && AllIn(f, (a + [r]) + b)
    requires forall y :: y in f.parent ==> y in g.parent && Weight(g, y) == Weight(f, y)
    ensures AllIn(g, (a + [x]) + b) && Sum(g, (a + [x]) + b) == Sum(f, (a + [r]) + b) + (Weight(f, x) - Weight(f, r))
  {
    assert AllIn(f, a) && AllIn(f, b) by {
      assert forall y :: y in a || y in b ==> y in (a + [r]) + b;
    }
    hide Weight;
    SumAround(f, a, r, b);
    SumAround(g, a, x, b);
    SumSame(f, g, a);
    SumSame(f, g, b);
  }

  lemma {:induction false} SwappedDeficit(f: Forest, g: Forest, c: Item, r: Item, x: Item, a: seq<Item>, b: seq<Item>, d: Item)
    requires Sound(f) && c in f.parent && r in f.parent && x in f.parent && f.list[c] == (a + [r]) + b && d in f.parent
    requires g == Swapped(f, c, r, x, (a + [x]) + b) && Shaped(g)
    ensures Deficit(g, d) == if d == c then Wrap(Weight(f, x) - Weight(f, r)) else 0
  {
    hide Tree, Acyclic, Deficit, Sum, Wrap;
    if d == c {
      assert Deficit(f, c) == 0;
      ListIn(f, c);
      SwappedSum(f, g, r, x, a, b);
      DeficitGrows(f, g, c, (a + [r]) + b, (a + [x]) + b, Weight(f, x) - Weight(f, r));
    } else {
      RightElsewhere(f, g, d);
    }
  }

  lemma {:induction false} SwapUnfolds(f: Forest, c: Item, k: nat, x: Item, r: Item, h: Forest, diff: int)
    requires CanLink(f, c, x) && k < |f.list[c]| && r == f.list[c][k] && r in f.parent
    requires h == Linked(f, c, x, f.list[c][k := x]) && Shaped(f) && Acyclic(h.parent)
    requires diff == Weight(f, x) - Weight(f, r)
    ensures Swap(f, c, k, x) == WeightUpdated(h, c, diff).(parent := h.parent[r := null])
  {
    hide WeightUpdated, Tree, Acyclic, Above;
  }

  lemma {:induction false} SwapIs(f: Forest, c: Item, k: nat, x: Item, r: Item, h: Forest)
    requires CanLink(f, c, x) && k < |f.list[c]| && r == f.list[c][k] && r in f.parent && Acyclic(f.parent[x := c])
    requires h == WithParent(WithList(f, c, f.list[c][k := x]), x, c)
    ensures h.Keyed() && c in h.parent && x in h.parent && r in h.parent && Acyclic(h.parent) && Weight(h, x) == Weight(f, x)
    ensures Swap(f, c, k, x) == WithParent(WeightUpdated(h, c, Weight(f, x) - Weight(f, r)), r, null)
  {
    LinkedIs(f, c, x, f.list[c][k := x], h);
    hide WeightUpdated, Tree, Acyclic, Above, Linked, WithParent, WithList;
  }

  /** The order in which parent and list are set does not matter. */
  lemma {:induction false} LinkedIs(f: Forest, c: Item, x: Item, s: seq<Item>, h: Forest)
    requires f.Keyed() && c in f.parent && x in f.parent
    requires h == WithParent(WithList(f, c, s), x, c) || h == WithList(WithParent(f, x, c), c, s)
    ensures h == Linked(f, c, x, s) && h.Keyed() && h.parent == f.parent[x := c] && h.list == f.list[c := s]
    ensures forall y :: y in f.parent ==> y in h.parent && Weight(h, y) == Weight(f, y)
  {
  }

  lemma {:induction false} SwapReady(f: Forest, c: Item, x: Item, r: Item)
    requires CanLink(f, c, x) && r in f.list[c]
    ensures r in f.parent && Acyclic(f.parent[x := c]) && !Above(f.parent[x := c], r, c)
  {
    AttachAcyclic(f.parent, x, c);
    ChildNotAbove(f, c, r);
    AboveAttached(f.parent, x, c, r, c);
  }

  lemma {:induction false} SwapIsSwapped(f: Forest, c: Item, k: nat, x: Item, r: Item, g: Forest, s: seq<Item>)
    requires CanLink(f, c, x) && k < |f.list[c]| && r == f.list[c][k] && s == f.list[c][k := x]
    requires g == Swapped(f, c, r, x, s) && Shaped(g) && x != r && r in f.parent
    ensures Swap(f, c, k, x) == WeightUpdated(g, c, Weight(f, x) - Weight(f, r))
  {
    var h, diff := Linked(f, c, x, s), Weight(f, x) - Weight(f, r);
    SwapReady(f, c, x, r);
    hide Tree, Acyclic, Above, Weight, WeightUpdated, Swap;
    SwapUnfolds(f, c, k, x, r, h, diff);
    WalkIgnores(h, g, c, diff, r, null);
  }

  lemma {:induction false} AboveAttached(parent: map<Item, Item?>, x: Item, c: Item, r: Item, y: Item)
    requires Acyclic(parent) && Acyclic(parent[x := c]) && x in parent && c in parent && y in parent && !Above(parent, x, y)
    ensures Above(parent[x := c], r, y) ==> Above(parent, r, y)
    decreases Depth(parent, y)
  {
    if parent[y] != null {
      DepthUp(parent, y);
      AboveAttached(parent, x, c, r, parent[y]);
    }
  }

  lemma {:induction false} SlotParts(s: seq<Item>, k: nat, x: Item)
    requires k < |s|
    ensures s == (s[..k] + [s[k]]) + s[k + 1..] && s[k := x] == (s[..k] + [x]) + s[k + 1..]
  {
  }

  lemma {:induction false} SwapSound(f: Forest, c: Item, k: nat, x: Item)
    requires Sound(f) && CanLink(f, c, x) && k < |f.list[c]|
    ensures Sound(Swap(f, c, k, x))
  {
    var s := f.list[c];
    var a, r, b := s[..k], s[k], s[k + 1..];
    var t := (a + [x]) + b;
    SlotParts(s, k, x);
    SwappedShape(f, c, r, a, b, x);
    var g := Swapped(f, c, r, x, t);
    SwapIsSwapped(f, c, k, x, r, g, t);
    hide Tree, Acyclic, Above, Deficit, Weight, Wrap, WeightUpdated, Swap;
    forall d | d in g.parent
      ensures Deficit(g, d) == if d == c then Wrap(Weight(f, x) - Weight(f, r)) else 0
    {
      SwappedDeficit(f, g, c, r, x, a, b, d);
    }
    WalkSettles(g, c, Weight(f, x) - Weight(f, r));
  }

  // ---------------------------------------------------------------------------
  // The operations, and that each keeps the forest sound
  // ---------------------------------------------------------------------------

  /** The first slot that holds `x`, or -1. */
  function Index(s: seq<Item>, x: Item): (k: int)
    ensures if x in s then 0 <= k < |s| && s[k] == x && x !in s[..k] else k == -1
  {
    if s == [] then -1
    else if s[0] == x then 0
    else
      assert s == [s[0]] + s[1..];
      var k := Index(s[1..], x);
      assert k >= 0 ==> s[..k + 1] == [s[0]] + s[1..][..k];
      if k < 0 then -1 else k + 1
  }

  lemma {:induction false} IndexIs(s: seq<Item>, x: Item, k: nat)
    requires k < |s| && s[k] == x && x !in s[..k]
    ensures Index(s, x) == k
  {
    if k > 0 {
      assert s[..k] == [s[0]] + s[1..][..k - 1];
      IndexIs(s[1..], x, k - 1);
    }
  }

  function AsI32(a: u32): int { if a < 0x8000_0000 then a else a - 0x1_0000_0000 }

  /** What is left of a stack of `has` when `count` is taken. */
  function LeftOf(has: u16, count: u32): u16 {
    var left := AsI32(Wrap(has - count));
    if left < 0 then 0 else left % 0x1_0000
  }

  ghost function ThingAdded(f: Forest, c: Item, index: int, x: Item): Forest
    requires CanLink(f, c, x)
  {
    if index >= c.maxSize then f else Attach(f, c, x, [x] + f.list[c])
  }

  ghost function ItemAddedBack(f: Forest, c: Item, x: Item): Forest
    requires CanLink(f, c, x)
  {
    Attach(f, c, x, f.list[c] + [x])
  }

  ghost function ThingAddedInternally(f: Forest, c: Item, x: Item): Forest
    requires CanLink(f, c, x)
  {
    Attach(f, c, x, [x] + f.list[c])
  }

  lemma {:induction false} AddedInternallyIs(f: Forest, c: Item, x: Item)
    requires CanLink(f, c, x)
    ensures ThingAddedInternally(f, c, x) == Attach(f, c, x, [x] + f.list[c])
  {
  }

  lemma {:induction false} AddedBackIs(f: Forest, c: Item, x: Item)
    requires CanLink(f, c, x)
    ensures ItemAddedBack(f, c, x) == Attach(f, c, x, f.list[c] + [x])
  {
  }

  ghost function ThingUpdated(f: Forest, c: Item, x: Item, kind: Kind, count: u16): Forest
    requires Shaped(f) && c in f.parent && x in f.parent
  {
    if x in f.list[c] then Change(f, c, x, kind, count) else f
  }

  ghost function ThingReplaced(f: Forest, c: Item, k: nat, x: Item): Forest
    requires CanLink(f, c, x)
  {
    if k < |f.list[c]| then Swap(f, c, k, x) else f
  }

  ghost function ThingRemoved(f: Forest, c: Item, x: Item, count: u32): Forest
    requires Shaped(f) && c in f.parent && x in f.parent
  {
    var k := Index(f.list[c], x);
    if k == -1 then f
    else if f.kind[x].stackable && count != f.count[x] then Change(f, c, x, f.kind[x], LeftOf(f.count[x], count))
    else Detach(f, c, x, f.list[c][..k] + f.list[c][k + 1..])
  }

  lemma {:induction false} RemovedIs(f: Forest, c: Item, x: Item, count: u32)
    requires Shaped(f) && c in f.parent && x in f.parent
    ensures var k := Index(f.list[c], x);
            ThingRemoved(f, c, x, count) ==
            if k == -1 then f
            else if f.kind[x].stackable && count != f.count[x] then Change(f, c, x, f.kind[x], LeftOf(f.count[x], count))
            else Detach(f, c, x, f.list[c][..k] + f.list[c][k + 1..])
  {
  }

  /** A new item, in no container. */
  function Enter(f: Forest, x: Item, kind: Kind, count: u16): Forest {
    Forest(f.parent[x := null], f.list[x := []], f.total[x := 0], f.kind[x := kind], f.count[x := count])
  }

  lemma {:induction false} AddFrontSound(f: Forest, c: Item, x: Item)
    requires Sound(f) && CanLink(f, c, x)
    ensures Sound(Attach(f, c, x, [x] + f.list[c]))
  {
    var s := f.list[c];
    assert s == [] + s && [x] + s == ([] + [x]) + s;
    hide *;
    AttachSound(f, c, x, [], s);
  }

  lemma {:induction false} AddBackSound(f: Forest, c: Item, x: Item)
    requires Sound(f) && CanLink(f, c, x)
    ensures Sound(Attach(f, c, x, f.list[c] + [x]))
  {
    var s := f.list[c];
    assert s == s + [] && s + [x] == (s + [x]) + [];
    hide *;
    AttachSound(f, c, x, s, []);
  }

  lemma {:induction false} ThingRemovedSound(f: Forest, c: Item, x: Item, count: u32)
    requires Sound(f) && c in f.parent && x in f.parent
    ensures Sound(ThingRemoved(f, c, x, count))
  {
    var s, k := f.list[c], Index(f.list[c], x);
    hide Tree, Acyclic, WeightsOk, Change, Detach, LeftOf, Index;
    if k != -1 {
      if f.kind[x].stackable && count != f.count[x] {
        ChangeSound(f, c, x, f.kind[x], LeftOf(f.count[x], count));
      } else {
        SlotParts(s, k, x);
        DetachSound(f, c, x, s[..k], s[k + 1..]);
      }
    }
  }

  lemma {:induction false} EnterKeepsRooted(parent: map<Item, Item?>, x: Item, y: Item, n: nat)
    requires x !in parent && Rooted(parent, y, n)
    ensures Rooted(parent[x := null], y, n)
    decreases n
  {
    if parent[y] != null {
      EnterKeepsRooted(parent, x, parent[y], n - 1);
    }
  }

  lemma {:induction false} EnterShape(f: Forest, x: Item, kind: Kind, count: u16)
    requires Shaped(f) && x !in f.parent
    ensures Shaped(Enter(f, x, kind, count))
  {
    var g := Enter(f, x, kind, count);
    forall y | y in g.parent
      ensures Grounded(g.parent, y)
    {
      if y == x {
        assert Rooted(g.parent, x, 0);
      } else {
        assert Grounded(f.parent, y);
        var n: nat :| Rooted(f.parent, y, n);
        EnterKeepsRooted(f.parent, x, y, n);
      }
    }
    EnterTree(f.parent, f.list, x);
  }

  lemma {:induction false} EnterTree(parent: map<Item, Item?>, list: map<Item, seq<Item>>, x: Item)
    requires Tree(parent, list) && x !in parent
    ensures Tree(parent[x := null], list[x := []])
  {
  }

  lemma {:induction false} EnterSound(f: Forest, x: Item, kind: Kind, count: u16)
    requires Sound(f) && x !in f.parent
    ensures Sound(Enter(f, x, kind, count))
  {
    var g := Enter(f, x, kind, count);
    EnterShape(f, x, kind, count);
    hide Tree, Acyclic, Sum, Wrap;
    forall d | d in g.parent
      ensures Deficit(g, d) == 0
    {
      if d == x {
        EmptyDeficit(g, x);
      } else {
        ListIn(f, d);
        RightElsewhere(f, g, d);
      }
    }
  }

  lemma {:induction false} EmptyDeficit(f: Forest, x: Item)
    requires f.Keyed() && Tree(f.parent, f.list) && x in f.parent && f.list[x] == [] && f.total[x] == 0
    ensures Deficit(f, x) == 0
  {
    DeficitOf(f, x, []);
  }
}
