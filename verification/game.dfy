/** The game's operations on items in containers. */
module Game {
  import opened Containers
  import opened Holdings
  import opened Moves
  import opened MoveLaws

  lemma {:induction false} FirstStackIs(f: Forest, s: seq<Item>, x: Item, n: int)
    requires f.Keyed() && AllIn(f, s) && x in f.parent && -1 <= n < |s|
    requires n >= 0 ==> Takes(f, x, s[n])
    requires forall i :: 0 <= i < (if n < 0 then |s| else n) ==> !Takes(f, x, s[i])
    ensures FirstStack(f, s, x) == n
  {
    hide Takes;
    var m := FirstStack(f, s, x);
    assert m >= 0 ==> Takes(f, x, s[m]);
    assert n >= 0 && m >= 0 ==> m == n;
  }

  /** The first stack in `c` that can take more of what `x` is. */
  method FindStack(c: Item, x: Item, ghost w: set<Item>) returns (n: int)
    requires c in w && x in w && Shaped(Item.View(w)) && x in Item.View(w).parent
    requires c in Item.View(w).parent && AllIn(Item.View(w), Item.View(w).list[c])
    ensures n == FirstStack(Item.View(w), Item.View(w).list[c], x)
  {
    hide *;
    ghost var f := Item.View(w);
    SeenHere(c, w);
    var s := c.itemlist;
    n := 0;
    while n < |s|
      invariant 0 <= n <= |s|
      invariant forall i :: 0 <= i < n ==> s[i] in f.parent && !Takes(f, x, s[i])
    {
      var takes := CanTake(x, s[n], w);
      if takes {
        FirstStackIs(f, s, x, n);
        return;
      }
      n := n + 1;
    }
    FirstStackIs(f, s, x, -1);
    n := -1;
  }

  lemma {:induction false} SeenHere(c: Item, w: set<Item>)
    requires c in w && Shaped(Item.View(w))
    ensures var f := Item.View(w);
            && f.Keyed() && Tree(f.parent, f.list) && Acyclic(f.parent) && c in f.parent && c in f.list && c in f.kind && c in f.count
            && f.list[c] == c.itemlist && f.parent[c] == c.parent && f.kind[c] == c.kind && f.count[c] == c.count
            && AllIn(f, c.itemlist) && (forall y :: y in c.itemlist ==> y in w && y in f.parent)
            && (c.parent != null ==> c.parent in w && c.parent in f.parent)
  {
    c.Seen(w);
    ListIn(Item.View(w), c);
  }

  method CanTake(x: Item, y: Item, ghost w: set<Item>) returns (b: bool)
    requires x in w && y in w && Shaped(Item.View(w)) && x in Item.View(w).parent && y in Item.View(w).parent
    ensures b == Takes(Item.View(w), x, y)
  {
    x.Seen(w);
    y.Seen(w);
    return y != x && y.kind == x.kind && y.count < MAX_ITEM_COUNT;
  }

  method GetItemByIndex(c: Item, index: int, ghost w: set<Item>) returns (y: Item?)
    requires c in w && Shaped(Item.View(w)) && c in Item.View(w).parent
    ensures y == AtSlot(Item.View(w), c, index)
  {
    c.Seen(w);
    if 0 <= index < |c.itemlist| {
      return c.itemlist[index];
    }
    return null;
  }

  /** Picks the slot inside `c` for an item that stays in `c`. */
  method PickSlot(c: Item, index: int, x: Item, flags: Flags, ghost w: set<Item>) returns (r: Route)
    requires c in w && x in w && Shaped(Item.View(w)) && c in Item.View(w).parent && x in Item.View(w).parent
    ensures r == Stacking(Item.View(w), c, index, x, flags)
  {
    hide *;
    ghost var f := Item.View(w);
    StackingIs(f, c, index, x, flags);
    SeenHere(c, w);
    SeenHere(x, w);
    var dest: Item? := null;
    if index != INDEX_WHEREEVER {
      dest := GetItemByIndex(c, index, w);
    }
    if !flags.ignoreAutostack && x.kind.stackable && x.parent != c {
      if dest != null {
        Item.Member(w, dest);
        SeenHere(dest, w);
        if dest.kind == x.kind && dest.count < PARTIAL_STACK {
          return Route(c, index, dest);
        }
      }
      var n := FindStack(c, x, w);
      if n >= 0 {
        return Route(c, n, c.itemlist[n]);
      }
    }
    return Route(c, index, dest);
  }

  lemma {:induction false} StackingIs(f: Forest, c: Item, index: int, x: Item, flags: Flags)
    requires Shaped(f) && c in f.parent && x in f.parent
    ensures f.Keyed() && Tree(f.parent, f.list) && AllIn(f, f.list[c])
    ensures var dest := if index == INDEX_WHEREEVER then null else AtSlot(f, c, index);
            var n := FirstStack(f, f.list[c], x);
            && (dest != null ==> dest in f.parent)
            && Stacking(f, c, index, x, flags) ==
               if !flags.ignoreAutostack && f.kind[x].stackable && f.parent[x] != c then
                 if dest != null && f.kind[dest] == f.kind[x] && f.count[dest] < PARTIAL_STACK then Route(c, index, dest)
                 else if n >= 0 then Route(c, n, f.list[c][n]) else Route(c, index, dest)
               else Route(c, index, dest)
  {
    ListIn(f, c);
    hide Tree, Acyclic, FirstStack;
  }

  /** Asks `c` where an item goes. */
  method QueryDestination(c: Item, index: int, x: Item, flags: Flags, ghost w: set<Item>) returns (r: Route)
    requires c in w && x in w && Shaped(Item.View(w)) && c in Item.View(w).parent && x in Item.View(w).parent
    ensures r == Destination(Item.View(w), c, index, x, flags)
    ensures RoutesRight(Item.View(w), c, index, x, flags, r)
  {
    SeenHere(c, w);
    DestinationIsRight(Item.View(w), c, index, x, flags);
    hide RoutesRight, Tree, Acyclic, AtSlot, Stacking, Item.View, FirstStack;
    if !c.unlocked {
      return Route(c, index, null);
    }
    if index == 254 {
      if c.parent != null {
        return Route(c.parent, INDEX_WHEREEVER, null);
      }
      return Route(c, INDEX_WHEREEVER, null);
    }
    var i := index;
    if index == 255 || index >= c.maxSize as int {
      i := INDEX_WHEREEVER;
    }
    if i != INDEX_WHEREEVER {
      var dest := GetItemByIndex(c, i, w);
      if dest != null && dest.isContainer {
        return Route(dest, INDEX_WHEREEVER, null);
      }
    }
    r := PickSlot(c, i, x, flags, w);
  }

  // ---------------------------------------------------------------------------
  // How much
  // ---------------------------------------------------------------------------

  lemma {:induction false} AnswerAnySlot(f: Forest, c: Item, i: int, j: int, x: Item, flags: Flags)
    requires Shaped(f) && c in f.parent && x in f.parent && i >= 0 && j >= 0
    ensures AddAnswer(f, c, i, x, flags) == AddAnswer(f, c, j, x, flags)
  {
  }

  lemma {:induction false} RoomMore(f: Forest, s: seq<Item>, x: Item, k: nat)
    requires f.Keyed() && AllIn(f, s) && x in f.parent && k < |s|
    ensures AllIn(f, s[..k]) && AllIn(f, s[..k + 1]) && s[k] in f.parent
    ensures Room(f, s[..k + 1], x) == Room(f, s[..k], x) + RoomIn(f, x, s[k])
  {
    assert s[..k + 1][..k] == s[..k];
  }

  lemma {:induction false} RoomStart(f: Forest, x: Item)
    requires f.Keyed() && x in f.parent
    ensures AllIn(f, []) && Room(f, [], x) == 0 && Wrap(0) == 0
  {
  }

  lemma {:induction false} WrapAgain(a: int, b: int)
    ensures Wrap(Wrap(a) as int + b) == Wrap(a + b)
  {
    WrapTurns(a + b, Turns(a));
  }

  /** Adds up what the stacks in `c` can take of `x`. */
  method StackSpace(c: Item, x: Item, flags: Flags, ghost w: set<Item>) returns (n: u32)
    requires c in w && x in w && Shaped(Item.View(w)) && c in Item.View(w).parent && x in Item.View(w).parent
    ensures n == Wrap(StackRoom(Item.View(w), c, INDEX_WHEREEVER, x, flags))
  {
    hide *;
    ghost var f := Item.View(w);
    SeenHere(c, w);
    SeenHere(x, w);
    var s := c.itemlist;
    RoomStart(f, x);
    n := 0;
    var slotIndex := 0;
    ghost var accepts := AddAnswer(f, c, 0, x, flags) == NoError;
    var k := 0;
    assert s[..0] == [];
    while k < |s|
      invariant 0 <= k <= |s| && slotIndex >= 0 && AllIn(f, s[..k])
      invariant n == if accepts then Wrap(Room(f, s[..k], x)) else 0
    {
      var y := s[k];
      RoomMore(f, s, x, k);
      SeenHere(y, w);
      RoomInIs(f, x, y);
      WrapAgain(Room(f, s[..k], x), RoomIn(f, x, y));
      var takes := CanTake(x, y, w);
      if takes {
        AnswerAnySlot(f, c, slotIndex, 0, x, flags);
        var answer := c.QueryAdd(slotIndex, x, flags, w);
        slotIndex := slotIndex + 1;
        if answer == NoError {
          n := Wrap(n as int + (MAX_ITEM_COUNT - y.count as int));
        }
      }
      k := k + 1;
    }
    assert s[..|s|] == s;
    SpaceIs(f, c, x, flags);
  }

  lemma {:induction false} RoomInIs(f: Forest, x: Item, y: Item)
    requires f.Keyed() && x in f.parent && y in f.parent
    ensures RoomIn(f, x, y) == if Takes(f, x, y) then MAX_ITEM_COUNT - f.count[y] else 0
    ensures !Takes(f, x, y) ==> RoomIn(f, x, y) == 0
  {
  }

  lemma {:induction false} SpaceIs(f: Forest, c: Item, x: Item, flags: Flags)
    requires Shaped(f) && c in f.parent && x in f.parent
    ensures AllIn(f, f.list[c])
    ensures Wrap(StackRoom(f, c, INDEX_WHEREEVER, x, flags)) ==
            if AddAnswer(f, c, 0, x, flags) == NoError then Wrap(Room(f, f.list[c], x)) else 0
  {
    ListIn(f, c);
    hide Tree, Acyclic, AddAnswer, Room;
  }

  /** The room in the stack at a slot. */
  method SlotSpace(c: Item, index: int, x: Item, flags: Flags, ghost w: set<Item>) returns (n: u32)
    requires c in w && x in w && Shaped(Item.View(w)) && c in Item.View(w).parent && x in Item.View(w).parent
    requires index != INDEX_WHEREEVER
    ensures n == StackRoom(Item.View(w), c, index, x, flags)
  {
    ghost var f := Item.View(w);
    var dest := GetItemByIndex(c, index, w);
    var answer := c.QueryAdd(index, x, flags, w);
    x.Seen(w);
    if dest != null {
      dest.Seen(w);
    }
    hide Tree, Acyclic, AddAnswer, Item.View, AtSlot;
    n := if dest != null && dest.kind == x.kind && dest.count < MAX_ITEM_COUNT && answer == NoError
         then MAX_ITEM_COUNT - dest.count else 0;
  }

  /** How much of `x` container `c` takes. */
  method QueryMaxCount(c: Item, index: int, x: Item, count: u32, flags: Flags, ghost w: set<Item>)
    returns (max: u32, r: ReturnValue)
    requires c in w && x in w && Shaped(Item.View(w)) && c in Item.View(w).parent && x in Item.View(w).parent
    ensures (max, r) == MaxAnswer(Item.View(w), c, index, x, count, flags)
  {
    ghost var f := Item.View(w);
    c.Seen(w);
    x.Seen(w);
    hide Tree, Acyclic, AddAnswer, Item.View, StackRoom, Wrap;
    if flags.nolimit {
      return Max(1, count), NoError;
    }
    var freeSlots := Max(c.maxSize as int - |c.itemlist|, 0);
    if x.kind.stackable {
      var n: u32;
      if index == INDEX_WHEREEVER {
        n := StackSpace(c, x, flags, w);
        WrapAgain(StackRoom(f, c, index, x, flags), freeSlots * MAX_ITEM_COUNT);
      } else {
        n := SlotSpace(c, index, x, flags, w);
      }
      max := Wrap(freeSlots * MAX_ITEM_COUNT + n as int);
      return max, if max < count then ContainerNotEnoughRoom else NoError;
    }
    return freeSlots, if freeSlots == 0 then ContainerNotEnoughRoom else NoError;
  }

  /** Whether `c` gives `count` of `x` away. */
  method QueryRemove(c: Item, x: Item, count: u32, flags: Flags, ghost w: set<Item>) returns (r: ReturnValue)
    requires c in w && x in w && Shaped(Item.View(w)) && c in Item.View(w).parent && x in Item.View(w).parent
    ensures r == RemoveAnswer(Item.View(w), c, x, count, flags)
  {
    c.Seen(w);
    x.Seen(w);
    var index := c.GetThingIndex(x);
    if index == -1 {
      return NotPossible;
    }
    if count == 0 || (x.kind.stackable && count > x.count) {
      return NotPossible;
    }
    if !x.kind.moveable && !flags.ignoreNotMoveable {
      return NotMoveable;
    }
    return NoError;
  }

  // ---------------------------------------------------------------------------
  // Moving
  // ---------------------------------------------------------------------------

  lemma {:induction false} SixteenLayers()
    ensures MAP_MAX_LAYERS == 16
  {
  }

  /** Follows the destinations. */
  method FindDestination(target: Item, index: int, x: Item, flags: Flags, ghost w: set<Item>) returns (r: Route, fl: Flags)
    requires target in w && x in w && Shaped(Item.View(w)) && target.isContainer
    requires target in Item.View(w).parent && x in Item.View(w).parent
    ensures (r, fl) == Hops(Item.View(w), target, index, x, flags, MAP_MAX_LAYERS)
    ensures GoodRoute(Item.View(w), r)
  {
    hide *;
    ghost var f := Item.View(w);
    SixteenLayers();
    HopsAreGood(f, target, index, x, flags, MAP_MAX_LAYERS);
    var to := target;
    var i := index;
    fl := flags;
    var floorN := 0;
    r := QueryDestination(to, i, x, fl, w);
    while r.to != to && floorN + 1 < 16
      invariant 0 <= floorN < 16 && to in f.parent && to.isContainer && r == Destination(f, to, i, x, fl)
      invariant Hops(f, target, index, x, flags, MAP_MAX_LAYERS) == Hops(f, to, i, x, fl, 16 - floorN)
      decreases 16 - floorN
    {
      HopsUnfold(f, to, i, x, fl, 16 - floorN);
      DestinationIn(f, to, i, x, fl);
      to, i, fl := r.to, r.index, NoFlags();
      Item.Member(w, to);
      floorN := floorN + 1;
      r := QueryDestination(to, i, x, fl, w);
    }
    HopsUnfold(f, to, i, x, fl, 16 - floorN);
    if r.to != to {
      fl := NoFlags();
    }
  }

  function NoFlags(): (f: Flags)
    ensures f == PLAIN
  {
    PLAIN
  }

  lemma {:induction false} HopsUnfold(f: Forest, c: Item, index: int, x: Item, flags: Flags, n: nat)
    requires Shaped(f) && c in f.parent && c.isContainer && x in f.parent && n > 0
    ensures var r := Destination(f, c, index, x, flags);
            && r.to in f.parent && r.to.isContainer
            && Hops(f, c, index, x, flags, n) ==
               if r.to == c then (r, flags) else if n == 1 then (r, NoFlags()) else Hops(f, r.to, r.index, x, NoFlags(), n - 1)
  {
    DestinationIn(f, c, index, x, flags);
    hide Tree, Acyclic, Destination;
  }

  lemma {:induction false} DecideIs(f: Forest, origin: Item, target: Item, index: int, x: Item, count: u32, flags: Flags,
                                    tradeItem: Item?, r: Route, fl: Flags)
    requires Shaped(f) && origin in f.parent && target in f.parent && target.isContainer && x in f.parent
    requires (r, fl) == Hops(f, target, index, x, flags, MAP_MAX_LAYERS) && GoodRoute(f, r)
    ensures Decide(f, origin, target, index, x, count, flags, tradeItem) ==
            if r.dest == x then Stop(NoError) else Weigh(f, origin, r, x, count, fl, tradeItem)
    ensures !flags.childIsOwner ==> !fl.childIsOwner
  {
    HopsAreGood(f, target, index, x, flags, MAP_MAX_LAYERS);
    hide Tree, Acyclic, Hops, Weigh, GoodRoute;
  }

  lemma {:induction false} GoodRouteIs(f: Forest, r: Route)
    requires f.Keyed() && Tree(f.parent, f.list) && GoodRoute(f, r)
    ensures r.to in f.parent && r.to.isContainer && (r.dest != null ==> r.dest in f.parent)
  {
  }

  /** Asks everyone who can refuse a move. */
  method Consider(origin: Item, target: Item, index: int, x: Item, count: u32, flags: Flags, tradeItem: Item?, ghost w: set<Item>)
    returns (plan: Plan)
    requires origin in w && target in w && x in w && Shaped(Item.View(w)) && target.isContainer
    requires origin in Item.View(w).parent && target in Item.View(w).parent && x in Item.View(w).parent
    ensures plan == Decide(Item.View(w), origin, target, index, x, count, flags, tradeItem)
  {
    hide *;
    ghost var f := Item.View(w);
    SeenHere(x, w);
    var route, fl := FindDestination(target, index, x, flags, w);
    DecideIs(f, origin, target, index, x, count, flags, tradeItem, route, fl);
    GoodRouteIs(f, route);
    Item.Member(w, route.to);
    if route.dest == x {
      return Stop(NoError);
    }
    plan := WeighUp(origin, route, x, count, fl, tradeItem, w);
  }

  method WeighUp(origin: Item, route: Route, x: Item, count: u32, flags: Flags, tradeItem: Item?, ghost w: set<Item>)
    returns (plan: Plan)
    requires origin in w && x in w && route.to in w && Shaped(Item.View(w)) && GoodRoute(Item.View(w), route)
    requires origin in Item.View(w).parent && x in Item.View(w).parent && route.to in Item.View(w).parent
    ensures plan == Weigh(Item.View(w), origin, route, x, count, flags, tradeItem)
  {
    hide Tree, Acyclic, AddAnswer, MaxAnswer, RemoveAnswer, GoodRoute, Item.View, Above;
    SeenHere(x, w);
    var added := route.to.QueryAdd(route.index, x, flags, w);
    if added != NoError {
      return Stop(added);
    }
    var max, enough := QueryMaxCount(route.to, route.index, x, count, flags, w);
    if enough != NoError && max == 0 {
      return Stop(enough);
    }
    var m: u32 := if x.kind.stackable then Min(count, max) else max;
    var removed := QueryRemove(origin, x, m, flags, w);
    if removed != NoError {
      return Stop(removed);
    }
    if tradeItem != null {
      var traded := IsTraded(route.to, tradeItem, w);
      if traded {
        return Stop(NotEnoughRoom);
      }
    }
    return Go(route.to, route.index, route.dest, m, if x.kind.stackable && max < count then enough else NoError);
  }

  /** Walks up from `to` looking for the item that is being traded. */
  method IsTraded(to: Item, tradeItem: Item, ghost w: set<Item>) returns (b: bool)
    requires to in w && Shaped(Item.View(w)) && to in Item.View(w).parent
    ensures b <==> Above(Item.View(w).parent, tradeItem, to)
  {
    ghost var p := Item.View(w).parent;
    var cylinder: Item? := to;
    while cylinder != null
      invariant cylinder != null ==> cylinder in w && cylinder in p
      invariant Above(p, tradeItem, to) <==> cylinder != null && Above(p, tradeItem, cylinder)
      decreases if cylinder == null then 0 else Depth(p, cylinder) + 1
    {
      cylinder.Seen(w);
      if cylinder == tradeItem {
        return true;
      }
      if cylinder.parent != null {
        DepthUp(p, cylinder);
      }
      cylinder := cylinder.parent;
    }
    return false;
  }

  lemma {:induction false} BetweenIs(f: Forest, origin: Item, x: Item, to: Item, dest: Item?, m: u32)
    requires CanMove(f, origin, x, to, dest, m)
    ensures f.Keyed() && Shaped(f) && origin in f.parent && x in f.parent && to in f.parent && to.isContainer
    ensures x in f.kind && (dest != null ==> dest in f.parent && dest in f.kind && dest in f.count)
    ensures f.kind[x].stackable ==> !x.isContainer
    ensures var g := ThingRemoved(f, origin, x, m);
            && Shaped(g) && x in g.parent && to in g.parent && x in g.kind && g.kind[x] == f.kind[x]
            && (dest != null ==> dest in g.parent && dest in g.kind && dest in g.count &&
                                 g.kind[dest] == f.kind[dest] && g.count[dest] == f.count[dest])
            && Between(f, origin, x, to, dest, m) ==
               if Merges(f, x, dest) then Merged(g, to, dest, Merging(f, x, dest, m)) else g
  {
    TakenFrame(f, origin, x, m);
    hide Tree, Acyclic, WeightsOk, Above, ThingRemoved, Merged, Merging;
  }

  lemma {:induction false} MergedIs(f: Forest, to: Item, dest: Item, n: nat)
    requires Shaped(f) && to in f.parent && dest in f.parent
    ensures Merged(f, to, dest, n) == ThingUpdated(f, to, dest, f.kind[dest], (f.count[dest] + n) % 0x1_0000)
  {
  }

  lemma {:induction false} MergingIs(f: Forest, x: Item, dest: Item?, m: u32, y: Item)
    requires f.Keyed() && x in f.parent && (dest != null ==> dest in f.parent)
    ensures Merges(f, x, dest) <==> f.kind[x].stackable && dest != null && f.kind[dest] == f.kind[x]
    ensures NeedsCopy(f, x, dest, m) <==> f.kind[x].stackable && m > Merging(f, x, dest, m)
    ensures Carries(f, x, dest, m, y) <==> if NeedsCopy(f, x, dest, m) then y !in f.parent && !y.isContainer else y == x
    ensures Merging(f, x, dest, m) ==
            if dest != null && f.kind[dest] == f.kind[x] then Min(Wrap(10000 - f.count[dest] as int), m) else 0
    ensures Merging(f, x, dest, m) <= m
  {
  }

  /** Takes `m` of `x` out and puts what can be merged onto `dest`; returns how much that is. */
  method TakeAndMerge(origin: Item, x: Item, to: Item, dest: Item?, m: u32, ghost w: set<Item>) returns (n: u32)
    requires origin in w && x in w && to in w && (dest != null ==> dest in w) && CanMove(Item.View(w), origin, x, to, dest, m)
    modifies w
    ensures Item.View(w) == Between(old(Item.View(w)), origin, x, to, dest, m)
    ensures var f := old(Item.View(w)); n == if Merges(f, x, dest) then Merging(f, x, dest, m) else 0
  {
    hide *;
    ghost var f := Item.View(w);
    BetweenIs(f, origin, x, to, dest, m);
    MergingIs(f, x, dest, m, x);
    origin.RemoveThing(x, m, w);
    ghost var g := Item.View(w);
    x.Seen(w);
    n := 0;
    if dest != null {
      dest.Seen(w);
      if x.kind.stackable && dest.kind == x.kind {
        n := Min(Wrap(10000 - dest.count as int), m);
        MergedIs(g, to, dest, n);
        to.UpdateThing(dest, dest.kind, (dest.count as int + n as int) % 0x1_0000, w);
      }
    }
  }

  lemma {:induction false} EffectOfWhole(f: Forest, origin: Item, x: Item, to: Item, index: int, dest: Item?, m: u32)
    requires CanMove(f, origin, x, to, dest, m) && Carries(f, x, dest, m, x) && !f.kind[x].stackable
    ensures var h := Between(f, origin, x, to, dest, m);
            && Sound(h) && CanLink(h, to, x) && Effect(f, origin, x, to, index, dest, m, x) == ThingAdded(h, to, index, x)
  {
    hide Tree, Acyclic, WeightsOk, Above, Between, Placed, ThingAdded, Merging, Stacks, CanLink, WithParent, WithList, Enter;
    BetweenReady(f, origin, x, to, dest, m);
  }

  lemma {:induction false} EffectOfStack(f: Forest, origin: Item, x: Item, to: Item, index: int, dest: Item?, m: u32, y: Item)
    requires CanMove(f, origin, x, to, dest, m) && Carries(f, x, dest, m, y) && f.kind[x].stackable
    ensures var h := Between(f, origin, x, to, dest, m);
            && Sound(h) && to in h.parent && (NeedsCopy(f, x, dest, m) ==> y !in h.parent)
            && Effect(f, origin, x, to, index, dest, m, y) ==
               if NeedsCopy(f, x, dest, m) then Placed(h, to, index, y, f.kind[x], m - Merging(f, x, dest, m)) else h
  {
    hide Tree, Acyclic, WeightsOk, Above, Between, Placed, ThingAdded, Merging, Stacks, CanLink, WithParent, WithList, Enter;
    BetweenReady(f, origin, x, to, dest, m);
  }

  lemma {:induction false} PlacedCases(f: Forest, to: Item, index: int, y: Item, kind: Kind, n: nat)
    requires Sound(f) && to in f.parent && to.isContainer && y !in f.parent
    ensures var g := Enter(f, y, kind, n % 0x1_0000);
            && CanLink(g, to, y) && Placed(f, to, index, y, kind, n) == ThingAdded(g, to, index, y)
  {
    NewCanLink(f, to, y, kind, n % 0x1_0000);
    hide Tree, Acyclic, WeightsOk, Above, ThingAdded;
  }

  /** Moves `m` of `x` from `origin` to `to`; `moved` is the thing that carries it. */
  method CarryOut(origin: Item, x: Item, to: Item, index: int, dest: Item?, m: u32, ghost w: set<Item>)
    returns (moved: Item, ghost v: set<Item>)
    requires origin in w && x in w && to in w && (dest != null ==> dest in w) && CanMove(Item.View(w), origin, x, to, dest, m)
    modifies w
    ensures CanMove(old(Item.View(w)), origin, x, to, dest, m) && Carries(old(Item.View(w)), x, dest, m, moved)
    ensures (moved in w || fresh(moved)) && v == w + {moved}
    ensures Item.View(v) == Effect(old(Item.View(w)), origin, x, to, index, dest, m, moved)
  {
    hide *;
    ghost var f := Item.View(w);
    Item.Members(w);
    BetweenIs(f, origin, x, to, dest, m);
    MergingIs(f, x, dest, m, x);
    var n := TakeAndMerge(origin, x, to, dest, m, w);
    ghost var h := Item.View(w);
    moved, v := x, w;
    StillKind(f, origin, x, to, dest, m);
    x.Seen(w);
    if !x.kind.stackable {
      EffectOfWhole(f, origin, x, to, index, dest, m);
      to.AddThing(index, x, w);
    } else if m > n {
      moved := x.Clone((m as int - n as int) % 0x1_0000, w);
      v := w + {moved};
      MergingIs(f, x, dest, m, moved);
      EffectOfStack(f, origin, x, to, index, dest, m, moved);
      PlacedCases(h, to, index, moved, x.kind, m as int - n as int);
      to.AddThing(index, moved, v);
    } else {
      EffectOfStack(f, origin, x, to, index, dest, m, x);
    }
    assert v == w + {moved};
  }

  lemma {:induction false} StillKind(f: Forest, origin: Item, x: Item, to: Item, dest: Item?, m: u32)
    requires CanMove(f, origin, x, to, dest, m)
    ensures var h := Between(f, origin, x, to, dest, m);
            && x in h.parent && x in h.kind && x in f.kind && h.kind[x] == f.kind[x] && to in h.parent && Sound(h) && Shaped(h)
            && (f.kind[x].stackable && (dest == null || f.kind[dest] != f.kind[x]) ==> Merging(f, x, dest, m) == 0)
  {
    BetweenReady(f, origin, x, to, dest, m);
    TakenFrame(f, origin, x, m);
    if Merges(f, x, dest) {
      MergingFits(f, x, dest, m);
      MergedFrame(ThingRemoved(f, origin, x, m), to, dest, Merging(f, x, dest, m));
    }
    hide Tree, Acyclic, WeightsOk, Above, ThingRemoved, Merged;
  }

  lemma {:induction false} PlanIn(f: Forest, origin: Item, x: Item, go: Plan, w: set<Item>)
    requires go.Go? && CanMove(f, origin, x, go.to, go.dest, go.m) && f.parent.Keys == w
    ensures go.to in w && (go.dest != null ==> go.dest in w)
  {
  }

  /**
   * Moves `count` of `x` from `origin` to `target`, or to where `target` sends it. Either everything stays as it
   * was, or the state changes as the plan says; weights and stacks stay right, and without the no-limit flag
   * the containers' bounds too.
   */
  method InternalMoveItem(origin: Item, target: Item, index: int, x: Item, count: u32, flags: Flags, tradeItem: Item?,
                          ghost w: set<Item>)
    returns (r: ReturnValue, moved: Item, plan: Plan, ghost v: set<Item>)
    requires origin in w && target in w && x in w && target.isContainer && Sound(Item.View(w)) && Stacks(Item.View(w))
    requires origin in Item.View(w).parent && target in Item.View(w).parent && x in Item.View(w).parent
    requires !flags.childIsOwner
    modifies w
    ensures plan == Decide(old(Item.View(w)), origin, target, index, x, count, flags, tradeItem) && r == plan.r
    ensures plan.Stop? ==> v == w && Item.View(v) == old(Item.View(w))
    ensures plan.Go? ==> CanMove(old(Item.View(w)), origin, x, plan.to, plan.dest, plan.m)
    ensures plan.Go? ==> Carries(old(Item.View(w)), x, plan.dest, plan.m, moved) && v == w + {moved}
    ensures plan.Go? ==> Item.View(v) == Effect(old(Item.View(w)), origin, x, plan.to, plan.index, plan.dest, plan.m, moved)
    ensures Decided(old(Item.View(w)), origin, target, index, x, count, flags, tradeItem, plan)
    ensures plan.Go? ==> AllIn(old(Item.View(w)), old(Item.View(w)).list[plan.to]) && GoesTo(old(Item.View(w)), target, index, plan.to)
    ensures plan.Go? ==> EndsInSlot(old(Item.View(w)), target, index, x, flags, plan.to, plan.index)
    ensures plan.Go? ==> plan.dest == There(old(Item.View(w)).list[plan.to], plan.index)
    ensures plan.Go? ==> Changes(old(Item.View(w)), Item.View(v), origin, x, plan.to, plan.index, plan.dest, plan.m, moved)
    ensures plan.Go? && plan.index < plan.to.maxSize
            && (old(Item.View(w)).kind[x].stackable ==> plan.m > Joining(old(Item.View(w)), x, plan.dest, plan.m)) ==>
              moved in Item.View(v).parent && Item.View(v).parent[moved] == plan.to
    ensures Sound(Item.View(v)) && Stacks(Item.View(v)) && (!flags.nolimit && Fits(old(Item.View(w))) ==> Fits(Item.View(v)))
  {
    hide *;
    ghost var f := Item.View(w);
    SoundParts(f);
    DecisionIsAnswered(f, origin, target, index, x, count, flags, tradeItem);
    plan := Consider(origin, target, index, x, count, flags, tradeItem, w);
    r, moved, v := plan.r, x, w;
    if plan.Go? {
      DecidedMoveIsSafe(f, origin, target, index, x, count, flags, tradeItem);
      Item.Members(w);
      PlanIn(f, origin, x, plan, w);
      moved, v := CarryOut(origin, x, plan.to, plan.index, plan.dest, plan.m, w);
      SuccessfulMove(f, origin, target, index, x, count, flags, tradeItem, moved, x, x.kind);
      DecidedMoveEnds(f, origin, target, index, x, count, flags, tradeItem);
      MoveChanges(f, origin, x, plan.to, plan.index, plan.dest, plan.m, moved);
      RestIsPlaced(f, Item.View(v), origin, x, plan.to, plan.index, plan.dest, plan.m, moved);
    }
  }
}
