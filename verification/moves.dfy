/** Moving items between containers: what is asked first, what is done, and what it keeps. */
module Moves {
  import opened Containers
  import opened Holdings

  const MAX_ITEM_COUNT := 10000
  const MAP_MAX_LAYERS := 16
  const PARTIAL_STACK := 100

  function Min(a: int, b: int): int { if a < b then a else b }

  function Max(a: int, b: int): int { if a < b then b else a }

  /** Containers do not stack, and no stack is too high. */
  ghost predicate Stacks(f: Forest)
    requires f.Keyed()
  {
    forall x {:trigger f.count[x]} :: x in f.parent && f.kind[x].stackable ==> !x.isContainer && f.count[x] <= MAX_ITEM_COUNT
  }

  /** No container holds more things than it has slots. */
  ghost predicate Fits(f: Forest)
    requires f.Keyed()
  {
    forall c {:trigger f.list[c]} :: c in f.parent && c.isContainer ==> |f.list[c]| <= c.maxSize
  }

  // ---------------------------------------------------------------------------
  // Where to
  // ---------------------------------------------------------------------------

  datatype Route = Route(to: Item, index: int, dest: Item?)

  const PLAIN := Flags(false, false, false, false)

  /** `y` can take more of what `x` is. */
  predicate Takes(f: Forest, x: Item, y: Item)
    requires f.Keyed() && x in f.parent && y in f.parent
  {
    y != x && f.kind[y] == f.kind[x] && f.count[y] < MAX_ITEM_COUNT
  }

  /** The first slot that can take more of what `x` is, or -1. */
  ghost function FirstStack(f: Forest, s: seq<Item>, x: Item): (n: int)
    requires f.Keyed() && AllIn(f, s) && x in f.parent
    ensures -1 <= n < |s|
    ensures n >= 0 ==> Takes(f, x, s[n])
    ensures forall i :: 0 <= i < (if n < 0 then |s| else n) ==> !Takes(f, x, s[i])
  {
    if s == [] then -1
    else
      var n := FirstStack(f, s[..|s| - 1], x);
      if n >= 0 then n else if Takes(f, x, s[|s| - 1]) then |s| - 1 else -1
  }

  ghost function AtSlot(f: Forest, c: Item, index: int): (y: Item?)
    requires f.Keyed() && Tree(f.parent, f.list) && c in f.parent
    ensures y != null ==> y in f.parent && y in f.list[c]
  {
    ListIn(f, c);
    if 0 <= index < |f.list[c]| then f.list[c][index] else null
  }

  /** The slot to use inside `c`, once it is clear that the item stays in `c`. */
  ghost function Stacking(f: Forest, c: Item, index: int, x: Item, flags: Flags): Route
    requires Shaped(f) && c in f.parent && x in f.parent
  {
    ListIn(f, c);
    var dest := if index == INDEX_WHEREEVER then null else AtSlot(f, c, index);
    if !flags.ignoreAutostack && f.kind[x].stackable && f.parent[x] != c then
      if dest != null && f.kind[dest] == f.kind[x] && f.count[dest] < PARTIAL_STACK then Route(c, index, dest)
      else
        var n := FirstStack(f, f.list[c], x);
        if n >= 0 then Route(c, n, f.list[c][n]) else Route(c, index, dest)
    else Route(c, index, dest)
  }

  /** Where `c` sends `x`: to itself and a slot, up to its parent, or down into a container in the slot. */
  ghost function Destination(f: Forest, c: Item, index: int, x: Item, flags: Flags): Route
    requires Shaped(f) && c in f.parent && x in f.parent
  {
    if !c.unlocked then Route(c, index, null)
    else if index == 254 then Route(if f.parent[c] != null then f.parent[c] else c, INDEX_WHEREEVER, null)
    else
      var i := if index == 255 || index >= c.maxSize then INDEX_WHEREEVER else index;
      var dest := if i == INDEX_WHEREEVER then null else AtSlot(f, c, i);
      if dest != null && dest.isContainer then Route(dest, INDEX_WHEREEVER, null) else Stacking(f, c, i, x, flags)
  }

  lemma {:induction false} DestinationIn(f: Forest, c: Item, index: int, x: Item, flags: Flags)
    requires Shaped(f) && c in f.parent && c.isContainer && x in f.parent
    ensures var r := Destination(f, c, index, x, flags); r.to in f.parent && r.to.isContainer
  {
    ListIn(f, c);
    if f.parent[c] != null {
      ParentHolds(f, c);
    }
    hide Tree, Acyclic, FirstStack;
  }

  /** Follows the destinations until a container keeps the item, at most `n` times. */
  ghost function Hops(f: Forest, c: Item, index: int, x: Item, flags: Flags, n: nat): (Route, Flags)
    requires Shaped(f) && c in f.parent && c.isContainer && x in f.parent
    decreases n
  {
    var r := Destination(f, c, index, x, flags);
    if r.to == c then (r, flags)
    else if n <= 1 then (r, PLAIN)
    else (
      DestinationIn(f, c, index, x, flags);
      Hops(f, r.to, r.index, x, PLAIN, n - 1)
    )
  }

  /** What is known of a slot that is asked for. */
  ghost predicate GoodRoute(f: Forest, r: Route)
    requires f.Keyed() && Tree(f.parent, f.list)
  {
    && r.to in f.parent && r.to.isContainer
    && (r.dest != null ==> r.dest in f.parent && r.dest == AtSlot(f, r.to, r.index))
    && (r.to.unlocked && r.dest == null ==> r.index < r.to.maxSize && (r.index != INDEX_WHEREEVER ==> AtSlot(f, r.to, r.index) == null))
  }

  lemma {:induction false} StackingIsGood(f: Forest, c: Item, index: int, x: Item, flags: Flags)
    requires Shaped(f) && c in f.parent && c.isContainer && x in f.parent && index < c.maxSize
    ensures GoodRoute(f, Stacking(f, c, index, x, flags))
  {
    ListIn(f, c);
    hide Tree, Acyclic, FirstStack;
  }

  lemma {:induction false} DestinationIsGood(f: Forest, c: Item, index: int, x: Item, flags: Flags)
    requires Shaped(f) && c in f.parent && c.isContainer && x in f.parent
    ensures GoodRoute(f, Destination(f, c, index, x, flags))
  {
    DestinationIn(f, c, index, x, flags);
    var i := if index == 255 || index >= c.maxSize as int then INDEX_WHEREEVER else index;
    StackingIsGood(f, c, i, x, flags);
    hide Tree, Acyclic, Stacking;
  }

  lemma {:induction false} HopsAreGood(f: Forest, c: Item, index: int, x: Item, flags: Flags, n: nat)
    requires Shaped(f) && c in f.parent && c.isContainer && x in f.parent
    ensures var (r, fl) := Hops(f, c, index, x, flags, n); GoodRoute(f, r) && (fl == flags || fl == PLAIN)
    decreases n
  {
    DestinationIsGood(f, c, index, x, flags);
    var r := Destination(f, c, index, x, flags);
    hide Tree, Acyclic, Destination;
    if r.to != c && n > 1 {
      HopsAreGood(f, r.to, r.index, x, PLAIN, n - 1);
    }
  }

  // ---------------------------------------------------------------------------
  // How much
  // ---------------------------------------------------------------------------

  ghost function RoomIn(f: Forest, x: Item, y: Item): nat
    requires f.Keyed() && x in f.parent && y in f.parent
  {
    if Takes(f, x, y) then MAX_ITEM_COUNT - f.count[y] else 0
  }

  /** How much more of what `x` is the stacks in a list can take. */
  ghost function Room(f: Forest, s: seq<Item>, x: Item): nat
    requires f.Keyed() && AllIn(f, s) && x in f.parent
  {
    if s == [] then 0 else Room(f, s[..|s| - 1], x) + RoomIn(f, x, s[|s| - 1])
  }

  ghost function FreeSlots(f: Forest, c: Item): nat
    requires f.Keyed() && c in f.parent
  {
    Max(c.maxSize - |f.list[c]|, 0)
  }

  /** The room in stacks that container `c` counts for `x`. */
  ghost function StackRoom(f: Forest, c: Item, index: int, x: Item, flags: Flags): nat
    requires Shaped(f) && c in f.parent && x in f.parent
  {
    ListIn(f, c);
    if index == INDEX_WHEREEVER then
      if AddAnswer(f, c, 0, x, flags) == NoError then Room(f, f.list[c], x) else 0
    else
      var dest := AtSlot(f, c, index);
      if dest != null && f.kind[dest] == f.kind[x] && f.count[dest] < MAX_ITEM_COUNT && AddAnswer(f, c, index, x, flags) == NoError
      then MAX_ITEM_COUNT - f.count[dest] else 0
  }

  /** How much of `x` container `c` takes, and whether that is enough. */
  ghost function MaxAnswer(f: Forest, c: Item, index: int, x: Item, count: u32, flags: Flags): (u32, ReturnValue)
    requires Shaped(f) && c in f.parent && x in f.parent
  {
    if flags.nolimit then (Max(1, count), NoError)
    else if f.kind[x].stackable then
      var max := Wrap(FreeSlots(f, c) * MAX_ITEM_COUNT + StackRoom(f, c, index, x, flags));
      (max, if max < count then ContainerNotEnoughRoom else NoError)
    else
      (FreeSlots(f, c), if FreeSlots(f, c) == 0 then ContainerNotEnoughRoom else NoError)
  }

  /** Whether container `c` gives `count` of `x` away. */
  ghost function RemoveAnswer(f: Forest, c: Item, x: Item, count: u32, flags: Flags): ReturnValue
    requires f.Keyed() && c in f.parent && x in f.parent
  {
    if x !in f.list[c] then NotPossible
    else if count == 0 || (f.kind[x].stackable && count > f.count[x]) then NotPossible
    else if !f.kind[x].moveable && !flags.ignoreNotMoveable then NotMoveable
    else NoError
  }

  // ---------------------------------------------------------------------------
  // The decision
  // ---------------------------------------------------------------------------

  datatype Plan =
    | Stop(r: ReturnValue)
    | Go(to: Item, index: int, dest: Item?, m: u32, r: ReturnValue)

  /** What a move will do: nothing, or move `m` of `x` from `origin`. */
  ghost function Decide(f: Forest, origin: Item, target: Item, index: int, x: Item, count: u32, flags: Flags, tradeItem: Item?): Plan
    requires Shaped(f) && origin in f.parent && target in f.parent && target.isContainer && x in f.parent
  {
    HopsAreGood(f, target, index, x, flags, MAP_MAX_LAYERS);
    var (route, fl) := Hops(f, target, index, x, flags, MAP_MAX_LAYERS);
    if route.dest == x then Stop(NoError) else Weigh(f, origin, route, x, count, fl, tradeItem)
  }

  ghost function Weigh(f: Forest, origin: Item, route: Route, x: Item, count: u32, flags: Flags, tradeItem: Item?): Plan
    requires Shaped(f) && origin in f.parent && x in f.parent && GoodRoute(f, route)
  {
    var added := AddAnswer(f, route.to, route.index, x, flags);
    if added != NoError then Stop(added)
    else
      var (max, enough) := MaxAnswer(f, route.to, route.index, x, count, flags);
      if enough != NoError && max == 0 then Stop(enough)
      else
        var m: u32 := if f.kind[x].stackable then Min(count, max) else max;
        var removed := RemoveAnswer(f, origin, x, m, flags);
        if removed != NoError then Stop(removed)
        else if tradeItem != null && Above(f.parent, tradeItem, route.to) then Stop(NotEnoughRoom)
        else Go(route.to, route.index, route.dest, m, if f.kind[x].stackable && max < count then enough else NoError)
  }

  // ---------------------------------------------------------------------------
  // What a positive decision guarantees
  // ---------------------------------------------------------------------------

  /** How much of `m` goes onto the stack `dest`. */
  ghost function Merging(f: Forest, x: Item, dest: Item?, m: u32): u32
    requires f.Keyed() && x in f.parent && (dest != null ==> dest in f.parent)
  {
    if dest != null && f.kind[dest] == f.kind[x] then Min(Wrap(MAX_ITEM_COUNT - f.count[dest]), m) else 0
  }

  /** Everything that the steps of a move rely on. */
  ghost predicate Ready(f: Forest, origin: Item, x: Item, to: Item, dest: Item?)
  {
    && Sound(f) && Stacks(f) && origin in f.parent && x in f.parent && to in f.parent && to.isContainer
    && x in f.list[origin] && !Above(f.parent, x, to) && dest != x
    && (dest != null ==> dest in f.parent && dest in f.list[to])
  }

  lemma {:induction false} AcceptedNotAbove(f: Forest, c: Item, index: int, x: Item, flags: Flags)
    requires Shaped(f) && c in f.parent && x in f.parent && !flags.childIsOwner && AddAnswer(f, c, index, x, flags) == NoError
    ensures c.unlocked && !Above(f.parent, x, c)
    ensures !flags.nolimit && index == INDEX_WHEREEVER ==> |f.list[c]| < c.maxSize
  {
  }

  /** A full container takes no more than the stack at the slot does. */
  lemma {:induction false} FullTakesRoom(f: Forest, r: Route, x: Item, count: u32, flags: Flags)
    requires Shaped(f) && Stacks(f) && GoodRoute(f, r) && x in f.parent && !flags.nolimit && !flags.childIsOwner
    requires AddAnswer(f, r.to, r.index, x, flags) == NoError && |f.list[r.to]| >= r.to.maxSize
    ensures var max := MaxAnswer(f, r.to, r.index, x, count, flags).0;
            && (!f.kind[x].stackable ==> max == 0)
            && (f.kind[x].stackable && r.dest == null ==> max == 0)
            && (f.kind[x].stackable && r.dest != null ==> max <= Merging(f, x, r.dest, 0x1_0000))
  {
    AcceptedNotAbove(f, r.to, r.index, x, flags);
    hide Tree, Acyclic, Above, AddAnswer;
  }

  /** When something is left to be placed as a thing of its own there is a free slot for it. */
  lemma {:induction false} FreeWhenNeeded(f: Forest, r: Route, x: Item, count: u32, m: u32, flags: Flags)
    requires Shaped(f) && Stacks(f) && GoodRoute(f, r) && x in f.parent && !flags.nolimit && !flags.childIsOwner
    requires AddAnswer(f, r.to, r.index, x, flags) == NoError
    requires 0 < m <= MaxAnswer(f, r.to, r.index, x, count, flags).0
    requires !f.kind[x].stackable || m > Merging(f, x, r.dest, m)
    ensures |f.list[r.to]| < r.to.maxSize && r.index < r.to.maxSize
  {
    AcceptedNotAbove(f, r.to, r.index, x, flags);
    if |f.list[r.to]| >= r.to.maxSize {
      FullTakesRoom(f, r, x, count, flags);
    }
    hide Tree, Acyclic, Above, AddAnswer, MaxAnswer;
  }

  /** A decision to go ahead makes the move safe. */
  lemma {:induction false} GoIsReady(f: Forest, origin: Item, r: Route, x: Item, count: u32, flags: Flags, tradeItem: Item?)
    requires Sound(f) && Stacks(f) && origin in f.parent && x in f.parent && GoodRoute(f, r) && !flags.childIsOwner && r.dest != x
    requires Weigh(f, origin, r, x, count, flags, tradeItem).Go?
    ensures var go := Weigh(f, origin, r, x, count, flags, tradeItem);
            && Ready(f, origin, x, go.to, go.dest) && go.m > 0
            && go.to == r.to && go.index == r.index && go.dest == r.dest
            && (f.kind[x].stackable ==> go.m <= f.count[x] && go.m <= count)
            && (!flags.nolimit && (!f.kind[x].stackable || go.m > Merging(f, x, go.dest, go.m)) ==>
                 |f.list[go.to]| < go.to.maxSize && go.index < go.to.maxSize)
  {
    AcceptedNotAbove(f, r.to, r.index, x, flags);
    var go := Weigh(f, origin, r, x, count, flags, tradeItem);
    hide Tree, Acyclic, Above, AddAnswer, MaxAnswer, WeightsOk, Stacks, Merging;
    if !flags.nolimit && (!f.kind[x].stackable || go.m > Merging(f, x, go.dest, go.m)) {
      FreeWhenNeeded(f, r, x, count, go.m, flags);
    }
  }

  // ---------------------------------------------------------------------------
  // The steps of a move
  // ---------------------------------------------------------------------------

  /** Takes `m` of `x` from `origin`: all of it, or a part of a stack. */
  lemma {:induction false} TakenHolds(f: Forest, origin: Item, x: Item, m: u32, d: Item, k: Kind)
    requires Sound(f) && origin in f.parent && x in f.parent && x in f.list[origin] && d in f.parent
    requires f.kind[x].stackable ==> m <= f.count[x]
    ensures var g := ThingRemoved(f, origin, x, m);
            var gone := if f.kind[x].stackable then m else f.count[x] as int;
            && Sound(g) && d in g.parent
            && Held(g, d, k) == Held(f, d, k) - if d == origin && k == f.kind[x] then gone else 0
  {
    var i := Index(f.list[origin], x);
    RemovedIs(f, origin, x, m);
    if f.kind[x].stackable && m != f.count[x] {
      LeftOfPart(f.count[x], m);
      hide *;
      ChangeHolds(f, origin, x, LeftOf(f.count[x], m), d, k);
    } else {
      assert Share(f, x, k) == if k == f.kind[x] then f.count[x] as int else 0;
      hide *;
      DetachHolds(f, origin, x, i, d, k);
    }
  }

  lemma {:induction false} LeftOfPart(has: u16, count: u32)
    requires count <= has
    ensures LeftOf(has, count) == has - count
  {
  }

  /** What taking leaves of kinds, counts, lists and parents. */
  lemma {:induction false} TakenFrame(f: Forest, origin: Item, x: Item, m: u32)
    requires Sound(f) && origin in f.parent && x in f.parent && x in f.list[origin]
    requires f.kind[x].stackable ==> m <= f.count[x]
    ensures var g := ThingRemoved(f, origin, x, m);
            && Sound(g) && g.kind == f.kind[x := f.kind[x]]
            && (forall y :: y in f.parent ==> y in g.parent)
            && (forall y :: y in f.parent && y != x ==> g.count[y] == f.count[y] && g.parent[y] == f.parent[y])
            && (forall c :: c in f.parent && c != origin ==> g.list[c] == f.list[c])
            && |g.list[origin]| <= |f.list[origin]|
            && (forall y :: y in f.list[origin] && y != x ==> y in g.list[origin])
            && (f.kind[x].stackable && m != f.count[x] ==> g.count[x] == f.count[x] - m)
            && (!(f.kind[x].stackable && m != f.count[x]) ==> g.parent[x] == null && g.count[x] == f.count[x])
  {
    var i := Index(f.list[origin], x);
    ThingRemovedSound(f, origin, x, m);
    RemovedIs(f, origin, x, m);
    if f.kind[x].stackable && m != f.count[x] {
      LeftOfPart(f.count[x], m);
      ChangeFrame(f, origin, x, f.kind[x], LeftOf(f.count[x], m));
    } else {
      DetachFrame(f, origin, x, f.list[origin][..i] + f.list[origin][i + 1..]);
      SlotParts(f.list[origin], i, x);
    }
    hide Tree, Acyclic, WeightsOk, ThingRemoved, Change, Detach, LeftOf;
  }

  /** A thing that has been taken out whole can be hung where it was accepted. */
  lemma {:induction false} TakenCanLink(f: Forest, origin: Item, x: Item, to: Item, dest: Item?, m: u32)
    requires Ready(f, origin, x, to, dest) && !(f.kind[x].stackable && m != f.count[x])
    ensures var g := ThingRemoved(f, origin, x, m); Sound(g) && CanLink(g, to, x)
  {
    var i := Index(f.list[origin], x);
    ThingRemovedSound(f, origin, x, m);
    RemovedIs(f, origin, x, m);
    DetachFrame(f, origin, x, f.list[origin][..i] + f.list[origin][i + 1..]);
    hide Tree, WeightsOk, ThingRemoved, Detach, Stacks;
    var g := ThingRemoved(f, origin, x, m);
    if Above(g.parent, x, to) {
      AboveDetached(f.parent, x, x, to);
    }
  }

  /** A new item can be hung anywhere. */
  lemma {:induction false} NewCanLink(f: Forest, to: Item, y: Item, kind: Kind, count: u16)
    requires Sound(f) && to in f.parent && to.isContainer && y !in f.parent
    ensures var g := Enter(f, y, kind, count); Sound(g) && CanLink(g, to, y)
  {
    EnterSound(f, y, kind, count);
    var g := Enter(f, y, kind, count);
    hide Tree, WeightsOk;
    NewNotAbove(g.parent, y, to, f.parent);
  }

  lemma {:induction false} NewNotAbove(p: map<Item, Item?>, y: Item, x: Item, was: map<Item, Item?>)
    requires Acyclic(p) && Acyclic(was) && y !in was && p == was[y := null] && x in was
    ensures !Above(p, y, x)
    decreases Depth(p, x)
  {
    if p[x] != null {
      DepthUp(p, x);
      DepthUp(was, x);
      NewNotAbove(p, y, p[x], was);
    }
  }

  /** Puts `n` more onto the stack `dest` in `to`. */
  ghost function Merged(f: Forest, to: Item, dest: Item, n: nat): Forest
    requires Shaped(f) && to in f.parent && dest in f.parent
  {
    ThingUpdated(f, to, dest, f.kind[dest], (f.count[dest] + n) % 0x1_0000)
  }

  lemma {:induction false} MergedHolds(f: Forest, to: Item, dest: Item, n: nat, d: Item, k: Kind)
    requires Sound(f) && to in f.parent && dest in f.parent && dest in f.list[to] && f.count[dest] + n < 0x1_0000 && d in f.parent
    ensures var g := Merged(f, to, dest, n);
            Sound(g) && d in g.parent && Held(g, d, k) == Held(f, d, k) + if d == to && k == f.kind[dest] then n else 0
  {
    ChangeHolds(f, to, dest, f.count[dest] + n, d, k);
    hide Tree, Acyclic, WeightsOk, Change, Held;
    ChangeFrame(f, to, dest, f.kind[dest], f.count[dest] + n);
  }

  lemma {:induction false} MergedFrame(f: Forest, to: Item, dest: Item, n: nat)
    requires Sound(f) && to in f.parent && dest in f.parent && dest in f.list[to] && f.count[dest] + n < 0x1_0000
    ensures var g := Merged(f, to, dest, n);
            && Sound(g) && g.parent == f.parent && g.list == f.list
            && g.kind == f.kind[dest := f.kind[dest]] && g.count == f.count[dest := f.count[dest] + n]
  {
    ChangeSound(f, to, dest, f.kind[dest], f.count[dest] + n);
    ChangeFrame(f, to, dest, f.kind[dest], f.count[dest] + n);
    hide Tree, Acyclic, WeightsOk, Change;
  }

  /** A new stack `y` of `n` in front of `to`. */
  ghost function Placed(f: Forest, to: Item, index: int, y: Item, kind: Kind, n: nat): Forest
    requires Sound(f) && to in f.parent && to.isContainer && y !in f.parent
  {
    NewCanLink(f, to, y, kind, n % 0x1_0000);
    ThingAdded(Enter(f, y, kind, n % 0x1_0000), to, index, y)
  }

  lemma {:induction false} PlacedIs(f: Forest, to: Item, index: int, y: Item, kind: Kind, n: nat)
    requires Sound(f) && to in f.parent && to.isContainer && y !in f.parent && index < to.maxSize && n < 0x1_0000
    ensures var g := Enter(f, y, kind, n);
            && Sound(g) && CanLink(g, to, y) && g.Keyed() && y in g.parent && to in g.parent && g.list[to] == f.list[to]
            && (forall k :: Share(g, y, k) == if k == kind then n else 0)
            && Placed(f, to, index, y, kind, n) == Attach(g, to, y, [y] + f.list[to])
  {
    NewCanLink(f, to, y, kind, n);
    hide Tree, Acyclic, WeightsOk, Above, Attach;
  }

  lemma {:induction false} PlacedHolds(f: Forest, to: Item, index: int, y: Item, kind: Kind, n: nat, d: Item, k: Kind)
    requires Sound(f) && to in f.parent && to.isContainer && y !in f.parent && index < to.maxSize && n < 0x1_0000 && d in f.parent
    ensures var g := Placed(f, to, index, y, kind, n);
            Sound(g) && d in g.parent && Held(g, d, k) == Held(f, d, k) + if d == to && k == kind then n else 0
  {
    hide *;
    var g := Enter(f, y, kind, n);
    PlacedIs(f, to, index, y, kind, n);
    EnterHolds(f, y, kind, n, d, k);
    StillThere(f, y, kind, n, d);
    AttachHolds(g, to, y, d, k);
    assert Share(g, y, k) == if k == kind then n else 0;
  }

  lemma {:induction false} StillThere(f: Forest, y: Item, kind: Kind, n: u16, d: Item)
    requires d in f.parent
    ensures d in Enter(f, y, kind, n).parent
  {
  }

  lemma {:induction false} PlacedFrame(f: Forest, to: Item, index: int, y: Item, kind: Kind, n: nat)
    requires Sound(f) && to in f.parent && to.isContainer && y !in f.parent && index < to.maxSize && n < 0x1_0000
    ensures var g := Placed(f, to, index, y, kind, n);
            && Sound(g) && g.parent == f.parent[y := to] && g.list == f.list[y := []][to := [y] + f.list[to]]
            && g.kind == f.kind[y := kind] && g.count == f.count[y := n]
  {
    PlacedIs(f, to, index, y, kind, n);
    var g := Enter(f, y, kind, n);
    AddFrontSound(g, to, y);
    AttachFrame(g, to, y, [y] + f.list[to]);
    hide Tree, Acyclic, WeightsOk, Attach, Above, Placed;
    assert f.parent[y := null][y := to] == f.parent[y := to];
  }

  // ---------------------------------------------------------------------------
  // The whole move
  // ---------------------------------------------------------------------------

  /** Whether a move of `m` needs a slot of its own. */
  ghost predicate NeedsSlot(f: Forest, x: Item, dest: Item?, m: u32)
    requires f.Keyed() && x in f.parent && (dest != null ==> dest in f.parent)
  {
    !f.kind[x].stackable || m > Merging(f, x, dest, m)
  }

  /** What a decision to go ahead guarantees. */
  ghost predicate CanMove(f: Forest, origin: Item, x: Item, to: Item, dest: Item?, m: u32) {
    Ready(f, origin, x, to, dest) && m > 0 && (f.kind[x].stackable ==> m <= f.count[x])
  }

  /** The slot asked for exists, if one is needed. */
  ghost predicate Slotted(f: Forest, x: Item, to: Item, index: int, dest: Item?, m: u32)
    requires f.Keyed() && x in f.parent && (dest != null ==> dest in f.parent)
  {
    NeedsSlot(f, x, dest, m) ==> index < to.maxSize
  }

  ghost predicate Merges(f: Forest, x: Item, dest: Item?)
    requires f.Keyed() && x in f.parent && (dest != null ==> dest in f.parent)
  {
    f.kind[x].stackable && dest != null && f.kind[dest] == f.kind[x]
  }

  lemma {:induction false} MergingFits(f: Forest, x: Item, dest: Item, m: u32)
    requires f.Keyed() && Stacks(f) && x in f.parent && dest in f.parent && Merges(f, x, dest)
    ensures f.count[dest] + Merging(f, x, dest, m) <= MAX_ITEM_COUNT && Merging(f, x, dest, m) <= m
  {
  }

  /** The state between taking and placing: `m` taken, and what merges merged. */
  ghost function Between(f: Forest, origin: Item, x: Item, to: Item, dest: Item?, m: u32): (h: Forest)
    requires Ready(f, origin, x, to, dest) && m > 0 && (f.kind[x].stackable ==> m <= f.count[x])
    ensures Sound(h)
  {
    TakenFrame(f, origin, x, m);
    var g := ThingRemoved(f, origin, x, m);
    if Merges(f, x, dest) then (
      MergingFits(f, x, dest, m);
      MergedFrame(g, to, dest, Merging(f, x, dest, m));
      Merged(g, to, dest, Merging(f, x, dest, m))
    ) else g
  }

  lemma {:induction false} BetweenReady(f: Forest, origin: Item, x: Item, to: Item, dest: Item?, m: u32)
    requires CanMove(f, origin, x, to, dest, m)
    ensures var h := Between(f, origin, x, to, dest, m);
            && Sound(h) && to in h.parent && x in h.parent && (forall y :: y in h.parent ==> y in f.parent)
            && (!f.kind[x].stackable ==> CanLink(h, to, x))
  {
    var h := Between(f, origin, x, to, dest, m);
    TakenFrame(f, origin, x, m);
    TakenFrom(f, origin, x, m);
    if Merges(f, x, dest) {
      MergingFits(f, x, dest, m);
      MergedFrame(ThingRemoved(f, origin, x, m), to, dest, Merging(f, x, dest, m));
    }
    if !f.kind[x].stackable {
      TakenCanLink(f, origin, x, to, dest, m);
    }
    hide Tree, Acyclic, WeightsOk, Above, Merged, ThingRemoved, Merging;
  }

  /** Whether a copy of `x` has to carry what does not merge. */
  ghost predicate NeedsCopy(f: Forest, x: Item, dest: Item?, m: u32)
    requires f.Keyed() && x in f.parent && (dest != null ==> dest in f.parent)
  {
    f.kind[x].stackable && m > Merging(f, x, dest, m)
  }

  /** `y` carries what is moved: a new item if a copy is needed, `x` itself otherwise. */
  ghost predicate Carries(f: Forest, x: Item, dest: Item?, m: u32, y: Item)
    requires f.Keyed() && x in f.parent && (dest != null ==> dest in f.parent)
  {
    if NeedsCopy(f, x, dest, m) then y !in f.parent && !y.isContainer else y == x
  }

  lemma {:induction false} TakenKeys(f: Forest, origin: Item, x: Item, m: u32, y: Item)
    requires Sound(f) && origin in f.parent && x in f.parent && y !in f.parent
    ensures y !in ThingRemoved(f, origin, x, m).parent
  {
    var i := Index(f.list[origin], x);
    RemovedIs(f, origin, x, m);
    if i != -1 {
      if f.kind[x].stackable && m != f.count[x] {
        ChangeFrame(f, origin, x, f.kind[x], LeftOf(f.count[x], m));
      } else {
        DetachFrame(f, origin, x, f.list[origin][..i] + f.list[origin][i + 1..]);
      }
    }
    hide Tree, Acyclic, WeightsOk, ThingRemoved, Change, Detach, LeftOf;
  }

  /** The state after a move of `m` of `x`; `y` is the thing that carries what does not merge. */
  ghost function Effect(f: Forest, origin: Item, x: Item, to: Item, index: int, dest: Item?, m: u32, y: Item): Forest
    requires CanMove(f, origin, x, to, dest, m) && Carries(f, x, dest, m, y)
  {
    BetweenReady(f, origin, x, to, dest, m);
    var h := Between(f, origin, x, to, dest, m);
    if !f.kind[x].stackable then ThingAdded(h, to, index, x)
    else if NeedsCopy(f, x, dest, m) then Placed(h, to, index, y, f.kind[x], m - Merging(f, x, dest, m))
    else h
  }

  /** How much of `x` a move of `m` carries over. */
  ghost function Carried(f: Forest, x: Item, m: u32): nat
    requires f.Keyed() && x in f.parent
  {
    if f.kind[x].stackable then m else f.count[x]
  }

  lemma {:induction false} BetweenHolds(f: Forest, origin: Item, x: Item, to: Item, dest: Item?, m: u32, d: Item, k: Kind)
    requires CanMove(f, origin, x, to, dest, m) && d in f.parent
    ensures var h := Between(f, origin, x, to, dest, m);
            var merged := if Merges(f, x, dest) then Merging(f, x, dest, m) else 0;
            && Sound(h) && d in h.parent
            && Held(h, d, k) == Held(f, d, k) - (if d == origin && k == f.kind[x] then Carried(f, x, m) else 0)
                                + (if d == to && k == f.kind[x] then merged else 0)
  {
    var g := ThingRemoved(f, origin, x, m);
    TakenHolds(f, origin, x, m, d, k);
    TakenFrame(f, origin, x, m);
    if Merges(f, x, dest) {
      MergingFits(f, x, dest, m);
      hide Tree, Acyclic, WeightsOk, Above, Merged, ThingRemoved, Merging, Held;
      MergedHolds(g, to, dest, Merging(f, x, dest, m), d, k);
    }
  }

  lemma {:induction false} EffectWhole(f: Forest, origin: Item, x: Item, to: Item, index: int, dest: Item?, m: u32, y: Item)
    requires CanMove(f, origin, x, to, dest, m) && Carries(f, x, dest, m, y) && !f.kind[x].stackable && index < to.maxSize
    ensures var h := Between(f, origin, x, to, dest, m);
            && Sound(h) && to in h.parent && x in h.parent && CanLink(h, to, x)
            && Effect(f, origin, x, to, index, dest, m, y) == Attach(h, to, x, [x] + h.list[to])
  {
    BetweenReady(f, origin, x, to, dest, m);
    hide Tree, Acyclic, WeightsOk, Above, Between, Attach;
  }

  lemma {:induction false} EffectStack(f: Forest, origin: Item, x: Item, to: Item, index: int, dest: Item?, m: u32, y: Item)
    requires CanMove(f, origin, x, to, dest, m) && Carries(f, x, dest, m, y) && f.kind[x].stackable
    ensures var h := Between(f, origin, x, to, dest, m);
            var g := Effect(f, origin, x, to, index, dest, m, y);
            var onto := Merging(f, x, dest, m);
            && Sound(h) && to in h.parent && to.isContainer && x in h.parent && (m > onto ==> y !in h.parent && !y.isContainer)
            && onto <= m < 0x1_0000 && onto == (if Merges(f, x, dest) then onto else 0)
            && g == if m > onto then Placed(h, to, index, y, f.kind[x], m - onto) else h
  {
    hide Tree, Acyclic, WeightsOk, Above, Between, Placed, ThingAdded, Merging, Stacks, CanLink;
    BetweenReady(f, origin, x, to, dest, m);
    MergingParts(f, x, dest, m);
  }

  lemma {:induction false} MergingParts(f: Forest, x: Item, dest: Item?, m: u32)
    requires f.Keyed() && x in f.parent && (dest != null ==> dest in f.parent) && f.kind[x].stackable
    ensures Merging(f, x, dest, m) <= m && (!Merges(f, x, dest) ==> Merging(f, x, dest, m) == 0)
  {
  }

  lemma {:induction false} AttachAdds(h: Forest, to: Item, x: Item, d: Item, k: Kind, kind: Kind, n: nat)
    requires Sound(h) && CanLink(h, to, x) && d in h.parent && x in h.parent && Share(h, x, k) == if k == kind then n else 0
    ensures var g := Attach(h, to, x, [x] + h.list[to]);
            Sound(g) && d in g.parent && Held(g, d, k) == Held(h, d, k) + if d == to && k == kind then n else 0
  {
    hide *;
    AttachHolds(h, to, x, d, k);
  }

  lemma {:induction false} CanMoveOpen(f: Forest, origin: Item, x: Item, to: Item, dest: Item?, m: u32)
    requires CanMove(f, origin, x, to, dest, m)
    ensures Ready(f, origin, x, to, dest) && m > 0
    ensures f.Keyed() && Shaped(f) && x in f.parent && x in f.kind && x in f.count && (dest != null ==> dest in f.parent)
    ensures Carried(f, x, m) == if f.kind[x].stackable then m as int else f.count[x] as int
    ensures !f.kind[x].stackable ==> !Merges(f, x, dest)
    ensures f.kind[x].stackable ==> m <= f.count[x]
  {
  }

  lemma {:induction false} WholeConserves(f: Forest, origin: Item, x: Item, to: Item, index: int, dest: Item?, m: u32, y: Item,
                                          d: Item, k: Kind)
    requires CanMove(f, origin, x, to, dest, m) && Carries(f, x, dest, m, y) && d in f.parent
    requires Slotted(f, x, to, index, dest, m)
    requires f.Keyed() && x in f.parent && !f.kind[x].stackable
    ensures var g := Effect(f, origin, x, to, index, dest, m, y);
            && Sound(g) && d in g.parent
            && Held(g, d, k) == Held(f, d, k) - (if d == origin && k == f.kind[x] then Carried(f, x, m) else 0)
                                + (if d == to && k == f.kind[x] then Carried(f, x, m) else 0)
  {
    hide *;
    CanMoveOpen(f, origin, x, to, dest, m);
    SlotNeeded(f, origin, x, to, dest, m);
    SlottedIs(f, x, to, index, dest, m);
    EffectWhole(f, origin, x, to, index, dest, m, y);
    BetweenHolds(f, origin, x, to, dest, m, d, k);
    BetweenShare(f, origin, x, to, dest, m, k);
    AttachAdds(Between(f, origin, x, to, dest, m), to, x, d, k, f.kind[x], f.count[x]);
  }

  lemma {:induction false} StackConserves(f: Forest, origin: Item, x: Item, to: Item, index: int, dest: Item?, m: u32, y: Item,
                                          d: Item, k: Kind)
    requires CanMove(f, origin, x, to, dest, m) && Carries(f, x, dest, m, y) && d in f.parent
    requires Slotted(f, x, to, index, dest, m)
    requires f.Keyed() && x in f.parent && f.kind[x].stackable
    ensures var g := Effect(f, origin, x, to, index, dest, m, y);
            && Sound(g) && d in g.parent
            && Held(g, d, k) == Held(f, d, k) - (if d == origin && k == f.kind[x] then Carried(f, x, m) else 0)
                                + (if d == to && k == f.kind[x] then Carried(f, x, m) else 0)
  {
    hide *;
    CanMoveOpen(f, origin, x, to, dest, m);
    SlotNeeded(f, origin, x, to, dest, m);
    SlottedIs(f, x, to, index, dest, m);
    EffectStack(f, origin, x, to, index, dest, m, y);
    BetweenHolds(f, origin, x, to, dest, m, d, k);
    var onto := Merging(f, x, dest, m);
    if m > onto {
      PlacedHolds(Between(f, origin, x, to, dest, m), to, index, y, f.kind[x], m - onto, d, k);
    }
  }

  /**
   * A move carries exactly its amount of the moved kind from the one container to the other, and changes no
   * other kind and no other container.
   */
  lemma {:induction false} MoveConserves(f: Forest, origin: Item, x: Item, to: Item, index: int, dest: Item?, m: u32, y: Item,
                                         d: Item, k: Kind)
    requires CanMove(f, origin, x, to, dest, m) && Carries(f, x, dest, m, y) && d in f.parent
    requires Slotted(f, x, to, index, dest, m)
    ensures var g := Effect(f, origin, x, to, index, dest, m, y);
            && Sound(g) && d in g.parent
            && Held(g, d, k) == Held(f, d, k) - (if d == origin && k == f.kind[x] then Carried(f, x, m) else 0)
                                + (if d == to && k == f.kind[x] then Carried(f, x, m) else 0)
  {
    hide *;
    CanMoveOpen(f, origin, x, to, dest, m);
    if f.kind[x].stackable {
      StackConserves(f, origin, x, to, index, dest, m, y, d, k);
    } else {
      WholeConserves(f, origin, x, to, index, dest, m, y, d, k);
    }
  }

  lemma {:induction false} BetweenShare(f: Forest, origin: Item, x: Item, to: Item, dest: Item?, m: u32, k: Kind)
    requires Ready(f, origin, x, to, dest) && m > 0 && (f.kind[x].stackable ==> m <= f.count[x])
    ensures var h := Between(f, origin, x, to, dest, m);
            x in h.parent && (!f.kind[x].stackable ==> Share(h, x, k) == if k == f.kind[x] then f.count[x] else 0)
  {
    TakenFrame(f, origin, x, m);
    if Merges(f, x, dest) {
      MergingFits(f, x, dest, m);
      MergedFrame(ThingRemoved(f, origin, x, m), to, dest, Merging(f, x, dest, m));
    }
    hide Tree, Acyclic, WeightsOk, Above, Merged, ThingRemoved, Merging;
  }

  /** Between taking and placing no stack has grown beyond its bound and no list has grown. */
  lemma {:induction false} BetweenBounded(f: Forest, origin: Item, x: Item, to: Item, dest: Item?, m: u32)
    requires Ready(f, origin, x, to, dest) && m > 0 && (f.kind[x].stackable ==> m <= f.count[x])
    ensures var h := Between(f, origin, x, to, dest, m);
            && Sound(h) && Stacks(h)
            && (forall c :: c in f.parent ==> c in h.parent && c in h.list && |h.list[c]| <= |f.list[c]|)
            && (forall c :: c in h.parent ==> c in f.parent)
  {
    hide Tree, Acyclic, WeightsOk, Above, Merged, ThingRemoved, Merging;
    var g := ThingRemoved(f, origin, x, m);
    TakenFrame(f, origin, x, m);
    TakenFrom(f, origin, x, m);
    if Merges(f, x, dest) {
      MergingFits(f, x, dest, m);
      MergedFrame(g, to, dest, Merging(f, x, dest, m));
    }
  }

  lemma {:induction false} SoundParts(f: Forest)
    requires Sound(f)
    ensures f.Keyed() && Shaped(f)
  {
  }

  lemma {:induction false} TakenFrom(f: Forest, origin: Item, x: Item, m: u32)
    requires Sound(f) && origin in f.parent && x in f.parent
    ensures forall c :: c in ThingRemoved(f, origin, x, m).parent ==> c in f.parent
  {
    SoundParts(f);
    hide *;
    forall c | c in ThingRemoved(f, origin, x, m).parent
      ensures c in f.parent
    {
      if c !in f.parent {
        TakenKeys(f, origin, x, m, c);
      }
    }
  }

  /** Placing a thing where there is a free slot, or a stack within its bound, keeps the bounds. */
  lemma {:induction false} AttachBounded(h: Forest, to: Item, x: Item)
    requires Sound(h) && CanLink(h, to, x) && Stacks(h)
    ensures var g := Attach(h, to, x, [x] + h.list[to]);
            && Sound(g) && Stacks(g) && (forall c :: c in g.parent ==> c in h.parent)
            && (forall c :: c in h.parent ==> c in g.parent && c in g.list && |g.list[c]| == |h.list[c]| + if c == to then 1 else 0)
  {
    AddFrontSound(h, to, x);
    AttachFrame(h, to, x, [x] + h.list[to]);
    hide Tree, Acyclic, WeightsOk, Attach, Above;
  }

  lemma {:induction false} PlacedBounded(h: Forest, to: Item, index: int, y: Item, kind: Kind, n: nat)
    requires Sound(h) && to in h.parent && to.isContainer && y !in h.parent && index < to.maxSize && n <= MAX_ITEM_COUNT
    requires Stacks(h) && !y.isContainer
    ensures var g := Placed(h, to, index, y, kind, n);
            && Sound(g) && Stacks(g) && (forall c :: c in g.parent ==> c in h.parent || c == y)
            && (forall c :: c in h.parent ==> c in g.parent && c in g.list && |g.list[c]| == |h.list[c]| + if c == to then 1 else 0)
  {
    PlacedFrame(h, to, index, y, kind, n);
    hide Tree, Acyclic, WeightsOk, Placed;
  }

  lemma {:induction false} SizesAfter(f: Forest, h: Forest, g: Forest, to: Item, y: Item)
    requires f.Keyed() && h.Keyed() && g.Keyed() && Fits(f) && to in f.parent && to.isContainer && |f.list[to]| < to.maxSize
    requires forall c :: c in f.parent ==> c in h.parent && |h.list[c]| <= |f.list[c]|
    requires forall c :: c in h.parent ==> c in g.parent && |g.list[c]| == |h.list[c]| + if c == to then 1 else 0
    requires forall c :: c in g.parent && c.isContainer ==> c in f.parent
    ensures Fits(g)
  {
  }

  lemma {:induction false} SizesKept(f: Forest, h: Forest)
    requires f.Keyed() && h.Keyed() && Fits(f)
    requires forall c :: c in h.parent ==> c in f.parent && |h.list[c]| <= |f.list[c]|
    ensures Fits(h)
  {
  }

  /** A move that was decided keeps every stack and every container within its bound. */
  lemma {:induction false} MoveKeepsBounds(f: Forest, origin: Item, x: Item, to: Item, index: int, dest: Item?, m: u32, y: Item)
    requires CanMove(f, origin, x, to, dest, m) && Carries(f, x, dest, m, y)
    requires Slotted(f, x, to, index, dest, m)
    ensures var g := Effect(f, origin, x, to, index, dest, m, y);
            && Sound(g) && Stacks(g)
            && (Fits(f) && (NeedsSlot(f, x, dest, m) ==> |f.list[to]| < to.maxSize) ==> Fits(g))
  {
    hide *;
    CanMoveOpen(f, origin, x, to, dest, m);
    BetweenBounded(f, origin, x, to, dest, m);
    SlotNeeded(f, origin, x, to, dest, m);
    SlottedIs(f, x, to, index, dest, m);
    var h := Between(f, origin, x, to, dest, m);
    var g := Effect(f, origin, x, to, index, dest, m, y);
    var onto := Merging(f, x, dest, m);
    SoundParts(h);
    if f.kind[x].stackable {
      EffectStack(f, origin, x, to, index, dest, m, y);
      if m > onto {
        PlacedBounded(h, to, index, y, f.kind[x], m - onto);
      }
    } else {
      EffectWhole(f, origin, x, to, index, dest, m, y);
      AttachBounded(h, to, x);
    }
    SoundParts(g);
    if Fits(f) {
      if !NeedsSlot(f, x, dest, m) {
        SizesKept(f, h);
      } else if |f.list[to]| < to.maxSize {
        SizesAfter(f, h, g, to, y);
      }
    }
  }

  lemma {:induction false} SlottedIs(f: Forest, x: Item, to: Item, index: int, dest: Item?, m: u32)
    requires f.Keyed() && x in f.parent && (dest != null ==> dest in f.parent)
    ensures Slotted(f, x, to, index, dest, m) <==> (NeedsSlot(f, x, dest, m) ==> index < to.maxSize)
  {
  }

  lemma {:induction false} SlotNeeded(f: Forest, origin: Item, x: Item, to: Item, dest: Item?, m: u32)
    requires CanMove(f, origin, x, to, dest, m)
    ensures f.Keyed() && x in f.parent && to in f.parent && to.isContainer && (dest != null ==> dest in f.parent)
    ensures NeedsSlot(f, x, dest, m) <==> !f.kind[x].stackable || m > Merging(f, x, dest, m)
    ensures f.kind[x].stackable ==> m <= MAX_ITEM_COUNT
    ensures forall c :: c in f.parent ==> c in f.list
  {
  }

  lemma {:induction false} PlacedNowhere(f: Forest, to: Item, index: int, y: Item, kind: Kind, n: nat)
    requires Sound(f) && to in f.parent && to.isContainer && y !in f.parent && index >= to.maxSize && n < 0x1_0000
    ensures Placed(f, to, index, y, kind, n) == Enter(f, y, kind, n)
  {
    hide Tree, Acyclic, WeightsOk, Above;
  }

  lemma {:induction false} EffectNowhere(f: Forest, origin: Item, x: Item, to: Item, index: int, dest: Item?, m: u32, y: Item)
    requires CanMove(f, origin, x, to, dest, m) && Carries(f, x, dest, m, y) && !f.kind[x].stackable && index >= to.maxSize
    ensures Effect(f, origin, x, to, index, dest, m, y) == Between(f, origin, x, to, dest, m)
  {
    BetweenReady(f, origin, x, to, dest, m);
    hide Tree, Acyclic, WeightsOk, Above, Between;
  }

  lemma {:induction false} EnterBounded(h: Forest, y: Item, kind: Kind, n: u16)
    requires Sound(h) && Stacks(h) && y !in h.parent && !y.isContainer && n <= MAX_ITEM_COUNT
    ensures var g := Enter(h, y, kind, n); Sound(g) && Stacks(g)
  {
    EnterSound(h, y, kind, n);
    hide Tree, Acyclic, WeightsOk;
  }

  /** Even a move that loses something keeps the weights right and the stacks within their bound. */
  lemma {:induction false} MoveKeepsStacks(f: Forest, origin: Item, x: Item, to: Item, index: int, dest: Item?, m: u32, y: Item)
    requires CanMove(f, origin, x, to, dest, m) && Carries(f, x, dest, m, y)
    ensures var g := Effect(f, origin, x, to, index, dest, m, y); Sound(g) && Stacks(g)
  {
    hide *;
    CanMoveOpen(f, origin, x, to, dest, m);
    SlotNeeded(f, origin, x, to, dest, m);
    SlottedIs(f, x, to, index, dest, m);
    if Slotted(f, x, to, index, dest, m) {
      MoveKeepsBounds(f, origin, x, to, index, dest, m, y);
    } else {
      BetweenBounded(f, origin, x, to, dest, m);
      var h := Between(f, origin, x, to, dest, m);
      if f.kind[x].stackable {
        var n := m - Merging(f, x, dest, m);
        EffectStack(f, origin, x, to, index, dest, m, y);
        PlacedNowhere(h, to, index, y, f.kind[x], n);
        EnterBounded(h, y, f.kind[x], n);
      } else {
        EffectNowhere(f, origin, x, to, index, dest, m, y);
      }
    }
  }

  /** Without the slot that is needed, what does not merge arrives nowhere. */
  lemma {:induction false} MoveLoses(f: Forest, origin: Item, x: Item, to: Item, index: int, dest: Item?, m: u32, y: Item,
                                     d: Item, k: Kind)
    requires CanMove(f, origin, x, to, dest, m) && Carries(f, x, dest, m, y) && d in f.parent && !Slotted(f, x, to, index, dest, m)
    ensures var g := Effect(f, origin, x, to, index, dest, m, y);
            var merged := if Merges(f, x, dest) then Merging(f, x, dest, m) else 0;
            && Sound(g) && d in g.parent && Carried(f, x, m) - merged == (if f.kind[x].stackable then m - merged else f.count[x])
            && Held(g, d, k) == Held(f, d, k) - (if d == origin && k == f.kind[x] then Carried(f, x, m) else 0)
                                + (if d == to && k == f.kind[x] then merged else 0)
  {
    hide *;
    CanMoveOpen(f, origin, x, to, dest, m);
    SlotNeeded(f, origin, x, to, dest, m);
    SlottedIs(f, x, to, index, dest, m);
    BetweenHolds(f, origin, x, to, dest, m, d, k);
    var h := Between(f, origin, x, to, dest, m);
    if f.kind[x].stackable {
      var n := m - Merging(f, x, dest, m);
      EffectStack(f, origin, x, to, index, dest, m, y);
      PlacedNowhere(h, to, index, y, f.kind[x], n);
      EnterHolds(h, y, f.kind[x], n, d, k);
      StillThere(h, y, f.kind[x], n, d);
    } else {
      EffectNowhere(f, origin, x, to, index, dest, m, y);
    }
  }

  /** The target receives what was taken exactly if the slot that is needed, if any, exists. */
  lemma {:induction false} MoveConservesIff(f: Forest, origin: Item, x: Item, to: Item, index: int, dest: Item?, m: u32, y: Item)
    requires CanMove(f, origin, x, to, dest, m) && Carries(f, x, dest, m, y) && f.count[x] > 0
    ensures var g := Effect(f, origin, x, to, index, dest, m, y);
            && Sound(g) && to in g.parent
            && (Held(g, to, f.kind[x]) == Held(f, to, f.kind[x]) + (if to == origin then 0 else Carried(f, x, m))
                <==> Slotted(f, x, to, index, dest, m))
  {
    hide *;
    CanMoveOpen(f, origin, x, to, dest, m);
    SlotNeeded(f, origin, x, to, dest, m);
    SlottedIs(f, x, to, index, dest, m);
    if Slotted(f, x, to, index, dest, m) {
      MoveConserves(f, origin, x, to, index, dest, m, y, to, f.kind[x]);
    } else {
      MoveLoses(f, origin, x, to, index, dest, m, y, to, f.kind[x]);
    }
  }

  /** A decided move can be made, and without the no-limit flag it finds the slot and the room that it needs. */
  lemma {:induction false} DecidedMoveIsSafe(f: Forest, origin: Item, target: Item, index: int, x: Item, count: u32, flags: Flags,
                                             tradeItem: Item?)
    requires Sound(f) && Stacks(f) && origin in f.parent && target in f.parent && target.isContainer && x in f.parent
    requires !flags.childIsOwner
    requires Decide(f, origin, target, index, x, count, flags, tradeItem).Go?
    ensures var go := Decide(f, origin, target, index, x, count, flags, tradeItem);
            && CanMove(f, origin, x, go.to, go.dest, go.m) && (f.kind[x].stackable ==> go.m <= count)
            && (!flags.nolimit ==> Slotted(f, x, go.to, go.index, go.dest, go.m))
            && (!flags.nolimit && NeedsSlot(f, x, go.dest, go.m) ==> |f.list[go.to]| < go.to.maxSize)
  {
    var (r, fl) := Hops(f, target, index, x, flags, MAP_MAX_LAYERS);
    HopsAreGood(f, target, index, x, flags, MAP_MAX_LAYERS);
    hide Tree, Acyclic, WeightsOk, Above, Stacks, Fits, Hops, Weigh, Effect, Ready, GoodRoute, Merging;
    GoIsReady(f, origin, r, x, count, fl, tradeItem);
  }

  // ---------------------------------------------------------------------------
  // Without limit
  // ---------------------------------------------------------------------------

  /**
   * Without limit, `target` sends `x` to a stack in a slot beyond its own capacity, and that stack cannot take all.
   * Only a container that holds more than its capacity has such a slot.
   */
  ghost predicate Overflows(f: Forest, target: Item, index: int, x: Item, count: u32, flags: Flags)
    requires Shaped(f) && target in f.parent && x in f.parent
  {
    var r := Destination(f, target, index, x, flags);
    && flags.nolimit && r.to == target && r.index >= target.maxSize
    && r.dest != null && r.dest in f.parent && count > MAX_ITEM_COUNT - f.count[r.dest]
  }

  lemma {:induction false} BeyondIsStack(f: Forest, c: Item, index: int, x: Item, flags: Flags)
    requires Shaped(f) && c in f.parent && c.isContainer && x in f.parent && c.unlocked
    ensures var r := Destination(f, c, index, x, flags);
            r.to == c && r.index >= c.maxSize ==>
              r.dest != null && r.dest in f.parent && f.kind[x].stackable && Takes(f, x, r.dest) && r.index < |f.list[c]|
  {
    ListIn(f, c);
    hide Tree, Acyclic;
  }

  lemma {:induction false} HopsStay(f: Forest, c: Item, index: int, x: Item, flags: Flags)
    requires Shaped(f) && c in f.parent && c.isContainer && x in f.parent
    ensures var r, h := Destination(f, c, index, x, flags), Hops(f, c, index, x, flags, MAP_MAX_LAYERS);
            if r.to == c then h == (r, flags) else !h.1.nolimit
  {
    var r := Destination(f, c, index, x, flags);
    DestinationIn(f, c, index, x, flags);
    hide Tree, Acyclic, Destination, GoodRoute;
    if r.to != c {
      HopsAreGood(f, r.to, r.index, x, PLAIN, MAP_MAX_LAYERS - 1);
    }
  }

  /** Without limit everything that is asked for is moved. */
  lemma {:induction false} AllMoves(f: Forest, origin: Item, r: Route, x: Item, count: u32, flags: Flags, tradeItem: Item?)
    requires Shaped(f) && origin in f.parent && x in f.parent && GoodRoute(f, r) && flags.nolimit && f.kind[x].stackable
    requires Weigh(f, origin, r, x, count, flags, tradeItem).Go?
    ensures Weigh(f, origin, r, x, count, flags, tradeItem).m == count
  {
    hide Tree, Acyclic, Above, AddAnswer, GoodRoute;
  }

  lemma {:induction false} GoAccepts(f: Forest, origin: Item, r: Route, x: Item, count: u32, flags: Flags, tradeItem: Item?)
    requires Shaped(f) && origin in f.parent && x in f.parent && GoodRoute(f, r) && !flags.childIsOwner
    requires Weigh(f, origin, r, x, count, flags, tradeItem).Go?
    ensures r.to in f.parent && r.to.unlocked
  {
    AcceptedNotAbove(f, r.to, r.index, x, flags);
    hide Tree, Acyclic, Above, AddAnswer;
  }

  lemma {:induction false} RoomOfStack(f: Forest, x: Item, to: Item, index: int, dest: Item, m: u32)
    requires f.Keyed() && Stacks(f) && x in f.parent && dest in f.parent && f.kind[x].stackable && Takes(f, x, dest)
    requires index >= to.maxSize
    ensures Slotted(f, x, to, index, dest, m) <==> m <= MAX_ITEM_COUNT - f.count[dest]
  {
  }

  /** A decided move lacks the slot that it needs exactly if the target overflows. */
  lemma {:induction false} SlottedUnlessOverflow(f: Forest, origin: Item, target: Item, index: int, x: Item, count: u32,
                                                 flags: Flags, tradeItem: Item?)
    requires Sound(f) && Stacks(f) && origin in f.parent && target in f.parent && target.isContainer && x in f.parent
    requires !flags.childIsOwner
    requires Decide(f, origin, target, index, x, count, flags, tradeItem).Go?
    ensures var go := Decide(f, origin, target, index, x, count, flags, tradeItem);
            && CanMove(f, origin, x, go.to, go.dest, go.m)
            && (Slotted(f, x, go.to, go.index, go.dest, go.m) <==> !Overflows(f, target, index, x, count, flags))
  {
    var (r, fl) := Hops(f, target, index, x, flags, MAP_MAX_LAYERS);
    HopsAreGood(f, target, index, x, flags, MAP_MAX_LAYERS);
    HopsStay(f, target, index, x, flags);
    hide Tree, Acyclic, WeightsOk, Above, Stacks, Fits, Hops, Weigh, Effect, Ready, Merging, Destination, Takes, AtSlot;
    GoIsReady(f, origin, r, x, count, fl, tradeItem);
    GoAccepts(f, origin, r, x, count, fl, tradeItem);
    if fl.nolimit && r.index >= r.to.maxSize {
      BeyondIsStack(f, target, index, x, flags);
      AllMoves(f, origin, r, x, count, fl, tradeItem);
      RoomOfStack(f, x, r.to, r.index, r.dest, count);
    }
  }

  /** No container overflows as long as none holds more than its capacity. */
  lemma {:induction false} FittingNeverOverflows(f: Forest, target: Item, index: int, x: Item, count: u32, flags: Flags)
    requires Shaped(f) && Fits(f) && target in f.parent && target.isContainer && x in f.parent
    ensures !Overflows(f, target, index, x, count, flags)
  {
    if target.unlocked {
      BeyondIsStack(f, target, index, x, flags);
      hide Tree, Acyclic, Destination, Takes;
    }
  }

  /**
   * Whatever is decided keeps every cached weight and every stack within its bound, and without the no-limit flag every
   * container too. Unless the target overflows, the move carries exactly its amount of one kind from one container to the
   * other and changes no other container and no other kind.
   */
  lemma {:induction false} SuccessfulMove(f: Forest, origin: Item, target: Item, index: int, x: Item, count: u32, flags: Flags,
                                          tradeItem: Item?, y: Item, d: Item, k: Kind)
    requires Sound(f) && Stacks(f) && origin in f.parent && target in f.parent && target.isContainer && x in f.parent
    requires !flags.childIsOwner && d in f.parent
    requires Decide(f, origin, target, index, x, count, flags, tradeItem).Go?
    ensures var go := Decide(f, origin, target, index, x, count, flags, tradeItem);
            && CanMove(f, origin, x, go.to, go.dest, go.m)
            && (Carries(f, x, go.dest, go.m, y) ==>
                var g := Effect(f, origin, x, go.to, go.index, go.dest, go.m, y);
                var carried := if k == f.kind[x] then Carried(f, x, go.m) else 0;
                && Sound(g) && Stacks(g) && (!flags.nolimit && Fits(f) ==> Fits(g)) && d in g.parent
                && (!Overflows(f, target, index, x, count, flags) ==>
                    Held(g, d, k) == Held(f, d, k) - (if d == origin then carried else 0) + (if d == go.to then carried else 0)))
  {
    hide *;
    SoundParts(f);
    DecidedMoveIsSafe(f, origin, target, index, x, count, flags, tradeItem);
    SlottedUnlessOverflow(f, origin, target, index, x, count, flags, tradeItem);
    var go := Decide(f, origin, target, index, x, count, flags, tradeItem);
    CanMoveOpen(f, origin, x, go.to, go.dest, go.m);
    if Carries(f, x, go.dest, go.m, y) {
      if Overflows(f, target, index, x, count, flags) {
        MoveKeepsStacks(f, origin, x, go.to, go.index, go.dest, go.m, y);
        MoveLoses(f, origin, x, go.to, go.index, go.dest, go.m, y, d, k);
      } else {
        MoveConserves(f, origin, x, go.to, go.index, go.dest, go.m, y, d, k);
        MoveKeepsBounds(f, origin, x, go.to, go.index, go.dest, go.m, y);
      }
    }
  }

  /** The target of a decided move receives what was taken if and only if it does not overflow. */
  lemma {:induction false} DecidedMoveConservesIff(f: Forest, origin: Item, target: Item, index: int, x: Item, count: u32,
                                                   flags: Flags, tradeItem: Item?, y: Item)
    requires Sound(f) && Stacks(f) && origin in f.parent && target in f.parent && target.isContainer && x in f.parent
    requires !flags.childIsOwner && f.count[x] > 0
    requires Decide(f, origin, target, index, x, count, flags, tradeItem).Go?
    ensures var go := Decide(f, origin, target, index, x, count, flags, tradeItem);
            && CanMove(f, origin, x, go.to, go.dest, go.m)
            && (Carries(f, x, go.dest, go.m, y) ==>
                var g := Effect(f, origin, x, go.to, go.index, go.dest, go.m, y);
                && Sound(g) && go.to in g.parent
                && (Held(g, go.to, f.kind[x]) == Held(f, go.to, f.kind[x]) + (if go.to == origin then 0 else Carried(f, x, go.m))
                    <==> !Overflows(f, target, index, x, count, flags)))
  {
    hide *;
    SoundParts(f);
    SlottedUnlessOverflow(f, origin, target, index, x, count, flags, tradeItem);
    var go := Decide(f, origin, target, index, x, count, flags, tradeItem);
    CanMoveOpen(f, origin, x, go.to, go.dest, go.m);
    if Carries(f, x, go.dest, go.m, y) {
      MoveConservesIff(f, origin, x, go.to, go.index, go.dest, go.m, y);
    }
  }
}
