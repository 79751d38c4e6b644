/** A run from an empty world after which a move without limit loses part of a stack. */
module Overflow {
  import opened Containers
  import opened ForestRuns
  import opened Holdings
  import opened Moves

  const BOX := Kind(1, 0, false, true, true, 800)
  const COIN := Kind(2, 0, true, true, true, 10)
  const NOLIMIT := Flags(true, false, false, false)

  /** Two boxes with one slot each, two stacks of coins, and a few coins more. */
  ghost predicate Distinguishable(bag: Item, chest: Item, full: Item, coins: Item, more: Item) {
    && bag != chest && full != coins && full != more && coins != more
    && bag.isContainer && bag.unlocked && bag.maxSize == 1 && chest.isContainer && chest.unlocked && chest.maxSize == 1
    && !full.isContainer && !coins.isContainer && !more.isContainer
  }

  function Making(bag: Item, chest: Item, full: Item, coins: Item, more: Item): seq<Action> {
    [Appear(bag, BOX, 1), Appear(chest, BOX, 1), Appear(full, COIN, MAX_ITEM_COUNT), Appear(coins, COIN, MAX_ITEM_COUNT - 5),
     Appear(more, COIN, 10)]
  }

  /** Both stacks are put at the end of the bag, which does not ask for its capacity. */
  function Putting(bag: Item, chest: Item, full: Item, coins: Item, more: Item): seq<Action> {
    [AddBack(bag, full, NOLIMIT), AddBack(bag, coins, NOLIMIT), AddBack(chest, more, NOLIMIT)]
  }

  function Filling(bag: Item, chest: Item, full: Item, coins: Item, more: Item): seq<Action> {
    Making(bag, chest, full, coins, more) + Putting(bag, chest, full, coins, more)
  }

  /** The forest has these parents, lists, kinds and counts. */
  predicate Looks(f: Forest, parent: map<Item, Item?>, list: map<Item, seq<Item>>, kind: map<Item, Kind>, count: map<Item, u16>) {
    f.parent == parent && f.list == list && f.kind == kind && f.count == count
  }

  lemma {:induction false} Appears(f: Forest, x: Item, kind: Kind, count: u16)
    requires Sound(f) && x !in f.parent
    ensures Looks(Step(f, Appear(x, kind, count)), f.parent[x := null], f.list[x := []], f.kind[x := kind], f.count[x := count])
  {
    hide Sound, Sum, Above;
  }

  lemma {:induction false} Joins(f: Forest, c: Item, x: Item)
    requires Sound(f) && c in f.parent && c.isContainer && c.unlocked && f.parent[c] == null
    requires x in f.parent && f.parent[x] == null && x != c && x in f.kind && f.kind[x].pickupable && c in f.list
    ensures Looks(Step(f, AddBack(c, x, NOLIMIT)), f.parent[x := c], f.list[c := f.list[c] + [x]], f.kind, f.count)
  {
    assert !Above(f.parent, x, c);
    assert Accepted(f, c, INDEX_WHEREEVER, x, NOLIMIT);
    hide Tree, Acyclic, Above, WeightsOk, Attach;
    AttachFrame(f, c, x, f.list[c] + [x]);
  }

  /** The state after the filling: the bag holds twice as many stacks as it has slots. */
  ghost predicate Overfull(f: Forest, bag: Item, chest: Item, full: Item, coins: Item, more: Item) {
    && f.parent == map[bag := null, chest := null, full := bag, coins := bag, more := chest]
    && f.list == map[bag := [full, coins], chest := [more], full := [], coins := [], more := []]
    && f.kind == map[bag := BOX, chest := BOX, full := COIN, coins := COIN, more := COIN]
    && f.count == map[bag := 1, chest := 1, full := MAX_ITEM_COUNT, coins := MAX_ITEM_COUNT - 5, more := 10]
  }

  /** Everything made, nothing put anywhere. */
  ghost predicate Made(f: Forest, bag: Item, chest: Item, full: Item, coins: Item, more: Item) {
    && f.parent == map[bag := null, chest := null, full := null, coins := null, more := null]
    && f.list == map[bag := [], chest := [], full := [], coins := [], more := []]
    && f.kind == map[bag := BOX, chest := BOX, full := COIN, coins := COIN, more := COIN]
    && f.count == map[bag := 1, chest := 1, full := MAX_ITEM_COUNT, coins := MAX_ITEM_COUNT - 5, more := 10]
  }

  lemma {:induction false} MakingMakes(bag: Item, chest: Item, full: Item, coins: Item, more: Item)
    requires Distinguishable(bag, chest, full, coins, more)
    ensures Sound(Nothing()) && Made(Run(Nothing(), Making(bag, chest, full, coins, more)), bag, chest, full, coins, more)
  {
    hide Step, Run, Sound, Wrap;
    NothingIsSound();
    var f0, acts := Nothing(), Making(bag, chest, full, coins, more);
    Appears(f0, bag, BOX, 1);
    var f1 := Taken(f0, acts, 0);
    Appears(f1, chest, BOX, 1);
    var f2 := Taken(f1, acts, 1);
    Appears(f2, full, COIN, MAX_ITEM_COUNT);
    var f3 := Taken(f2, acts, 2);
    Appears(f3, coins, COIN, MAX_ITEM_COUNT - 5);
    var f4 := Taken(f3, acts, 3);
    Appears(f4, more, COIN, 10);
    var f5 := Taken(f4, acts, 4);
    assert acts[0..] == acts;
  }

  lemma {:induction false} PuttingPuts(f5: Forest, bag: Item, chest: Item, full: Item, coins: Item, more: Item)
    requires Distinguishable(bag, chest, full, coins, more) && Sound(f5) && Made(f5, bag, chest, full, coins, more)
    ensures Overfull(Run(f5, Putting(bag, chest, full, coins, more)), bag, chest, full, coins, more)
  {
    hide Step, Run, Sound, Wrap, Overfull;
    var acts := Putting(bag, chest, full, coins, more);
    Joins(f5, bag, full);
    var f6 := Taken(f5, acts, 0);
    Joins(f6, bag, coins);
    var f7 := Taken(f6, acts, 1);
    Joins(f7, chest, more);
    var f8 := Taken(f7, acts, 2);
    assert acts[0..] == acts;
    PutParents(f5.parent, bag, chest, full, coins, more);
    PutLists(f5.list, bag, chest, full, coins, more);
    SameKinds(f5, f8, bag, chest, full, coins, more);
  }

  lemma {:induction false} PutParents(p: map<Item, Item?>, bag: Item, chest: Item, full: Item, coins: Item, more: Item)
    requires Distinguishable(bag, chest, full, coins, more)
    requires p == map[bag := null, chest := null, full := null, coins := null, more := null]
    ensures p[full := bag][coins := bag][more := chest]
         == map[bag := null, chest := null, full := bag, coins := bag, more := chest]
  {
  }

  lemma {:induction false} PutLists(l: map<Item, seq<Item>>, bag: Item, chest: Item, full: Item, coins: Item, more: Item)
    requires Distinguishable(bag, chest, full, coins, more)
    requires l == map[bag := [], chest := [], full := [], coins := [], more := []]
    ensures var l1 := l[bag := l[bag] + [full]];
            var l2 := l1[bag := l1[bag] + [coins]];
            l2[chest := l2[chest] + [more]] == map[bag := [full, coins], chest := [more], full := [], coins := [], more := []]
  {
    assert l[bag] + [full] + [coins] == [full, coins] && l[chest] + [more] == [more];
  }

  lemma {:induction false} SameKinds(f: Forest, g: Forest, bag: Item, chest: Item, full: Item, coins: Item, more: Item)
    requires Made(f, bag, chest, full, coins, more) && g.kind == f.kind && g.count == f.count
    requires g.parent == map[bag := null, chest := null, full := bag, coins := bag, more := chest]
    requires g.list == map[bag := [full, coins], chest := [more], full := [], coins := [], more := []]
    ensures Overfull(g, bag, chest, full, coins, more)
  {
  }

  /** The state after the k-th action. */
  lemma {:induction false} Taken(f: Forest, acts: seq<Action>, k: nat) returns (g: Forest)
    requires Sound(f) && k < |acts|
    ensures g == Step(f, acts[k]) && Sound(g)
    ensures Run(f, acts[k..]) == Run(g, acts[k + 1..]) && Run(g, acts[|acts|..]) == g
  {
    g := Step(f, acts[k]);
    assert acts[k..][1..] == acts[k + 1..];
  }

  lemma {:induction false} RunSplit(f: Forest, a: seq<Action>, b: seq<Action>)
    requires Sound(f)
    ensures Sound(Run(f, a)) && Run(f, a + b) == Run(Run(f, a), b)
    decreases |a|
  {
    hide Step;
    RunKeepsSound(f, a);
    if a == [] {
      assert a + b == b;
    } else {
      RunSplit(Step(f, a[0]), a[1..], b);
      assert (a + b)[1..] == a[1..] + b;
    }
  }

  lemma {:induction false} Filled(bag: Item, chest: Item, full: Item, coins: Item, more: Item)
    requires Distinguishable(bag, chest, full, coins, more)
    ensures Sound(Nothing()) && Overfull(Run(Nothing(), Filling(bag, chest, full, coins, more)), bag, chest, full, coins, more)
  {
    hide Run, Sound, Overfull, Made, Making, Putting;
    var making, putting := Making(bag, chest, full, coins, more), Putting(bag, chest, full, coins, more);
    MakingMakes(bag, chest, full, coins, more);
    RunSplit(Nothing(), making, putting);
    PuttingPuts(Run(Nothing(), making), bag, chest, full, coins, more);
  }

  // ---------------------------------------------------------------------------
  // The move
  // ---------------------------------------------------------------------------

  lemma {:induction false} OverfullParts(f: Forest, bag: Item, chest: Item, full: Item, coins: Item, more: Item)
    requires Distinguishable(bag, chest, full, coins, more) && Sound(f) && Overfull(f, bag, chest, full, coins, more)
    ensures Shaped(f) && f.Keyed() && Stacks(f) && !Fits(f)
    ensures bag in f.parent && chest in f.parent && coins in f.parent && more in f.parent
    ensures f.list[bag] == [full, coins] && f.list[chest] == [more] && f.kind[more] == f.kind[coins] == COIN
    ensures f.count[more] == 10 && f.count[coins] == MAX_ITEM_COUNT - 5
    ensures !Above(f.parent, more, bag) && AllIn(f, f.list[bag])
    ensures !Takes(f, more, full) && Takes(f, more, coins) && f.parent[more] == chest
  {
    hide Tree, Acyclic, WeightsOk;
    assert f.list[bag] == [full, coins];
    assert |f.list[bag]| > bag.maxSize;
  }

  /** The first stack of the bag with room is in its second slot. */
  lemma {:induction false} SecondSlot(f: Forest, full: Item, coins: Item, more: Item)
    requires f.Keyed() && AllIn(f, [full, coins]) && more in f.parent && !Takes(f, more, full) && Takes(f, more, coins)
    ensures FirstStack(f, [full, coins], more) == 1
  {
    hide Takes;
    var n := FirstStack(f, [full, coins], more);
    assert n == 1 || n == 0 || n == -1;
    assert [full, coins][0] == full && [full, coins][1] == coins;
  }

  /**
   * Ten coins are dropped anywhere into the bag, without limit. The move is decided, five coins go onto the second stack,
   * and the other five, for which the bag has no second slot, are gone.
   */
  lemma {:induction false} OverfullBagLosesCoins(bag: Item, chest: Item, full: Item, coins: Item, more: Item, y: Item)
    requires Distinguishable(bag, chest, full, coins, more)
    ensures Sound(Nothing())
    ensures var f := Run(Nothing(), Filling(bag, chest, full, coins, more));
            && Sound(f) && Stacks(f) && bag in f.parent && chest in f.parent && more in f.parent
            && Overflows(f, bag, 255, more, 10, NOLIMIT)
            && Decide(f, chest, bag, 255, more, 10, NOLIMIT, null) == Go(bag, 1, coins, 10, NoError)
            && CanMove(f, chest, more, bag, coins, 10) && !Slotted(f, more, bag, 1, coins, 10)
            && (Carries(f, more, coins, 10, y) ==>
                var g := Effect(f, chest, more, bag, 1, coins, 10, y);
                && Sound(g) && bag in g.parent && chest in g.parent
                && Held(g, chest, COIN) == Held(f, chest, COIN) - 10 && Held(g, bag, COIN) == Held(f, bag, COIN) + 5)
  {
    hide *;
    Filled(bag, chest, full, coins, more);
    RunFromNothing(Filling(bag, chest, full, coins, more));
    var f := Run(Nothing(), Filling(bag, chest, full, coins, more));
    OverfullParts(f, bag, chest, full, coins, more);
    OverfullMoves(f, bag, chest, full, coins, more);
    MergesFive(f, more, coins);
    SlottedUnlessOverflow(f, chest, bag, 255, more, 10, NOLIMIT, null);
    if Carries(f, more, coins, 10, y) {
      MoveLoses(f, chest, more, bag, 1, coins, 10, y, bag, COIN);
      MoveLoses(f, chest, more, bag, 1, coins, 10, y, chest, COIN);
    }
  }

  lemma {:induction false} MergesFive(f: Forest, more: Item, coins: Item)
    requires f.Keyed() && more in f.parent && coins in f.parent && f.kind[more] == f.kind[coins] == COIN
    requires f.count[coins] == MAX_ITEM_COUNT - 5
    ensures Merges(f, more, coins) && Merging(f, more, coins, 10) == 5 && Carried(f, more, 10) == 10
    ensures !NOLIMIT.childIsOwner
  {
  }

  lemma {:induction false} OverfullMoves(f: Forest, bag: Item, chest: Item, full: Item, coins: Item, more: Item)
    requires Distinguishable(bag, chest, full, coins, more) && Sound(f) && Overfull(f, bag, chest, full, coins, more)
    ensures Shaped(f) && bag in f.parent && chest in f.parent && more in f.parent && bag.isContainer && bag != chest && coins != more
    ensures Overflows(f, bag, 255, more, 10, NOLIMIT)
    ensures Decide(f, chest, bag, 255, more, 10, NOLIMIT, null) == Go(bag, 1, coins, 10, NoError)
  {
    OverfullParts(f, bag, chest, full, coins, more);
    hide Sound, Shaped, Tree, Acyclic, Above, WeightsOk, FirstStack, Takes, Overfull, Stacks, Fits;
    SecondSlot(f, full, coins, more);
    assert Stacking(f, bag, INDEX_WHEREEVER, more, NOLIMIT) == Route(bag, 1, coins);
    assert Destination(f, bag, 255, more, NOLIMIT) == Route(bag, 1, coins);
    HopsStay(f, bag, 255, more, NOLIMIT);
    HopsAreGood(f, bag, 255, more, NOLIMIT, MAP_MAX_LAYERS);
    hide Hops, Destination, GoodRoute;
    assert more in f.list[chest];
  }
}
