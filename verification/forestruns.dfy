/** What any sequence of container operations keeps. */
module ForestRuns {
  import opened Containers

  // ---------------------------------------------------------------------------
  // Runs
  // ---------------------------------------------------------------------------

  datatype Action =
    | Appear(x: Item, kind: Kind, count: u16)
    | Add(c: Item, index: int, x: Item, flags: Flags)
    | AddBack(c: Item, x: Item, flags: Flags)
    | InternalAdd(c: Item, x: Item, flags: Flags)
    | Update(c: Item, x: Item, kind: Kind, count: u16)
    | Replace(c: Item, k: nat, x: Item, flags: Flags)
    | Remove(c: Item, x: Item, taken: u32)

  /** `x` is free and `c` has been asked and has accepted it. */
  ghost predicate Accepted(f: Forest, c: Item, index: int, x: Item, flags: Flags)
    requires Shaped(f)
  {
    && c in f.parent && c.isContainer && x in f.parent && f.parent[x] == null
    && !flags.childIsOwner && AddAnswer(f, c, index, x, flags) == NoError
  }

  ghost predicate Allowed(f: Forest, a: Action)
    requires Shaped(f)
  {
    match a
    case Appear(x, _, _) => x !in f.parent
    case Add(c, index, x, flags) => Accepted(f, c, index, x, flags)
    case AddBack(c, x, flags) => Accepted(f, c, INDEX_WHEREEVER, x, flags)
    case InternalAdd(c, x, flags) => Accepted(f, c, INDEX_WHEREEVER, x, flags)
    case Update(c, x, _, _) => c in f.parent && x in f.parent
    case Replace(c, k, x, flags) => Accepted(f, c, k, x, flags)
    case Remove(c, x, _) => c in f.parent && x in f.parent
  }

  ghost function Apply(f: Forest, a: Action): Forest
    requires Shaped(f) && Allowed(f, a)
  {
    match a
    case Appear(x, kind, count) => Enter(f, x, kind, count)
    case Add(c, index, x, _) => ThingAdded(f, c, index, x)
    case AddBack(c, x, _) => ItemAddedBack(f, c, x)
    case InternalAdd(c, x, _) => ThingAddedInternally(f, c, x)
    case Update(c, x, kind, count) => ThingUpdated(f, c, x, kind, count)
    case Replace(c, k, x, _) => ThingReplaced(f, c, k, x)
    case Remove(c, x, count) => ThingRemoved(f, c, x, count)
  }

  /** No single step makes a cached total wrong or closes a cycle. */
  lemma {:induction false} StepKeepsSound(f: Forest, a: Action)
    requires Sound(f) && Allowed(f, a)
    ensures Sound(Apply(f, a))
  {
    hide Tree, Acyclic, WeightsOk, Above, Attach, Change, Swap;
    match a
    case Appear(x, kind, count) => EnterSound(f, x, kind, count);
    case Add(c, index, x, _) => AddFrontSound(f, c, x);
    case AddBack(c, x, _) => AddBackSound(f, c, x);
    case InternalAdd(c, x, _) => AddFrontSound(f, c, x);
    case Update(c, x, kind, count) =>
      if x in f.list[c] {
        ChangeSound(f, c, x, kind, count);
      }
    case Replace(c, k, x, _) =>
      if k < |f.list[c]| {
        SwapSound(f, c, k, x);
      }
    case Remove(c, x, count) => ThingRemovedSound(f, c, x, count);
  }

  /** Takes an action if it is allowed. */
  ghost function Step(f: Forest, a: Action): (g: Forest)
    requires Sound(f)
    ensures Sound(g)
  {
    if Allowed(f, a) then (StepKeepsSound(f, a); Apply(f, a)) else f
  }

  /** Takes the actions in turn; one that is not allowed is not taken. */
  ghost function Run(f: Forest, actions: seq<Action>): Forest
    requires Sound(f)
    decreases |actions|
  {
    if actions == [] then f else Run(Step(f, actions[0]), actions[1..])
  }

  ghost function Nothing(): Forest { Forest(map[], map[], map[], map[], map[]) }

  lemma {:induction false} NothingIsSound()
    ensures Sound(Nothing())
  {
  }

  /** In every reachable state all cached totals are right and all upward walks end. */
  lemma {:induction false} RunKeepsSound(f: Forest, actions: seq<Action>)
    requires Sound(f)
    ensures Sound(Run(f, actions))
    decreases |actions|
  {
    if actions != [] {
      hide Sound, Step;
      RunKeepsSound(Step(f, actions[0]), actions[1..]);
    }
  }

  /** So every run from an empty world ends in a sound forest. */
  lemma {:induction false} RunFromNothing(actions: seq<Action>)
    ensures Sound(Nothing()) && Sound(Run(Nothing(), actions))
  {
    hide Run;
    NothingIsSound();
    RunKeepsSound(Nothing(), actions);
  }

  // ---------------------------------------------------------------------------
  // The cached total is the recursive sum
  // ---------------------------------------------------------------------------

  ghost function Deeper(parent: map<Item, Item?>, n: nat): set<Item>
    requires Acyclic(parent)
  {
    set y | y in parent && Depth(parent, y) > n
  }

  /** The own weights of everything inside the first `k` things in `c`, at any depth. */
  ghost function Inside(f: Forest, c: Item, k: nat): int
    requires Shaped(f) && c in f.parent && k <= |f.list[c]|
    decreases Deeper(f.parent, Depth(f.parent, c)), k
  {
    if k == 0 then 0
    else
      var x := f.list[c][k - 1];
      ChildIsDeeper(f, c, x);
      Inside(f, c, k - 1) + OwnWeight(f.kind[x], f.count[x]) + Inside(f, x, |f.list[x]|)
  }

  lemma {:induction false} ChildIsDeeper(f: Forest, c: Item, x: Item)
    requires Shaped(f) && c in f.parent && x in f.list[c]
    ensures x in f.parent && Deeper(f.parent, Depth(f.parent, x)) < Deeper(f.parent, Depth(f.parent, c))
  {
    ChildNotAbove(f, c, x);
    DepthUp(f.parent, x);
    assert x in Deeper(f.parent, Depth(f.parent, c)) && x !in Deeper(f.parent, Depth(f.parent, x));
  }

  /** In a sound forest every cached total is, modulo 2^32, the weight of everything inside. */
  lemma {:induction false} TotalIsEverythingInside(f: Forest, c: Item)
    requires Sound(f) && c in f.parent
    ensures f.total[c] == Wrap(Inside(f, c, |f.list[c]|))
    decreases Deeper(f.parent, Depth(f.parent, c)), |f.list[c]| + 1
  {
    var s := f.list[c];
    SumIsInside(f, c, |s|);
    assert s[..|s|] == s;
    assert Deficit(f, c) == 0;
    DeficitOf(f, c, s);
    hide *;
    TotalFromDeficit(Sum(f, s), f.total[c]);
  }

  lemma {:induction false} TotalFromDeficit(sum: int, total: u32)
    requires Wrap(sum - total) == 0
    ensures Wrap(sum) == total
  {
    WrapTurns(total, -Turns(sum - total));
  }

  lemma {:induction false} WrapBoth(a: int, b: int, c: int, d: int)
    requires Wrap(a) == Wrap(c) && Wrap(b) == Wrap(d)
    ensures Wrap(a + b) == Wrap(c + d)
  {
    var k := Turns(c) - Turns(a) + Turns(d) - Turns(b);
    hide Wrap, Turns;
    WrapTurns(c + d, k);
  }

  lemma {:induction false} WrapAround(own: int, total: u32, inside: int)
    requires total == Wrap(inside)
    ensures Wrap(Wrap(own + total)) == Wrap(own + inside)
  {
    WrapTurns(own + inside, Turns(inside));
    assert own + inside + Turns(inside) * 0x1_0000_0000 == own + total;
  }

  /** What an item reports is its own weight and everything inside it. */
  lemma {:induction false} WeightIsInside(f: Forest, x: Item)
    requires Sound(f) && x in f.parent
    ensures Wrap(Weight(f, x)) == Wrap(OwnWeight(f.kind[x], f.count[x]) + Inside(f, x, |f.list[x]|))
    decreases Deeper(f.parent, Depth(f.parent, x)), |f.list[x]| + 2
  {
    if x.isContainer {
      TotalIsEverythingInside(f, x);
      var own, inside := OwnWeight(f.kind[x], f.count[x]), Inside(f, x, |f.list[x]|);
      assert Weight(f, x) == Wrap(own as int + f.total[x] as int);
      hide *;
      WrapAround(own, f.total[x], inside);
    } else {
      assert f.list[x] == [];
    }
  }

  lemma {:induction false} SumLast(f: Forest, s: seq<Item>, k: nat)
    requires f.Keyed() && AllIn(f, s) && 0 < k <= |s|
    ensures AllIn(f, s[..k]) && AllIn(f, s[..k - 1]) && Sum(f, s[..k]) == Sum(f, s[..k - 1]) + Weight(f, s[k - 1])
  {
    assert s[..k][..k - 1] == s[..k - 1];
  }

  lemma {:induction false} SumIsInside(f: Forest, c: Item, k: nat)
    requires Sound(f) && c in f.parent && k <= |f.list[c]|
    ensures AllIn(f, f.list[c][..k]) && Wrap(Sum(f, f.list[c][..k])) == Wrap(Inside(f, c, k))
    decreases Deeper(f.parent, Depth(f.parent, c)), k
  {
    ListIn(f, c);
    if k > 0 {
      var s := f.list[c];
      var x := s[k - 1];
      ChildIsDeeper(f, c, x);
      SumIsInside(f, c, k - 1);
      WeightIsInside(f, x);
      SumLast(f, s, k);
      var own, rest := OwnWeight(f.kind[x], f.count[x]), Inside(f, x, |f.list[x]|);
      assert Inside(f, c, k) == Inside(f, c, k - 1) + own + rest;
      hide *;
      WrapBoth(Sum(f, s[..k - 1]), Weight(f, x), Inside(f, c, k - 1), own + rest);
    }
  }
}
