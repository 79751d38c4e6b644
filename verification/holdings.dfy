/** How much of each kind of item a container holds, and how the container operations change that. */
module Holdings {
  import opened Containers

  /** The count of items of kind `k` in a list. */
  ghost function Amount(f: Forest, s: seq<Item>, k: Kind): int
    requires f.Keyed() && AllIn(f, s)
  {
    if s == [] then 0 else Amount(f, s[..|s| - 1], k) + Share(f, s[|s| - 1], k)
  }

  ghost function Share(f: Forest, x: Item, k: Kind): int
    requires f.Keyed() && x in f.parent
  {
    if f.kind[x] == k then f.count[x] else 0
  }

  /** The count of items of kind `k` directly in container `c`. */
  ghost function Held(f: Forest, c: Item, k: Kind): int
    requires Shaped(f) && c in f.parent
  {
    ListIn(f, c);
    Amount(f, f.list[c], k)
  }

  lemma {:induction false} AmountSame(f: Forest, g: Forest, s: seq<Item>, k: Kind)
    requires f.Keyed() && g.Keyed() && AllIn(f, s) && AllIn(g, s)
    requires forall x :: x in s ==> Share(g, x, k) == Share(f, x, k)
    ensures Amount(g, s, k) == Amount(f, s, k)
  {
    if s != [] {
      AmountSame(f, g, s[..|s| - 1], k);
    }
  }

  lemma {:induction false} AmountSplit(f: Forest, a: seq<Item>, b: seq<Item>, k: Kind)
    requires f.Keyed() && AllIn(f, a) && AllIn(f, b)
    ensures AllIn(f, a + b) && Amount(f, a + b, k) == Amount(f, a, k) + Amount(f, b, k)
  {
    if b == [] {
      assert a + b == a;
    } else {
      AmountSplit(f, a, b[..|b| - 1], k);
      assert (a + b)[..|a + b| - 1] == a + b[..|b| - 1];
    }
  }

  lemma {:induction false} AmountOne(f: Forest, x: Item, k: Kind)
    requires f.Keyed() && x in f.parent
    ensures AllIn(f, [x]) && Amount(f, [x], k) == Share(f, x, k)
  {
    assert [x][..0] == [];
  }

  lemma {:induction false} AmountAround(f: Forest, a: seq<Item>, x: Item, b: seq<Item>, k: Kind)
    requires f.Keyed() && AllIn(f, a) && x in f.parent && AllIn(f, b)
    ensures AllIn(f, (a + [x]) + b) && AllIn(f, a + b)
    ensures Amount(f, (a + [x]) + b, k) == Amount(f, a + b, k) + Share(f, x, k)
  {
    AmountOne(f, x, k);
    AmountSplit(f, a, [x], k);
    AmountSplit(f, a + [x], b, k);
    AmountSplit(f, a, b, k);
  }

  lemma {:induction false} AmountChange(f: Forest, g: Forest, s: seq<Item>, x: Item, k: Kind)
    requires f.Keyed() && g.Keyed() && AllIn(f, s) && AllIn(g, s) && Distinct(s) && x in s
    requires forall y :: y in s && y != x ==> Share(g, y, k) == Share(f, y, k)
    ensures Amount(g, s, k) == Amount(f, s, k) - Share(f, x, k) + Share(g, x, k)
  {
    hide Share;
    var n := |s| - 1;
    if s[n] == x {
      AmountSame(f, g, s[..n], k);
    } else {
      AmountChange(f, g, s[..n], x, k);
    }
  }

  /** The same list, and the same kinds and counts in it. */
  lemma {:induction false} HeldSame(f: Forest, g: Forest, c: Item, k: Kind)
    requires Shaped(f) && Shaped(g) && c in f.parent && c in g.parent && g.list[c] == f.list[c]
    requires forall x :: x in f.list[c] && x in f.parent && x in g.parent ==> Share(g, x, k) == Share(f, x, k)
    ensures Held(g, c, k) == Held(f, c, k)
  {
    ListIn(f, c);
    ListIn(g, c);
    hide Tree, Acyclic, Share;
    AmountSame(f, g, f.list[c], k);
  }

  // ---------------------------------------------------------------------------
  // The operations
  // ---------------------------------------------------------------------------

  /** `x` changes its place in lists and parents only: shapes may differ, kinds and counts do not. */
  ghost predicate SameItems(f: Forest, g: Forest)
    requires f.Keyed() && g.Keyed()
  {
    forall x {:trigger x in f.parent} :: x in f.parent ==> x in g.parent && g.kind[x] == f.kind[x] && g.count[x] == f.count[x]
  }

  lemma {:induction false} HeldWithout(f: Forest, g: Forest, c: Item, a: seq<Item>, x: Item, b: seq<Item>, k: Kind)
    requires Shaped(f) && Shaped(g) && SameItems(f, g) && c in f.parent && x in f.parent
    requires f.list[c] == (a + [x]) + b && g.list[c] == a + b
    ensures c in g.parent && Held(g, c, k) == Held(f, c, k) - Share(f, x, k)
  {
    ListIn(f, c);
    ListIn(g, c);
    assert AllIn(f, a) && AllIn(f, b) by {
      assert forall y :: y in a || y in b ==> y in (a + [x]) + b;
    }
    AmountAround(f, a, x, b, k);
    hide Tree, Acyclic, Amount;
    AmountSame(f, g, a + b, k);
  }

  lemma {:induction false} HeldWith(f: Forest, g: Forest, c: Item, a: seq<Item>, x: Item, b: seq<Item>, k: Kind)
    requires Shaped(f) && Shaped(g) && SameItems(f, g) && c in f.parent && x in f.parent
    requires f.list[c] == a + b && g.list[c] == (a + [x]) + b
    ensures c in g.parent && Held(g, c, k) == Held(f, c, k) + Share(f, x, k)
  {
    ListIn(f, c);
    assert AllIn(f, a) && AllIn(f, b) by {
      assert forall y :: y in a || y in b ==> y in a + b;
    }
    AmountAround(f, a, x, b, k);
    hide Tree, Acyclic, Amount;
    AmountSame(f, g, (a + [x]) + b, k);
  }

  /** Taking `x` out of `c` takes its count out of `c` and touches no other container. */
  lemma {:induction false} DetachHolds(f: Forest, c: Item, x: Item, i: nat, d: Item, k: Kind)
    requires Sound(f) && c in f.parent && i < |f.list[c]| && f.list[c][i] == x && d in f.parent
    ensures x in f.parent && Sound(Detach(f, c, x, f.list[c][..i] + f.list[c][i + 1..]))
    ensures Held(Detach(f, c, x, f.list[c][..i] + f.list[c][i + 1..]), d, k) ==
            Held(f, d, k) - if d == c then Share(f, x, k) else 0
  {
    var s := f.list[c];
    var a, b := s[..i], s[i + 1..];
    SlotParts(s, i, x);
    DetachSound(f, c, x, a, b);
    var g := Detach(f, c, x, a + b);
    DetachFrame(f, c, x, a + b);
    hide Tree, Acyclic, WeightsOk, Detach, Held;
    if d == c {
      HeldWithout(f, g, c, a, x, b, k);
    } else {
      HeldSame(f, g, d, k);
    }
  }

  lemma {:induction false} DetachFrame(f: Forest, c: Item, x: Item, s: seq<Item>)
    requires Shaped(f) && c in f.parent && x in f.parent
    ensures var g := Detach(f, c, x, s);
            && g.Keyed() && SameItems(f, g) && g.parent == f.parent[x := null] && g.list == f.list[c := s]
            && g.kind == f.kind && g.count == f.count
  {
    hide Acyclic, Tree, Weight;
  }

  lemma {:induction false} AttachFrame(f: Forest, c: Item, x: Item, s: seq<Item>)
    requires CanLink(f, c, x)
    ensures var g := Attach(f, c, x, s);
            && g.Keyed() && SameItems(f, g) && g.parent == f.parent[x := c] && g.list == f.list[c := s]
            && g.kind == f.kind && g.count == f.count
  {
    hide Acyclic, Tree, Above, Weight;
  }

  /** Putting `x` in front of `c` adds its count to `c` and touches no other container. */
  lemma {:induction false} AttachHolds(f: Forest, c: Item, x: Item, d: Item, k: Kind)
    requires Sound(f) && CanLink(f, c, x) && d in f.parent
    ensures var g := Attach(f, c, x, [x] + f.list[c]);
            Sound(g) && d in g.parent && Held(g, d, k) == Held(f, d, k) + if d == c then Share(f, x, k) else 0
  {
    var g := Attach(f, c, x, [x] + f.list[c]);
    AddFrontSound(f, c, x);
    AttachFrame(f, c, x, [x] + f.list[c]);
    hide Tree, Acyclic, WeightsOk, Attach, Above, Held;
    if d == c {
      var s := f.list[c];
      assert [] + s == s && ([] + [x]) + s == [x] + s;
      HeldWith(f, g, c, [], x, s, k);
    } else {
      HeldSame(f, g, d, k);
    }
  }

  lemma {:induction false} ChangeFrame(f: Forest, c: Item, x: Item, kind: Kind, count: u16)
    requires Shaped(f) && c in f.parent && x in f.parent
    ensures var g := Change(f, c, x, kind, count);
            && g.Keyed() && g.parent == f.parent && g.list == f.list
            && g.kind == f.kind[x := kind] && g.count == f.count[x := count]
  {
    hide Acyclic, Tree, Weight;
  }

  /** A new count for `x`, listed in `c`, changes what `c` holds by the difference. */
  lemma {:induction false} ChangeHolds(f: Forest, c: Item, x: Item, count: u16, d: Item, k: Kind)
    requires Sound(f) && c in f.parent && x in f.parent && x in f.list[c] && d in f.parent
    ensures var g := Change(f, c, x, f.kind[x], count);
            && Sound(g)
            && Held(g, d, k) == Held(f, d, k) + if d == c && k == f.kind[x] then count - f.count[x] else 0
  {
    var g := Change(f, c, x, f.kind[x], count);
    ChangeSound(f, c, x, f.kind[x], count);
    ChangeFrame(f, c, x, f.kind[x], count);
    Listed(f, x, d);
    Listed(f, x, c);
    hide Tree, Acyclic, WeightsOk, Change;
    if d == c {
      ListIn(g, c);
      AmountChange(f, g, f.list[c], x, k);
    } else {
      HeldSame(f, g, d, k);
    }
  }

  lemma {:induction false} EnterHolds(f: Forest, x: Item, kind: Kind, count: u16, d: Item, k: Kind)
    requires Sound(f) && x !in f.parent && d in f.parent
    ensures var g := Enter(f, x, kind, count); Sound(g) && Held(g, d, k) == Held(f, d, k)
  {
    EnterSound(f, x, kind, count);
    ListIn(f, d);
    hide Tree, Acyclic, WeightsOk;
    HeldSame(f, Enter(f, x, kind, count), d, k);
  }

  // ---------------------------------------------------------------------------
  // What each operation does to the fields
  // ---------------------------------------------------------------------------

  /** Parents and lists as given, kinds and counts as before. */
  predicate Hangs(f: Forest, g: Forest, parent: map<Item, Item?>, list: map<Item, seq<Item>>) {
    g.parent == parent && g.list == list && g.kind == f.kind && g.count == f.count
  }

  /** A thing is added in front, unless the slot is beyond the capacity: then nothing happens. */
  lemma {:induction false} AddingHangs(f: Forest, c: Item, index: int, x: Item)
    requires CanLink(f, c, x)
    ensures var g := ThingAdded(f, c, index, x);
            if index < c.maxSize then Hangs(f, g, f.parent[x := c], f.list[c := [x] + f.list[c]]) else g == f
  {
    AttachFrame(f, c, x, [x] + f.list[c]);
    hide Acyclic, Tree, Above, Attach;
  }

  /** While loading, a thing is added in front whatever the capacity; one that is added back comes last. */
  lemma {:induction false} LoadingHangs(f: Forest, c: Item, x: Item)
    requires CanLink(f, c, x)
    ensures Hangs(f, ThingAddedInternally(f, c, x), f.parent[x := c], f.list[c := [x] + f.list[c]])
    ensures Hangs(f, ItemAddedBack(f, c, x), f.parent[x := c], f.list[c := f.list[c] + [x]])
  {
    AttachFrame(f, c, x, [x] + f.list[c]);
    AttachFrame(f, c, x, f.list[c] + [x]);
    hide Acyclic, Tree, Above, Attach;
  }

  /** An update changes kind and count of a listed thing, and of that only. */
  lemma {:induction false} UpdateChanges(f: Forest, c: Item, x: Item, kind: Kind, count: u16)
    requires Shaped(f) && c in f.parent && x in f.parent
    ensures var g := ThingUpdated(f, c, x, kind, count);
            if x in f.list[c] then g.parent == f.parent && g.list == f.list && g.kind == f.kind[x := kind] && g.count == f.count[x := count]
            else g == f
  {
    ChangeFrame(f, c, x, kind, count);
    hide Acyclic, Tree, Change;
  }

  /** A replacement gives the slot to `x` and lets go of what was in it. */
  lemma {:induction false} ReplacementHangs(f: Forest, c: Item, k: nat, x: Item)
    requires CanLink(f, c, x)
    ensures var g := ThingReplaced(f, c, k, x);
            if k < |f.list[c]| then Hangs(f, g, f.parent[x := c][f.list[c][k] := null], f.list[c := f.list[c][k := x]]) else g == f
  {
    if k < |f.list[c]| {
      SwapFrame(f, c, k, x);
    }
    hide Acyclic, Tree, Above, Swap;
  }

  lemma {:induction false} SwapFrame(f: Forest, c: Item, k: nat, x: Item)
    requires CanLink(f, c, x) && k < |f.list[c]|
    ensures Hangs(f, Swap(f, c, k, x), f.parent[x := c][f.list[c][k] := null], f.list[c := f.list[c][k := x]])
  {
    hide Acyclic, Tree, Above, Weight;
  }

  /**
    A removal lowers the count of a stack if it is not asked for exactly all of it, to no less than zero, and takes the first
    occurrence of everything else out of the list. What is not listed is not removed.
   */
  lemma {:induction false} RemovalTakes(f: Forest, c: Item, x: Item, count: u32)
    requires Shaped(f) && c in f.parent && x in f.parent
    ensures var g := ThingRemoved(f, c, x, count);
            && (x !in f.list[c] ==> g == f)
            && (x in f.list[c] && f.kind[x].stackable && count != f.count[x] ==>
                  && g.parent == f.parent && g.list == f.list && g.kind == f.kind[x := f.kind[x]]
                  && (count < f.count[x] ==> g.count == f.count[x := f.count[x] - count])
                  && (f.count[x] < count <= 0x8000_0000 ==> g.count == f.count[x := 0]))
            && (x in f.list[c] && !(f.kind[x].stackable && count != f.count[x]) ==>
                  exists i :: 0 <= i < |f.list[c]| && f.list[c][i] == x
                              && Hangs(f, g, f.parent[x := null], f.list[c := f.list[c][..i] + f.list[c][i + 1..]]))
  {
    hide Acyclic, Tree, ThingRemoved, Change, Detach, LeftOf;
    RemovedIs(f, c, x, count);
    if x in f.list[c] {
      if f.kind[x].stackable && count != f.count[x] {
        LowerCount(f.count[x], count);
        ChangeFrame(f, c, x, f.kind[x], LeftOf(f.count[x], count));
      } else {
        var i := Index(f.list[c], x);
        DetachFrame(f, c, x, f.list[c][..i] + f.list[c][i + 1..]);
        assert Hangs(f, ThingRemoved(f, c, x, count), f.parent[x := null], f.list[c := f.list[c][..i] + f.list[c][i + 1..]]);
      }
    }
  }

  lemma {:induction false} LowerCount(has: u16, count: u32)
    ensures count <= has ==> LeftOf(has, count) == has - count
    ensures has < count <= 0x8000_0000 ==> LeftOf(has, count) == 0
  {
    if has < count <= 0x8000_0000 {
      var d: int := has - count;
      assert Wrap(d) == Wrap(d + 0x1_0000_0000) == d + 0x1_0000_0000;
    }
  }
}
