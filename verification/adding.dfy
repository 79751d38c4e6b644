/** Adding an item to a container wherever it fits: onto the stacks that take it, the rest in a slot of its own. */
module Adding {
  import opened Containers
  import opened Holdings
  import opened Moves
  import opened Game
  import opened MoveLaws

  /** What the questions asked before adding answer. */
  ghost function AddCheck(f: Forest, c: Item, x: Item, flags: Flags): ReturnValue
    requires Shaped(f) && c in f.parent && x in f.parent
  {
    var route := Destination(f, c, INDEX_WHEREEVER, x, flags);
    var added := AddAnswer(f, c, route.index, x, flags);
    if added != NoError then added else MaxAnswer(f, c, INDEX_WHEREEVER, x, f.count[x], flags).1
  }

  /**
    Who refuses an addition of `x` to `c`, over the fields. A full container still takes a stack that can join one,
    as long as all of it fits.
   */
  ghost function AddVerdict(f: Forest, c: Item, x: Item, flags: Flags): ReturnValue
    requires Shaped(f) && c in f.parent && x in f.parent && AllIn(f, f.list[c])
  {
    var s := f.list[c];
    var full := !flags.nolimit && |s| >= c.maxSize;
    var joins := f.kind[x].stackable && !flags.ignoreAutostack && f.parent[x] != c && exists n :: 0 <= n < |s| && HasRoomFor(f, x, s[n]);
    if !c.unlocked then NotPossible
    else if !f.kind[x].pickupable then CannotPickup
    else if Above(f.parent, x, c) then ThisIsImpossible
    else if full && !joins then ContainerNotEnoughRoom
    else if !flags.nolimit && f.kind[x].stackable && Wrap(Fitting(f, c, -1, x)) < f.count[x] then ContainerNotEnoughRoom
    else NoError
  }

  lemma {:induction false} AdditionIsAnswered(f: Forest, c: Item, x: Item, flags: Flags)
    requires Shaped(f) && Stacks(f) && c in f.parent && c.isContainer && x in f.parent && !flags.childIsOwner
    ensures AllIn(f, f.list[c]) && AddCheck(f, c, x, flags) == AddVerdict(f, c, x, flags)
  {
    ListIsIn(f, c);
    var r := Destination(f, c, -1, x, flags);
    AddAnswerIs(f, c, r.index, x, flags);
    if c.unlocked {
      DestinationEnds(f, c, -1, x, flags);
      SentNowhere(f, c, x, flags);
      if AddAnswer(f, c, r.index, x, flags) == NoError {
        AnsweredAnywhere(f, c, r.index, x, flags);
        MaxAnswerAnywhere(f, c, x, flags);
      }
    } else {
      LockedKeeps(f, c, -1, x, flags);
    }
    hide Tree, Acyclic, Destination, AddAnswer, Above, Fitting, HasRoomFor, MaxAnswer, Wrap, Stacks;
  }

  lemma {:induction false} SentNowhere(f: Forest, c: Item, x: Item, flags: Flags)
    requires Shaped(f) && c in f.parent && x in f.parent
    ensures Destination(f, c, -1, x, flags).to == c
  {
    hide Tree, Acyclic, FirstStack, Takes;
  }

  lemma {:induction false} MaxAnswerAnywhere(f: Forest, c: Item, x: Item, flags: Flags)
    requires Shaped(f) && Stacks(f) && c in f.parent && x in f.parent && c.unlocked && AllIn(f, f.list[c])
    requires AddAnswer(f, c, 0, x, flags) == NoError && !flags.childIsOwner
    ensures MaxAnswer(f, c, INDEX_WHEREEVER, x, f.count[x], flags).1 ==
            if flags.nolimit then NoError
            else if f.kind[x].stackable then if Wrap(Fitting(f, c, -1, x)) < f.count[x] then ContainerNotEnoughRoom else NoError
            else if |f.list[c]| >= c.maxSize then ContainerNotEnoughRoom else NoError
  {
    if f.kind[x].stackable {
      DistinctList(f, c);
      RoomIsLacking(f, f.list[c], x);
    }
    hide Tree, Acyclic, Above, AddAnswer, Room, Amount, Piles, Stacks, Wrap;
  }

  /** The answer is the verdict, as long as no stack is too high. */
  ghost predicate Answered(f: Forest, c: Item, x: Item, flags: Flags, r: ReturnValue)
    requires Shaped(f) && c in f.parent && x in f.parent
  {
    AllIn(f, f.list[c]) && (Stacks(f) ==> r == AddVerdict(f, c, x, flags))
  }

  lemma {:induction false} OfferIsAnswered(f: Forest, c: Item, x: Item, flags: Flags)
    requires Offered(f, c, x) && !flags.childIsOwner
    ensures Answered(f, c, x, flags, AddCheck(f, c, x, flags))
  {
    hide Tree, Acyclic, WeightsOk, AddCheck, AddVerdict, Stacks;
    ListIsIn(f, c);
    if Stacks(f) {
      AdditionIsAnswered(f, c, x, flags);
    }
  }

  /** `c` holds `n` more of kind `kind` and every container as much of kind `k` as before otherwise. */
  ghost predicate AddedFor(f: Forest, g: Forest, c: Item, kind: Kind, n: int, k: Kind)
    requires Shaped(f) && Shaped(g)
  {
    forall d {:trigger Held(f, d, k)} :: d in f.parent ==>
      d in g.parent && Held(g, d, k) == Held(f, d, k) + if d == c && k == kind then n else 0
  }

  /** `c` holds `n` more of kind `kind`; no other container and no other kind has changed. */
  ghost predicate Added(f: Forest, g: Forest, c: Item, kind: Kind, n: int)
    requires Shaped(f) && Shaped(g)
  {
    forall k {:trigger AddedFor(f, g, c, kind, n, k)} :: AddedFor(f, g, c, kind, n, k)
  }

  lemma {:induction false} AddedAt(f: Forest, g: Forest, c: Item, kind: Kind, n: int, d: Item, k: Kind)
    requires Shaped(f) && Shaped(g) && AddedFor(f, g, c, kind, n, k) && d in f.parent
    ensures d in g.parent && Held(g, d, k) == Held(f, d, k) + if d == c && k == kind then n else 0
  {
    hide Held, Shaped;
    var held := Held(f, d, k);
  }

  lemma {:induction false} AddedTwiceFor(f: Forest, g: Forest, h: Forest, c: Item, kind: Kind, a: int, b: int, k: Kind)
    requires Shaped(f) && Shaped(g) && Shaped(h) && AddedFor(f, g, c, kind, a, k) && AddedFor(g, h, c, kind, b, k)
    ensures AddedFor(f, h, c, kind, a + b, k)
  {
    hide Held, Shaped;
    forall d | d in f.parent
      ensures d in h.parent && Held(h, d, k) == Held(f, d, k) + if d == c && k == kind then a + b else 0
    {
      AddedAt(f, g, c, kind, a, d, k);
      AddedAt(g, h, c, kind, b, d, k);
    }
  }

  lemma {:induction false} AddedTwice(f: Forest, g: Forest, h: Forest, c: Item, kind: Kind, a: int, b: int)
    requires Shaped(f) && Shaped(g) && Shaped(h) && Added(f, g, c, kind, a) && Added(g, h, c, kind, b)
    ensures Added(f, h, c, kind, a + b)
  {
    hide Held, Shaped, AddedFor;
    var n := a + b;
    forall k
      ensures AddedFor(f, h, c, kind, n, k)
    {
      assert AddedFor(f, g, c, kind, a, k) && AddedFor(g, h, c, kind, b, k);
      AddedTwiceFor(f, g, h, c, kind, a, b, k);
    }
  }

  /** Without a slot to ask for, a container keeps the item, on the first stack that takes it if there is one. */
  lemma {:induction false} WhereeverStays(f: Forest, c: Item, x: Item, flags: Flags)
    requires Shaped(f) && c in f.parent && x in f.parent && f.parent[x] == null
    ensures AllIn(f, f.list[c])
    ensures var r := Destination(f, c, INDEX_WHEREEVER, x, flags);
            var n := FirstStack(f, f.list[c], x);
            && r == (if c.unlocked && !flags.ignoreAutostack && f.kind[x].stackable && n >= 0 then Route(c, n, f.list[c][n])
                     else Route(c, INDEX_WHEREEVER, null))
            && (r.dest != null ==> r.dest in f.parent && r.dest in f.list[c] && Takes(f, x, r.dest) && r.index >= 0)
  {
    hide Tree, Acyclic, FirstStack;
    ListIn(f, c);
    StackingIs(f, c, INDEX_WHEREEVER, x, flags);
  }

  // ---------------------------------------------------------------------------
  // After a merge the rest passes the same questions
  // ---------------------------------------------------------------------------

  lemma {:induction false} WrapLess(t: int, n: int)
    requires 0 <= n <= Wrap(t)
    ensures Wrap(t - n) == Wrap(t) - n
  {
    hide Wrap, Turns;
    WrapTurns(Wrap(t) - n, -Turns(t));
    InRange(Wrap(t) - n);
  }

  lemma {:induction false} InRange(a: int)
    requires 0 <= a < 0x1_0000_0000
    ensures Wrap(a) == a
  {
  }

  /** The room in a list follows the counts of its items. */
  lemma {:induction false} RoomSame(f: Forest, g: Forest, s: seq<Item>, x: Item, y: Item)
    requires f.Keyed() && g.Keyed() && AllIn(f, s) && AllIn(g, s) && x in f.parent && y in g.parent
    requires forall z :: z in s ==> RoomIn(g, y, z) == RoomIn(f, x, z)
    ensures Room(g, s, y) == Room(f, s, x)
  {
    if s != [] {
      RoomSame(f, g, s[..|s| - 1], x, y);
    }
  }

  lemma {:induction false} RoomLess(f: Forest, g: Forest, s: seq<Item>, x: Item, y: Item, dest: Item, n: nat)
    requires f.Keyed() && g.Keyed() && AllIn(f, s) && AllIn(g, s) && x in f.parent && y in g.parent && Distinct(s) && dest in s
    requires forall z :: z in s && z != dest ==> RoomIn(g, y, z) == RoomIn(f, x, z)
    requires RoomIn(g, y, dest) == RoomIn(f, x, dest) - n
    ensures Room(g, s, y) == Room(f, s, x) - n
  {
    var k := |s| - 1;
    if s[k] == dest {
      RoomSame(f, g, s[..k], x, y);
    } else {
      RoomLess(f, g, s[..k], x, y, dest, n);
    }
  }

  lemma {:induction false} NoRoomNoStack(f: Forest, s: seq<Item>, x: Item)
    requires f.Keyed() && AllIn(f, s) && x in f.parent && FirstStack(f, s, x) < 0
    ensures Room(f, s, x) == 0
  {
    if s != [] {
      var k := |s| - 1;
      assert forall i :: 0 <= i < k ==> s[..k][i] == s[i];
      FirstStackIs(f, s[..k], x, -1);
      NoRoomNoStack(f, s[..k], x);
    }
  }

  /** `n` of `x` merged onto `dest`, and a copy `y` of the rest. */
  ghost function Rest(f: Forest, c: Item, x: Item, dest: Item, n: nat, y: Item): Forest
    requires Sound(f) && c in f.parent && x in f.parent && dest in f.parent
  {
    Enter(Merged(f, c, dest, n), y, f.kind[x], (f.count[x] - n) % 0x1_0000)
  }

  /** What a merge needs to be real: `x` is free, `dest` is listed in `c` and takes `n` of `x`. */
  ghost predicate CanMerge(f: Forest, c: Item, x: Item, dest: Item, n: nat, y: Item)
  {
    && Sound(f) && c in f.parent && c.isContainer && x in f.parent && f.parent[x] == null && dest in f.parent
    && dest in f.list[c] && Takes(f, x, dest) && f.count[dest] + n <= MAX_ITEM_COUNT && n < f.count[x]
    && y !in f.parent
  }

  lemma {:induction false} RestFrame(f: Forest, c: Item, x: Item, dest: Item, n: nat, y: Item)
    requires CanMerge(f, c, x, dest, n, y)
    ensures var g := Rest(f, c, x, dest, n, y);
            && Sound(g) && g.parent == f.parent[y := null] && g.list == f.list[y := []]
            && g.kind == f.kind[dest := f.kind[dest]][y := f.kind[x]]
            && g.count == f.count[dest := f.count[dest] + n][y := f.count[x] - n]
            && CanLink(g, c, y)
  {
    hide Tree, Acyclic, WeightsOk, Merged, Above;
    MergedFrame(f, c, dest, n);
    NewCanLink(Merged(f, c, dest, n), c, y, f.kind[x], f.count[x] - n);
  }

  lemma {:induction false} RestRoom(f: Forest, c: Item, x: Item, dest: Item, n: nat, y: Item)
    requires CanMerge(f, c, x, dest, n, y)
    ensures var g := Rest(f, c, x, dest, n, y);
            && Shaped(g) && c in g.parent && y in g.parent && AllIn(f, f.list[c]) && AllIn(g, f.list[c]) && g.list[c] == f.list[c]
            && Room(g, f.list[c], y) == Room(f, f.list[c], x) - n
  {
    hide Acyclic, WeightsOk, Rest, Above;
    RestFrame(f, c, x, dest, n, y);
    Listed(f, x, c);
    var g := Rest(f, c, x, dest, n, y);
    ListIn(g, c);
    RoomLess(f, g, f.list[c], x, y, dest, n);
  }

  lemma {:induction false} AcceptedAtSlot(f: Forest, c: Item, index: int, x: Item, flags: Flags)
    requires Shaped(f) && c in f.parent && x in f.parent && AddAnswer(f, c, index, x, flags) == NoError
    ensures AddAnswer(f, c, 0, x, flags) == NoError
  {
  }

  /** The rest is accepted wherever `x` was, if there is a free slot or a stack for it. */
  lemma {:induction false} RestAccepted(f: Forest, c: Item, x: Item, dest: Item, n: nat, y: Item, i: int, j: int, flags: Flags)
    requires CanMerge(f, c, x, dest, n, y) && AddAnswer(f, c, i, x, flags) == NoError && !flags.childIsOwner
    requires j == INDEX_WHEREEVER && !flags.nolimit ==> |f.list[c]| < c.maxSize
    ensures var g := Rest(f, c, x, dest, n, y);
            Shaped(g) && c in g.parent && y in g.parent && AddAnswer(g, c, j, y, flags) == NoError
  {
    hide Tree, Acyclic, WeightsOk, Rest, Above;
    RestFrame(f, c, x, dest, n, y);
  }

  lemma {:induction false} MaxIs(f: Forest, c: Item, x: Item, count: u32, flags: Flags)
    requires Shaped(f) && c in f.parent && x in f.parent && f.kind[x].stackable && !flags.nolimit
    requires AddAnswer(f, c, 0, x, flags) == NoError
    ensures AllIn(f, f.list[c])
    ensures var max := Wrap(FreeSlots(f, c) * MAX_ITEM_COUNT + Room(f, f.list[c], x));
            MaxAnswer(f, c, INDEX_WHEREEVER, x, count, flags) == (max, if max < count then ContainerNotEnoughRoom else NoError)
  {
    ListIn(f, c);
    hide Tree, Acyclic, AddAnswer, Room, Wrap;
  }

  /** What the rest finds: the same free slots and `n` less room on stacks. */
  lemma {:induction false} RestHasRoom(f: Forest, c: Item, x: Item, dest: Item, n: nat, y: Item, index: int, flags: Flags)
    requires CanMerge(f, c, x, dest, n, y) && f.kind[x].stackable && !flags.childIsOwner && !flags.nolimit
    requires AddAnswer(f, c, index, x, flags) == NoError
    requires MaxAnswer(f, c, INDEX_WHEREEVER, x, f.count[x], flags).1 == NoError
    ensures var g := Rest(f, c, x, dest, n, y);
            && Shaped(g) && c in g.parent && y in g.parent
            && MaxAnswer(g, c, INDEX_WHEREEVER, y, g.count[y], flags).1 == NoError
            && (FirstStack(g, g.list[c], y) < 0 ==> |f.list[c]| < c.maxSize)
  {
    var g := Rest(f, c, x, dest, n, y);
    var s := f.list[c];
    AcceptedAtSlot(f, c, index, x, flags);
    MaxIs(f, c, x, f.count[x], flags);
    RestAccepted(f, c, x, dest, n, y, index, 0, flags);
    RestRoom(f, c, x, dest, n, y);
    RestFrame(f, c, x, dest, n, y);
    MaxIs(g, c, y, g.count[y], flags);
    hide Tree, Acyclic, WeightsOk, Rest, Above, AddAnswer, MaxAnswer, Room, Wrap, FirstStack, Takes;
    var t := FreeSlots(f, c) * MAX_ITEM_COUNT + Room(f, s, x);
    WrapLess(t, n);
    if FirstStack(g, s, y) < 0 {
      NoRoomNoStack(g, s, y);
      if |s| >= c.maxSize {
        InRange(n);
      }
    }
  }

  lemma {:induction false} CheckIs(f: Forest, c: Item, x: Item, flags: Flags)
    requires Shaped(f) && c in f.parent && x in f.parent
    ensures var route := Destination(f, c, INDEX_WHEREEVER, x, flags);
            var added := AddAnswer(f, c, route.index, x, flags);
            x in f.count && AddCheck(f, c, x, flags) ==
            if added != NoError then added else MaxAnswer(f, c, INDEX_WHEREEVER, x, f.count[x], flags).1
  {
  }

  /** After a merge the rest passes the same questions. */
  lemma {:induction false} RestPasses(f: Forest, c: Item, x: Item, dest: Item, n: nat, y: Item, flags: Flags)
    requires CanMerge(f, c, x, dest, n, y) && f.kind[x].stackable && !flags.childIsOwner && AddCheck(f, c, x, flags) == NoError
    ensures var g := Rest(f, c, x, dest, n, y);
            Shaped(g) && c in g.parent && y in g.parent && AddCheck(g, c, y, flags) == NoError
  {
    var g := Rest(f, c, x, dest, n, y);
    var route := Destination(f, c, INDEX_WHEREEVER, x, flags);
    CheckIs(f, c, x, flags);
    RestFrame(f, c, x, dest, n, y);
    CheckIs(g, c, y, flags);
    WhereeverStays(g, c, y, flags);
    var next := Destination(g, c, INDEX_WHEREEVER, y, flags);
    WhereeverStays(f, c, x, flags);
    hide Tree, Acyclic, WeightsOk, Rest, Above, AddAnswer, MaxAnswer, Destination, FirstStack, Takes, AddCheck;
    if !flags.nolimit {
      RestHasRoom(f, c, x, dest, n, y, route.index, flags);
    } else {
      NoLimitTakes(g, c, y, flags);
    }
    if next.index == INDEX_WHEREEVER && !flags.nolimit && FirstStack(g, g.list[c], y) >= 0 {
      RoomAsked(f, c, x, route.index, flags);
    }
    RestAccepted(f, c, x, dest, n, y, route.index, next.index, flags);
  }

  lemma {:induction false} NoLimitTakes(f: Forest, c: Item, x: Item, flags: Flags)
    requires Shaped(f) && c in f.parent && x in f.parent && flags.nolimit
    ensures MaxAnswer(f, c, INDEX_WHEREEVER, x, f.count[x], flags).1 == NoError
  {
  }

  lemma {:induction false} RoomAsked(f: Forest, c: Item, x: Item, index: int, flags: Flags)
    requires Shaped(f) && c in f.parent && x in f.parent && AddAnswer(f, c, index, x, flags) == NoError
    requires index == INDEX_WHEREEVER && !flags.nolimit && !flags.childIsOwner
    ensures |f.list[c]| < c.maxSize
  {
  }

  // ---------------------------------------------------------------------------
  // What is added
  // ---------------------------------------------------------------------------

  lemma {:induction false} AttachAdded(f: Forest, c: Item, x: Item)
    requires Sound(f) && CanLink(f, c, x)
    ensures var g := Attach(f, c, x, [x] + f.list[c]); Sound(g) && Added(f, g, c, f.kind[x], f.count[x])
  {
    var g, kind, n := Attach(f, c, x, [x] + f.list[c]), f.kind[x], f.count[x] as int;
    AddFrontSound(f, c, x);
    hide Tree, Acyclic, WeightsOk, Attach, Held, Above;
    forall k
      ensures AddedFor(f, g, c, kind, n, k)
    {
      forall d | d in f.parent
        ensures d in g.parent && Held(g, d, k) == Held(f, d, k) + if d == c && k == kind then n else 0
      {
        AttachHolds(f, c, x, d, k);
      }
    }
  }

  lemma {:induction false} MergedAdded(f: Forest, c: Item, dest: Item, n: nat)
    requires Sound(f) && c in f.parent && dest in f.parent && dest in f.list[c] && f.count[dest] + n < 0x1_0000
    ensures var g := Merged(f, c, dest, n); Sound(g) && Added(f, g, c, f.kind[dest], n)
  {
    var g, kind := Merged(f, c, dest, n), f.kind[dest];
    MergedFrame(f, c, dest, n);
    hide Tree, Acyclic, WeightsOk, Merged, Held;
    forall k
      ensures AddedFor(f, g, c, kind, n, k)
    {
      forall d | d in f.parent
        ensures d in g.parent && Held(g, d, k) == Held(f, d, k) + if d == c && k == kind then n else 0
      {
        MergedHolds(f, c, dest, n, d, k);
      }
    }
  }

  lemma {:induction false} EnterAdded(f: Forest, x: Item, kind: Kind, count: u16, c: Item, any: Kind)
    requires Sound(f) && x !in f.parent
    ensures var g := Enter(f, x, kind, count); Sound(g) && Added(f, g, c, any, 0)
  {
    var g, n := Enter(f, x, kind, count), 0;
    EnterSound(f, x, kind, count);
    hide Tree, Acyclic, WeightsOk, Enter, Held;
    forall k
      ensures AddedFor(f, g, c, any, n, k)
    {
      forall d | d in f.parent
        ensures d in g.parent && Held(g, d, k) == Held(f, d, k) + if d == c && k == any then n else 0
      {
        EnterHolds(f, x, kind, count, d, k);
        StillThere(f, x, kind, count, d);
      }
    }
  }

  /** The merged part and a later addition of the rest add up to the whole. */
  lemma {:induction false} RestAdded(f: Forest, c: Item, x: Item, dest: Item, n: nat, y: Item, h: Forest)
    requires CanMerge(f, c, x, dest, n, y) && Shaped(h)
    requires var g := Rest(f, c, x, dest, n, y); Shaped(g) && Added(g, h, c, f.kind[x], f.count[x] - n)
    ensures Shaped(f) && Added(f, h, c, f.kind[x], f.count[x])
  {
    hide *;
    CanMergeOpen(f, c, x, dest, n, y);
    MergedPart(f, c, x, dest, n, y);
    AddedTwice(f, Rest(f, c, x, dest, n, y), h, c, f.kind[x], n, f.count[x] - n);
  }

  lemma {:induction false} CanMergeOpen(f: Forest, c: Item, x: Item, dest: Item, n: nat, y: Item)
    requires CanMerge(f, c, x, dest, n, y)
    ensures f.Keyed() && Shaped(f) && Sound(f) && c in f.parent && x in f.parent && dest in f.parent
    ensures x in f.kind && x in f.count && dest in f.kind && f.kind[dest] == f.kind[x]
    ensures dest in f.list[c] && f.count[dest] + n < 0x1_0000 && y !in f.parent && n <= f.count[x]
  {
  }

  /** What is merged is added; the rest, in no container yet, adds nothing. */
  lemma {:induction false} MergedPart(f: Forest, c: Item, x: Item, dest: Item, n: nat, y: Item)
    requires CanMerge(f, c, x, dest, n, y)
    ensures var g := Rest(f, c, x, dest, n, y);
            Shaped(f) && Shaped(g) && x in f.kind && Added(f, g, c, f.kind[x], n)
  {
    hide *;
    CanMergeOpen(f, c, x, dest, n, y);
    RestIs(f, c, x, dest, n, y);
    var merged := Merged(f, c, dest, n);
    MergedAdded(f, c, dest, n);
    MergedWithout(f, c, dest, n, y);
    EnterAdded(merged, y, f.kind[x], f.count[x] - n, c, f.kind[x]);
    SoundParts(merged);
    SoundParts(Enter(merged, y, f.kind[x], f.count[x] - n));
    AddedTwice(f, merged, Rest(f, c, x, dest, n, y), c, f.kind[x], n, 0);
  }

  lemma {:induction false} MergedWithout(f: Forest, c: Item, dest: Item, n: nat, y: Item)
    requires Sound(f) && c in f.parent && dest in f.parent && dest in f.list[c] && f.count[dest] + n < 0x1_0000 && y !in f.parent
    ensures y !in Merged(f, c, dest, n).parent
  {
    hide Tree, Acyclic, WeightsOk, Merged;
    MergedFrame(f, c, dest, n);
  }

  // ---------------------------------------------------------------------------
  // What stays within its bounds
  // ---------------------------------------------------------------------------

  /** Stacks stay within their bound and, if `limited`, containers within their capacity. */
  ghost predicate StaysBounded(f: Forest, g: Forest, limited: bool)
    requires f.Keyed() && g.Keyed()
  {
    (Stacks(f) ==> Stacks(g)) && (limited && Fits(f) ==> Fits(g))
  }

  lemma {:induction false} BoundedTwice(f: Forest, g: Forest, h: Forest, limited: bool)
    requires f.Keyed() && g.Keyed() && h.Keyed() && StaysBounded(f, g, limited) && StaysBounded(g, h, limited)
    ensures StaysBounded(f, h, limited)
  {
    hide Stacks, Fits;
  }

  lemma {:induction false} MergedStaysBounded(f: Forest, c: Item, dest: Item, n: nat, limited: bool)
    requires Sound(f) && c in f.parent && dest in f.parent && dest in f.list[c] && f.count[dest] + n <= 10000
    ensures var g := Merged(f, c, dest, n); Sound(g) && StaysBounded(f, g, limited)
  {
    hide Tree, Acyclic, WeightsOk, Merged;
    MergedFrame(f, c, dest, n);
  }

  lemma {:induction false} EnteredStaysBounded(f: Forest, y: Item, kind: Kind, n: u16, limited: bool)
    requires Sound(f) && y !in f.parent && !y.isContainer && n <= MAX_ITEM_COUNT
    ensures var g := Enter(f, y, kind, n); Sound(g) && StaysBounded(f, g, limited)
  {
    EnterSound(f, y, kind, n);
    hide Tree, Acyclic, WeightsOk;
  }

  lemma {:induction false} RestStaysBounded(f: Forest, c: Item, x: Item, dest: Item, n: nat, y: Item, limited: bool)
    requires CanMerge(f, c, x, dest, n, y) && !y.isContainer && f.count[x] <= MAX_ITEM_COUNT
    ensures var g := Rest(f, c, x, dest, n, y); Sound(g) && StaysBounded(f, g, limited)
  {
    hide Tree, Acyclic, WeightsOk, Merged, StaysBounded, Takes;
    RestIs(f, c, x, dest, n, y);
    MergedStaysBounded(f, c, dest, n, limited);
    MergedFrame(f, c, dest, n);
    EnteredStaysBounded(Merged(f, c, dest, n), y, f.kind[x], f.count[x] - n, limited);
    BoundedTwice(f, Merged(f, c, dest, n), Rest(f, c, x, dest, n, y), limited);
  }

  lemma {:induction false} AttachStaysBounded(f: Forest, c: Item, x: Item, limited: bool)
    requires Sound(f) && CanLink(f, c, x) && (limited ==> |f.list[c]| < c.maxSize)
    ensures var g := Attach(f, c, x, [x] + f.list[c]); Sound(g) && StaysBounded(f, g, limited)
  {
    AddFrontSound(f, c, x);
    AttachFrame(f, c, x, [x] + f.list[c]);
    hide Tree, Acyclic, WeightsOk, Attach, Above;
  }

  // ---------------------------------------------------------------------------
  // The method
  // ---------------------------------------------------------------------------

  /** What the callers of an addition provide: a free item and a container. */
  ghost predicate Offered(f: Forest, c: Item, x: Item) {
    && Sound(f) && c in f.parent && c.isContainer && x in f.parent && f.parent[x] == null
    && (f.kind[x].stackable ==> !x.isContainer)
  }

  lemma {:induction false} OfferedIs(f: Forest, c: Item, x: Item)
    requires Offered(f, c, x)
    ensures f.Keyed() && Shaped(f) && c in f.parent && x in f.parent && x in f.kind && x in f.count && Sound(f)
    ensures c.isContainer && (f.kind[x].stackable ==> !x.isContainer)
    ensures f.parent[x] == null
  {
  }

  /** Nothing merges: the item can be hung in front of `c`. */
  lemma {:induction false} PlainAddition(f: Forest, c: Item, x: Item, flags: Flags)
    requires Offered(f, c, x) && !flags.childIsOwner && AddCheck(f, c, x, flags) == NoError
    requires Destination(f, c, INDEX_WHEREEVER, x, flags).dest == null
    ensures CanLink(f, c, x) && (!flags.nolimit ==> |f.list[c]| < c.maxSize)
    ensures ThingAdded(f, c, Destination(f, c, INDEX_WHEREEVER, x, flags).index, x) == Attach(f, c, x, [x] + f.list[c])
  {
    WhereeverStays(f, c, x, flags);
    CheckIs(f, c, x, flags);
    hide Tree, Acyclic, WeightsOk, Attach, Destination, MaxAnswer, FirstStack, AddCheck, Above;
    AcceptedNotAbove(f, c, INDEX_WHEREEVER, x, flags);
  }

  /** How much merges onto the stack that was found. */
  lemma {:induction false} MergeSizes(f: Forest, c: Item, x: Item, flags: Flags, max: u32)
    requires Offered(f, c, x) && !flags.childIsOwner && AddCheck(f, c, x, flags) == NoError
    requires max == MaxAnswer(f, c, INDEX_WHEREEVER, x, f.count[x], flags).0
    ensures var dest := Destination(f, c, INDEX_WHEREEVER, x, flags).dest;
            dest != null ==>
              && dest in f.parent && dest in f.list[c] && dest in f.kind && dest in f.count && f.kind[x].stackable
              && f.kind[dest] == f.kind[x] && Takes(f, x, dest)
              && Min(f.count[x], max) == f.count[x]
              && var n := Min(Wrap(10000 - f.count[dest] as int), f.count[x]);
                 0 <= n <= f.count[x] && f.count[dest] + n <= 10000 && (n < f.count[x] ==> n > 0)
  {
    WhereeverStays(f, c, x, flags);
    CheckIs(f, c, x, flags);
    hide Tree, Acyclic, WeightsOk, Destination, StackRoom, FreeSlots, FirstStack, AddCheck, AddAnswer;
    var dest := Destination(f, c, INDEX_WHEREEVER, x, flags).dest;
    if dest != null {
      InRange(10000 - f.count[dest] as int);
    }
  }

  /** When a merge leaves a rest, everything is ready to add the rest. */
  lemma {:induction false} MergeLeaves(f: Forest, c: Item, x: Item, dest: Item, n: nat, y: Item, flags: Flags)
    requires Offered(f, c, x) && dest in f.parent && dest in f.list[c] && Takes(f, x, dest) && f.kind[x].stackable
    requires f.count[dest] + n <= 10000 && n < f.count[x] && y !in f.parent && !y.isContainer
    requires !flags.childIsOwner && AddCheck(f, c, x, flags) == NoError
    ensures CanMerge(f, c, x, dest, n, y)
    ensures var g := Rest(f, c, x, dest, n, y);
            && Offered(g, c, y) && y in g.count && g.count[y] == f.count[x] - n && y in g.kind && g.kind[y] == f.kind[x]
            && Shaped(g) && AddCheck(g, c, y, flags) == NoError
  {
    hide Tree, Acyclic, WeightsOk, AddCheck, Takes, Rest, Above;
    RestPasses(f, c, x, dest, n, y, flags);
    RestFrame(f, c, x, dest, n, y);
  }

  lemma {:induction false} MergeTakesAll(f: Forest, c: Item, x: Item, dest: Item)
    requires Offered(f, c, x) && dest in f.parent && dest in f.list[c] && f.kind[dest] == f.kind[x]
    requires f.count[dest] as int + f.count[x] as int <= 10000
    ensures var g := Merged(f, c, dest, f.count[x]); Sound(g) && Added(f, g, c, f.kind[x], f.count[x])
  {
    hide *;
    OfferedIs(f, c, x);
    MergedAdded(f, c, dest, f.count[x]);
  }

  lemma {:induction false} RestIs(f: Forest, c: Item, x: Item, dest: Item, n: nat, y: Item)
    requires Sound(f) && c in f.parent && x in f.parent && dest in f.parent && n <= f.count[x]
    ensures Rest(f, c, x, dest, n, y) == Enter(Merged(f, c, dest, n), y, f.kind[x], f.count[x] - n)
  {
  }

  /**
   * Adds `x` to `c`, onto the stacks that take it and the rest in a slot of its own. If the questions asked first
   * are answered well, nothing remains: `c` holds exactly the count of `x` more, whatever number of merges it takes.
   * If `x` is not too high a stack, no other becomes one, and without the no-limit flag no container outgrows its capacity.
   * The case in which nothing merges although a stack takes the item cannot arise, and has no branch here.
   */
  method InternalAddItem(c: Item, x: Item, flags: Flags, test: bool, ghost w: set<Item>)
    returns (r: ReturnValue, remainderCount: u32, ghost v: set<Item>)
    requires c in w && x in w && Offered(Item.View(w), c, x) && !flags.childIsOwner
    modifies w
    ensures Shaped(old(Item.View(w))) && c in old(Item.View(w)).parent && x in old(Item.View(w)).parent
    ensures Answered(old(Item.View(w)), c, x, flags, r)
    ensures r == AddCheck(old(Item.View(w)), c, x, flags) && remainderCount == 0 && w <= v && fresh(v - w)
    ensures r != NoError || test ==> v == w && Item.View(v) == old(Item.View(w))
    ensures r == NoError && !test ==>
              Sound(Item.View(v)) && Added(old(Item.View(w)), Item.View(v), c, old(x.kind), old(x.count))
    ensures r == NoError && !test && old(x.kind.stackable ==> x.count <= MAX_ITEM_COUNT) ==>
              StaysBounded(old(Item.View(w)), Item.View(v), !flags.nolimit)
    decreases x.count
  {
    hide *;
    ghost var f := Item.View(w);
    OfferedIs(f, c, x);
    x.Seen(w);
    remainderCount, v := 0, w;
    var route := QueryDestination(c, -1, x, flags, w);
    CheckIs(f, c, x, flags);
    OfferIsAnswered(f, c, x, flags);
    WhereIs();
    r := c.QueryAdd(route.index, x, flags, w);
    if r != NoError {
      return;
    }
    var max;
    max, r := QueryMaxCount(c, -1, x, x.count, flags, w);
    if r != NoError || test {
      return;
    }
    MergeSizes(f, c, x, flags, max);
    var dest := route.dest;
    if dest != null {
      Item.Member(w, dest);
      dest.Seen(w);
      var m: u32 := Min(x.count, max);
      var n: u32 := Min(Wrap(10000 - dest.count as int), m);
      MergedIs(f, c, dest, n);
      c.UpdateThing(dest, dest.kind, (dest.count as int + n as int) % 0x1_0000, w);
      x.Seen(w);
      SameItem(f, c, x, dest, n);
      var count := m as int - n as int;
      if count > 0 {
        Item.Members(w);
        var remainderItem := x.Clone(count % 0x1_0000, w);
        v := w + {remainderItem};
        MergeLeaves(f, c, x, dest, n, remainderItem, flags);
        RestIs(f, c, x, dest, n, remainderItem);
        ghost var g := Item.View(v);
        remainderItem.Seen(v);
        r, remainderCount, v := InternalAddItem(c, remainderItem, flags, false, v);
        SoundParts(Item.View(v));
        RestAdded(f, c, x, dest, n, remainderItem, Item.View(v));
        if f.count[x] <= MAX_ITEM_COUNT {
          RestStaysBounded(f, c, x, dest, n, remainderItem, !flags.nolimit);
          BoundedTwice(f, g, Item.View(v), !flags.nolimit);
        }
      } else {
        MergeTakesAll(f, c, x, dest);
        MergedStaysBounded(f, c, dest, n, !flags.nolimit);
      }
    } else {
      PlainAddition(f, c, x, flags);
      AttachAdded(f, c, x);
      AttachStaysBounded(f, c, x, !flags.nolimit);
      c.AddThing(route.index, x, w);
    }
  }

  lemma {:induction false} WhereIs()
    ensures INDEX_WHEREEVER == -1
  {
  }

  /** A merge onto `dest` leaves `x` as it is. */
  lemma {:induction false} SameItem(f: Forest, c: Item, x: Item, dest: Item, n: nat)
    requires Offered(f, c, x) && dest in f.parent && dest in f.list[c] && f.count[dest] + n <= 10000
    ensures var g := Merged(f, c, dest, n);
            && Shaped(g) && x in g.kind && x in g.count && x in f.kind && x in f.count
            && g.kind[x] == f.kind[x] && g.count[x] == f.count[x] && g.parent.Keys == f.parent.Keys
  {
    Listed(f, x, c);
    hide Tree, Acyclic, WeightsOk, Merged;
    MergedFrame(f, c, dest, n);
  }
}
