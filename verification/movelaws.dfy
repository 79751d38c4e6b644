/**
  Where a thing ends up that is moved, how much of it is moved and what else changes, said about the fields of the items
  alone: parents, lists, kinds and counts before and after.
 */
module MoveLaws {
  import opened Containers
  import opened Holdings
  import opened Moves

  // ---------------------------------------------------------------------------
  // Where it goes
  // ---------------------------------------------------------------------------

  /**
    The container that gets a thing sent to slot `index` of `target`: its parent for 254 (move up), a container that is in
    the slot, and `target` itself in all other cases.
   */
  ghost predicate GoesTo(f: Forest, target: Item, index: int, to: Item)
    requires f.Keyed() && target in f.parent
  {
    if index == 254 then to == if f.parent[target] != null then f.parent[target] else target
    else if 0 <= index < |f.list[target]| && index < target.maxSize && index != 255 && f.list[target][index].isContainer
    then to == f.list[target][index]
    else to == target
  }

  /** `y` is another stack of the same kind with room for at least one more. */
  ghost predicate HasRoomFor(f: Forest, x: Item, y: Item)
    requires f.Keyed() && x in f.parent && y in f.parent
  {
    y != x && f.kind[y] == f.kind[x] && f.count[y] < 10000
  }

  /** Whether `x` looks for a stack to join: `there` is what is in the slot asked for. */
  ghost predicate LooksForStack(f: Forest, x: Item, to: Item, there: Item?, autostack: bool)
    requires f.Keyed() && x in f.parent && (there != null ==> there in f.parent)
  {
    && autostack && f.kind[x].stackable && f.parent[x] != to
    && !(there != null && f.kind[there] == f.kind[x] && f.count[there] < 100)
  }

  /** The thing in a slot, if there is one. */
  function There(s: seq<Item>, slot: int): (y: Item?)
    ensures y != null ==> y in s
  {
    if 0 <= slot < |s| then s[slot] else null
  }

  /**
    The slot of `to` that a move to slot `index` of `target` ends at. A thing that was sent
    on, or sent to a slot that `target` does not have, asks for no slot. A stack from elsewhere joins the stack in the slot it
    asks for if that is below a hundred, otherwise the first one with room, and takes the slot it asks for if there is none.
   */
  ghost predicate EndsInSlot(f: Forest, target: Item, index: int, x: Item, flags: Flags, to: Item, slot: int)
    requires f.Keyed() && x in f.parent && to in f.parent && AllIn(f, f.list[to])
  {
    var s := f.list[to];
    var asked := if to != target || index in {254, 255} || index >= target.maxSize then -1 else index;
    var autostack := if to != target then true else index != 254 && !flags.ignoreAutostack;
    if LooksForStack(f, x, to, There(s, asked), autostack) && exists n :: 0 <= n < |s| && HasRoomFor(f, x, s[n])
    then 0 <= slot < |s| && HasRoomFor(f, x, s[slot]) && forall n :: 0 <= n < slot ==> !HasRoomFor(f, x, s[n])
    else slot == asked
  }

  lemma {:induction false} FirstStackEnds(f: Forest, s: seq<Item>, x: Item)
    requires f.Keyed() && AllIn(f, s) && x in f.parent
    ensures var n := FirstStack(f, s, x);
            if exists k :: 0 <= k < |s| && HasRoomFor(f, x, s[k])
            then 0 <= n < |s| && HasRoomFor(f, x, s[n]) && forall k :: 0 <= k < n ==> !HasRoomFor(f, x, s[k])
            else n == -1
  {
    assert forall k :: 0 <= k < |s| ==> (HasRoomFor(f, x, s[k]) <==> Takes(f, x, s[k]));
    hide FirstStack;
    var n := FirstStack(f, s, x);
    assert n >= 0 ==> Takes(f, x, s[n]);
  }

  lemma {:induction false} StackingEnds(f: Forest, c: Item, asked: int, x: Item, flags: Flags)
    requires Shaped(f) && c in f.parent && x in f.parent && AllIn(f, f.list[c])
    ensures var r := Stacking(f, c, asked, x, flags);
            var s := f.list[c];
            && r.to == c && r.dest == There(s, r.index)
            && if LooksForStack(f, x, c, There(s, asked), !flags.ignoreAutostack) && exists n :: 0 <= n < |s| && HasRoomFor(f, x, s[n])
               then 0 <= r.index < |s| && HasRoomFor(f, x, s[r.index]) && forall n :: 0 <= n < r.index ==> !HasRoomFor(f, x, s[n])
               else r.index == asked
  {
    FirstStackEnds(f, f.list[c], x);
    hide Tree, Acyclic, FirstStack, HasRoomFor;
  }

  lemma {:induction false} ListIsIn(f: Forest, c: Item)
    requires Shaped(f) && c in f.parent
    ensures f.Keyed() && AllIn(f, f.list[c]) && (forall y :: y in f.list[c] ==> y != c)
    ensures f.parent[c] != null ==> f.parent[c] in f.parent && f.parent[c] != c && AllIn(f, f.list[f.parent[c]])
  {
    ListIn(f, c);
    NotOwnParent(f.parent, c);
    if f.parent[c] != null {
      ListIn(f, f.parent[c]);
    }
    forall y | y in f.list[c]
      ensures y != c
    {
      NotOwnParent(f.parent, y);
    }
    hide Acyclic;
  }

  lemma {:induction false} NotOwnParent(parent: map<Item, Item?>, c: Item)
    requires Acyclic(parent) && c in parent
    ensures parent[c] != c
  {
    if parent[c] != null {
      DepthUp(parent, c);
    }
  }

  lemma {:induction false} DestinationEnds(f: Forest, c: Item, index: int, x: Item, flags: Flags)
    requires Shaped(f) && c in f.parent && c.unlocked && x in f.parent && AllIn(f, f.list[c])
    ensures var r := Destination(f, c, index, x, flags);
            && GoesTo(f, c, index, r.to)
            && (r.to == c ==> EndsInSlot(f, c, index, x, flags, c, r.index) && r.dest == There(f.list[c], r.index))
            && (r.to != c ==> r.index == -1 && (f.parent[c] == r.to || r.to in f.list[c]))
  {
    ListIsIn(f, c);
    StackingEnds(f, c, if index == 255 || index >= c.maxSize as int then -1 else index, x, flags);
    hide Tree, Acyclic, Stacking, HasRoomFor;
  }

  /** What one container answers: it keeps the thing in a slot, or sends it to its parent or to a container of its own. */
  ghost predicate RoutesRight(f: Forest, c: Item, index: int, x: Item, flags: Flags, r: Route)
    requires Shaped(f) && c in f.parent && x in f.parent
  {
    && AllIn(f, f.list[c])
    && (!c.unlocked ==> r == Route(c, index, null))
    && (c.unlocked ==> GoesTo(f, c, index, r.to))
    && (c.unlocked && r.to == c ==> EndsInSlot(f, c, index, x, flags, c, r.index) && r.dest == There(f.list[c], r.index))
    && (r.to != c ==> r.index == -1 && r.dest == null)
  }

  lemma {:induction false} DestinationIsRight(f: Forest, c: Item, index: int, x: Item, flags: Flags)
    requires Shaped(f) && c in f.parent && x in f.parent
    ensures RoutesRight(f, c, index, x, flags, Destination(f, c, index, x, flags))
  {
    ListIsIn(f, c);
    if c.unlocked {
      DestinationEnds(f, c, index, x, flags);
      SentEmpty(f, c, index, x, flags);
    } else {
      LockedKeeps(f, c, index, x, flags);
    }
    hide Tree, Acyclic, Destination, EndsInSlot, GoesTo;
  }

  lemma {:induction false} SentEmpty(f: Forest, c: Item, index: int, x: Item, flags: Flags)
    requires Shaped(f) && c in f.parent && x in f.parent
    ensures var r := Destination(f, c, index, x, flags); r.to != c ==> r.index == -1 && r.dest == null
  {
    hide Tree, Acyclic, FirstStack, Takes;
  }

  /** A thing that has been sent on is not sent on again. */
  lemma {:induction false} SentOnce(f: Forest, c: Item, x: Item, n: nat)
    requires Shaped(f) && c in f.parent && c.isContainer && x in f.parent && n > 0
    ensures Destination(f, c, -1, x, PLAIN).to == c && Hops(f, c, -1, x, PLAIN, n) == (Destination(f, c, -1, x, PLAIN), PLAIN)
  {
    hide Tree, Acyclic, FirstStack, Takes;
  }

  lemma {:induction false} LockedKeeps(f: Forest, c: Item, index: int, x: Item, flags: Flags)
    requires Shaped(f) && c in f.parent && x in f.parent && !c.unlocked
    ensures Destination(f, c, index, x, flags) == Route(c, index, null)
  {
  }

  lemma {:induction false} SentOn(f: Forest, target: Item, c: Item, index: int, x: Item, flags: Flags)
    requires Shaped(f) && target in f.parent && c in f.parent && c.isContainer && c.unlocked && x in f.parent && c != target
    requires AllIn(f, f.list[c])
    ensures var r := Destination(f, c, -1, x, PLAIN);
            r.to == c && EndsInSlot(f, target, index, x, flags, c, r.index) && r.dest == There(f.list[c], r.index)
  {
    SentOnce(f, c, x, 1);
    StackingEnds(f, c, -1, x, PLAIN);
    hide Tree, Acyclic, Stacking, HasRoomFor, Hops;
  }

  /** Where the questions to the containers lead. */
  lemma {:induction false} RouteEnds(f: Forest, target: Item, index: int, x: Item, flags: Flags)
    requires Shaped(f) && target in f.parent && target.isContainer && x in f.parent
    ensures var (r, fl) := Hops(f, target, index, x, flags, MAP_MAX_LAYERS);
            && (!target.unlocked ==> r.to == target)
            && (target.unlocked ==> GoesTo(f, target, index, r.to))
            && r.to in f.parent && r.to.isContainer && AllIn(f, f.list[r.to])
            && (target.unlocked && r.to.unlocked ==>
                  EndsInSlot(f, target, index, x, flags, r.to, r.index) && r.dest == There(f.list[r.to], r.index))
            && (!r.to.unlocked ==> r.dest == null)
            && fl == if r.to == target then flags else PLAIN
  {
    ListIsIn(f, target);
    DestinationIn(f, target, index, x, flags);
    var r := Destination(f, target, index, x, flags);
    ListIsIn(f, r.to);
    if target.unlocked {
      DestinationEnds(f, target, index, x, flags);
      if r.to != target {
        SentOnce(f, r.to, x, MAP_MAX_LAYERS - 1);
        if r.to.unlocked {
          SentOn(f, target, r.to, index, x, flags);
        } else {
          LockedKeeps(f, r.to, -1, x, PLAIN);
        }
      }
    } else {
      LockedKeeps(f, target, index, x, flags);
    }
    hide Tree, Acyclic, Destination, EndsInSlot, GoesTo;
  }

  /** The container that a decided move ends in, and its slot there. */
  lemma {:induction false} DecidedMoveEnds(f: Forest, origin: Item, target: Item, index: int, x: Item, count: u32, flags: Flags,
                                           tradeItem: Item?)
    requires Shaped(f) && origin in f.parent && target in f.parent && target.isContainer && x in f.parent && !flags.childIsOwner
    requires Decide(f, origin, target, index, x, count, flags, tradeItem).Go?
    ensures var go := Decide(f, origin, target, index, x, count, flags, tradeItem);
            && go.to in f.parent && go.to.isContainer && AllIn(f, f.list[go.to])
            && GoesTo(f, target, index, go.to)
            && EndsInSlot(f, target, index, x, flags, go.to, go.index) && go.dest == There(f.list[go.to], go.index)
  {
    RouteEnds(f, target, index, x, flags);
    HopsAreGood(f, target, index, x, flags, MAP_MAX_LAYERS);
    var (r, fl) := Hops(f, target, index, x, flags, MAP_MAX_LAYERS);
    hide Tree, Acyclic, Hops, EndsInSlot, GoesTo, GoodRoute, MaxAnswer, RemoveAnswer, Above, AddAnswer;
    GoAccepts(f, origin, r, x, count, fl, tradeItem);
  }

  // ---------------------------------------------------------------------------
  // How much, and who refuses
  // ---------------------------------------------------------------------------

  /** How many things of kind `k` are in a list. */
  ghost function Piles(f: Forest, s: seq<Item>, k: Kind): nat
    requires f.Keyed() && AllIn(f, s)
  {
    if s == [] then 0 else Piles(f, s[..|s| - 1], k) + if f.kind[s[|s| - 1]] == k then 1 else 0
  }

  /** What the stacks of the kind of `x` in `to` lack: ten thousand each, less what `to` holds, `x` itself left out. */
  ghost function Lacking(f: Forest, to: Item, x: Item): int
    requires Shaped(f) && to in f.parent && x in f.parent && AllIn(f, f.list[to])
  {
    10000 * (Piles(f, f.list[to], f.kind[x]) - if x in f.list[to] then 1 else 0)
    - (Held(f, to, f.kind[x]) - if x in f.list[to] then f.count[x] else 0)
  }

  /** How much more of the stack `x` container `to` takes: free slots, and the stack in the slot or all stacks of the kind. */
  ghost function Fitting(f: Forest, to: Item, slot: int, x: Item): int
    requires Shaped(f) && to in f.parent && x in f.parent && AllIn(f, f.list[to])
  {
    var dest := There(f.list[to], slot);
    10000 * (if |f.list[to]| < to.maxSize then to.maxSize - |f.list[to]| else 0)
    + if slot == -1 then Lacking(f, to, x)
      else if dest != null && f.kind[dest] == f.kind[x] && f.count[dest] < 10000 then 10000 - f.count[dest] else 0
  }

  lemma {:induction false} RoomIsLacking(f: Forest, s: seq<Item>, x: Item)
    requires f.Keyed() && Stacks(f) && AllIn(f, s) && Distinct(s) && x in f.parent && f.kind[x].stackable
    ensures Room(f, s, x) == 10000 * (Piles(f, s, f.kind[x]) - if x in s then 1 else 0)
                             - (Amount(f, s, f.kind[x]) - if x in s then f.count[x] else 0)
  {
    if s != [] {
      var n := |s| - 1;
      RoomIsLacking(f, s[..n], x);
      assert s == s[..n] + [s[n]];
    }
  }

  /** How much is moved: all that is asked for without limit, otherwise what is asked for or what fits, if that is less. */
  ghost function AmountMoved(f: Forest, to: Item, slot: int, x: Item, count: u32, nolimit: bool): u32
    requires Shaped(f) && to in f.parent && x in f.parent && AllIn(f, f.list[to])
  {
    if nolimit then if f.kind[x].stackable || count > 1 then count else 1
    else if f.kind[x].stackable then
      var fits := Wrap(Fitting(f, to, slot, x)); if count < fits then count else fits
    else if |f.list[to]| < to.maxSize then to.maxSize - |f.list[to]| else 0
  }

  /** What a move is answered, in the order of the questions, and what it will do if nobody refuses. */
  ghost predicate Answers(f: Forest, origin: Item, target: Item, x: Item, count: u32, flags: Flags, tradeItem: Item?,
                          to: Item, slot: int, plan: Plan)
    requires Shaped(f) && origin in f.parent && to in f.parent && x in f.parent && AllIn(f, f.list[to])
  {
    var dest := There(f.list[to], slot);
    var nolimit := to == target && flags.nolimit;
    var m := AmountMoved(f, to, slot, x, count, nolimit);
    if !target.unlocked || !to.unlocked then plan == Stop(NotPossible)
    else if dest == x then plan == Stop(NoError)
    else if !f.kind[x].pickupable then plan == Stop(CannotPickup)
    else if Above(f.parent, x, to) then plan == Stop(ThisIsImpossible)
    else if !nolimit && (slot == -1 || !f.kind[x].stackable) && |f.list[to]| >= to.maxSize then plan == Stop(ContainerNotEnoughRoom)
    else if !nolimit && m == 0 < count then plan == Stop(ContainerNotEnoughRoom)
    else if m == 0 || x !in f.list[origin] || (f.kind[x].stackable && m > f.count[x]) then plan == Stop(NotPossible)
    else if !f.kind[x].moveable && !(to == target && flags.ignoreNotMoveable) then plan == Stop(NotMoveable)
    else if tradeItem != null && Above(f.parent, tradeItem, to) then plan == Stop(NotEnoughRoom)
    else plan == Go(to, slot, dest, m, if f.kind[x].stackable && m < count then ContainerNotEnoughRoom else NoError)
  }

  lemma {:induction false} MaxAnswerIs(f: Forest, r: Route, x: Item, count: u32, flags: Flags)
    requires Shaped(f) && Stacks(f) && x in f.parent && GoodRoute(f, r) && r.to.unlocked && AllIn(f, f.list[r.to])
    requires r.dest == There(f.list[r.to], r.index)
    requires AddAnswer(f, r.to, r.index, x, flags) == NoError && !flags.childIsOwner
    ensures var (max, enough) := MaxAnswer(f, r.to, r.index, x, count, flags);
            var m := AmountMoved(f, r.to, r.index, x, count, flags.nolimit);
            && m == (if f.kind[x].stackable then Min(count, max) else max)
            && (enough != NoError && max == 0 <==> !flags.nolimit && m == 0 && (f.kind[x].stackable ==> count > 0))
            && (f.kind[x].stackable ==> (max < count <==> m < count) && (max < count ==> enough == ContainerNotEnoughRoom))
            && (enough != NoError ==> enough == ContainerNotEnoughRoom)
  {
    if !flags.nolimit && f.kind[x].stackable {
      StackRoomIs(f, r, x, flags);
    }
    hide Tree, Acyclic, Above, AddAnswer, StackRoom, Lacking, GoodRoute, Stacks, Wrap, AtSlot;
  }

  lemma {:induction false} StackRoomIs(f: Forest, r: Route, x: Item, flags: Flags)
    requires Shaped(f) && Stacks(f) && x in f.parent && GoodRoute(f, r) && r.to.unlocked && AllIn(f, f.list[r.to])
    requires r.dest == There(f.list[r.to], r.index)
    requires AddAnswer(f, r.to, r.index, x, flags) == NoError && !flags.childIsOwner && f.kind[x].stackable
    ensures FreeSlots(f, r.to) * 10000 + StackRoom(f, r.to, r.index, x, flags) == Fitting(f, r.to, r.index, x)
  {
    DistinctList(f, r.to);
    RoomIsLacking(f, f.list[r.to], x);
    AnsweredAnywhere(f, r.to, r.index, x, flags);
    hide Tree, Acyclic, Above, AddAnswer, Room, Amount, Piles, Stacks;
  }

  lemma {:induction false} DistinctList(f: Forest, c: Item)
    requires Shaped(f) && c in f.parent
    ensures Distinct(f.list[c])
  {
  }

  lemma {:induction false} AnsweredAnywhere(f: Forest, c: Item, index: int, x: Item, flags: Flags)
    requires Shaped(f) && c in f.parent && x in f.parent && AddAnswer(f, c, index, x, flags) == NoError
    ensures AddAnswer(f, c, 0, x, flags) == NoError
  {
  }

  lemma {:induction false} WeighAnswers(f: Forest, origin: Item, target: Item, r: Route, x: Item, count: u32, flags: Flags,
                                        fl: Flags, tradeItem: Item?)
    requires Shaped(f) && Stacks(f) && origin in f.parent && x in f.parent && GoodRoute(f, r) && AllIn(f, f.list[r.to])
    requires fl == (if r.to == target then flags else PLAIN) && !flags.childIsOwner && r.dest != x && target.unlocked
    requires r.to.unlocked && r.dest == There(f.list[r.to], r.index)
    ensures Answers(f, origin, target, x, count, flags, tradeItem, r.to, r.index,
                    Weigh(f, origin, r, x, count, fl, tradeItem))
  {
    AddAnswerIs(f, r.to, r.index, x, fl);
    if AddAnswer(f, r.to, r.index, x, fl) == NoError {
      MaxAnswerIs(f, r, x, count, fl);
    }
    hide Tree, Acyclic, Above, AddAnswer, MaxAnswer, AmountMoved, GoodRoute, Stacks;
  }

  lemma {:induction false} AddAnswerIs(f: Forest, c: Item, index: int, x: Item, flags: Flags)
    requires Shaped(f) && c in f.parent && x in f.parent && !flags.childIsOwner
    ensures AddAnswer(f, c, index, x, flags) ==
            if !c.unlocked then NotPossible
            else if !f.kind[x].pickupable then CannotPickup
            else if Above(f.parent, x, c) then ThisIsImpossible
            else if !flags.nolimit && index == -1 && |f.list[c]| >= c.maxSize then ContainerNotEnoughRoom
            else NoError
  {
  }

  /** The decision about a move, over the fields: where it would end, and what it is answered. */
  ghost predicate Decided(f: Forest, origin: Item, target: Item, index: int, x: Item, count: u32, flags: Flags, tradeItem: Item?,
                          plan: Plan)
    requires Shaped(f) && origin in f.parent && target in f.parent && x in f.parent
  {
    exists to, slot {:trigger Ends(f, target, index, x, flags, to, slot)} ::
      && to in f.parent && AllIn(f, f.list[to])
      && Ends(f, target, index, x, flags, to, slot)
      && Answers(f, origin, target, x, count, flags, tradeItem, to, slot, plan)
  }

  /** Where a move to slot `index` of `target` would end; a locked container is asked for no slot. */
  ghost predicate Ends(f: Forest, target: Item, index: int, x: Item, flags: Flags, to: Item, slot: int)
    requires f.Keyed() && x in f.parent && target in f.parent && to in f.parent && AllIn(f, f.list[to])
  {
    && (target.unlocked ==> GoesTo(f, target, index, to))
    && (target.unlocked && to.unlocked ==> EndsInSlot(f, target, index, x, flags, to, slot))
  }

  lemma {:induction false} LockedAnswers(f: Forest, origin: Item, target: Item, r: Route, x: Item, count: u32, flags: Flags,
                                         fl: Flags, tradeItem: Item?)
    requires Shaped(f) && origin in f.parent && x in f.parent && GoodRoute(f, r) && AllIn(f, f.list[r.to])
    requires !fl.childIsOwner && (!target.unlocked || !r.to.unlocked) && (!target.unlocked ==> r.to == target)
    ensures Answers(f, origin, target, x, count, flags, tradeItem, r.to, r.index,
                    Weigh(f, origin, r, x, count, fl, tradeItem))
  {
    AddAnswerIs(f, r.to, r.index, x, fl);
    hide Tree, Acyclic, Above, AddAnswer, MaxAnswer, AmountMoved, GoodRoute, RemoveAnswer;
  }

  /** A move is decided by where it ends, what fits there, and who refuses. */
  lemma {:induction false} DecisionIsAnswered(f: Forest, origin: Item, target: Item, index: int, x: Item, count: u32, flags: Flags,
                                              tradeItem: Item?)
    requires Shaped(f) && Stacks(f) && origin in f.parent && target in f.parent && target.isContainer && x in f.parent
    requires !flags.childIsOwner
    ensures Decided(f, origin, target, index, x, count, flags, tradeItem,
                    Decide(f, origin, target, index, x, count, flags, tradeItem))
  {
    RouteEnds(f, target, index, x, flags);
    HopsAreGood(f, target, index, x, flags, MAP_MAX_LAYERS);
    var (r, fl) := Hops(f, target, index, x, flags, MAP_MAX_LAYERS);
    if !target.unlocked || !r.to.unlocked {
      LockedAnswers(f, origin, target, r, x, count, flags, fl, tradeItem);
    } else if r.dest != x {
      WeighAnswers(f, origin, target, r, x, count, flags, fl, tradeItem);
    }
    hide Tree, Acyclic, Hops, EndsInSlot, GoesTo, Weigh, Stacks, AmountMoved, Above;
    assert Ends(f, target, index, x, flags, r.to, r.index);
  }

  // ---------------------------------------------------------------------------
  // What changes
  // ---------------------------------------------------------------------------

  /** How much of the moved stack joins the stack `dest`: all of it, or what `dest` lacks. */
  ghost function Joining(f: Forest, x: Item, dest: Item?, m: u32): int
    requires f.Keyed() && x in f.parent && (dest != null ==> dest in f.parent)
  {
    if dest == null || !f.kind[x].stackable || f.kind[dest] != f.kind[x] then 0
    else if f.count[dest] + m <= 10000 then m else 10000 - f.count[dest] as int
  }

  /** `t` is `s` without `x`, everything else in its order. */
  ghost predicate Without(s: seq<Item>, x: Item, t: seq<Item>) {
    exists i :: 0 <= i < |s| && s[i] == x && t == s[..i] + s[i + 1..]
  }

  /** `t` is `s`, without `x` if it leaves, and with `y` in front if it comes. */
  ghost predicate ListAfter(s: seq<Item>, leaves: bool, x: Item, comes: bool, y: Item, t: seq<Item>) {
    if comes then t != [] && t[0] == y && (if leaves then Without(s, x, t[1..]) else t[1..] == s)
    else if leaves then Without(s, x, t) else t == s
  }

  /**
    What a move of `m` of `x` from `origin` to `to` changes. A thing, or the last of a stack, leaves its list; a part of a stack
    leaves its count lower. What joins the stack `dest` makes it higher. The rest, carried by `y`, is placed in front, which a
    slot beyond the capacity forbids. All other lists, counts and parents stay, and so do all kinds.
   */
  ghost predicate Changes(f: Forest, g: Forest, origin: Item, x: Item, to: Item, slot: int, dest: Item?, m: u32, y: Item)
    requires f.Keyed() && g.Keyed() && x in f.parent && to in f.parent && (dest != null ==> dest in f.parent)
  {
    var joining := Joining(f, x, dest, m);
    var whole := !f.kind[x].stackable;
    var leaves := whole || m == f.count[x];
    var rest := whole || m > joining;
    var comes := rest && slot < to.maxSize;
    && (rest && !whole ==> y !in f.parent && y in g.parent && g.kind[y] == f.kind[x] && g.count[y] == m - joining)
    && (!(rest && !whole) ==> y == x)
    && (rest ==> y in g.parent && g.parent[y] == if comes then to else null)
    && (forall c :: c in f.parent ==>
          c in g.parent && ListAfter(f.list[c], leaves && c == origin, x, comes && c == to, y, g.list[c]))
    && (forall z {:trigger z in g.parent} :: z in f.parent ==>
          && z in g.parent && g.kind[z] == f.kind[z]
          && g.count[z] == f.count[z] - (if z == x && !leaves then m else 0) + (if z == dest then joining else 0)
          && (z != y || !rest ==> g.parent[z] == if z == x && leaves then null else f.parent[z]))
  }

  /** The state between taking and placing: what leaves has left, what joins has joined. */
  ghost predicate HalfWay(f: Forest, h: Forest, origin: Item, x: Item, leaves: bool, part: nat, dest: Item?, joining: int)
    requires f.Keyed() && h.Keyed()
  {
    && (forall c :: c in f.parent ==> c in h.parent && ListAfter(f.list[c], leaves && c == origin, x, false, x, h.list[c]))
    && (forall z {:trigger z in h.parent} :: z in f.parent ==>
          && z in h.parent && h.kind[z] == f.kind[z]
          && h.count[z] == f.count[z] - (if z == x && !leaves then part else 0) + (if z == dest then joining else 0)
          && h.parent[z] == if z == x && leaves then null else f.parent[z])
  }

  lemma {:induction false} TakenHalfWay(f: Forest, origin: Item, x: Item, m: u32)
    requires Sound(f) && origin in f.parent && x in f.parent && x in f.list[origin]
    requires f.kind[x].stackable ==> m <= f.count[x]
    ensures var g := ThingRemoved(f, origin, x, m);
            Sound(g) && HalfWay(f, g, origin, x, !f.kind[x].stackable || m == f.count[x], m, null, 0)
  {
    hide Tree, Acyclic, WeightsOk, ThingRemoved, Change, Detach, LeftOf, HalfWay;
    ThingRemovedSound(f, origin, x, m);
    RemovedIs(f, origin, x, m);
    if f.kind[x].stackable && m != f.count[x] {
      LeftOfPart(f.count[x], m);
      PartHalfWay(f, origin, x, m);
    } else {
      WholeHalfWay(f, origin, x, Index(f.list[origin], x), m);
    }
  }

  lemma {:induction false} PartHalfWay(f: Forest, origin: Item, x: Item, m: u32)
    requires Sound(f) && origin in f.parent && x in f.parent && m <= f.count[x]
    ensures var g := Change(f, origin, x, f.kind[x], f.count[x] - m); g.Keyed() && HalfWay(f, g, origin, x, false, m, null, 0)
  {
    hide Tree, Acyclic, WeightsOk, Change, Without;
    ChangeFrame(f, origin, x, f.kind[x], f.count[x] - m);
  }

  lemma {:induction false} WholeHalfWay(f: Forest, origin: Item, x: Item, i: nat, part: nat)
    requires Sound(f) && origin in f.parent && x in f.parent && i < |f.list[origin]| && f.list[origin][i] == x
    ensures var g := Detach(f, origin, x, f.list[origin][..i] + f.list[origin][i + 1..]);
            g.Keyed() && HalfWay(f, g, origin, x, true, part, null, 0)
  {
    hide Tree, Acyclic, WeightsOk, Detach;
    DetachFrame(f, origin, x, f.list[origin][..i] + f.list[origin][i + 1..]);
    assert Without(f.list[origin], x, f.list[origin][..i] + f.list[origin][i + 1..]);
    hide Without;
  }

  lemma {:induction false} MergedHalfWay(f: Forest, g: Forest, origin: Item, x: Item, leaves: bool, part: nat, to: Item, dest: Item, n: nat)
    requires Sound(f) && Sound(g) && HalfWay(f, g, origin, x, leaves, part, null, 0) && to in f.parent && dest in f.parent && dest != x
    requires dest in g.list[to] && f.count[dest] + n < 0x1_0000
    ensures to in g.parent && dest in g.parent && Sound(Merged(g, to, dest, n))
    ensures HalfWay(f, Merged(g, to, dest, n), origin, x, leaves, part, dest, n)
  {
    assert to in g.parent && dest in g.parent && g.count[dest] == f.count[dest];
    MergedFrame(g, to, dest, n);
    hide Tree, Acyclic, WeightsOk, Merged, ListAfter;
  }

  lemma {:induction false} JoiningIs(f: Forest, x: Item, dest: Item?, m: u32)
    requires f.Keyed() && Stacks(f) && x in f.parent && (dest != null ==> dest in f.parent)
    ensures Joining(f, x, dest, m) == (if Merges(f, x, dest) then Merging(f, x, dest, m) else 0)
    ensures f.kind[x].stackable ==> Joining(f, x, dest, m) == Merging(f, x, dest, m)
    ensures dest != null && Merges(f, x, dest) ==> f.count[dest] + Joining(f, x, dest, m) <= 10000
  {
  }

  lemma {:induction false} BetweenHalfWay(f: Forest, origin: Item, x: Item, to: Item, dest: Item?, m: u32)
    requires CanMove(f, origin, x, to, dest, m)
    ensures var h := Between(f, origin, x, to, dest, m);
            Sound(h) && HalfWay(f, h, origin, x, !f.kind[x].stackable || m == f.count[x], m, dest, Joining(f, x, dest, m))
  {
    hide Tree, Acyclic, WeightsOk, Above, Merged, ThingRemoved, Merging, Joining, Stacks, HalfWay;
    TakenHalfWay(f, origin, x, m);
    JoiningIs(f, x, dest, m);
    if Merges(f, x, dest) {
      TakenFrame(f, origin, x, m);
      MergingFits(f, x, dest, m);
      MergedHalfWay(f, ThingRemoved(f, origin, x, m), origin, x, !f.kind[x].stackable || m == f.count[x], m, to, dest,
                    Joining(f, x, dest, m));
    } else {
      NoneJoins(f, ThingRemoved(f, origin, x, m), origin, x, !f.kind[x].stackable || m == f.count[x], m, dest);
    }
  }

  lemma {:induction false} NoneJoins(f: Forest, h: Forest, origin: Item, x: Item, leaves: bool, part: nat, dest: Item?)
    requires f.Keyed() && h.Keyed() && HalfWay(f, h, origin, x, leaves, part, null, 0)
    ensures HalfWay(f, h, origin, x, leaves, part, dest, 0)
  {
  }

  /** Putting `y`, the rest, in front of `to`. */
  lemma {:induction false} RestChanges(f: Forest, h: Forest, g: Forest, origin: Item, x: Item, to: Item, slot: int, dest: Item?,
                                       m: u32, y: Item)
    requires f.Keyed() && h.Keyed() && g.Keyed() && x in f.parent && to in f.parent && (dest != null ==> dest in f.parent)
    requires HalfWay(f, h, origin, x, !f.kind[x].stackable || m == f.count[x], m, dest, Joining(f, x, dest, m))
    requires var whole, rest := !f.kind[x].stackable, !f.kind[x].stackable || m > Joining(f, x, dest, m);
             var comes := rest && slot < to.maxSize;
             && (rest && !whole ==> y !in f.parent && y in g.parent && g.kind[y] == f.kind[x] && g.count[y] == m - Joining(f, x, dest, m))
             && (!(rest && !whole) ==> y == x)
             && (rest ==> y in g.parent && g.parent[y] == if comes then to else null)
             && (forall c :: c in f.parent ==>
                   c in g.parent && c in h.parent && g.list[c] == if comes && c == to then [y] + h.list[c] else h.list[c])
             && (forall z :: z in f.parent ==>
                   && z in g.parent && z in h.parent && g.kind[z] == h.kind[z] && g.count[z] == h.count[z]
                   && (z != y || !rest ==> g.parent[z] == h.parent[z]))
    ensures Changes(f, g, origin, x, to, slot, dest, m, y)
  {
    hide Joining, Without;
    forall c | c in f.parent
      ensures var rest := !f.kind[x].stackable || m > Joining(f, x, dest, m);
              var comes := rest && slot < to.maxSize;
              ListAfter(f.list[c], (!f.kind[x].stackable || m == f.count[x]) && c == origin, x, comes && c == to, y, g.list[c])
    {
      assert ([y] + h.list[c])[1..] == h.list[c];
    }
    hide ListAfter;
  }

  /** What a move changes, and that it changes nothing else. */
  lemma {:induction false} MoveChanges(f: Forest, origin: Item, x: Item, to: Item, index: int, dest: Item?, m: u32, y: Item)
    requires CanMove(f, origin, x, to, dest, m) && Carries(f, x, dest, m, y)
    ensures var g := Effect(f, origin, x, to, index, dest, m, y); Sound(g) && Changes(f, g, origin, x, to, index, dest, m, y)
  {
    hide Tree, Acyclic, WeightsOk, Sound, Above, CanMove, CanLink, Carries, Merging, Joining, Stacks, ListAfter, Changes, Between,
         Effect, Attach, Placed, ThingAdded;
    CanMoveOpen(f, origin, x, to, dest, m);
    CarriesIs(f, origin, x, to, dest, m, y);
    JoiningIs(f, x, dest, m);
    MoveKeepsStacks(f, origin, x, to, index, dest, m, y);
    BetweenHalfWay(f, origin, x, to, dest, m);
    var h := Between(f, origin, x, to, dest, m);
    var g := Effect(f, origin, x, to, index, dest, m, y);
    SoundParts(h);
    SoundParts(g);
    if !f.kind[x].stackable {
      if index < to.maxSize {
        EffectWhole(f, origin, x, to, index, dest, m, y);
        AttachFrame(h, to, x, [x] + h.list[to]);
      } else {
        EffectNowhere(f, origin, x, to, index, dest, m, y);
      }
    } else {
      EffectStack(f, origin, x, to, index, dest, m, y);
      if m > Merging(f, x, dest, m) {
        if index < to.maxSize {
          PlacedFrame(h, to, index, y, f.kind[x], m - Merging(f, x, dest, m));
        } else {
          PlacedNowhere(h, to, index, y, f.kind[x], m - Merging(f, x, dest, m));
        }
      }
    }
    RestChanges(f, h, g, origin, x, to, index, dest, m, y);
  }

  lemma {:induction false} CarriesIs(f: Forest, origin: Item, x: Item, to: Item, dest: Item?, m: u32, y: Item)
    requires CanMove(f, origin, x, to, dest, m) && Carries(f, x, dest, m, y)
    ensures to in f.parent && (f.kind[x].stackable && m > Merging(f, x, dest, m) ==> y !in f.parent)
    ensures !(f.kind[x].stackable && m > Merging(f, x, dest, m)) ==> y == x
    ensures Stacks(f) && Sound(f)
  {
  }

  /** What does not join a stack ends in `to`, if the slot is within its capacity. */
  lemma {:induction false} RestIsPlaced(f: Forest, g: Forest, origin: Item, x: Item, to: Item, slot: int, dest: Item?, m: u32, y: Item)
    requires f.Keyed() && g.Keyed() && x in f.parent && to in f.parent && (dest != null ==> dest in f.parent)
    requires Changes(f, g, origin, x, to, slot, dest, m, y)
    ensures slot < to.maxSize && (f.kind[x].stackable ==> m > Joining(f, x, dest, m)) ==> y in g.parent && g.parent[y] == to
  {
  }
}
