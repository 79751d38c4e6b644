/** Items that stay marked as decaying although no place of the wheel holds them any more. */
module StrandedItems {
  import opened DecayWheel

  /** Marked, and in no place: neither in a bucket, nor waiting, nor still to be visited. */
  ghost predicate Stranded(w: Wheel, todo: seq<ItemId>, i: ItemId)
    requires |w.buckets| == BUCKETS
  {
    i in w.decaying && i !in Places(w, todo)
  }

  /** The decay gives the item itself some more time, as another kind. */
  predicate Returns(o: Outcome, i: ItemId) { o.Becomes? && o.item == i }

  /** What a visit in bucket b does to an item that it strands: its time is up and it does not return. */
  predicate Strands(w: Wheel, b: nat, canDecay: ItemId -> bool, outcome: ItemId -> Outcome, i: ItemId) {
    canDecay(i) && Expires(b, Duration(w, i)) && !Returns(outcome(i), i)
  }

  // ---------------------------------------------------------------------------
  // One item
  // ---------------------------------------------------------------------------

  lemma SamePlaces(w: Wheel, e: Wheel, todo: seq<ItemId>)
    requires |w.buckets| == BUCKETS && e.buckets == w.buckets && e.toDecay == w.toDecay
    ensures Places(e, todo) == Places(w, todo)
  {
  }

  lemma EnqueuedPlaces(w: Wheel, i: ItemId, todo: seq<ItemId>)
    requires |w.buckets| == BUCKETS
    ensures Places(Enqueue(w, i), todo) == Places(w, todo) + multiset{i}
  {
    assert multiset([i] + w.toDecay) == multiset{i} + multiset(w.toDecay);
  }

  /** A decay strands a marked item that is in no place exactly if the item does not return. */
  lemma DecayStrandsIff(w: Wheel, i: ItemId, o: Outcome, todo: seq<ItemId>)
    requires |w.buckets| == BUCKETS && i in w.decaying && i !in Places(w, todo)
    ensures Stranded(Decay(w, i, o), todo, i) <==> !Returns(o, i)
  {
    if o.Becomes? {
      var w1 := w.(log := w.log + [i], duration := w.duration[o.item := o.duration], decaying := w.decaying - {o.item});
      EnqueuedPlaces(w1, o.item, todo);
    }
  }

  /** The decay of one item neither strands another nor brings a stranded one back. */
  lemma DecayOfAnotherStrandsNone(w: Wheel, k: ItemId, o: Outcome, todo: seq<ItemId>, i: ItemId)
    requires |w.buckets| == BUCKETS && (i != k || i !in w.decaying)
    ensures Stranded(Decay(w, k, o), todo, i) <==> Stranded(w, todo, i)
  {
    hide Places;
    SamePlaces(w, w.(log := w.log + [k]), todo);
    if o.Becomes? {
      var w1 := w.(log := w.log + [k], duration := w.duration[o.item := o.duration], decaying := w.decaying - {o.item});
      SamePlaces(w, w1, todo);
      EnqueuedPlaces(w1, o.item, todo);
    }
  }

  lemma PushedPlaces(w: Wheel, b: nat, k: ItemId, todo: seq<ItemId>)
    requires |w.buckets| == BUCKETS && b < BUCKETS
    ensures Places(Push(w, b, k), todo) == Places(w, todo) + multiset{k}
  {
    StoredPush(w.buckets, b, k);
  }

  lemma TakenUp(w: Wheel, todo: seq<ItemId>)
    requires |w.buckets| == BUCKETS && todo != []
    ensures Places(w, todo) == Places(w, todo[1..]) + multiset{todo[0]}
  {
    FirstOf(todo);
  }

  /** A visit strands the item visited, under the condition stated, and changes nothing for any other. */
  lemma VisitStrandsIff(w: Wheel, b: nat, todo: seq<ItemId>, canDecay: ItemId -> bool, outcome: ItemId -> Outcome, i: ItemId)
    requires |w.buckets| == BUCKETS && b < BUCKETS && todo != [] && SoundWith(w, todo, multiset{})
    ensures Stranded(Visit(w, b, todo[0], canDecay, outcome), todo[1..], i)
       <==> Stranded(w, todo, i) || (i == todo[0] && Strands(w, b, canDecay, outcome, i))
  {
    var k, rest := todo[0], todo[1..];
    TakeUp(w, todo);
    TakenUp(w, todo);
    hide SoundWith, Places, Expires, NextBucket, Left, Decay, Push;
    var d := Duration(w, k);
    var w1 := w.(duration := w.duration[k := Left(d)]);
    SamePlaces(w, w1, rest);
    if !canDecay(k) {
      var w2 := w.(decaying := w.decaying - {k});
      SamePlaces(w, w2, rest);
      SamePlaces(w2, Release(w2, k), rest);
    } else if Expires(b, d) {
      var e := Decay(w1, k, outcome(k));
      SamePlaces(e, Release(e, k), rest);
      if i == k {
        DecayStrandsIff(w1, k, outcome(k), rest);
      } else {
        DecayOfAnotherStrandsNone(w1, k, outcome(k), rest, i);
      }
    } else {
      PushedPlaces(w1, NextBucket(b, d), k, rest);
      PushMarksNone(w1, NextBucket(b, d), k);
    }
  }

  lemma PushMarksNone(w: Wheel, b: nat, k: ItemId)
    requires |w.buckets| == BUCKETS && b < BUCKETS
    ensures Push(w, b, k).decaying == w.decaying
  {
  }

  // ---------------------------------------------------------------------------
  // One tick
  // ---------------------------------------------------------------------------

  lemma {:induction false} SweepStrandsIff(w: Wheel, b: nat, todo: seq<ItemId>, canDecay: ItemId -> bool, outcome: ItemId -> Outcome, i: ItemId)
    requires |w.buckets| == BUCKETS && b < BUCKETS && SoundWith(w, todo, multiset{})
    ensures Stranded(Sweep(w, b, todo, canDecay, outcome), [], i)
       <==> Stranded(w, todo, i) || (i in todo && Strands(w, b, canDecay, outcome, i))
    decreases |todo|
  {
    if todo != [] {
      var k, rest := todo[0], todo[1..];
      var e := Visit(w, b, k, canDecay, outcome);
      TakeUp(w, todo);
      NotTwice(w, rest, k);
      VisitKeepsSound(w, b, todo, canDecay, outcome);
      VisitStrandsIff(w, b, todo, canDecay, outcome, i);
      if i != k && i in todo {
        MarkedInTodo(w, todo, i);
        VisitOfAnother(w, b, k, canDecay, outcome, i);
      }
      hide SoundWith, Visit, Expires, Stranded;
      SweepStrandsIff(e, b, rest, canDecay, outcome, i);
      SweepUnfolds(w, b, todo, canDecay, outcome);
    }
  }

  lemma {:induction false} PlaceAllPlaces(w: Wheel, todo: seq<ItemId>)
    requires DecayWheel.Shaped(w)
    ensures Places(PlaceAll(w, todo), []) == Places(w, todo) && PlaceAll(w, todo).decaying == w.decaying
    decreases |todo|
  {
    if todo != [] {
      var i := todo[0];
      PushedPlaces(w, FirstBucket(w.lastBucket, Duration(w, i)), i, todo[1..]);
      TakenUp(w, todo);
      hide Places;
      PlaceAllPlaces(Place(w, i), todo[1..]);
    }
  }

  lemma CleanupStrandsNone(w: Wheel, i: ItemId)
    requires DecayWheel.Shaped(w)
    ensures Stranded(Cleanup(w), [], i) <==> Stranded(w, [], i)
  {
    var w1 := w.(held := w.held - multiset(w.toRelease), toRelease := [], toDecay := []);
    assert Places(w1, w.toDecay) == Places(w, []);
    PlaceAllPlaces(w1, w.toDecay);
  }

  lemma BucketTaken(w: Wheel, b: nat)
    requires |w.buckets| == BUCKETS && b < BUCKETS
    ensures Places(w.(buckets := w.buckets[b := []]), w.buckets[b]) == Places(w, [])
  {
    StoredTaken(w.buckets, b);
  }

  /** A tick strands an item exactly if it is in the bucket that comes up, its time is up and it does not return. */
  lemma TickStrandsIff(w: Wheel, canDecay: ItemId -> bool, outcome: ItemId -> Outcome, i: ItemId)
    requires Sound(w)
    ensures var b := Following(w.lastBucket);
            (Stranded(CheckDecay(w, canDecay, outcome), [], i)
             <==> Stranded(w, [], i) || (i in w.buckets[b] && Strands(w, b, canDecay, outcome, i)))
  {
    hide SoundWith, Places, Sweep, Cleanup, Expires;
    var b := Following(w.lastBucket);
    var w1 := w.(buckets := w.buckets[b := []]);
    EmptyBucket(w, b);
    BucketTaken(w, b);
    SweepStrandsIff(w1, b, w.buckets[b], canDecay, outcome, i);
    var w2 := Sweep(w1, b, w.buckets[b], canDecay, outcome);
    SamePlaces(w2, w2.(lastBucket := b), []);
    CleanupStrandsNone(w2.(lastBucket := b), i);
  }

  lemma StartStrandsNone(w: Wheel, k: ItemId, may: bool, o: Outcome, i: ItemId)
    requires |w.buckets| == BUCKETS
    ensures Stranded(StartDecay(w, k, may, o), [], i) <==> Stranded(w, [], i)
  {
    if may && k !in w.decaying {
      if Duration(w, k) > 0 {
        EnqueuedPlaces(w, k, []);
      } else {
        DecayOfAnotherStrandsNone(w, k, o, [], i);
      }
    }
  }

  // ---------------------------------------------------------------------------
  // Whole runs
  // ---------------------------------------------------------------------------

  /** The action is a tick that strands the item. */
  predicate StrandedBy(w: Wheel, a: Action, i: ItemId)
    requires DecayWheel.Shaped(w)
  {
    a.Tick? && i in w.buckets[Following(w.lastBucket)] && Strands(w, Following(w.lastBucket), a.canDecay, a.outcome, i)
  }

  lemma ActionStrandsIff(w: Wheel, a: Action, i: ItemId)
    requires Sound(w)
    ensures Stranded(Apply(w, a), [], i) <==> Stranded(w, [], i) || StrandedBy(w, a, i)
  {
    hide SoundWith, StartDecay, CheckDecay, Cleanup, Stranded, Strands;
    match a
    case Start(k, may, o) => StartStrandsNone(w, k, may, o, i);
    case Tick(canDecay, outcome) => TickStrandsIff(w, canDecay, outcome, i);
    case Tidy => CleanupStrandsNone(w, i);
  }

  /** Some tick of the run strands the item. */
  predicate StrandedDuring(w: Wheel, actions: seq<Action>, i: ItemId)
    requires DecayWheel.Shaped(w)
    decreases |actions|
  {
    actions != [] && (StrandedBy(w, actions[0], i) || StrandedDuring(Apply(w, actions[0]), actions[1..], i))
  }

  /** Over a whole run an item ends up stranded exactly if it was so or some tick strands it: nothing brings it back. */
  lemma {:induction false} RunStrandsIff(w: Wheel, actions: seq<Action>, i: ItemId)
    requires Sound(w)
    ensures Stranded(Run(w, actions), [], i) <==> Stranded(w, [], i) || StrandedDuring(w, actions, i)
    decreases |actions|
  {
    if actions != [] {
      hide SoundWith, Apply, Stranded, StrandedBy;
      ActionKeepsSound(w, actions[0]);
      ActionStrandsIff(w, actions[0], i);
      RunStrandsIff(Apply(w, actions[0]), actions[1..], i);
      RunUnfolds(w, actions);
    }
  }

  /**
    In every reachable state an item is marked exactly while it is in a place, if and only if no tick of the
    run has stranded it.
   */
  lemma MarkIsRightIff(w: Wheel, actions: seq<Action>, i: ItemId)
    requires Sound(w) && w.decaying == {}
    ensures var e := Run(w, actions);
            ((i in e.decaying <==> i in Places(e, [])) <==> !StrandedDuring(w, actions, i))
  {
    hide SoundWith, Run, StrandedDuring, Places;
    RunKeepsSound(w, actions);
    RunStrandsIff(w, actions, i);
    InPlaceIsMarked(Run(w, actions), i);
  }

  lemma InPlaceIsMarked(w: Wheel, i: ItemId)
    requires Sound(w)
    ensures i in Places(w, []) ==> i in w.decaying
  {
  }

  /** A stranded item never decays again. */
  lemma {:induction false} StrandedForGood(w: Wheel, actions: seq<Action>, i: ItemId)
    requires Sound(w) && Stranded(w, [], i)
    ensures Decays(Run(w, actions), i) == Decays(w, i) && Stranded(Run(w, actions), [], i)
    decreases |actions|
  {
    if actions != [] {
      ActionKeepsSound(w, actions[0]);
      ActionStrandsIff(w, actions[0], i);
      StrandedNotLogged(w, actions[0], i);
      hide SoundWith, Apply, Stranded, Decays;
      StrandedForGood(Apply(w, actions[0]), actions[1..], i);
      RunUnfolds(w, actions);
    }
  }

  lemma StrandedNotLogged(w: Wheel, a: Action, i: ItemId)
    requires Sound(w) && Stranded(w, [], i)
    ensures Decays(Apply(w, a), i) == Decays(w, i)
  {
    match a
    case Start(k, may, o) =>
      if k != i { DecayOfAnother(w, k, o, i); }
    case Tick(canDecay, outcome) =>
      var b := Following(w.lastBucket);
      var w1 := w.(buckets := w.buckets[b := []]);
      StoredTaken(w.buckets, b);
      hide SoundWith, Sweep, Cleanup;
      SweepLogsOnlyVisited(w1, b, w.buckets[b], canDecay, outcome, i);
      CleanupLogsNothing(Sweep(w1, b, w.buckets[b], canDecay, outcome).(lastBucket := b));
    case Tidy => CleanupLogsNothing(w);
  }

  /** For instance: item 7 turns into item 8, or into nothing, and stays marked. */
  lemma MarkOutlivesPlace(outcome: ItemId -> Outcome)
    requires !Returns(outcome(7), 7)
    ensures var w := Wheel([[], [7], [], []], 0, [], [], multiset{7}, map[7 := 500], {7}, []);
            Sound(w) && Stranded(CheckDecay(w, _ => true, outcome), [], 7)
  {
    var w := Wheel([[], [7], [], []], 0, [], [], multiset{7}, map[7 := 500], {7}, []);
    assert Places(w, []) == multiset{7};
    TickStrandsIff(w, _ => true, outcome, 7);
  }
}
