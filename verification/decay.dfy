/**
  The decay wheel: four buckets visited in turn, a list of items waiting to be placed,
  and the references the game holds on every item it is going to decay.
 */
module DecayWheel {

  type ItemId = nat
  type Millis = nat
  type PositiveMillis = d: int | 0 < d witness 1

  const INTERVAL := 250
  const BUCKETS := 4
  const ROUND := 1000  // INTERVAL * BUCKETS

  /**
    What became of an item that decayed, once any chain of immediate transformations is
    over: it is gone, or an item (the same one or a new one) now has some time to live.
   */
  datatype Outcome = Gone | Becomes(item: ItemId, duration: PositiveMillis)

  /** `log` is the history of decays; `held` counts the references taken for decaying. */
  datatype Wheel = Wheel(buckets: seq<seq<ItemId>>, lastBucket: nat, toDecay: seq<ItemId>, toRelease: seq<ItemId>,
                         held: multiset<ItemId>, duration: map<ItemId, Millis>, decaying: set<ItemId>, log: seq<ItemId>)

  ghost predicate Shaped(w: Wheel) { |w.buckets| == BUCKETS && w.lastBucket < BUCKETS }

  function Duration(w: Wheel, i: ItemId): Millis { if i in w.duration then w.duration[i] else 0 }

  // ---------------------------------------------------------------------------
  // The operations on values
  // ---------------------------------------------------------------------------

  function Enqueue(w: Wheel, i: ItemId): Wheel {
    w.(held := w.held + multiset{i}, decaying := w.decaying + {i}, toDecay := [i] + w.toDecay)
  }

  /** A decay. An item that changes its kind stops decaying before it is started again. */
  function Decay(w: Wheel, i: ItemId, outcome: Outcome): Wheel {
    var logged := w.(log := w.log + [i]);
    match outcome
    case Gone => logged
    case Becomes(j, d) =>
      if j != i && j in w.decaying then logged
      else Enqueue(logged.(duration := w.duration[j := d], decaying := w.decaying - {j}), j)
  }

  function StartDecay(w: Wheel, i: ItemId, canDecay: bool, outcome: Outcome): Wheel {
    if !canDecay || i in w.decaying then w
    else if Duration(w, i) > 0 then Enqueue(w, i)
    else Decay(w, i, outcome)
  }

  function Release(w: Wheel, i: ItemId): Wheel { w.(toRelease := w.toRelease + [i]) }

  function Push(w: Wheel, b: nat, i: ItemId): Wheel
    requires b < |w.buckets|
  {
    w.(buckets := w.buckets[b := w.buckets[b] + [i]])
  }

  /** The bucket for an item of bucket `b` with less than a round left; `b` itself means now. */
  function Rebucket(b: nat, left: Millis): (r: nat)
    ensures r < BUCKETS
  {
    (b + (left + INTERVAL / 2) / 1000) % BUCKETS
  }

  /** A visit takes a round off the time to live. */
  function Left(d: Millis): Millis { if ROUND < d then d - ROUND else 0 }

  predicate Expires(b: nat, d: Millis) { Left(d) <= 0 || (Left(d) < ROUND && Rebucket(b, Left(d)) == b) }

  function NextBucket(b: nat, d: Millis): (r: nat)
    requires b < BUCKETS
    ensures r < BUCKETS
  {
    if Left(d) < ROUND then Rebucket(b, Left(d)) else b
  }

  /** The bucket for an item that has just been enqueued. */
  function FirstBucket(lastBucket: nat, d: Millis): (r: nat)
    requires lastBucket < BUCKETS
    ensures r < BUCKETS
  {
    if d >= ROUND then lastBucket else (lastBucket + 1 + d / 1000) % BUCKETS
  }

  /** One item of bucket `b`, already taken out of it, is looked at. */
  function Visit(w: Wheel, b: nat, i: ItemId, canDecay: ItemId -> bool, outcome: ItemId -> Outcome): (w': Wheel)
    requires |w.buckets| == BUCKETS && b < BUCKETS
    ensures |w'.buckets| == BUCKETS && w'.lastBucket == w.lastBucket
  {
    if !canDecay(i) then Release(w.(decaying := w.decaying - {i}), i)
    else
      var d := Duration(w, i);
      var w1 := w.(duration := w.duration[i := Left(d)]);
      if Expires(b, d) then Release(Decay(w1, i, outcome(i)), i) else Push(w1, NextBucket(b, d), i)
  }

  function Sweep(w: Wheel, b: nat, todo: seq<ItemId>, canDecay: ItemId -> bool, outcome: ItemId -> Outcome): (w': Wheel)
    requires |w.buckets| == BUCKETS && b < BUCKETS
    ensures |w'.buckets| == BUCKETS && w'.lastBucket == w.lastBucket
    decreases |todo|
  {
    if todo == [] then w else Sweep(Visit(w, b, todo[0], canDecay, outcome), b, todo[1..], canDecay, outcome)
  }

  function Place(w: Wheel, i: ItemId): (w': Wheel)
    requires Shaped(w)
    ensures Shaped(w') && w'.lastBucket == w.lastBucket
  {
    Push(w, FirstBucket(w.lastBucket, Duration(w, i)), i)
  }

  function PlaceAll(w: Wheel, todo: seq<ItemId>): (w': Wheel)
    requires Shaped(w)
    ensures Shaped(w') && w'.lastBucket == w.lastBucket
    decreases |todo|
  {
    if todo == [] then w else PlaceAll(Place(w, todo[0]), todo[1..])
  }

  function Cleanup(w: Wheel): (w': Wheel)
    requires Shaped(w)
    ensures Shaped(w') && w'.lastBucket == w.lastBucket
  {
    PlaceAll(w.(held := w.held - multiset(w.toRelease), toRelease := [], toDecay := []), w.toDecay)
  }

  function Following(last: nat): (b: nat)
    requires last < BUCKETS
    ensures b < BUCKETS && b == if last == BUCKETS - 1 then 0 else last + 1
  {
    (last + 1) % BUCKETS
  }

  /** One tick: the next bucket is emptied and its items visited, then the wheel is tidied. */
  function CheckDecay(w: Wheel, canDecay: ItemId -> bool, outcome: ItemId -> Outcome): (w': Wheel)
    requires Shaped(w)
    ensures Shaped(w') && w'.lastBucket == Following(w.lastBucket)
  {
    var b := Following(w.lastBucket);
    Cleanup(Sweep(w.(buckets := w.buckets[b := []]), b, w.buckets[b], canDecay, outcome).(lastBucket := b))
  }

  // ---------------------------------------------------------------------------
  // Exactly one place, exactly one reference
  // ---------------------------------------------------------------------------

  ghost function Stored(buckets: seq<seq<ItemId>>): multiset<ItemId>
    requires |buckets| == BUCKETS
  {
    multiset(buckets[0]) + multiset(buckets[1]) + multiset(buckets[2]) + multiset(buckets[3])
  }

  /** Every place an item can be in: a bucket, the waiting list, or the part still to be visited. */
  ghost function Places(w: Wheel, todo: seq<ItemId>): multiset<ItemId>
    requires |w.buckets| == BUCKETS
  {
    Stored(w.buckets) + multiset(w.toDecay) + multiset(todo)
  }

  /**
    No item is in two places, items in a place are marked, a marked item that is in none
    has decayed, and there is one reference for every place and every pending release;
    `loose` ones are between the two.
   */
  ghost predicate SoundWith(w: Wheel, todo: seq<ItemId>, loose: multiset<ItemId>)
    requires |w.buckets| == BUCKETS
  {
    && (forall i :: i in Places(w, todo) ==> Places(w, todo)[i] == 1 && i in w.decaying)
    && (forall i :: i in w.decaying ==> i in Places(w, todo) || i in loose || i in w.log)
    && w.held == Places(w, todo) + multiset(w.toRelease) + loose
  }

  ghost predicate Sound(w: Wheel) { Shaped(w) && SoundWith(w, [], multiset{}) }

  lemma StoredPush(buckets: seq<seq<ItemId>>, b: nat, i: ItemId)
    requires |buckets| == BUCKETS && b < BUCKETS
    ensures Stored(buckets[b := buckets[b] + [i]]) == Stored(buckets) + multiset{i}
  {
    if b == 0 {} else if b == 1 {} else if b == 2 {} else {}
  }

  lemma StoredTaken(buckets: seq<seq<ItemId>>, b: nat)
    requires |buckets| == BUCKETS && b < BUCKETS
    ensures Stored(buckets[b := []]) + multiset(buckets[b]) == Stored(buckets)
  {
    if b == 0 {} else if b == 1 {} else if b == 2 {} else {}
  }

  lemma FirstOf(todo: seq<ItemId>)
    requires todo != []
    ensures multiset(todo) == multiset(todo[1..]) + multiset{todo[0]}
  {
    assert todo == [todo[0]] + todo[1..];
  }

  lemma EnqueueKeepsSound(w: Wheel, i: ItemId, todo: seq<ItemId>, loose: multiset<ItemId>)
    requires |w.buckets| == BUCKETS && SoundWith(w, todo, loose) && i !in w.decaying
    ensures SoundWith(Enqueue(w, i), todo, loose)
  {
    var e := Enqueue(w, i);
    assert multiset([i] + w.toDecay) == multiset{i} + multiset(w.toDecay);
    assert Places(e, todo) == Places(w, todo) + multiset{i};
    assert i !in Places(w, todo);
    forall k | k in Places(e, todo)
      ensures Places(e, todo)[k] == 1 && k in e.decaying
    {
      assert k == i || k in Places(w, todo);
    }
  }

  /** An item that decays is in no place; it may come back into one. */
  lemma DecayKeepsSound(w: Wheel, i: ItemId, outcome: Outcome, todo: seq<ItemId>, loose: multiset<ItemId>)
    requires |w.buckets| == BUCKETS && SoundWith(w, todo, loose) && i !in Places(w, todo)
    ensures SoundWith(Decay(w, i, outcome), todo, loose) && i in Decay(w, i, outcome).log
  {
    if outcome.Becomes? && (outcome.item == i || outcome.item !in w.decaying) {
      var j := outcome.item;
      var w1 := w.(log := w.log + [i], duration := w.duration[j := outcome.duration], decaying := w.decaying - {j});
      assert Places(w1, todo) == Places(w, todo);
      assert j !in Places(w, todo);
      EnqueueKeepsSound(w1, j, todo, loose);
    } else {
      assert Places(w.(log := w.log + [i]), todo) == Places(w, todo);
    }
  }

  lemma ReleaseKeepsSound(w: Wheel, i: ItemId, todo: seq<ItemId>, loose: multiset<ItemId>)
    requires |w.buckets| == BUCKETS && SoundWith(w, todo, loose + multiset{i})
    requires i in w.decaying ==> i in w.log
    ensures SoundWith(Release(w, i), todo, loose)
  {
    assert Places(Release(w, i), todo) == Places(w, todo);
    assert multiset(w.toRelease + [i]) == multiset(w.toRelease) + multiset{i};
  }

  lemma PushKeepsSound(w: Wheel, b: nat, i: ItemId, todo: seq<ItemId>, loose: multiset<ItemId>)
    requires |w.buckets| == BUCKETS && b < BUCKETS && SoundWith(w, todo, loose + multiset{i})
    requires i !in Places(w, todo) && i in w.decaying
    ensures SoundWith(Push(w, b, i), todo, loose)
  {
    var e := Push(w, b, i);
    StoredPush(w.buckets, b, i);
    assert Places(e, todo) == Places(w, todo) + multiset{i};
    forall k | k in Places(e, todo)
      ensures Places(e, todo)[k] == 1 && k in e.decaying
    {
      assert k == i || k in Places(w, todo);
    }
  }

  /** The first item still to be visited is taken up: its reference is loose for a moment. */
  lemma TakeUp(w: Wheel, todo: seq<ItemId>)
    requires |w.buckets| == BUCKETS && todo != [] && SoundWith(w, todo, multiset{})
    ensures SoundWith(w, todo[1..], multiset{} + multiset{todo[0]})
    ensures todo[0] !in Places(w, todo[1..]) && todo[0] in w.decaying
  {
    var i, rest := todo[0], todo[1..];
    FirstOf(todo);
    var all, some := Places(w, todo), Places(w, rest);
    assert all == some + multiset{i};
    assert i in all;
    assert some[i] == all[i] - 1;
    forall k | k in some
      ensures some[k] == 1 && k in w.decaying
    {
      assert k in all;
    }
  }

  lemma VisitKeepsSound(w: Wheel, b: nat, todo: seq<ItemId>, canDecay: ItemId -> bool, outcome: ItemId -> Outcome)
    requires |w.buckets| == BUCKETS && b < BUCKETS && todo != [] && SoundWith(w, todo, multiset{})
    ensures SoundWith(Visit(w, b, todo[0], canDecay, outcome), todo[1..], multiset{})
  {
    var i, rest := todo[0], todo[1..];
    TakeUp(w, todo);
    hide SoundWith, Places, Expires, NextBucket, Left, Decay, Push, Release;
    if !canDecay(i) {
      UnmarkKeepsSound(w, i, rest);
      ReleaseKeepsSound(w.(decaying := w.decaying - {i}), i, rest, multiset{});
    } else {
      var d := Duration(w, i);
      var w1 := w.(duration := w.duration[i := Left(d)]);
      TimedKeepsSound(w, w1, rest, i);
      if Expires(b, d) {
        DecayKeepsSound(w1, i, outcome(i), rest, multiset{} + multiset{i});
        ReleaseKeepsSound(Decay(w1, i, outcome(i)), i, rest, multiset{});
      } else {
        PushKeepsSound(w1, NextBucket(b, d), i, rest, multiset{});
      }
    }
  }

  lemma UnmarkKeepsSound(w: Wheel, i: ItemId, todo: seq<ItemId>)
    requires |w.buckets| == BUCKETS && SoundWith(w, todo, multiset{} + multiset{i}) && i !in Places(w, todo)
    ensures SoundWith(w.(decaying := w.decaying - {i}), todo, multiset{} + multiset{i})
  {
    assert Places(w.(decaying := w.decaying - {i}), todo) == Places(w, todo);
  }

  lemma TimedKeepsSound(w: Wheel, w1: Wheel, todo: seq<ItemId>, i: ItemId)
    requires |w.buckets| == BUCKETS && w1 == w.(duration := w1.duration)
    requires SoundWith(w, todo, multiset{} + multiset{i}) && i !in Places(w, todo)
    ensures SoundWith(w1, todo, multiset{} + multiset{i}) && i !in Places(w1, todo)
  {
    assert Places(w1, todo) == Places(w, todo);
  }

  lemma {:induction false} SweepKeepsSound(w: Wheel, b: nat, todo: seq<ItemId>, canDecay: ItemId -> bool, outcome: ItemId -> Outcome)
    requires |w.buckets| == BUCKETS && b < BUCKETS && SoundWith(w, todo, multiset{})
    ensures SoundWith(Sweep(w, b, todo, canDecay, outcome), [], multiset{})
    decreases |todo|
  {
    if todo != [] {
      VisitKeepsSound(w, b, todo, canDecay, outcome);
      hide SoundWith, Visit;
      SweepKeepsSound(Visit(w, b, todo[0], canDecay, outcome), b, todo[1..], canDecay, outcome);
    }
  }

  lemma {:induction false} PlaceAllKeepsSound(w: Wheel, todo: seq<ItemId>)
    requires Shaped(w) && SoundWith(w, todo, multiset{})
    ensures Sound(PlaceAll(w, todo))
    decreases |todo|
  {
    if todo != [] {
      TakeUp(w, todo);
      hide SoundWith, FirstBucket, Places;
      var i := todo[0];
      PushKeepsSound(w, FirstBucket(w.lastBucket, Duration(w, i)), i, todo[1..], multiset{});
      PlaceAllKeepsSound(Place(w, i), todo[1..]);
    }
  }

  lemma CleanupKeepsSound(w: Wheel)
    requires Sound(w)
    ensures Sound(Cleanup(w)) && Cleanup(w).toDecay == [] && Cleanup(w).toRelease == []
  {
    hide SoundWith, PlaceAll;
    var w1 := w.(held := w.held - multiset(w.toRelease), toRelease := [], toDecay := []);
    ReferencesGivenBack(w);
    PlaceAllKeepsSound(w1, w.toDecay);
    PlaceAllEmpties(w1, w.toDecay);
  }

  lemma ReferencesGivenBack(w: Wheel)
    requires Sound(w)
    ensures SoundWith(w.(held := w.held - multiset(w.toRelease), toRelease := [], toDecay := []), w.toDecay, multiset{})
  {
    assert Places(w.(held := w.held - multiset(w.toRelease), toRelease := [], toDecay := []), w.toDecay) == Places(w, []);
  }

  lemma {:induction false} PlaceAllEmpties(w: Wheel, todo: seq<ItemId>)
    requires Shaped(w)
    ensures PlaceAll(w, todo) == w.(buckets := PlaceAll(w, todo).buckets)
    decreases |todo|
  {
    if todo != [] {
      PlaceAllEmpties(Place(w, todo[0]), todo[1..]);
    }
  }

  lemma CheckDecayKeepsSound(w: Wheel, canDecay: ItemId -> bool, outcome: ItemId -> Outcome)
    requires Sound(w)
    ensures Sound(CheckDecay(w, canDecay, outcome))
  {
    hide Sweep, Cleanup, SoundWith;
    var b := Following(w.lastBucket);
    var w1 := w.(buckets := w.buckets[b := []]);
    EmptyBucket(w, b);
    SweepKeepsSound(w1, b, w.buckets[b], canDecay, outcome);
    var w2 := Sweep(w1, b, w.buckets[b], canDecay, outcome);
    Advance(w2, b);
    CleanupKeepsSound(w2.(lastBucket := b));
  }

  lemma EmptyBucket(w: Wheel, b: nat)
    requires Sound(w) && b < BUCKETS
    ensures SoundWith(w.(buckets := w.buckets[b := []]), w.buckets[b], multiset{})
  {
    StoredTaken(w.buckets, b);
    assert Places(w.(buckets := w.buckets[b := []]), w.buckets[b]) == Places(w, []);
  }

  lemma Advance(w: Wheel, b: nat)
    requires |w.buckets| == BUCKETS && SoundWith(w, [], multiset{}) && b < BUCKETS
    ensures Sound(w.(lastBucket := b))
  {
    assert Places(w.(lastBucket := b), []) == Places(w, []);
  }

  lemma StartDecayKeepsSound(w: Wheel, i: ItemId, canDecay: bool, outcome: Outcome)
    requires Sound(w)
    ensures Sound(StartDecay(w, i, canDecay, outcome))
  {
    if canDecay && i !in w.decaying {
      assert i !in Places(w, []);
      if Duration(w, i) > 0 {
        EnqueueKeepsSound(w, i, [], multiset{});
      } else {
        DecayKeepsSound(w, i, outcome, [], multiset{});
      }
    }
  }

  // ---------------------------------------------------------------------------
  // Whole runs
  // ---------------------------------------------------------------------------

  datatype Action =
    | Start(item: ItemId, may: bool, becomes: Outcome)
    | Tick(canDecay: ItemId -> bool, outcome: ItemId -> Outcome)
    | Tidy

  function Apply(w: Wheel, a: Action): (w': Wheel)
    requires Shaped(w)
    ensures Shaped(w')
  {
    match a
    case Start(i, may, becomes) => StartDecay(w, i, may, becomes)
    case Tick(canDecay, outcome) => CheckDecay(w, canDecay, outcome)
    case Tidy => Cleanup(w)
  }

  function Run(w: Wheel, actions: seq<Action>): (w': Wheel)
    requires Shaped(w)
    ensures Shaped(w')
    decreases |actions|
  {
    if actions == [] then w else Run(Apply(w, actions[0]), actions[1..])
  }

  lemma ActionKeepsSound(w: Wheel, a: Action)
    requires Sound(w)
    ensures Sound(Apply(w, a))
  {
    hide Sound, StartDecay, CheckDecay, Cleanup;
    match a
    case Start(i, may, becomes) => StartDecayKeepsSound(w, i, may, becomes);
    case Tick(canDecay, outcome) => CheckDecayKeepsSound(w, canDecay, outcome);
    case Tidy => CleanupKeepsSound(w);
  }

  /** An item that has never decayed is marked exactly while it is in a place, and it is never in two. */
  lemma MarkedExactlyInPlace(w: Wheel, i: ItemId)
    requires Sound(w)
    ensures Places(w, [])[i] <= 1
    ensures i !in w.log ==> (i in w.decaying <==> i in Places(w, []))
  {
    assert i in Places(w, []) || Places(w, [])[i] == 0;
  }

  /** Over every interleaving an item is in at most one place and references are accounted for. */
  lemma {:induction false} RunKeepsSound(w: Wheel, actions: seq<Action>)
    requires Sound(w)
    ensures Sound(Run(w, actions))
    decreases |actions|
  {
    if actions != [] {
      ActionKeepsSound(w, actions[0]);
      RunKeepsSound(Apply(w, actions[0]), actions[1..]);
    }
  }

  /** When nothing is waiting any more, every reference has been given back. */
  lemma IdleWheelHoldsNothing(w: Wheel)
    requires Sound(w) && Places(w, []) == multiset{}
    ensures Cleanup(w).held == multiset{}
  {
    assert w.toDecay == [] by {
      assert multiset(w.toDecay) <= Places(w, []);
      assert multiset(w.toDecay) == multiset{};
      assert |multiset(w.toDecay)| == |w.toDecay|;
    }
  }

  // ---------------------------------------------------------------------------
  // When an item decays
  // ---------------------------------------------------------------------------

  /** How often an item has decayed so far. */
  ghost function Decays(w: Wheel, i: ItemId): nat { multiset(w.log)[i] }

  ghost predicate Parked(w: Wheel, i: ItemId, b: nat, d: Millis) {
    b < |w.buckets| && i in w.buckets[b] && i in w.decaying && Duration(w, i) == d
  }

  /** Ticks until bucket `b` is the one visited. */
  function Distance(lastBucket: nat, b: nat): (n: nat)
    requires lastBucket < BUCKETS && b < BUCKETS
    ensures 1 <= n <= BUCKETS
  {
    if b > lastBucket then b - lastBucket else b + BUCKETS - lastBucket
  }

  /** Ticks until an item decays if its bucket is visited in `n` ticks. */
  function Remaining(b: nat, d: Millis, n: nat): nat
    requires b < BUCKETS
    decreases d
  {
    if Expires(b, d) then n else n + Remaining(NextBucket(b, d), Left(d), Distance(b, NextBucket(b, d)))
  }

  function TicksLeft(w: Wheel, b: nat, d: Millis): nat
    requires Shaped(w) && b < BUCKETS
  {
    Remaining(b, d, Distance(w.lastBucket, b))
  }

  lemma LogSnoc(log: seq<ItemId>, k: ItemId, i: ItemId)
    ensures multiset(log + [k])[i] == multiset(log)[i] + if k == i then 1 else 0
  {
  }

  /** The decay of another item does not concern an item that is decaying. */
  lemma DecayOfAnother(w: Wheel, k: ItemId, outcome: Outcome, i: ItemId)
    requires k != i && i in w.decaying
    ensures var e := Decay(w, k, outcome);
            i in e.decaying && Duration(e, i) == Duration(w, i) && e.buckets == w.buckets && Decays(e, i) == Decays(w, i)
  {
    LogSnoc(w.log, k, i);
  }

  lemma VisitOfAnother(w: Wheel, b: nat, k: ItemId, canDecay: ItemId -> bool, outcome: ItemId -> Outcome, i: ItemId)
    requires |w.buckets| == BUCKETS && b < BUCKETS && k != i && i in w.decaying
    ensures var e := Visit(w, b, k, canDecay, outcome);
            && i in e.decaying && Duration(e, i) == Duration(w, i) && Decays(e, i) == Decays(w, i)
            && forall c :: 0 <= c < BUCKETS && i in w.buckets[c] ==> i in e.buckets[c]
  {
    var w1 := w.(duration := w.duration[k := Left(Duration(w, k))]);
    DecayOfAnother(w1, k, outcome(k), i);
  }

  /** Visits of other items leave an item's decay count alone even if it is not decaying. */
  lemma VisitLogsOnlyItself(w: Wheel, b: nat, k: ItemId, canDecay: ItemId -> bool, outcome: ItemId -> Outcome, i: ItemId)
    requires |w.buckets| == BUCKETS && b < BUCKETS && k != i
    ensures Decays(Visit(w, b, k, canDecay, outcome), i) == Decays(w, i)
  {
    LogSnoc(w.log, k, i);
  }

  lemma {:induction false} SweepLogsOnlyVisited(w: Wheel, b: nat, todo: seq<ItemId>, canDecay: ItemId -> bool, outcome: ItemId -> Outcome, i: ItemId)
    requires |w.buckets| == BUCKETS && b < BUCKETS && i !in todo
    ensures Decays(Sweep(w, b, todo, canDecay, outcome), i) == Decays(w, i)
    decreases |todo|
  {
    if todo != [] {
      VisitLogsOnlyItself(w, b, todo[0], canDecay, outcome, i);
      SweepLogsOnlyVisited(Visit(w, b, todo[0], canDecay, outcome), b, todo[1..], canDecay, outcome, i);
    }
  }

  /** An item parked elsewhere stays there through a sweep. */
  lemma {:induction false} SweepPassesBy(w: Wheel, b: nat, todo: seq<ItemId>, canDecay: ItemId -> bool, outcome: ItemId -> Outcome,
                                         i: ItemId, at: nat, d: Millis)
    requires |w.buckets| == BUCKETS && b < BUCKETS && i !in todo && Parked(w, i, at, d)
    ensures var e := Sweep(w, b, todo, canDecay, outcome); Parked(e, i, at, d) && Decays(e, i) == Decays(w, i)
    decreases |todo|
  {
    if todo != [] {
      VisitOfAnother(w, b, todo[0], canDecay, outcome, i);
      SweepPassesBy(Visit(w, b, todo[0], canDecay, outcome), b, todo[1..], canDecay, outcome, i, at, d);
    }
  }

  lemma VisitOfItem(w: Wheel, b: nat, i: ItemId, canDecay: ItemId -> bool, outcome: ItemId -> Outcome)
    requires |w.buckets| == BUCKETS && b < BUCKETS && i in w.decaying && canDecay(i)
    ensures var e := Visit(w, b, i, canDecay, outcome);
            var d := Duration(w, i);
            if Expires(b, d) then Decays(e, i) == Decays(w, i) + 1
            else Parked(e, i, NextBucket(b, d), Left(d)) && Decays(e, i) == Decays(w, i)
  {
    LogSnoc(w.log, i, i);
  }

  /** What a sweep does to an item of the bucket it sweeps. */
  lemma {:induction false} SweepTakes(w: Wheel, b: nat, todo: seq<ItemId>, canDecay: ItemId -> bool, outcome: ItemId -> Outcome, i: ItemId)
    requires |w.buckets| == BUCKETS && b < BUCKETS && SoundWith(w, todo, multiset{}) && i in todo && canDecay(i)
    ensures var e := Sweep(w, b, todo, canDecay, outcome);
            var d := Duration(w, i);
            if Expires(b, d) then Decays(e, i) == Decays(w, i) + 1
            else Parked(e, i, NextBucket(b, d), Left(d)) && Decays(e, i) == Decays(w, i)
    decreases |todo|
  {
    var k, rest := todo[0], todo[1..];
    MarkedInTodo(w, todo, i);
    TakeUp(w, todo);
    NotTwice(w, rest, k);
    var e := Visit(w, b, k, canDecay, outcome);
    hide Visit, SoundWith, Expires, NextBucket;
    if k == i {
      VisitOfItem(w, b, i, canDecay, outcome);
      if Expires(b, Duration(w, i)) {
        SweepLogsOnlyVisited(e, b, rest, canDecay, outcome, i);
      } else {
        SweepPassesBy(e, b, rest, canDecay, outcome, i, NextBucket(b, Duration(w, i)), Left(Duration(w, i)));
      }
    } else {
      VisitOfAnother(w, b, k, canDecay, outcome, i);
      VisitKeepsSound(w, b, todo, canDecay, outcome);
      SweepTakes(e, b, rest, canDecay, outcome, i);
    }
  }

  lemma MarkedInTodo(w: Wheel, todo: seq<ItemId>, i: ItemId)
    requires |w.buckets| == BUCKETS && SoundWith(w, todo, multiset{}) && i in todo
    ensures i in w.decaying
  {
    assert i in Places(w, todo);
  }

  lemma NotTwice(w: Wheel, rest: seq<ItemId>, k: ItemId)
    requires |w.buckets| == BUCKETS && k !in Places(w, rest)
    ensures k !in rest
  {
  }

  lemma {:induction false} PlaceAllPassesBy(w: Wheel, todo: seq<ItemId>, i: ItemId, at: nat, d: Millis)
    requires Shaped(w) && Parked(w, i, at, d)
    ensures Parked(PlaceAll(w, todo), i, at, d)
    decreases |todo|
  {
    if todo != [] {
      PlaceAllPassesBy(Place(w, todo[0]), todo[1..], i, at, d);
    }
  }

  lemma CleanupPassesBy(w: Wheel, i: ItemId, at: nat, d: Millis)
    requires Shaped(w) && Parked(w, i, at, d)
    ensures Parked(Cleanup(w), i, at, d)
  {
    PlaceAllPassesBy(w.(held := w.held - multiset(w.toRelease), toRelease := [], toDecay := []), w.toDecay, i, at, d);
  }

  lemma CleanupLogsNothing(w: Wheel)
    requires Shaped(w)
    ensures Cleanup(w).log == w.log
  {
    PlaceAllEmpties(w.(held := w.held - multiset(w.toRelease), toRelease := [], toDecay := []), w.toDecay);
  }

  lemma InOneBucket(w: Wheel, i: ItemId, at: nat, b: nat)
    requires Sound(w) && at < BUCKETS && b < BUCKETS && i in w.buckets[at] && i in w.buckets[b]
    ensures at == b
  {
    assert i in Places(w, []);
    assert multiset(w.buckets[at])[i] >= 1 && multiset(w.buckets[b])[i] >= 1;
  }

  lemma Closer(last: nat, b: nat, at: nat, d: Millis)
    requires last < BUCKETS && b == Following(last) && at < BUCKETS && at != b
    ensures Remaining(at, d, Distance(b, at)) == Remaining(at, d, Distance(last, at)) - 1
    ensures Remaining(at, d, Distance(last, at)) > 1
  {
    hide Expires, NextBucket, Left;
  }

  /** The tick that visits the item's own bucket. */
  lemma TickVisits(w: Wheel, i: ItemId, d: Millis, canDecay: ItemId -> bool, outcome: ItemId -> Outcome)
    requires Sound(w) && Parked(w, i, Following(w.lastBucket), d) && canDecay(i)
    ensures var e := CheckDecay(w, canDecay, outcome);
            var b := Following(w.lastBucket);
            if Expires(b, d) then Decays(e, i) == Decays(w, i) + 1
            else Parked(e, i, NextBucket(b, d), Left(d)) && Decays(e, i) == Decays(w, i)
  {
    hide SoundWith, Sweep, Cleanup, Expires, NextBucket, Left;
    var b := Following(w.lastBucket);
    var w1 := w.(buckets := w.buckets[b := []]);
    var w3 := Sweep(w1, b, w.buckets[b], canDecay, outcome).(lastBucket := b);
    EmptyBucket(w, b);
    SweepTakes(w1, b, w.buckets[b], canDecay, outcome, i);
    CleanupLogsNothing(w3);
    if !Expires(b, d) {
      CleanupPassesBy(w3, i, NextBucket(b, d), Left(d));
    }
  }

  /** A tick that visits another bucket. */
  lemma TickPassesBy(w: Wheel, i: ItemId, at: nat, d: Millis, canDecay: ItemId -> bool, outcome: ItemId -> Outcome)
    requires Sound(w) && Parked(w, i, at, d) && at != Following(w.lastBucket)
    ensures var e := CheckDecay(w, canDecay, outcome); Parked(e, i, at, d) && Decays(e, i) == Decays(w, i)
  {
    var b := Following(w.lastBucket);
    var w1 := w.(buckets := w.buckets[b := []]);
    var w3 := Sweep(w1, b, w.buckets[b], canDecay, outcome).(lastBucket := b);
    assert i !in w.buckets[b] by {
      if i in w.buckets[b] { InOneBucket(w, i, at, b); }
    }
    hide Sound, SoundWith, Sweep, Cleanup;
    SweepPassesBy(w1, b, w.buckets[b], canDecay, outcome, i, at, d);
    CleanupLogsNothing(w3);
    CleanupPassesBy(w3, i, at, d);
  }

  /** A tick brings an undisturbed item one tick closer to its decay, or decays it. */
  lemma TickCountsDown(w: Wheel, i: ItemId, at: nat, d: Millis, canDecay: ItemId -> bool, outcome: ItemId -> Outcome)
    returns (at': nat, d': Millis)
    requires Sound(w) && Parked(w, i, at, d) && canDecay(i)
    ensures var e := CheckDecay(w, canDecay, outcome);
            if TicksLeft(w, at, d) == 1 then Decays(e, i) == Decays(w, i) + 1
            else Parked(e, i, at', d') && TicksLeft(e, at', d') == TicksLeft(w, at, d) - 1 && Decays(e, i) == Decays(w, i)
  {
    var b := Following(w.lastBucket);
    hide Sound, Parked, Expires, NextBucket, Left, CheckDecay;
    if at == b {
      at', d' := NextBucket(b, d), Left(d);
      TickVisits(w, i, d, canDecay, outcome);
      RemainingPositive(b, d);
    } else {
      at', d' := at, d;
      TickPassesBy(w, i, at, d, canDecay, outcome);
      Closer(w.lastBucket, b, at, d);
    }
  }

  lemma RemainingPositive(b: nat, d: Millis)
    requires b < BUCKETS
    ensures Remaining(b, d, 1) == 1 <==> Expires(b, d)
  {
    hide Expires, NextBucket, Left;
    if !Expires(b, d) {
      assert Remaining(NextBucket(b, d), Left(d), Distance(b, NextBucket(b, d))) >= 1;
    }
  }

  /** Nobody takes the item's right to decay away. */
  ghost predicate Undisturbed(i: ItemId, actions: seq<Action>) {
    forall a :: a in actions && a.Tick? ==> a.canDecay(i)
  }

  function Ticks(actions: seq<Action>): nat
    decreases |actions|
  {
    if actions == [] then 0 else (if actions[0].Tick? then 1 else 0) + Ticks(actions[1..])
  }

  /** What is not a tick does not concern a parked item. */
  lemma OthersPassBy(w: Wheel, a: Action, i: ItemId, at: nat, d: Millis)
    requires Sound(w) && Parked(w, i, at, d) && !a.Tick?
    ensures Parked(Apply(w, a), i, at, d) && Decays(Apply(w, a), i) == Decays(w, i)
    ensures Apply(w, a).lastBucket == w.lastBucket
  {
    match a
    case Start(k, may, becomes) =>
      if k != i { DecayOfAnother(w, k, becomes, i); }
    case Tidy =>
      CleanupPassesBy(w, i, at, d);
      CleanupLogsNothing(w);
  }

  /**
    Whatever else happens, an undisturbed item decays at exactly the tick its bucket and
    time to live say: not before, and once at that tick.
   */
  lemma {:induction false} DecaysOnTime(w: Wheel, i: ItemId, at: nat, d: Millis, actions: seq<Action>)
    requires Sound(w) && Parked(w, i, at, d) && Undisturbed(i, actions)
    ensures Ticks(actions) < TicksLeft(w, at, d) ==> Decays(Run(w, actions), i) == Decays(w, i)
    ensures Ticks(actions) == TicksLeft(w, at, d) && actions != [] && actions[|actions| - 1].Tick? ==>
              Decays(Run(w, actions), i) == Decays(w, i) + 1
    decreases |actions|
  {
    hide SoundWith, Parked, StartDecay, CheckDecay, Cleanup, Remaining, Undisturbed, Run, Ticks;
    RunUnfolds(w, actions);
    if actions != [] {
      var a, rest := actions[0], actions[1..];
      UndisturbedRest(i, actions);
      ParkedInBucket(w, i, at, d);
      ActionKeepsSound(w, a);
      RunUnfolds(Apply(w, a), rest);
      if a.Tick? {
        var at', d' := TickCountsDown(w, i, at, d, a.canDecay, a.outcome);
        if TicksLeft(w, at, d) == 1 {
          if rest != [] && rest[|rest| - 1].Tick? {
            TicksPositive(rest);
          }
        } else {
          DecaysOnTime(Apply(w, a), i, at', d', rest);
        }
      } else {
        OthersPassBy(w, a, i, at, d);
        DecaysOnTime(Apply(w, a), i, at, d, rest);
      }
    }
  }

  lemma RunUnfolds(w: Wheel, actions: seq<Action>)
    requires Shaped(w)
    ensures Run(w, actions) == if actions == [] then w else Run(Apply(w, actions[0]), actions[1..])
    ensures Ticks(actions) == if actions == [] then 0 else (if actions[0].Tick? then 1 else 0) + Ticks(actions[1..])
    ensures |actions| > 1 ==> actions[1..][|actions| - 2] == actions[|actions| - 1]
  {
  }

  lemma ParkedInBucket(w: Wheel, i: ItemId, at: nat, d: Millis)
    requires Shaped(w) && Parked(w, i, at, d)
    ensures at < BUCKETS
  {
  }

  lemma UndisturbedRest(i: ItemId, actions: seq<Action>)
    requires Undisturbed(i, actions) && actions != []
    ensures Undisturbed(i, actions[1..]) && (actions[0].Tick? ==> actions[0].canDecay(i))
  {
    assert forall x :: x in actions[1..] ==> x in actions;
  }

  lemma {:induction false} TicksPositive(actions: seq<Action>)
    requires actions != [] && actions[|actions| - 1].Tick?
    ensures Ticks(actions) >= 1
    decreases |actions|
  {
    if |actions| > 1 {
      TicksPositive(actions[1..]);
    }
  }

  /** The tick at which an item enqueued with time to live `d` decays. */
  function DecayTick(d: Millis): nat {
    if d < ROUND then 1 else 4 * (d / ROUND) + (if d % ROUND >= 875 then 1 else 0)
  }

  lemma {:induction false} RemainingClosed(b: nat, d: Millis)
    requires b < BUCKETS && d >= ROUND
    ensures Remaining(b, d, BUCKETS) == DecayTick(d)
    decreases d
  {
    if d < 2 * ROUND {
      if !Expires(b, d) {
        assert 875 <= Left(d) < ROUND;
        assert Rebucket(b, Left(d)) == (b + 1) % BUCKETS;
        assert Expires(NextBucket(b, d), Left(d));
      }
    } else {
      assert Left(d) == d - ROUND && NextBucket(b, d) == b && !Expires(b, d);
      RemainingClosed(b, d - ROUND);
    }
  }

  lemma PlacedParked(w: Wheel, todo: seq<ItemId>, i: ItemId)
    requires Shaped(w) && i in todo && i in w.decaying
    ensures Parked(PlaceAll(w, todo), i, FirstBucket(w.lastBucket, Duration(w, i)), Duration(w, i))
    decreases |todo|
  {
    if i == todo[0] {
      PlaceAllPassesBy(Place(w, i), todo[1..], i, FirstBucket(w.lastBucket, Duration(w, i)), Duration(w, i));
    } else {
      PlacedParked(Place(w, todo[0]), todo[1..], i);
    }
  }

  /**
    Decay timing: an undisturbed item that a cleanup places with time to live d decays at
    tick DecayTick(d) after it, which for d >= 1000 is a tick t with 250t <= d < 250t + 875.
   */
  lemma DecayTiming(w: Wheel, i: ItemId, actions: seq<Action>)
    requires Sound(w) && i in w.toDecay && Undisturbed(i, actions)
    ensures var d := Duration(w, i);
            var t := DecayTick(d);
            var e := Run(Cleanup(w), actions);
            && (Ticks(actions) < t ==> Decays(e, i) == Decays(w, i))
            && (Ticks(actions) == t && actions != [] && actions[|actions| - 1].Tick? ==> Decays(e, i) == Decays(w, i) + 1)
            && (d >= 1000 ==> INTERVAL * t <= d < INTERVAL * t + 875)
  {
    var d := Duration(w, i);
    var b := FirstBucket(w.lastBucket, d);
    CleanupParks(w, i);
    CleanupKeepsSound(w);
    CleanupLogsNothing(w);
    FirstTicks(w, d);
    hide Sound, Parked, Cleanup, Remaining, FirstBucket;
    DecaysOnTime(Cleanup(w), i, b, d, actions);
  }

  // ---------------------------------------------------------------------------
  // From the start on
  // ---------------------------------------------------------------------------

  /** Starting an item that cannot decay, or is marked already, does nothing. */
  lemma StartRefused(w: Wheel, i: ItemId, may: bool, outcome: Outcome)
    requires Shaped(w) && (!may || i in w.decaying)
    ensures Apply(w, Start(i, may, outcome)) == w
  {
  }

  /** Starting an item with time left enqueues it: waiting, marked, held once more, and not decayed. */
  lemma StartWaits(w: Wheel, i: ItemId, outcome: Outcome)
    requires Shaped(w) && i !in w.decaying && i in w.duration && w.duration[i] > 0
    ensures var e := Apply(w, Start(i, true, outcome));
            && e.toDecay == [i] + w.toDecay && e.decaying == w.decaying + {i} && e.held == w.held + multiset{i}
            && e.log == w.log && e.duration == w.duration
            && e.buckets == w.buckets && e.lastBucket == w.lastBucket && e.toRelease == w.toRelease
  {
  }

  /** Starting an item without time left decays it on the spot; what it turns into waits in its place. */
  lemma StartDecays(w: Wheel, i: ItemId, outcome: Outcome)
    requires Shaped(w) && i !in w.decaying && (i in w.duration ==> w.duration[i] == 0)
    ensures var e := Apply(w, Start(i, true, outcome));
            && e.log == w.log + [i] && e.buckets == w.buckets && e.lastBucket == w.lastBucket && e.toRelease == w.toRelease
            && (outcome.Gone? || outcome.item in w.decaying ==>
                  e.toDecay == w.toDecay && e.decaying == w.decaying && e.held == w.held && e.duration == w.duration)
            && (outcome.Becomes? && outcome.item !in w.decaying ==>
                  && e.toDecay == [outcome.item] + w.toDecay && e.decaying == w.decaying + {outcome.item}
                  && e.held == w.held + multiset{outcome.item} && e.duration == w.duration[outcome.item := outcome.duration])
  {
  }

  /** 1 if a tick comes before the first tidying up: the item is placed only at the end of that tick. */
  function PlacingDelay(actions: seq<Action>): nat
    decreases |actions|
  {
    if actions == [] || actions[0].Tidy? then 0 else if actions[0].Tick? then 1 else PlacingDelay(actions[1..])
  }

  ghost predicate Waits(w: Wheel, i: ItemId, d: Millis) { i in w.toDecay && i in w.decaying && Duration(w, i) == d }

  lemma DecayKeepsWaiting(w: Wheel, k: ItemId, outcome: Outcome, i: ItemId, d: Millis)
    requires k != i && Waits(w, i, d)
    ensures Waits(Decay(w, k, outcome), i, d)
  {
    DecayOfAnother(w, k, outcome, i);
  }

  lemma VisitKeepsWaiting(w: Wheel, b: nat, k: ItemId, canDecay: ItemId -> bool, outcome: ItemId -> Outcome, i: ItemId, d: Millis)
    requires |w.buckets| == BUCKETS && b < BUCKETS && k != i && Waits(w, i, d)
    ensures Waits(Visit(w, b, k, canDecay, outcome), i, d)
  {
    hide Decay, Expires, NextBucket, Left;
    var w1 := w.(duration := w.duration[k := Left(Duration(w, k))]);
    DecayKeepsWaiting(w1, k, outcome(k), i, d);
  }

  lemma {:induction false} SweepKeepsWaiting(w: Wheel, b: nat, todo: seq<ItemId>, canDecay: ItemId -> bool, outcome: ItemId -> Outcome,
                                             i: ItemId, d: Millis)
    requires |w.buckets| == BUCKETS && b < BUCKETS && i !in todo && Waits(w, i, d)
    ensures Waits(Sweep(w, b, todo, canDecay, outcome), i, d)
    decreases |todo|
  {
    if todo != [] {
      VisitKeepsWaiting(w, b, todo[0], canDecay, outcome, i, d);
      hide Visit, Waits;
      SweepKeepsWaiting(Visit(w, b, todo[0], canDecay, outcome), b, todo[1..], canDecay, outcome, i, d);
    }
  }

  lemma WaitingInNoBucket(w: Wheel, i: ItemId, b: nat)
    requires Sound(w) && i in w.toDecay && b < BUCKETS
    ensures i !in w.buckets[b] && i in w.decaying
  {
    assert i in Places(w, []);
    assert multiset(w.toDecay)[i] >= 1;
    var bucket := w.buckets[b];
    assert i in bucket ==> i in multiset(bucket);
  }

  /** The state just before the cleanup that ends a tick. */
  lemma TickBeforeCleanup(w: Wheel, canDecay: ItemId -> bool, outcome: ItemId -> Outcome, i: ItemId) returns (w3: Wheel)
    requires Sound(w) && i in w.toDecay
    ensures Sound(w3) && CheckDecay(w, canDecay, outcome) == Cleanup(w3)
    ensures i in w3.toDecay && Duration(w3, i) == Duration(w, i) && Decays(w3, i) == Decays(w, i)
  {
    hide SoundWith, Sweep, Cleanup;
    var b := Following(w.lastBucket);
    var w1 := w.(buckets := w.buckets[b := []]);
    EmptyBucket(w, b);
    WaitingInNoBucket(w, i, b);
    SweepKeepsSound(w1, b, w.buckets[b], canDecay, outcome);
    SweepKeepsWaiting(w1, b, w.buckets[b], canDecay, outcome, i, Duration(w, i));
    SweepLogsOnlyVisited(w1, b, w.buckets[b], canDecay, outcome, i);
    var w2 := Sweep(w1, b, w.buckets[b], canDecay, outcome);
    Advance(w2, b);
    w3 := w2.(lastBucket := b);
  }

  /** An undisturbed item that waits decays on time, counted from wherever it waits. */
  lemma {:induction false} WaitingDecaysOnTime(w: Wheel, i: ItemId, actions: seq<Action>)
    requires Sound(w) && i in w.toDecay && Undisturbed(i, actions)
    ensures var t := DecayTick(Duration(w, i)) + PlacingDelay(actions);
            var e := Run(w, actions);
            && (Ticks(actions) < t ==> Decays(e, i) == Decays(w, i))
            && (Ticks(actions) == t && actions != [] && actions[|actions| - 1].Tick? ==> Decays(e, i) == Decays(w, i) + 1)
    decreases |actions|
  {
    hide SoundWith, StartDecay, CheckDecay, Cleanup, Undisturbed, Run, Ticks, DecayTick;
    RunUnfolds(w, actions);
    if actions != [] {
      var a, rest := actions[0], actions[1..];
      UndisturbedRest(i, actions);
      ActionKeepsSound(w, a);
      RunUnfolds(Apply(w, a), rest);
      match a
      case Start(k, may, outcome) =>
        StartKeepsWaiting(w, k, may, outcome, i);
        WaitingDecaysOnTime(Apply(w, a), i, rest);
      case Tick(canDecay, outcome) =>
        var w3 := TickBeforeCleanup(w, canDecay, outcome, i);
        DecayTiming(w3, i, rest);
        DecayTickPositive(Duration(w, i));
      case Tidy =>
        DecayTiming(w, i, rest);
    }
  }

  lemma DecayTickPositive(d: Millis)
    ensures DecayTick(d) >= 1
  {
  }

  lemma StartKeepsWaiting(w: Wheel, k: ItemId, may: bool, outcome: Outcome, i: ItemId)
    requires Sound(w) && i in w.toDecay
    ensures var e := StartDecay(w, k, may, outcome);
            i in e.toDecay && Duration(e, i) == Duration(w, i) && Decays(e, i) == Decays(w, i)
  {
    WaitingInNoBucket(w, i, 0);
    if k != i {
      DecayOfAnother(w, k, outcome, i);
      DecayKeepsWaiting(w, k, outcome, i, Duration(w, i));
    }
  }

  /**
    Decay timing from the start: an unmarked item that can decay and has time left is started, and whatever else
    happens it decays at the tick that its time says, not before, and once then. The tick during which it still waits
    to be placed, if there is one, does not count. For an item with a second or more, 250t <= d < 250t + 875.
   */
  lemma DecayTimingFromStart(w: Wheel, i: ItemId, outcome: Outcome, actions: seq<Action>)
    requires Sound(w) && i !in w.decaying && i in w.duration && w.duration[i] > 0 && Undisturbed(i, actions)
    ensures var d := w.duration[i];
            var t := if d < 1000 then 1 else 4 * (d / 1000) + (if d % 1000 >= 875 then 1 else 0);
            var n := t + PlacingDelay(actions);
            var e := Run(w, [Start(i, true, outcome)] + actions);
            && (Ticks(actions) < n ==> multiset(e.log)[i] == multiset(w.log)[i])
            && (Ticks(actions) == n && actions != [] && actions[|actions| - 1].Tick? ==>
                  multiset(e.log)[i] == multiset(w.log)[i] + 1)
            && (d >= 1000 ==> 250 * t <= d < 250 * t + 875)
  {
    var a := Start(i, true, outcome);
    hide SoundWith, StartDecay, CheckDecay, Cleanup, Undisturbed, Run, Ticks, PlacingDelay;
    ActionKeepsSound(w, a);
    StartWaits(w, i, outcome);
    RunUnfolds(w, [a] + actions);
    assert ([a] + actions)[1..] == actions;
    WaitingDecaysOnTime(Apply(w, a), i, actions);
  }

  /** Nothing that decays on this tick turns into `i`. */
  ghost predicate NothingBecomes(i: ItemId, outcome: ItemId -> Outcome) {
    forall k :: outcome(k).Becomes? ==> outcome(k).item != i
  }

  lemma VisitUnmarks(w: Wheel, b: nat, k: ItemId, canDecay: ItemId -> bool, outcome: ItemId -> Outcome, i: ItemId)
    requires |w.buckets| == BUCKETS && b < BUCKETS && !canDecay(i) && NothingBecomes(i, outcome)
    ensures var e := Visit(w, b, k, canDecay, outcome);
            && Decays(e, i) == Decays(w, i) && Duration(e, i) == Duration(w, i)
            && (k == i || i !in w.decaying ==> i !in e.decaying)
  {
    hide Expires, NextBucket, Left, Decay;
    LogSnoc(w.log, k, i);
    DecayUnmarks(w.(duration := w.duration[k := Left(Duration(w, k))]), k, outcome(k), i);
  }

  lemma DecayUnmarks(w: Wheel, k: ItemId, outcome: Outcome, i: ItemId)
    requires outcome.Becomes? ==> outcome.item != i
    ensures var e := Decay(w, k, outcome);
            Duration(e, i) == Duration(w, i) && (k != i ==> Decays(e, i) == Decays(w, i)) && (i in e.decaying <==> i in w.decaying)
  {
    LogSnoc(w.log, k, i);
  }

  lemma {:induction false} SweepUnmarks(w: Wheel, b: nat, todo: seq<ItemId>, canDecay: ItemId -> bool, outcome: ItemId -> Outcome,
                                        i: ItemId)
    requires |w.buckets| == BUCKETS && b < BUCKETS && !canDecay(i) && NothingBecomes(i, outcome) && (i in todo || i !in w.decaying)
    ensures var e := Sweep(w, b, todo, canDecay, outcome);
            i !in e.decaying && Decays(e, i) == Decays(w, i) && Duration(e, i) == Duration(w, i)
    decreases |todo|
  {
    hide Visit, Decays, Duration;
    if todo != [] {
      VisitUnmarks(w, b, todo[0], canDecay, outcome, i);
      SweepUnmarks(Visit(w, b, todo[0], canDecay, outcome), b, todo[1..], canDecay, outcome, i);
    }
  }

  lemma {:induction false} PlaceAllMarksNothing(w: Wheel, todo: seq<ItemId>)
    requires Shaped(w)
    ensures var e := PlaceAll(w, todo); e.decaying == w.decaying && e.log == w.log && e.duration == w.duration
    decreases |todo|
  {
    if todo != [] {
      PlaceAllMarksNothing(Place(w, todo[0]), todo[1..]);
    }
  }

  lemma CleanupMarksNothing(w: Wheel)
    requires Shaped(w)
    ensures var e := Cleanup(w); e.decaying == w.decaying && e.log == w.log && e.duration == w.duration
  {
    PlaceAllMarksNothing(w.(held := w.held - multiset(w.toRelease), toRelease := [], toDecay := []), w.toDecay);
  }

  /**
    An item that may not decay any more when its bucket is visited is let go: it does not decay, keeps its time to live,
    loses its mark and is in no bucket.
   */
  lemma UndecayableIsLetGo(w: Wheel, i: ItemId, canDecay: ItemId -> bool, outcome: ItemId -> Outcome)
    requires Sound(w) && i in w.buckets[if w.lastBucket == 3 then 0 else w.lastBucket + 1]
    requires !canDecay(i) && NothingBecomes(i, outcome)
    ensures var e := Apply(w, Tick(canDecay, outcome));
            && multiset(e.log)[i] == multiset(w.log)[i] && Duration(e, i) == Duration(w, i)
            && i !in e.decaying && i !in e.toDecay && |e.buckets| == 4 && forall b :: 0 <= b < 4 ==> i !in e.buckets[b]
  {
    var e := Apply(w, Tick(canDecay, outcome));
    CheckDecayKeepsSound(w, canDecay, outcome);
    var b := Following(w.lastBucket);
    var w1 := w.(buckets := w.buckets[b := []]);
    SweepUnmarks(w1, b, w.buckets[b], canDecay, outcome, i);
    CleanupMarksNothing(Sweep(w1, b, w.buckets[b], canDecay, outcome).(lastBucket := b));
    hide Sweep, Cleanup;
    UnmarkedIsNowhere(e, i);
  }

  lemma UnmarkedIsNowhere(w: Wheel, i: ItemId)
    requires Sound(w) && i !in w.decaying
    ensures i !in w.toDecay && forall b :: 0 <= b < 4 ==> i !in w.buckets[b]
  {
    assert i !in Places(w, []);
    assert i !in w.buckets[0] && i !in w.buckets[1] && i !in w.buckets[2] && i !in w.buckets[3];
  }

  lemma CleanupParks(w: Wheel, i: ItemId)
    requires Sound(w) && i in w.toDecay
    ensures Parked(Cleanup(w), i, FirstBucket(w.lastBucket, Duration(w, i)), Duration(w, i))
  {
    var w1 := w.(held := w.held - multiset(w.toRelease), toRelease := [], toDecay := []);
    assert i in Places(w, []);
    PlacedParked(w1, w.toDecay, i);
  }

  lemma FirstTicks(w: Wheel, d: Millis)
    requires Shaped(w)
    ensures TicksLeft(w, FirstBucket(w.lastBucket, d), d) == DecayTick(d)
  {
    var b := FirstBucket(w.lastBucket, d);
    if d >= ROUND {
      RemainingClosed(b, d);
    } else {
      assert Expires(b, d);
    }
  }

  // ---------------------------------------------------------------------------
  // The wheel in place
  // ---------------------------------------------------------------------------

  lemma SweepUnfolds(w: Wheel, b: nat, todo: seq<ItemId>, canDecay: ItemId -> bool, outcome: ItemId -> Outcome)
    requires |w.buckets| == BUCKETS && b < BUCKETS && todo != []
    ensures Sweep(w, b, todo, canDecay, outcome) == Sweep(Visit(w, b, todo[0], canDecay, outcome), b, todo[1..], canDecay, outcome)
  {
  }

  lemma SweepEnds(w: Wheel, b: nat, canDecay: ItemId -> bool, outcome: ItemId -> Outcome)
    requires |w.buckets| == BUCKETS && b < BUCKETS
    ensures Sweep(w, b, [], canDecay, outcome) == w
  {
  }

  lemma PlaceAllUnfolds(w: Wheel, todo: seq<ItemId>)
    requires Shaped(w)
    ensures PlaceAll(w, todo) == if todo == [] then w else PlaceAll(Place(w, todo[0]), todo[1..])
  {
  }

  class Game {
    const decayItems: array<seq<ItemId>>
    var lastBucket: nat
    var toDecayItems: seq<ItemId>
    var toReleaseItems: seq<ItemId>
    var references: multiset<ItemId>
    var durations: map<ItemId, Millis>
    var decaying: set<ItemId>
    ghost var log: seq<ItemId>

    ghost predicate Valid() reads this { decayItems.Length == BUCKETS && lastBucket < BUCKETS }

    ghost function View(): Wheel
      reads this, decayItems
    {
      Wheel(decayItems[..], lastBucket, toDecayItems, toReleaseItems, references, durations, decaying, log)
    }

    constructor ()
      ensures Valid() && Sound(View()) && View().log == [] && fresh(decayItems)
    {
      decayItems := new seq<ItemId>[BUCKETS](_ => []);
      lastBucket, toDecayItems, toReleaseItems := 0, [], [];
      references, durations, decaying, log := multiset{}, map[], {}, [];
    }

    method ReleaseItem(item: ItemId)
      modifies this`toReleaseItems
      ensures View() == Release(old(View()), item)
    {
      toReleaseItems := toReleaseItems + [item];
    }

    method EnqueueItem(item: ItemId)
      modifies this`references, this`decaying, this`toDecayItems
      ensures View() == Enqueue(old(View()), item)
    {
      references := references + multiset{item};
      decaying := decaying + {item};
      toDecayItems := [item] + toDecayItems;
    }

    /** `outcome` stands for what the transformation of the item does. */
    method InternalDecayItem(item: ItemId, outcome: Outcome)
      modifies this`log, this`durations, this`references, this`decaying, this`toDecayItems
      ensures View() == Decay(old(View()), item, outcome)
    {
      log := log + [item];
      if outcome.Becomes? {
        var newItem := outcome.item;
        if newItem == item || newItem !in decaying {
          decaying := decaying - {newItem};
          durations := durations[newItem := outcome.duration];
          EnqueueItem(newItem);
        }
      }
    }

    method StartDecayOf(item: ItemId, canDecay: bool, outcome: Outcome)
      modifies this`log, this`durations, this`references, this`decaying, this`toDecayItems
      ensures View() == StartDecay(old(View()), item, canDecay, outcome)
      ensures !canDecay || old(item in decaying) ==> View() == old(View())
      ensures canDecay && old(item !in decaying && item in durations && durations[item] > 0) ==>
                && toDecayItems == [item] + old(toDecayItems) && decaying == old(decaying) + {item}
                && references == old(references) + multiset{item} && log == old(log) && durations == old(durations)
      ensures canDecay && old(item !in decaying && (item in durations ==> durations[item] == 0)) ==> log == old(log) + [item]
    {
      if !canDecay || item in decaying {
        return;
      }
      if item in durations && durations[item] > 0 {
        EnqueueItem(item);
      } else {
        InternalDecayItem(item, outcome);
      }
    }

    /** The wheel without the items of bucket `b` from `it` on: those are still to be visited. */
    ghost function ViewAt(b: nat, it: nat): Wheel
      reads this, decayItems
      requires Valid() && b < BUCKETS && it <= |decayItems[b]|
    {
      View().(buckets := View().buckets[b := decayItems[b][..it]])
    }

    method EraseAt(b: nat, it: nat)
      requires Valid() && b < BUCKETS && it < |decayItems[b]|
      modifies decayItems
      ensures Valid() && it <= |decayItems[b]| && ViewAt(b, it) == old(ViewAt(b, it))
      ensures decayItems[b][it..] == old(decayItems[b])[it + 1..]
    {
      ghost var list := decayItems[b];
      decayItems[b] := decayItems[b][..it] + decayItems[b][it + 1..];
      assert decayItems[b][..it] == list[..it];
      assert ViewAt(b, it).buckets == old(ViewAt(b, it)).buckets;
    }

    /** An item whose time is up. */
    method Expire(b: nat, ghost it: nat, item: ItemId, outcome: Outcome)
      requires Valid() && b < BUCKETS && it <= |decayItems[b]|
      modifies this`log, this`durations, this`references, this`decaying, this`toDecayItems, this`toReleaseItems
      ensures ViewAt(b, it) == Release(Decay(old(ViewAt(b, it)), item, outcome), item)
    {
      InternalDecayItem(item, outcome);
      ReleaseItem(item);
    }

    method AppendTo(b: nat, newBucket: nat, ghost it: nat, item: ItemId)
      requires Valid() && b < BUCKETS && it <= |decayItems[b]| && newBucket < BUCKETS && newBucket != b
      modifies decayItems
      ensures Valid() && decayItems[b] == old(decayItems[b])
      ensures ViewAt(b, it) == Push(old(ViewAt(b, it)), newBucket, item)
    {
      decayItems[newBucket] := decayItems[newBucket] + [item];
      assert ViewAt(b, it).buckets == Push(old(ViewAt(b, it)), newBucket, item).buckets;
    }

    /** The item at `it` of bucket `b`; the result is where the walk over the bucket goes on. */
    method VisitItem(b: nat, it: nat, canDecay: ItemId -> bool, outcome: ItemId -> Outcome) returns (next: nat)
      requires Valid() && b < BUCKETS && it < |decayItems[b]|
      modifies this`log, this`durations, this`references, this`decaying, this`toDecayItems, this`toReleaseItems, decayItems
      ensures Valid() && next <= |decayItems[b]| && decayItems[b][next..] == old(decayItems[b])[it + 1..]
      ensures ViewAt(b, next) == Visit(old(ViewAt(b, it)), b, old(decayItems[b])[it], canDecay, outcome)
    {
      hide Decay;
      var item := decayItems[b][it];
      next := it;
      if !canDecay(item) {
        decaying := decaying - {item};
        ReleaseItem(item);
        EraseAt(b, it);
        return;
      }
      var duration := if item in durations then durations[item] else 0;
      var decreaseTime := if ROUND < duration then ROUND else duration;
      duration := duration - decreaseTime;
      durations := durations[item := duration];
      if duration <= 0 {
        EraseAt(b, it);
        Expire(b, it, item, outcome(item));
      } else if duration < ROUND {
        EraseAt(b, it);
        var newBucket := (b + (duration + INTERVAL / 2) / 1000) % BUCKETS;
        assert newBucket == Rebucket(b, duration);
        if newBucket == b {
          Expire(b, it, item, outcome(item));
        } else {
          AppendTo(b, newBucket, it, item);
        }
      } else {
        next := it + 1;
        assert decayItems[b][..next] == decayItems[b][..it] + [item];
      }
    }

    method CheckDecays(canDecay: ItemId -> bool, outcome: ItemId -> Outcome)
      requires Valid()
      modifies this, decayItems
      ensures Valid() && View() == CheckDecay(old(View()), canDecay, outcome)
    {
      hide Sweep, Visit, Cleanup;
      var bucket := (lastBucket + 1) % BUCKETS;
      ghost var w := View();
      ghost var end := Sweep(w.(buckets := w.buckets[bucket := []]), bucket, w.buckets[bucket], canDecay, outcome);
      var it := 0;
      while it < |decayItems[bucket]|
        invariant Valid() && 0 <= it <= |decayItems[bucket]| && lastBucket == old(lastBucket)
        invariant Sweep(ViewAt(bucket, it), bucket, decayItems[bucket][it..], canDecay, outcome) == end
        decreases |decayItems[bucket]| - it
      {
        SweepUnfolds(ViewAt(bucket, it), bucket, decayItems[bucket][it..], canDecay, outcome);
        assert decayItems[bucket][it..][1..] == decayItems[bucket][it + 1..];
        it := VisitItem(bucket, it, canDecay, outcome);
      }
      assert decayItems[bucket][it..] == [];
      SweepEnds(ViewAt(bucket, it), bucket, canDecay, outcome);
      assert decayItems[bucket][..it] == decayItems[bucket];
      assert ViewAt(bucket, it) == View();
      lastBucket := bucket;
      CleanUp();
    }

    method CleanUp()
      requires Valid()
      modifies this`references, this`toReleaseItems, this`toDecayItems, decayItems
      ensures Valid() && View() == Cleanup(old(View()))
    {
      GiveBack();
      PlaceItems();
    }

    method GiveBack()
      requires Valid()
      modifies this`references, this`toReleaseItems
      ensures View() == old(View()).(held := old(references) - multiset(old(toReleaseItems)), toRelease := [])
    {
      for k := 0 to |toReleaseItems|
        invariant toReleaseItems == old(toReleaseItems)
        invariant references == old(references) - multiset(toReleaseItems[..k])
      {
        assert toReleaseItems[..k + 1] == toReleaseItems[..k] + [toReleaseItems[k]];
        GiveBackOne(old(references), multiset(toReleaseItems[..k]), toReleaseItems[k]);
        references := references - multiset{toReleaseItems[k]};
      }
      assert toReleaseItems[..|toReleaseItems|] == toReleaseItems;
      toReleaseItems := [];
    }

    /** Moves the waiting items into the buckets their time to live asks for. */
    method PlaceItems()
      requires Valid()
      modifies this`toDecayItems, decayItems
      ensures Valid() && View() == PlaceAll(old(View()).(toDecay := []), old(toDecayItems))
    {
      hide PlaceAll, Place;
      ghost var end := PlaceAll(View().(toDecay := []), toDecayItems);
      for k := 0 to |toDecayItems|
        invariant toDecayItems == old(toDecayItems) && Valid()
        invariant PlaceAll(View().(toDecay := []), toDecayItems[k..]) == end
      {
        PlaceAllUnfolds(View().(toDecay := []), toDecayItems[k..]);
        assert toDecayItems[k..][1..] == toDecayItems[k + 1..];
        PlaceItem(toDecayItems[k]);
      }
      PlaceAllUnfolds(View().(toDecay := []), []);
      toDecayItems := [];
    }

    method PlaceItem(item: ItemId)
      requires Valid()
      modifies decayItems
      ensures Valid() && View().(toDecay := []) == Place(old(View().(toDecay := [])), item)
    {
      var dur := if item in durations then durations[item] else 0;
      if dur >= ROUND {
        decayItems[lastBucket] := decayItems[lastBucket] + [item];
      } else {
        var b := (lastBucket + 1 + dur / 1000) % BUCKETS;
        decayItems[b] := decayItems[b] + [item];
      }
      assert View().(toDecay := []) == Place(old(View().(toDecay := [])), item);
    }
  }

  lemma GiveBackOne(all: multiset<ItemId>, gone: multiset<ItemId>, i: ItemId)
    ensures all - gone - multiset{i} == all - (gone + multiset{i})
  {
  }
}
