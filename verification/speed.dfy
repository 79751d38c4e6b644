/**
  The active conditions of a creature and the speed bonus they add up to: what a
  condition adds when it starts or is refreshed is exactly what its end takes away.
 */
module SpeedConditions {
  import opened Arithmetic

  type i32 = x: int | -0x8000_0000 <= x < 0x8000_0000

  datatype Kind = Haste | Sleep | Paralyze | Other(kind: nat)

  /** What identifies a condition on a creature. */
  datatype Key = Key(kind: Kind, id: int, subId: nat)

  datatype Condition = Condition(key: Key, ticks: i32, endTime: int, speedDelta: i32)

  predicate IsSpeed(k: Kind) { k.Haste? || k.Sleep? || k.Paralyze? }

  /** What a condition contributes to the creature's speed. */
  function Bonus(c: Condition): i32 { if IsSpeed(c.key.kind) then c.speedDelta else 0 }

  datatype State = State(conditions: seq<Condition>, varSpeed: i32)

  function TotalBonus(cs: seq<Condition>): int {
    if cs == [] then 0 else TotalBonus(cs[..|cs| - 1]) + Bonus(cs[|cs| - 1])
  }

  ghost predicate DistinctKeys(cs: seq<Condition>) {
    forall a, b :: 0 <= a < b < |cs| ==> cs[a].key != cs[b].key
  }

  /** The part of the speed that no active condition accounts for. */
  function Unexplained(s: State): i32 { Signed(s.varSpeed - TotalBonus(s.conditions)) }

  // ---------------------------------------------------------------------------
  // The operations on values
  // ---------------------------------------------------------------------------

  function ChangeSpeed(s: State, delta: int): State { s.(varSpeed := Signed(s.varSpeed + delta)) }

  function Find(cs: seq<Condition>, key: Key): int {
    FindFrom(cs, key, 0)
  }

  /** The first condition with this key from index k on, or -1. */
  function FindFrom(cs: seq<Condition>, key: Key, k: nat): (r: int)
    requires k <= |cs|
    ensures r == -1 || (k <= r < |cs| && cs[r].key == key)
    ensures r == -1 ==> forall j :: k <= j < |cs| ==> cs[j].key != key
    decreases |cs| - k
  {
    if k == |cs| then -1 else if cs[k].key == key then k else FindFrom(cs, key, k + 1)
  }

  /** A condition that comes again with the same key. `pick` is the random speed. */
  function Refreshed(c: Condition, again: Condition, now: int, pick: i32): (r: Condition)
    ensures r.key == c.key
  {
    if IsSpeed(c.key.kind) then
      if c.ticks == -1 && again.ticks > 0 then c
      else c.(ticks := again.ticks, endTime := again.ticks + now, speedDelta := if again.speedDelta == 0 then pick else again.speedDelta)
    else if (c.ticks == -1 && again.ticks > 0) || (again.ticks >= 0 && c.endTime > now + again.ticks) then c
    else c.(ticks := again.ticks, endTime := again.ticks + now)
  }

  function Started(c: Condition, now: int, pick: i32): (r: Condition)
    ensures r.key == c.key
  {
    var timed := if c.ticks > 0 then c.(endTime := c.ticks + now) else c;
    if IsSpeed(c.key.kind) && c.speedDelta == 0 then timed.(speedDelta := pick) else timed
  }

  /** Haste waits for a step in progress while the creature is paralysed. */
  predicate Postponed(s: State, c: Condition, force: bool, walkDelay: int, now: int) {
    !force && c.key.kind == Haste && walkDelay > 0 && Has(s.conditions, Paralyze, now)
  }

  /** A condition of this kind that counts now. */
  predicate Counts(c: Condition, kind: Kind, now: int) {
    c.key.kind == kind && c.key.subId == 0 && (c.endTime >= now || c.ticks == -1)
  }

  predicate Has(cs: seq<Condition>, kind: Kind, now: int) { exists k :: 0 <= k < |cs| && Counts(cs[k], kind, now) }

  /** A paralysis that has been added ends every haste, and the other way round. */
  function OnAdd(s: State, kind: Kind, walkDelay: int, now: int): State {
    if kind == Paralyze && Has(s.conditions, Haste, now) then Purge(s, 0, Haste, None, walkDelay > 0)
    else if kind == Haste && Has(s.conditions, Paralyze, now) then Purge(s, 0, Paralyze, None, walkDelay > 0)
    else s
  }

  function Appended(s: State, c: Condition): State { ChangeSpeed(s, Bonus(c)).(conditions := s.conditions + [c]) }

  /** `starts` says whether a condition of another class agrees to start. */
  function Add(s: State, c: Condition, force: bool, walkDelay: int, now: int, pick: i32, starts: bool): State {
    if Postponed(s, c, force, walkDelay, now) then s
    else
      var k := Find(s.conditions, c.key);
      if k >= 0 then
        var prev := s.conditions[k];
        var next := Refreshed(prev, c, now, pick);
        ChangeSpeed(s.(conditions := s.conditions[k := next]), Signed(Bonus(next) - Bonus(prev)))
      else if IsSpeed(c.key.kind) || starts then
        var next := Started(c, now, pick);
        OnAdd(Appended(s, next), c.key.kind, walkDelay, now)
      else s
  }

  function Erased(cs: seq<Condition>, k: nat): seq<Condition>
    requires k < |cs|
  {
    cs[..k] + cs[k + 1..]
  }

  function End(s: State, k: nat): State
    requires k < |s.conditions|
  {
    ChangeSpeed(s.(conditions := Erased(s.conditions, k)), -(Bonus(s.conditions[k]) as int))
  }

  predicate Matches(c: Condition, kind: Kind, id: Option) {
    c.key.kind == kind && (id.Some? ==> c.key.id == id.value)
  }

  datatype Option = None | Some(value: int)

  /** Ends every matching condition from index k on; a paralysis may wait for a step in progress. */
  function Purge(s: State, k: nat, kind: Kind, id: Option, wait: bool): State
    requires k <= |s.conditions|
    decreases |s.conditions| - k
  {
    if k == |s.conditions| then s
    else if !Matches(s.conditions[k], kind, id) then Purge(s, k + 1, kind, id, wait)
    else if wait && kind == Paralyze then s
    else Purge(End(s, k), k, kind, id, wait)
  }

  function RemoveOne(s: State, key: Key, wait: bool): State {
    var k := Find(s.conditions, key);
    if k < 0 || (wait && key.kind == Paralyze) then s else End(s, k)
  }

  predicate Expired(c: Condition, now: int) { c.ticks != -1 && c.endTime < now }

  function Aged(c: Condition, interval: nat): Condition {
    if c.ticks == -1 then c else c.(ticks := if c.ticks > interval then c.ticks - interval else 0)
  }

  /** One interval of the condition with this key, if it is still there. */
  function ExecuteOne(s: State, key: Key, interval: nat, now: int): State {
    var k := Find(s.conditions, key);
    if k < 0 then s
    else if Expired(s.conditions[k], now) then End(s, k)
    else s.(conditions := s.conditions[k := Aged(s.conditions[k], interval)])
  }

  function Execute(s: State, todo: seq<Condition>, interval: nat, now: int): State
    decreases |todo|
  {
    if todo == [] then s else Execute(ExecuteOne(s, todo[0].key, interval, now), todo[1..], interval, now)
  }

  // ---------------------------------------------------------------------------
  // What every operation keeps
  // ---------------------------------------------------------------------------

  lemma WrapAdds(a: int, b: int)
    ensures Signed(Signed(a) + b) == Signed(a + b) && Signed(a + Signed(b)) == Signed(a + b)
  {
    WrapShifts(a);
    WrapShifts(b);
    var ka := (a + 0x8000_0000) / 0x1_0000_0000;
    var kb := (b + 0x8000_0000) / 0x1_0000_0000;
    SameWrap(a + b, -ka);
    SameWrap(a + b, -kb);
  }

  lemma WrapShifts(a: int)
    ensures Signed(a) == a - (a + 0x8000_0000) / 0x1_0000_0000 * 0x1_0000_0000
  {
  }

  lemma SameWrap(a: int, k: int)
    ensures Signed(a + k * 0x1_0000_0000) == Signed(a)
  {
  }

  lemma {:induction false} TotalUpdate(cs: seq<Condition>, k: nat, c: Condition)
    requires k < |cs|
    ensures TotalBonus(cs[k := c]) == TotalBonus(cs) - Bonus(cs[k]) + Bonus(c)
  {
    var n := |cs| - 1;
    if k == n {
      assert cs[k := c][..n] == cs[..n];
    } else {
      TotalUpdate(cs[..n], k, c);
      assert cs[k := c][..n] == cs[..n][k := c];
    }
  }

  lemma {:induction false} TotalErased(cs: seq<Condition>, k: nat)
    requires k < |cs|
    ensures TotalBonus(Erased(cs, k)) == TotalBonus(cs) - Bonus(cs[k])
  {
    var n := |cs| - 1;
    if k == n {
      assert Erased(cs, k) == cs[..n];
    } else {
      TotalErased(cs[..n], k);
      assert Erased(cs, k)[..n - 1] == Erased(cs[..n], k);
    }
  }

  lemma TotalSnoc(cs: seq<Condition>, c: Condition)
    ensures TotalBonus(cs + [c]) == TotalBonus(cs) + Bonus(c)
  {
    assert (cs + [c])[..|cs|] == cs;
  }

  /** Speed and bonuses move together. */
  lemma BalancedChange(s: State, e: State, delta: int)
    requires TotalBonus(e.conditions) == TotalBonus(s.conditions) + delta
    requires e.varSpeed == Signed(s.varSpeed + delta) || e.varSpeed == Signed(s.varSpeed + Signed(delta))
    ensures Unexplained(e) == Unexplained(s)
  {
    WrapAdds(s.varSpeed, delta);
    WrapAdds(s.varSpeed + delta, -TotalBonus(e.conditions));
  }

  ghost predicate Keeps(s: State, e: State) {
    Unexplained(e) == Unexplained(s) && (DistinctKeys(s.conditions) ==> DistinctKeys(e.conditions))
  }

  lemma EndKeeps(s: State, k: nat)
    requires k < |s.conditions|
    ensures Keeps(s, End(s, k))
  {
    TotalErased(s.conditions, k);
    BalancedChange(s, End(s, k), -(Bonus(s.conditions[k]) as int));
  }

  lemma KeepsBoth(s: State, e: State, g: State)
    requires Keeps(s, e) && Keeps(e, g)
    ensures Keeps(s, g)
  {
  }

  lemma AppendedKeeps(s: State, c: Condition)
    requires Find(s.conditions, c.key) < 0
    ensures Keeps(s, Appended(s, c))
  {
    hide Unexplained, Bonus, Signed, TotalBonus;
    TotalSnoc(s.conditions, c);
    BalancedChange(s, Appended(s, c), Bonus(c));
  }

  lemma OnAddKeeps(s: State, kind: Kind, walkDelay: int, now: int)
    ensures Keeps(s, OnAdd(s, kind, walkDelay, now))
  {
    hide Purge, Has;
    PurgeKeeps(s, 0, Haste, None, walkDelay > 0);
    PurgeKeeps(s, 0, Paralyze, None, walkDelay > 0);
  }

  lemma AddKeeps(s: State, c: Condition, force: bool, walkDelay: int, now: int, pick: i32, starts: bool)
    ensures Keeps(s, Add(s, c, force, walkDelay, now, pick, starts))
  {
    hide Refreshed, Started, Postponed, Unexplained, Bonus, Signed, TotalBonus, OnAdd, Appended;
    var e := Add(s, c, force, walkDelay, now, pick, starts);
    var k := Find(s.conditions, c.key);
    if !Postponed(s, c, force, walkDelay, now) {
      if k >= 0 {
        var next := Refreshed(s.conditions[k], c, now, pick);
        TotalUpdate(s.conditions, k, next);
        BalancedChange(s, e, Bonus(next) - Bonus(s.conditions[k]));
      } else if IsSpeed(c.key.kind) || starts {
        var next := Started(c, now, pick);
        AppendedKeeps(s, next);
        OnAddKeeps(Appended(s, next), c.key.kind, walkDelay, now);
        KeepsBoth(s, Appended(s, next), e);
      }
    }
  }

  /** A removal by type leaves everything else in the list, whether it waits or not. */
  lemma {:induction false} PurgeKeepsOthers(s: State, k: nat, kind: Kind, id: Option, wait: bool, c: Condition)
    requires k <= |s.conditions| && !Matches(c, kind, id)
    ensures c in Purge(s, k, kind, id, wait).conditions <==> c in s.conditions
    decreases |s.conditions| - k
  {
    if k < |s.conditions| {
      if !Matches(s.conditions[k], kind, id) {
        PurgeKeepsOthers(s, k + 1, kind, id, wait, c);
      } else if !(wait && kind == Paralyze) {
        PurgeKeepsOthers(End(s, k), k, kind, id, wait, c);
        ErasedMembers(s.conditions, k);
      }
    }
  }

  predicate Opposites(a: Kind, b: Kind) { (a == Haste && b == Paralyze) || (a == Paralyze && b == Haste) }

  lemma OnAddStays(s: State, kind: Kind, walkDelay: int, now: int, c: Condition)
    requires c.key.kind == kind
    ensures c in OnAdd(s, kind, walkDelay, now).conditions <==> c in s.conditions
  {
    hide Purge, Has;
    if kind == Paralyze {
      PurgeKeepsOthers(s, 0, Haste, None, walkDelay > 0, c);
    } else if kind == Haste {
      PurgeKeepsOthers(s, 0, Paralyze, None, walkDelay > 0, c);
    }
  }

  /**
    Haste and paralysis exclude each other: once one of them has been added, the other counts no
    more, except that a paralysis outlives a haste forced upon a walker in the middle of a step.
   */
  lemma OnAddExcludes(s: State, kind: Kind, walkDelay: int, now: int, other: Kind)
    requires Opposites(kind, other)
    ensures Has(OnAdd(s, kind, walkDelay, now).conditions, other, now)
       <==> Has(s.conditions, other, now) && kind == Haste && walkDelay > 0
  {
    if Has(s.conditions, other, now) {
      if kind == Haste && walkDelay > 0 {
        ParalysisWaits(s, 0);
      } else {
        PurgeIsComplete(s, 0, other, None, walkDelay > 0);
        NoneCounts(Purge(s, 0, other, None, walkDelay > 0).conditions, other, now);
      }
    }
  }

  lemma NoneCounts(cs: seq<Condition>, kind: Kind, now: int)
    requires forall j :: 0 <= j < |cs| ==> !Matches(cs[j], kind, None)
    ensures !Has(cs, kind, now)
  {
    assert forall j :: 0 <= j < |cs| ==> !Matches(cs[j], kind, None) && !Counts(cs[j], kind, now);
  }

  lemma {:induction false} ParalysisWaits(s: State, k: nat)
    requires k <= |s.conditions|
    ensures Purge(s, k, Paralyze, None, true) == s
    decreases |s.conditions| - k
  {
    if k < |s.conditions| && !Matches(s.conditions[k], Paralyze, None) {
      ParalysisWaits(s, k + 1);
    }
  }

  lemma {:induction false} PurgeKeeps(s: State, k: nat, kind: Kind, id: Option, wait: bool)
    requires k <= |s.conditions|
    ensures Keeps(s, Purge(s, k, kind, id, wait))
    decreases |s.conditions| - k
  {
    if k < |s.conditions| {
      if !Matches(s.conditions[k], kind, id) {
        PurgeKeeps(s, k + 1, kind, id, wait);
      } else if !(wait && kind == Paralyze) {
        EndKeeps(s, k);
        PurgeKeeps(End(s, k), k, kind, id, wait);
      }
    }
  }

  /** Unless it waits, removing by type leaves nothing of that type, and everything else. */
  lemma {:induction false} PurgeIsComplete(s: State, k: nat, kind: Kind, id: Option, wait: bool)
    requires k <= |s.conditions| && !(wait && kind == Paralyze)
    requires forall j :: 0 <= j < k ==> !Matches(s.conditions[j], kind, id)
    ensures var e := Purge(s, k, kind, id, wait);
            && (forall j :: 0 <= j < |e.conditions| ==> !Matches(e.conditions[j], kind, id))
            && (forall c :: !Matches(c, kind, id) ==> (c in e.conditions <==> c in s.conditions))
    decreases |s.conditions| - k
  {
    if k < |s.conditions| {
      if !Matches(s.conditions[k], kind, id) {
        PurgeIsComplete(s, k + 1, kind, id, wait);
      } else {
        PurgeIsComplete(End(s, k), k, kind, id, wait);
        ErasedMembers(s.conditions, k);
      }
    }
  }

  lemma ErasedMembers(cs: seq<Condition>, k: nat)
    requires k < |cs|
    ensures forall c :: c != cs[k] ==> (c in Erased(cs, k) <==> c in cs)
  {
    assert cs == cs[..k] + [cs[k]] + cs[k + 1..];
  }

  lemma ExecuteOneKeeps(s: State, key: Key, interval: nat, now: int)
    ensures Keeps(s, ExecuteOne(s, key, interval, now))
  {
    var k := Find(s.conditions, key);
    if k >= 0 {
      if Expired(s.conditions[k], now) {
        EndKeeps(s, k);
      } else {
        TotalUpdate(s.conditions, k, Aged(s.conditions[k], interval));
      }
    }
  }

  lemma {:induction false} ExecuteKeeps(s: State, todo: seq<Condition>, interval: nat, now: int)
    ensures Keeps(s, Execute(s, todo, interval, now))
    decreases |todo|
  {
    if todo != [] {
      ExecuteOneKeeps(s, todo[0].key, interval, now);
      ExecuteKeeps(ExecuteOne(s, todo[0].key, interval, now), todo[1..], interval, now);
    }
  }

  // ---------------------------------------------------------------------------
  // Whole runs
  // ---------------------------------------------------------------------------

  datatype Action =
    | AddAction(c: Condition, force: bool, walkDelay: int, now: int, pick: i32, starts: bool)
    | RemoveKind(kind: Kind, id: Option, wait: bool)
    | RemoveKey(key: Key, wait: bool)
    | ExecuteAll(interval: nat, now: int)

  function Apply(s: State, a: Action): State {
    match a
    case AddAction(c, force, walkDelay, now, pick, starts) => Add(s, c, force, walkDelay, now, pick, starts)
    case RemoveKind(kind, id, wait) => Purge(s, 0, kind, id, wait)
    case RemoveKey(key, wait) => RemoveOne(s, key, wait)
    case ExecuteAll(interval, now) => Execute(s, s.conditions, interval, now)
  }

  function Run(s: State, actions: seq<Action>): State {
    if actions == [] then s else Apply(Run(s, actions[..|actions| - 1]), actions[|actions| - 1])
  }

  lemma ActionKeeps(s: State, a: Action)
    ensures Keeps(s, Apply(s, a))
  {
    hide Add, Purge, Execute, End, Unexplained, DistinctKeys;
    match a
    case AddAction(c, force, walkDelay, now, pick, starts) => AddKeeps(s, c, force, walkDelay, now, pick, starts);
    case RemoveKind(kind, id, wait) => PurgeKeeps(s, 0, kind, id, wait);
    case RemoveKey(key, wait) =>
      if Find(s.conditions, key) >= 0 { EndKeeps(s, Find(s.conditions, key)); }
    case ExecuteAll(interval, now) => ExecuteKeeps(s, s.conditions, interval, now);
  }

  /**
    Over any sequence of adding, refreshing, expiring and removing, the speed that the
    active conditions do not account for stays what it was, and keys stay distinct.
   */
  lemma {:induction false} RunKeepsBalance(s: State, actions: seq<Action>)
    requires DistinctKeys(s.conditions)
    ensures Unexplained(Run(s, actions)) == Unexplained(s) && DistinctKeys(Run(s, actions).conditions)
  {
    if actions != [] {
      RunKeepsBalance(s, actions[..|actions| - 1]);
      ActionKeeps(Run(s, actions[..|actions| - 1]), actions[|actions| - 1]);
    }
  }

  /** So once every condition has gone, whatever the order, the speed is the original one. */
  lemma SpeedComesBack(varSpeed: i32, actions: seq<Action>)
    requires Run(State([], varSpeed), actions).conditions == []
    ensures Run(State([], varSpeed), actions).varSpeed == varSpeed
  {
    hide Run, Signed, DistinctKeys;
    NoTwoKeys(varSpeed);
    RunKeepsBalance(State([], varSpeed), actions);
    InRange(Run(State([], varSpeed), actions).varSpeed);
    InRange(varSpeed);
  }

  lemma NoTwoKeys(varSpeed: i32)
    ensures DistinctKeys(State([], varSpeed).conditions)
  {
  }

  lemma InRange(x: i32)
    ensures Signed(x) == x
  {
  }

  // ---------------------------------------------------------------------------
  // Which conditions end, and when
  // ---------------------------------------------------------------------------

  /**
    What an interval makes of a list: exactly the endless conditions and those whose end has not passed are left,
    in their order, the endless ones as they were and the others with less time to go.
   */
  ghost predicate LeftAt(was: seq<Condition>, left: seq<Condition>, at: seq<nat>, interval: nat, now: int) {
    && |at| == |left| && (forall a, b :: 0 <= a < b < |at| ==> at[a] < at[b])
    && LastingStay(was, at, now) && EndedGo(was, left, at, interval, now)
  }

  ghost predicate LastingStay(was: seq<Condition>, at: seq<nat>, now: int) {
    forall i :: 0 <= i < |was| && (was[i].ticks == -1 || was[i].endTime >= now) ==> i in at
  }

  ghost predicate EndedGo(was: seq<Condition>, left: seq<Condition>, at: seq<nat>, interval: nat, now: int)
    requires |at| == |left|
  {
    forall k :: 0 <= k < |at| ==>
      at[k] < |was| && (was[at[k]].ticks == -1 || was[at[k]].endTime >= now) && IntervalOlder(was[at[k]], left[k], interval)
  }

  predicate IntervalOlder(c: Condition, d: Condition, interval: nat) {
    && d.key == c.key && d.endTime == c.endTime && d.speedDelta == c.speedDelta
    && d.ticks == if c.ticks == -1 then -1 else if c.ticks > interval then c.ticks - interval else 0
  }

  function Later(at: seq<nat>): seq<nat> { seq(|at|, k requires 0 <= k < |at| => at[k] + 1) }

  lemma {:induction false} ExecuteLeaves(s: State, done: seq<Condition>, todo: seq<Condition>, interval: nat, now: int)
    returns (left: seq<Condition>, at: seq<nat>)
    requires s.conditions == done + todo && DistinctKeys(s.conditions)
    ensures Execute(s, todo, interval, now).conditions == done + left && LeftAt(todo, left, at, interval, now)
    decreases |todo|
  {
    if todo == [] {
      left, at := [], [];
    } else {
      var c, k := todo[0], |done|;
      assert s.conditions[k] == c;
      FoundAt(s.conditions, k);
      var e := ExecuteOne(s, c.key, interval, now);
      assert [c] + todo[1..] == todo;
      var rest, later := [], [];
      if c.ticks != -1 && c.endTime < now {
        assert e.conditions == done + todo[1..];
        ErasedKeepsKeys(s.conditions, k);
        rest, later := ExecuteLeaves(e, done, todo[1..], interval, now);
        left, at := rest, Later(later);
        LeftWithout(c, todo[1..], rest, later, interval, now);
      } else {
        var older := Aged(c, interval);
        assert e.conditions == (done + [older]) + todo[1..];
        rest, later := ExecuteLeaves(e, done + [older], todo[1..], interval, now);
        left, at := [older] + rest, [0] + Later(later);
        assert (done + [older]) + rest == done + ([older] + rest);
        LeftWith(c, todo[1..], rest, later, interval, now);
      }
    }
  }

  lemma FoundAt(cs: seq<Condition>, k: nat)
    requires DistinctKeys(cs) && k < |cs|
    ensures Find(cs, cs[k].key) == k
  {
  }

  lemma ErasedKeepsKeys(cs: seq<Condition>, k: nat)
    requires DistinctKeys(cs) && k < |cs|
    ensures DistinctKeys(Erased(cs, k))
  {
  }

  lemma LeftWithout(c: Condition, todo: seq<Condition>, rest: seq<Condition>, later: seq<nat>, interval: nat, now: int)
    requires LeftAt(todo, rest, later, interval, now) && c.ticks != -1 && c.endTime < now
    ensures LeftAt([c] + todo, rest, Later(later), interval, now)
  {
    hide EndedGo, LastingStay;
    assert LastingStay([c] + todo, Later(later), now) by {
      LastingShifts(c, todo, later, Later(later), 0, now);
    }
    EndedShifts(c, todo, rest, later, interval, now);
  }

  lemma LastingShifts(c: Condition, todo: seq<Condition>, later: seq<nat>, at: seq<nat>, n: nat, now: int)
    requires LastingStay(todo, later, now) && |at| == |later| + n
    requires forall k :: 0 <= k < |later| ==> at[k + n] == later[k] + 1
    requires (c.ticks == -1 || c.endTime >= now) ==> 0 in at
    ensures LastingStay([c] + todo, at, now)
  {
    var was := [c] + todo;
    forall i | 0 <= i < |was| && (was[i].ticks == -1 || was[i].endTime >= now)
      ensures i in at
    {
      if i > 0 {
        assert todo[i - 1] == was[i];
        var k :| 0 <= k < |later| && later[k] == i - 1;
        assert at[k + n] == i;
      }
    }
  }

  lemma EndedShifts(c: Condition, todo: seq<Condition>, rest: seq<Condition>, later: seq<nat>, interval: nat, now: int)
    requires |later| == |rest| && EndedGo(todo, rest, later, interval, now)
    ensures EndedGo([c] + todo, rest, Later(later), interval, now)
  {
    hide IntervalOlder;
    var was, at := [c] + todo, Later(later);
    forall k | 0 <= k < |at|
      ensures at[k] < |was| && was[at[k]] == todo[later[k]]
    {
    }
  }

  lemma LeftWith(c: Condition, todo: seq<Condition>, rest: seq<Condition>, later: seq<nat>, interval: nat, now: int)
    requires LeftAt(todo, rest, later, interval, now) && (c.ticks == -1 || c.endTime >= now)
    ensures LeftAt([c] + todo, [Aged(c, interval)] + rest, [0] + Later(later), interval, now)
  {
    hide EndedGo, LastingStay;
    var at := [0] + Later(later);
    assert at[0] == 0;
    LastingShifts(c, todo, later, at, 1, now);
    EndedShifts(c, todo, rest, later, interval, now);
    EndedPrepends(c, [c] + todo, rest, Later(later), interval, now);
  }

  lemma EndedPrepends(c: Condition, was: seq<Condition>, rest: seq<Condition>, later: seq<nat>, interval: nat, now: int)
    requires |later| == |rest| && EndedGo(was, rest, later, interval, now) && was != [] && was[0] == c
    requires c.ticks == -1 || c.endTime >= now
    ensures EndedGo(was, [Aged(c, interval)] + rest, [0] + later, interval, now)
  {
  }

  /** One execution ends exactly the timed conditions whose end has passed. */
  lemma ExecutionLeaves(s: State, interval: nat, now: int) returns (at: seq<nat>)
    requires DistinctKeys(s.conditions)
    ensures LeftAt(s.conditions, Apply(s, ExecuteAll(interval, now)).conditions, at, interval, now)
  {
    hide LeftAt, Execute, DistinctKeys;
    var left;
    left, at := ExecuteLeaves(s, [], s.conditions, interval, now);
    assert [] + left == left;
  }

  predicate Holds(cs: seq<Condition>, key: Key) { exists c :: c in cs && c.key == key }

  /** Nothing but time ends the condition with this key, and nothing starts it again. */
  ghost predicate LeftAlone(key: Key, actions: seq<Action>) {
    forall a :: a in actions ==> Spares(a, key)
  }

  predicate Spares(a: Action, key: Key) {
    match a
    case AddAction(c, _, _, _, _, _) => c.key != key && !Opposites(c.key.kind, key.kind)
    case RemoveKind(kind, id, _) => key.kind == kind ==> id.Some? && id.value != key.id
    case RemoveKey(k, _) => k != key
    case ExecuteAll(_, _) => true
  }

  /** Some execution comes after this time. */
  ghost predicate Outlived(actions: seq<Action>, time: int) {
    exists k :: 0 <= k < |actions| && actions[k].ExecuteAll? && actions[k].now > time
  }

  /** A condition with everything but its remaining ticks as given; the timed one stays timed. */
  predicate Lives(cs: seq<Condition>, c: Condition) {
    exists d :: d in cs && d.key == c.key && d.endTime == c.endTime && d.speedDelta == c.speedDelta && (d.ticks == -1 <==> c.ticks == -1)
  }

  lemma {:induction false} ExecuteSpares(s: State, c: Condition, interval: nat, now: int)
    requires DistinctKeys(s.conditions) && Lives(s.conditions, c)
    ensures var e := Apply(s, ExecuteAll(interval, now));
            && (c.ticks == -1 || c.endTime >= now ==> Lives(e.conditions, c))
            && (c.ticks != -1 && c.endTime < now ==> !Holds(e.conditions, c.key))
  {
    var e := Apply(s, ExecuteAll(interval, now));
    var at := ExecutionLeaves(s, interval, now);
    hide Execute;
    var d :| d in s.conditions && d.key == c.key && d.endTime == c.endTime && d.speedDelta == c.speedDelta && (d.ticks == -1 <==> c.ticks == -1);
    var i :| 0 <= i < |s.conditions| && s.conditions[i] == d;
    if c.ticks == -1 || c.endTime >= now {
      var k :| 0 <= k < |at| && at[k] == i;
      assert e.conditions[k] in e.conditions;
    } else {
      forall x | x in e.conditions
        ensures x.key != c.key
      {
        var k :| 0 <= k < |e.conditions| && e.conditions[k] == x;
        assert at[k] != i;
      }
    }
  }

  /** Removals of other types and other keys leave a condition alone. */
  lemma {:induction false} RemovalSpares(s: State, a: Action, c: Condition)
    requires (a.RemoveKind? || a.RemoveKey?) && Spares(a, c.key)
    ensures c in Apply(s, a).conditions <==> c in s.conditions
  {
    hide Purge, FindFrom, Signed, Bonus, Erased;
    if a.RemoveKind? {
      PurgeKeepsOthers(s, 0, a.kind, a.id, a.wait, c);
    } else {
      var k := Find(s.conditions, a.key);
      if k >= 0 {
        ErasedMembers(s.conditions, k);
      }
    }
  }

  /** Ending one condition ends that one only; a paralysis waits for a step in progress. */
  lemma {:induction false} RemovalEndsOne(s: State, key: Key, wait: bool)
    requires DistinctKeys(s.conditions)
    ensures var e := Apply(s, RemoveKey(key, wait));
            && (wait && key.kind == Paralyze ==> e == s)
            && (!(wait && key.kind == Paralyze) ==> !Holds(e.conditions, key))
            && (forall c: Condition :: c.key != key ==> (c in e.conditions <==> c in s.conditions))
  {
    hide Signed, Bonus, FindFrom;
    var e := Apply(s, RemoveKey(key, wait));
    var k := Find(s.conditions, key);
    if k >= 0 {
      ErasedMembers(s.conditions, k);
      assert forall c :: c in Erased(s.conditions, k) ==> c.key != key;
    } else {
      assert forall c :: c in s.conditions ==> c.key != key;
    }
  }

  lemma {:induction false} AddSpares(s: State, a: Action, c: Condition)
    requires a.AddAction? && Spares(a, c.key)
    ensures c in Apply(s, a).conditions <==> c in s.conditions
  {
    hide Refreshed, Started, Postponed, Bonus, Signed, Has, Purge;
    var k := Find(s.conditions, a.c.key);
    if k >= 0 {
      var next := Refreshed(s.conditions[k], a.c, a.now, a.pick);
      var cs := s.conditions;
      assert forall j :: 0 <= j < |cs| && j != k ==> cs[k := next][j] == cs[j];
      assert c in cs ==> exists j :: 0 <= j < |cs| && j != k && cs[j] == c;
    } else {
      var next := Started(a.c, a.now, a.pick);
      var s1 := Appended(s, next);
      assert c in s1.conditions <==> c in s.conditions;
      if c.key.kind != Haste {
        PurgeKeepsOthers(s1, 0, Haste, None, a.walkDelay > 0, c);
      }
      if c.key.kind != Paralyze {
        PurgeKeepsOthers(s1, 0, Paralyze, None, a.walkDelay > 0, c);
      }
    }
  }

  /** An action that spares a condition keeps it, and does not bring it back. */
  lemma {:induction false} ActionSpares(s: State, a: Action, c: Condition)
    requires DistinctKeys(s.conditions) && Spares(a, c.key) && !a.ExecuteAll?
    ensures Lives(Apply(s, a).conditions, c) <==> Lives(s.conditions, c)
    ensures Holds(Apply(s, a).conditions, c.key) <==> Holds(s.conditions, c.key)
  {
    forall d: Condition | d.key == c.key
      ensures d in Apply(s, a).conditions <==> d in s.conditions
    {
      if a.AddAction? {
        AddSpares(s, a, d);
      } else {
        RemovalSpares(s, a, d);
      }
    }
    hide Apply;
  }

  lemma ExecuteBringsNothing(s: State, key: Key, interval: nat, now: int)
    requires DistinctKeys(s.conditions) && !Holds(s.conditions, key)
    ensures !Holds(Apply(s, ExecuteAll(interval, now)).conditions, key)
  {
    var e := Apply(s, ExecuteAll(interval, now));
    var at := ExecutionLeaves(s, interval, now);
    hide Apply;
    forall x | x in e.conditions
      ensures x.key != key
    {
      var k :| 0 <= k < |e.conditions| && e.conditions[k] == x;
      assert s.conditions[at[k]] in s.conditions;
    }
  }

  /**
    A condition left alone is there as long as no execution has come after its end, and is gone once one has;
    an endless one stays.
   */
  lemma {:induction false} LastsUntilItsEnd(s: State, c: Condition, actions: seq<Action>)
    requires DistinctKeys(s.conditions) && Lives(s.conditions, c) && LeftAlone(c.key, actions)
    ensures c.ticks == -1 || !Outlived(actions, c.endTime) ==> Lives(Run(s, actions).conditions, c)
    ensures c.ticks != -1 && Outlived(actions, c.endTime) ==> !Holds(Run(s, actions).conditions, c.key)
  {
    hide Apply, DistinctKeys, Lives, Holds, Outlived, LeftAlone, Spares;
    if actions != [] {
      var before, a := actions[..|actions| - 1], actions[|actions| - 1];
      AloneBefore(c.key, actions);
      LastsUntilItsEnd(s, c, before);
      RunKeepsBalance(s, before);
      OutlivedMore(actions, c.endTime);
      var d := Run(s, before);
      if a.ExecuteAll? {
        if Lives(d.conditions, c) {
          ExecuteSpares(d, c, a.interval, a.now);
        }
        if !Holds(d.conditions, c.key) {
          ExecuteBringsNothing(d, c.key, a.interval, a.now);
        }
      } else {
        ActionSpares(d, a, c);
      }
    } else {
      OutlivedNothing(c.endTime);
    }
  }

  lemma OutlivedNothing(time: int)
    ensures !Outlived([], time)
  {
  }

  lemma AloneBefore(key: Key, actions: seq<Action>)
    requires LeftAlone(key, actions) && actions != []
    ensures LeftAlone(key, actions[..|actions| - 1]) && Spares(actions[|actions| - 1], key)
  {
  }

  lemma OutlivedMore(actions: seq<Action>, time: int)
    requires actions != []
    ensures var a := actions[|actions| - 1];
            Outlived(actions, time) <==> Outlived(actions[..|actions| - 1], time) || (a.ExecuteAll? && a.now > time)
  {
    var n := |actions| - 1;
    if Outlived(actions, time) {
      var k :| 0 <= k < |actions| && actions[k].ExecuteAll? && actions[k].now > time;
      assert k < n ==> actions[..n][k] == actions[k];
    }
    if Outlived(actions[..n], time) {
      var k :| 0 <= k < n && actions[..n][k].ExecuteAll? && actions[..n][k].now > time;
      assert actions[k].ExecuteAll?;
    }
  }

  // ---------------------------------------------------------------------------
  // What adding does to the fields
  // ---------------------------------------------------------------------------

  /** A condition of this kind is in the list, has no sub-identifier and has not run out. */
  predicate Active(cs: seq<Condition>, kind: Kind, now: int) {
    exists k :: 0 <= k < |cs| && cs[k].key.kind == kind && cs[k].key.subId == 0 && (cs[k].endTime >= now || cs[k].ticks == -1)
  }

  /** An unforced haste does not get through to a paralysed walker in the middle of a step. */
  lemma HasteIsPutOff(s: State, c: Condition, walkDelay: int, now: int, pick: i32, starts: bool)
    requires c.key.kind == Haste && walkDelay > 0 && Active(s.conditions, Paralyze, now)
    ensures Apply(s, AddAction(c, false, walkDelay, now, pick, starts)) == s
  {
    var k :| 0 <= k < |s.conditions| && s.conditions[k].key.kind == Paralyze && s.conditions[k].key.subId == 0
             && (s.conditions[k].endTime >= now || s.conditions[k].ticks == -1);
    assert Counts(s.conditions[k], Paralyze, now);
  }

  predicate PutOff(s: State, c: Condition, force: bool, walkDelay: int, now: int) {
    !force && c.key.kind == Haste && walkDelay > 0 && Active(s.conditions, Paralyze, now)
  }

  lemma PutOffIs(s: State, c: Condition, force: bool, walkDelay: int, now: int)
    ensures PutOff(s, c, force, walkDelay, now) <==> Postponed(s, c, force, walkDelay, now)
  {
    assert forall k :: 0 <= k < |s.conditions| ==>
      (Counts(s.conditions[k], Paralyze, now) <==>
        s.conditions[k].key.kind == Paralyze && s.conditions[k].key.subId == 0 && (s.conditions[k].endTime >= now || s.conditions[k].ticks == -1));
  }

  /**
    A condition with a known key changes the one in the list, and nothing else of the list. An endless one is not
    cut short. A speed condition takes the new time and the new change of speed, another one is only ever prolonged.
   */
  lemma ComesAgain(s: State, k: nat, c: Condition, force: bool, walkDelay: int, now: int, pick: i32, starts: bool)
    requires DistinctKeys(s.conditions) && k < |s.conditions| && s.conditions[k].key == c.key
    requires !PutOff(s, c, force, walkDelay, now)
    ensures var e := Apply(s, AddAction(c, force, walkDelay, now, pick, starts));
            var was := s.conditions[k];
            && |e.conditions| == |s.conditions|
            && (forall j :: 0 <= j < |s.conditions| && j != k ==> e.conditions[j] == s.conditions[j])
            && var left := e.conditions[k];
               && left.key == was.key
               && (was.ticks == -1 && c.ticks > 0 ==> left == was && e.varSpeed == s.varSpeed)
               && (!(was.ticks == -1 && c.ticks > 0) && IsSpeed(c.key.kind) ==>
                     && left.ticks == c.ticks && left.endTime == now + c.ticks
                     && left.speedDelta == (if c.speedDelta == 0 then pick else c.speedDelta)
                     && e.varSpeed == Signed(s.varSpeed + left.speedDelta - was.speedDelta))
               && (!(was.ticks == -1 && c.ticks > 0) && !IsSpeed(c.key.kind) ==>
                     && left.speedDelta == was.speedDelta && e.varSpeed == s.varSpeed
                     && (c.ticks < 0 ==> left.ticks == c.ticks && left.endTime == now + c.ticks)
                     && (c.ticks >= 0 ==>
                           && left.endTime == (if was.endTime > now + c.ticks then was.endTime else now + c.ticks)
                           && left.ticks == (if was.endTime > now + c.ticks then was.ticks else c.ticks)))
  {
    PutOffIs(s, c, force, walkDelay, now);
    FoundAt(s.conditions, k);
    InRange(s.varSpeed);
    hide Postponed, PutOff, Find, DistinctKeys, OnAdd, Started, Signed;
    var next := Refreshed(s.conditions[k], c, now, pick);
    WrapAdds(s.varSpeed, Bonus(next) - Bonus(s.conditions[k]));
    WrapZero();
  }

  lemma WrapZero()
    ensures Signed(0) == 0
  {
  }

  /**
    A new condition starts at the end of the list, a timed one with its end `ticks` from now, a speed condition without
    a change of speed with the one picked. If nothing opposite is active that is all that happens to the list.
   */
  lemma StartsAtTheEnd(s: State, c: Condition, force: bool, walkDelay: int, now: int, pick: i32, starts: bool)
    requires !Holds(s.conditions, c.key) && !PutOff(s, c, force, walkDelay, now) && (IsSpeed(c.key.kind) || starts)
    ensures var e := Apply(s, AddAction(c, force, walkDelay, now, pick, starts));
            var next := Condition(c.key, c.ticks, if c.ticks > 0 then now + c.ticks else c.endTime,
                                  if IsSpeed(c.key.kind) && c.speedDelta == 0 then pick else c.speedDelta);
            && next in e.conditions
            && ((forall kind :: Opposites(c.key.kind, kind) ==> !Active(s.conditions, kind, now)) ==>
                  e.conditions == s.conditions + [next]
                  && e.varSpeed == Signed(s.varSpeed + if IsSpeed(c.key.kind) then next.speedDelta else 0))
  {
    PutOffIs(s, c, force, walkDelay, now);
    NotFound(s.conditions, c.key);
    var next := Started(c, now, pick);
    OnAddStays(Appended(s, next), c.key.kind, walkDelay, now, next);
    if c.key.kind == Haste {
      StillInactive(s, next, Paralyze, now);
    } else if c.key.kind == Paralyze {
      StillInactive(s, next, Haste, now);
    }
    hide Postponed, PutOff, Find, Has, Active, Purge, Signed, Holds;
    assert Opposites(Haste, Paralyze) && Opposites(Paralyze, Haste);
  }

  lemma NotFound(cs: seq<Condition>, key: Key)
    requires !Holds(cs, key)
    ensures Find(cs, key) == -1
  {
    var k := Find(cs, key);
    assert k >= 0 ==> cs[k] in cs;
  }

  lemma StillInactive(s: State, next: Condition, kind: Kind, now: int)
    requires next.key.kind != kind
    ensures !Active(s.conditions, kind, now) ==> !Has(Appended(s, next).conditions, kind, now)
  {
    if !Active(s.conditions, kind, now) {
      assert forall k :: 0 <= k < |s.conditions| ==> !Counts(s.conditions[k], kind, now);
    }
  }

  /** A condition of another class that declines to start changes nothing. */
  lemma DeclinesToStart(s: State, c: Condition, force: bool, walkDelay: int, now: int, pick: i32)
    requires !Holds(s.conditions, c.key) && !IsSpeed(c.key.kind)
    ensures Apply(s, AddAction(c, force, walkDelay, now, pick, false)) == s
  {
    NotFound(s.conditions, c.key);
  }

  /**
    A condition started with T > 0 ticks at time t and then left alone survives every execution up to t + T and
    is gone after the first one later.
   */
  lemma EndsOnTime(s: State, c: Condition, force: bool, walkDelay: int, t: int, pick: i32, starts: bool, actions: seq<Action>)
    requires DistinctKeys(s.conditions) && !Holds(s.conditions, c.key) && c.ticks > 0
    requires !PutOff(s, c, force, walkDelay, t) && (IsSpeed(c.key.kind) || starts) && LeftAlone(c.key, actions)
    ensures var e := Run(Apply(s, AddAction(c, force, walkDelay, t, pick, starts)), actions);
            Holds(e.conditions, c.key) <==>
              forall k :: 0 <= k < |actions| && actions[k].ExecuteAll? ==> actions[k].now <= t + c.ticks
  {
    hide Apply, Run, DistinctKeys, LeftAlone, PutOff;
    var a := AddAction(c, force, walkDelay, t, pick, starts);
    var next := Condition(c.key, c.ticks, t + c.ticks, if IsSpeed(c.key.kind) && c.speedDelta == 0 then pick else c.speedDelta);
    StartsAtTheEnd(s, c, force, walkDelay, t, pick, starts);
    ActionKeeps(s, a);
    LastsUntilItsEnd(Apply(s, a), next, actions);
  }

  // ---------------------------------------------------------------------------
  // The list and the speed in place
  // ---------------------------------------------------------------------------

  class Creature {
    const baseSpeed: nat
    var varSpeed: i32
    var conditions: seq<Condition>

    constructor (baseSpeed: nat)
      ensures View() == State([], 0) && this.baseSpeed == baseSpeed
    {
      this.baseSpeed, varSpeed, conditions := baseSpeed, 0, [];
    }

    ghost function View(): State reads this { State(conditions, varSpeed) }

    function GetSpeed(): i32 reads this { Signed(baseSpeed + varSpeed) }

    /** The speed bonus is recovered from the total speed before it is changed. */
    method ChangeSpeedBy(delta: int)
      modifies this`varSpeed
      ensures View() == ChangeSpeed(old(View()), delta)
    {
      var bonus := Signed(GetSpeed() - baseSpeed);
      WrapAdds(baseSpeed + varSpeed, 0 - (baseSpeed as int));
      assert bonus == varSpeed;
      varSpeed := Signed(bonus + delta);
    }

    method GetCondition(key: Key) returns (k: int)
      ensures k == Find(conditions, key)
    {
      k := 0;
      while k < |conditions|
        invariant 0 <= k <= |conditions|
        invariant FindFrom(conditions, key, k) == Find(conditions, key)
      {
        if conditions[k].key == key {
          return k;
        }
        k := k + 1;
      }
      k := -1;
    }

    /** `pick` is the random speed; `starts` says whether a condition of another class agrees to start. */
    method AddCondition(c: Condition, force: bool, walkDelay: int, now: int, pick: i32, starts: bool) returns (ok: bool)
      modifies this
      ensures View() == Add(old(View()), c, force, walkDelay, now, pick, starts)
      ensures ok ==> exists k :: 0 <= k < |conditions| && conditions[k].key == c.key
    {
      hide Refreshed, Started, Bonus, Signed, OnAdd, Has;
      if !force && c.key.kind == Haste {
        var paralysed := HasCondition(Paralyze, now);
        if paralysed && walkDelay > 0 {
          return false;
        }
      }
      var k := GetCondition(c.key);
      if k >= 0 {
        Refresh(k, c, now, pick);
        assert conditions[k].key == c.key;
        return true;
      }
      if !IsSpeed(c.key.kind) && !starts {
        return false;
      }
      var next := Started(c, now, pick);
      Append(next);
      OnAddStays(View(), c.key.kind, walkDelay, now, next);
      OnAddCondition(c.key.kind, walkDelay, now);
      assert next in conditions;
      ok := true;
    }

    /** A condition with a known key comes again. */
    method Refresh(k: nat, c: Condition, now: int, pick: i32)
      requires k < |conditions|
      modifies this
      ensures var s := old(View());
              var next := Refreshed(s.conditions[k], c, now, pick);
              View() == ChangeSpeed(s.(conditions := s.conditions[k := next]), Signed(Bonus(next) - Bonus(s.conditions[k])))
    {
      hide Refreshed;
      var prev := conditions[k];
      var next := Refreshed(prev, c, now, pick);
      conditions := conditions[k := next];
      var change := Signed(Bonus(next) - Bonus(prev));
      if change != 0 {
        ChangeSpeedBy(change);
      } else {
        WrapAdds(varSpeed, 0);
      }
    }

    method Append(c: Condition)
      modifies this
      ensures View() == Appended(old(View()), c)
    {
      if IsSpeed(c.key.kind) {
        ChangeSpeedBy(c.speedDelta);
      } else {
        WrapAdds(varSpeed, 0);
      }
      conditions := conditions + [c];
    }

    /** What the creature does about a condition that has been added. */
    method OnAddCondition(kind: Kind, walkDelay: int, now: int)
      modifies this
      ensures View() == OnAdd(old(View()), kind, walkDelay, now)
    {
      hide Has, Purge;
      var hasted := HasCondition(Haste, now);
      var paralysed := HasCondition(Paralyze, now);
      if kind == Paralyze && hasted {
        RemoveConditions(Haste, None, false, walkDelay);
      } else if kind == Haste && paralysed {
        RemoveConditions(Paralyze, None, false, walkDelay);
      }
    }

    method HasCondition(kind: Kind, now: int) returns (r: bool)
      ensures r == Has(conditions, kind, now) == Active(conditions, kind, now)
    {
      for k := 0 to |conditions|
        invariant forall j :: 0 <= j < k ==> !Counts(conditions[j], kind, now)
      {
        if Counts(conditions[k], kind, now) {
          return true;
        }
      }
      r := false;
    }

    method EndCondition(k: nat)
      requires k < |conditions|
      modifies this
      ensures View() == End(old(View()), k)
    {
      var c := conditions[k];
      conditions := conditions[..k] + conditions[k + 1..];
      if IsSpeed(c.key.kind) {
        ChangeSpeedBy(-(c.speedDelta as int));
      } else {
        WrapAdds(varSpeed, 0);
      }
    }

    method RemoveConditions(kind: Kind, id: Option, force: bool, walkDelay: int)
      modifies this
      ensures View() == Purge(old(View()), 0, kind, id, !force && walkDelay > 0)
    {
      var wait := !force && walkDelay > 0;
      var it := 0;
      while it < |conditions|
        invariant 0 <= it <= |conditions|
        invariant Purge(View(), it, kind, id, wait) == Purge(old(View()), 0, kind, id, wait)
        decreases |conditions| - it
      {
        if !Matches(conditions[it], kind, id) {
          it := it + 1;
        } else if wait && kind == Paralyze {
          return;
        } else {
          EndCondition(it);
        }
      }
    }

    method RemoveCondition(key: Key, force: bool, walkDelay: int)
      modifies this
      ensures View() == RemoveOne(old(View()), key, !force && walkDelay > 0)
    {
      var k := GetCondition(key);
      if k < 0 || (!force && walkDelay > 0 && key.kind == Paralyze) {
        return;
      }
      EndCondition(k);
    }

    /** Walks over a copy of the list, because conditions end while it is walked. */
    method ExecuteConditions(interval: nat, now: int)
      modifies this
      ensures View() == Execute(old(View()), old(conditions), interval, now)
      ensures old(DistinctKeys(conditions)) ==> exists at :: LeftAt(old(conditions), conditions, at, interval, now)
    {
      ghost var was := View();
      var copy := conditions;
      assert copy[0..] == copy;
      for k := 0 to |copy|
        invariant Execute(View(), copy[k..], interval, now) == Execute(old(View()), copy, interval, now)
      {
        assert copy[k..][0] == copy[k] && copy[k..][1..] == copy[k + 1..];
        var it := GetCondition(copy[k].key);
        if it >= 0 {
          if Expired(conditions[it], now) {
            EndCondition(it);
          } else {
            conditions := conditions[it := Aged(conditions[it], interval)];
          }
        }
      }
      if DistinctKeys(copy) {
        ghost var at := ExecutionLeaves(was, interval, now);
      }
    }
  }
}
