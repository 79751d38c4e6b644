/** Splitting an amount of damage into a falling series of hits, in exact arithmetic. */
module DamageList {
  import opened Arithmetic

  function Abs(a: int): nat { if a < 0 then -a else a }

  function AbsReal(x: real): real { if x < 0.0 then -x else x }

  function Sum(list: seq<int>): int { if list == [] then 0 else Sum(list[..|list| - 1]) + list[|list| - 1] }

  lemma {:induction false} SumSplit(a: seq<int>, b: seq<int>)
    ensures Sum(a + b) == Sum(a) + Sum(b)
  {
    if b == [] {
      assert a + b == a;
    } else {
      SumSplit(a, b[..|b| - 1]);
      assert (a + b)[..|a + b| - 1] == a + b[..|b| - 1];
    }
  }

  lemma SumOfOne(i: nat)
    ensures Sum([i]) == i
  {
    assert [i][..0] == [];
  }

  /** The running total aimed at after the hits of size `i`. */
  function Target(amount: nat, start: nat, i: nat): nat
    requires 0 < start && i <= start + 1
  {
    Product(start + 1 - i, amount) / start
  }

  function Product(a: nat, b: nat): nat { a * b }

  /** Whether one more hit of size `i` brings the total nearer to the target, as a ratio. */
  predicate Nearer(sum: int, i: nat, med: nat) {
    med != 0 &&
    AbsReal(1.0 - (sum + i) as real / med as real) < AbsReal(1.0 - sum as real / med as real)
  }

  lemma NearerIsClose(sum: nat, i: nat, med: nat)
    requires i > 0
    ensures Nearer(sum, i, med) <==> med != 0 && 2 * (med - sum) > i
  {
    if med != 0 {
      var m, s, t := med as real, sum as real, (sum + i) as real;
      RatiosCompare(s, t, m);
      DistancesCompare(s, i as real, m);
      assert t == s + i as real;
    }
  }

  lemma RatiosCompare(s: real, t: real, m: real)
    requires m > 0.0
    ensures AbsReal(1.0 - t / m) < AbsReal(1.0 - s / m) <==> AbsReal(m - t) < AbsReal(m - s)
  {
    var x, y := AbsReal(1.0 - t / m), AbsReal(1.0 - s / m);
    Scale(s, m);
    Scale(t, m);
    Order(x, y, m, AbsReal(m - t), AbsReal(m - s));
  }

  lemma DistancesCompare(s: real, i: real, m: real)
    requires i > 0.0
    ensures AbsReal(m - (s + i)) < AbsReal(m - s) <==> 2.0 * (m - s) > i
  {
  }

  lemma Scale(s: real, m: real)
    requires m > 0.0
    ensures AbsReal(1.0 - s / m) * m == AbsReal(m - s)
  {
    var q := s / m;
    assert q * m == s;
    assert (1.0 - q) * m == m - s;
    assert 1.0 - q < 0.0 <==> (1.0 - q) * m < 0.0;
    assert (-(1.0 - q)) * m == -((1.0 - q) * m);
  }

  lemma Order(x: real, y: real, m: real, a: real, b: real)
    requires m > 0.0 && x * m == a && y * m == b
    ensures x < y <==> a < b
  {
    var d := y - x;
    assert d * m == b - a;
    assert d > 0.0 ==> d * m > 0.0;
    assert d <= 0.0 ==> d * m <= 0.0;
  }

  /** The hits of size `i`: at least one, and more as long as each brings the total nearer. */
  function Stage(sum: nat, i: nat, med: nat): (hits: seq<int>)
    requires i > 0
    ensures |hits| >= 1 && forall k :: 0 <= k < |hits| ==> hits[k] == i
    decreases if med > sum then med - sum else 0
  {
    if med != 0 && 2 * (med - (sum + i)) > i then [i] + Stage(sum + i, i, med) else [i]
  }

  /** The hits of size `i` and below, once hits of total `sum` have been listed. */
  function Falling(amount: nat, start: nat, i: nat, sum: nat): seq<int>
    requires 0 < start && i <= start
  {
    if i == 0 then []
    else
      var hits := Stage(sum, i, Target(amount, start, i));
      StageSum(sum, i, Target(amount, start, i));
      hits + Falling(amount, start, i - 1, sum + Sum(hits))
  }

  function Damages(amount: nat, start: nat): seq<int>
    requires 0 < start
  {
    Falling(amount, start, start, 0)
  }

  /**
    A stage adds at least one hit and brings the total to within half a hit below its target;
    every further hit stays within half a hit above it.
   */
  lemma {:induction false} StageSum(sum: nat, i: nat, med: nat)
    requires i > 0
    ensures var after := sum + Sum(Stage(sum, i, med));
            && after >= sum + i
            && 2 * (med - after) <= i
            && (after == sum + i || 2 * after < 2 * med + i)
    decreases if med > sum then med - sum else 0
  {
    var rest := if med != 0 && 2 * (med - (sum + i)) > i then Stage(sum + i, i, med) else [];
    SumSplit([i], rest);
    SumOfOne(i);
    if rest != [] {
      StageSum(sum + i, i, med);
    }
  }

  ghost predicate NonIncreasing(list: seq<int>) {
    forall a, b :: 0 <= a < b < |list| ==> list[a] >= list[b]
  }

  /** Hits fall from `i` to 1 and none is left out. */
  lemma {:induction false} FallingShape(amount: nat, start: nat, i: nat, sum: nat)
    requires 0 < start && i <= start
    ensures var list := Falling(amount, start, i, sum);
            && NonIncreasing(list)
            && (forall k :: 0 <= k < |list| ==> 1 <= list[k] <= i)
            && (forall v :: 1 <= v <= i ==> v in list)
  {
    if i > 0 {
      var hits := Stage(sum, i, Target(amount, start, i));
      StageSum(sum, i, Target(amount, start, i));
      FallingShape(amount, start, i - 1, sum + Sum(hits));
      var rest := Falling(amount, start, i - 1, sum + Sum(hits));
      forall v | 1 <= v <= i
        ensures v in hits + rest
      {
        assert hits[0] == i;
      }
    }
  }

  lemma LastTarget(amount: nat, start: nat)
    requires 0 < start
    ensures Target(amount, start, 1) == amount
  {
    assert Product(start, amount) == amount * start;
    ProductDivides(amount, start);
  }

  /** One hit of every size up to `i`. */
  function OfEverySize(i: nat): nat { if i == 0 then 0 else i + OfEverySize(i - 1) }

  lemma {:induction false} OfEverySizeIs(i: nat)
    ensures 2 * OfEverySize(i) == i * (i + 1)
  {
    if i > 0 {
      OfEverySizeIs(i - 1);
      assert i * (i + 1) == (i - 1) * i + 2 * i;
    }
  }

  /** The hits reach the amount, and those of size `i` and below are at least one of every size. */
  lemma {:induction false} FallingReaches(amount: nat, start: nat, i: nat, sum: nat)
    requires 0 < start && 1 <= i <= start
    ensures sum + Sum(Falling(amount, start, i, sum)) >= amount
    ensures Sum(Falling(amount, start, i, sum)) >= OfEverySize(i)
  {
    hide Target, Stage;
    var med := Target(amount, start, i);
    var hits := Stage(sum, i, med);
    StageSum(sum, i, med);
    var after := sum + Sum(hits);
    SumSplit(hits, Falling(amount, start, i - 1, after));
    if i == 1 {
      LastTarget(amount, start);
      assert Falling(amount, start, 0, after) == [];
    } else {
      FallingReaches(amount, start, i - 1, after);
    }
  }

  /** A target leaves room for all the smaller hits when the whole amount does. */
  lemma TargetLeavesRoom(amount: nat, start: nat, i: nat)
    requires 1 <= i <= start && start * (start + 1) <= 2 * amount
    ensures 2 * Target(amount, start, i) + (i - 1) * (start + 1) <= 2 * amount
  {
    var a := (start + 1 - i) * amount;
    assert Target(amount, start, i) == a / start;
    FloorAtMost(a, start);
    LeavesRoom(Target(amount, start, i), i - 1, start, amount);
  }

  lemma FloorAtMost(a: nat, b: nat)
    requires b > 0
    ensures a / b * b <= a
  {
  }

  lemma LeavesRoom(med: nat, p: nat, start: nat, amount: nat)
    requires 0 < start && p <= start
    requires med * start <= (start - p) * amount && start * (start + 1) <= 2 * amount
    ensures 2 * med + p * (start + 1) <= 2 * amount
  {
    var spare := 2 * amount - start * (start + 1);
    var room := 2 * amount - 2 * med - p * (start + 1);
    RoomExpands(amount, med, p, start);
    SpareExpands(amount, p, start);
    ProductSigns(p, spare);
    ProductSigns(start, room);
  }

  lemma ProductSigns(a: int, b: int)
    requires a >= 0
    ensures b >= 0 ==> a * b >= 0
    ensures a > 0 && b < 0 ==> b * a < 0
  {
  }

  lemma RoomExpands(amount: int, med: int, p: int, s: int)
    ensures (2 * amount - 2 * med - p * (s + 1)) * s == 2 * (amount * s) - 2 * (med * s) - p * (s * (s + 1))
  {
    assert p * (s + 1) * s == p * (s * (s + 1));
  }

  lemma SpareExpands(amount: int, p: int, s: int)
    ensures p * (2 * amount - s * (s + 1)) == 2 * (p * amount) - p * (s * (s + 1))
    ensures (s - p) * amount == amount * s - p * amount
  {
  }

  lemma SmallerHitsFit(amount: nat, start: nat, i: nat)
    requires 1 <= i <= start && OfEverySize(start) <= amount
    ensures 2 * Target(amount, start, i) + i - 1 + 2 * OfEverySize(i - 1) <= 2 * amount
  {
    hide *;
    OfEverySizeIs(start);
    OfEverySizeIs(i - 1);
    TargetLeavesRoom(amount, start, i);
    assert (i - 1) * (start + 1) >= (i - 1) * (i + 1);
    assert (i - 1) * (i + 1) == (i - 1) * i + (i - 1);
  }

  /** After hits of size `i` there is still room for one hit of every smaller size. */
  lemma RoomLeft(amount: nat, start: nat, i: nat, sum: nat)
    requires 1 <= i <= start && OfEverySize(start) <= amount && sum + OfEverySize(i) <= amount
    ensures sum + Sum(Stage(sum, i, Target(amount, start, i))) + OfEverySize(i - 1) <= amount
  {
    hide Target, Stage, Sum;
    StageSum(sum, i, Target(amount, start, i));
    SmallerHitsFit(amount, start, i);
  }

  lemma {:induction false} FallingStaysBelow(amount: nat, start: nat, i: nat, sum: nat)
    requires 0 < start && i <= start && OfEverySize(start) <= amount
    requires sum + OfEverySize(i) <= amount
    ensures sum + Sum(Falling(amount, start, i, sum)) <= amount
  {
    hide Target, Stage;
    if i > 0 {
      var hits := Stage(sum, i, Target(amount, start, i));
      StageSum(sum, i, Target(amount, start, i));
      var after := sum + Sum(hits);
      RoomLeft(amount, start, i, sum);
      SumSplit(hits, Falling(amount, start, i - 1, after));
      FallingStaysBelow(amount, start, i - 1, after);
    }
  }

  /** The hits never grow, use every size from `start` down to 1, and add up to at least the amount. */
  lemma DamagesAreFair(amount: nat, start: nat)
    requires 0 < start
    ensures var list := Damages(amount, start);
            && NonIncreasing(list)
            && (forall k :: 0 <= k < |list| ==> 1 <= list[k] <= start)
            && (forall v :: 1 <= v <= start ==> v in list)
            && Sum(list) >= amount
  {
    FallingShape(amount, start, start, 0);
    FallingReaches(amount, start, start, 0);
  }

  /** The hits add up to exactly the amount if and only if it covers one hit of every size. */
  lemma DamagesAreExactIff(amount: nat, start: nat)
    requires 0 < start
    ensures Sum(Damages(amount, start)) == amount <==> 2 * amount >= start * (start + 1)
  {
    hide Falling, Sum, OfEverySize;
    OfEverySizeIs(start);
    FallingReaches(amount, start, start, 0);
    if OfEverySize(start) <= amount {
      FallingStaysBelow(amount, start, start, 0);
    }
  }

  /** A smaller amount is exceeded: every size is used at least once. */
  lemma SmallAmountsAreExceeded(amount: nat, start: nat)
    requires 0 < start && 2 * amount < start * (start + 1)
    ensures 2 * Sum(Damages(amount, start)) >= start * (start + 1)
  {
    hide Falling, Sum, OfEverySize;
    OfEverySizeIs(start);
    FallingReaches(amount, start, start, 0);
  }

  // ---------------------------------------------------------------------------
  // How many hits of every size
  // ---------------------------------------------------------------------------

  /** The sum of the hits of size `v` and more. */
  function SumFrom(list: seq<int>, v: int): int {
    if list == [] then 0 else SumFrom(list[..|list| - 1], v) + if list[|list| - 1] >= v then list[|list| - 1] else 0
  }

  /** How many hits have size `v`. */
  function HitsOf(list: seq<int>, v: int): nat { multiset(list)[v] }

  lemma {:induction false} SumFromSplit(a: seq<int>, b: seq<int>, v: int)
    ensures SumFrom(a + b, v) == SumFrom(a, v) + SumFrom(b, v)
    ensures HitsOf(a + b, v) == HitsOf(a, v) + HitsOf(b, v)
  {
    if b == [] {
      assert a + b == a;
    } else {
      SumFromSplit(a, b[..|b| - 1], v);
      assert (a + b)[..|a + b| - 1] == a + b[..|b| - 1];
    }
  }

  lemma {:induction false} AllSmaller(list: seq<int>, v: int)
    requires forall k :: 0 <= k < |list| ==> list[k] < v
    ensures SumFrom(list, v) == 0 && HitsOf(list, v) == 0
  {
    if list != [] {
      AllSmaller(list[..|list| - 1], v);
      assert list == list[..|list| - 1] + [list[|list| - 1]];
    }
  }

  lemma {:induction false} AllThisSize(list: seq<int>, i: int, v: int)
    requires forall k :: 0 <= k < |list| ==> list[k] == i
    ensures SumFrom(list, v) == (if v <= i then Sum(list) else 0) && HitsOf(list, v) == if v == i then |list| else 0
  {
    if list != [] {
      var n := |list| - 1;
      AllThisSize(list[..n], i, v);
      assert list == list[..n] + [i];
    }
  }

  /** A stage of one hit, or one that has come to within half a hit above its target. */
  lemma {:induction false} StageEnds(sum: nat, i: nat, med: nat)
    requires i > 0
    ensures var hits := Stage(sum, i, med); |hits| == 1 || 2 * (sum + Sum(hits)) < 2 * med + i
  {
    StageSum(sum, i, med);
    if |Stage(sum, i, med)| > 1 {
      var rest := Stage(sum + i, i, med);
      StageSum(sum + i, i, med);
      SumSplit([i], rest);
      SumOfOne(i);
    }
  }

  /** The hits of size `v` and more end half a hit around their share of the amount, unless a single one goes beyond it. */
  predicate SharedOut(total: int, hits: nat, v: int, share: int) {
    && 2 * total >= 2 * share - v
    && (hits == 1 || 2 * total < 2 * share + v)
  }

  lemma {:induction false} FallingSharesOut(amount: nat, start: nat, i: nat, sum: nat, v: nat)
    requires 0 < start && 1 <= v <= i <= start
    ensures var list := Falling(amount, start, i, sum);
            SharedOut(sum + SumFrom(list, v), HitsOf(list, v), v, Target(amount, start, v))
  {
    hide Stage, HitsOf, Target;
    var med := Target(amount, start, i);
    var hits := Stage(sum, i, med);
    StageSum(sum, i, med);
    StageEnds(sum, i, med);
    var rest := Falling(amount, start, i - 1, sum + Sum(hits));
    SumFromSplit(hits, rest, v);
    AllThisSize(hits, i, v);
    if v == i {
      FallingShape(amount, start, i - 1, sum + Sum(hits));
      AllSmaller(rest, v);
    } else {
      FallingSharesOut(amount, start, i - 1, sum + Sum(hits), v);
    }
  }

  lemma TargetIs(amount: nat, start: nat, v: nat)
    requires 1 <= v <= start
    ensures Target(amount, start, v) == (start + 1 - v) * amount / start
  {
  }

  /**
    Every size gets its share: with share (start + 1 - v) * amount / start for the sizes from v on, their hits add up to no
    less than half a hit below it, and to less than half a hit above it if there is more than one of size v.
   */
  lemma DamagesShareOut(amount: nat, start: nat, v: nat)
    requires 1 <= v <= start
    ensures var list := Damages(amount, start);
            var total, share := SumFrom(list, v), (start + 1 - v) * amount / start;
            && HitsOf(list, v) >= 1 && 2 * total >= 2 * share - v
            && (HitsOf(list, v) > 1 ==> 2 * total < 2 * share + v)
  {
    hide Target, Falling, SumFrom;
    TargetIs(amount, start, v);
    FallingSharesOut(amount, start, start, 0, v);
    FallingShape(amount, start, start, 0);
    assert v in Damages(amount, start);
  }

  /** The inner loop: hits of size `i` until one more would not bring the total nearer. */
  method AddStage(list: seq<int>, sum: nat, i: nat, med: nat) returns (list': seq<int>, sum': nat)
    requires i > 0
    ensures list' == list + Stage(sum, i, med) && sum' == sum + Sum(Stage(sum, i, med))
  {
    hide Stage, Nearer, Sum;
    ghost var hits := Stage(sum, i, med);
    sum' := sum + i;
    list' := list + [i];
    ghost var done := [i];
    SumOfOne(i);
    NearerIsClose(sum', i, med);
    StageUnfold(sum, i, med);
    while Nearer(sum', i, med)
      invariant sum <= sum' && list' == list + done && sum' == sum + Sum(done)
      invariant Nearer(sum', i, med) <==> med != 0 && 2 * (med - sum') > i
      invariant hits == done + More(sum', i, med)
      decreases med - sum'
    {
      SumSplit(done, [i]);
      StageUnfold(sum', i, med);
      sum' := sum' + i;
      list' := list' + [i];
      NearerIsClose(sum', i, med);
      Regroup(done, [i], More(sum', i, med));
      Regroup(list, done, [i]);
      done := done + [i];
    }
    assert done + [] == done;
  }

  /** What a stage still adds when its last hit has brought the total to `sum`. */
  function More(sum: nat, i: nat, med: nat): seq<int>
    requires i > 0
  {
    if med != 0 && 2 * (med - sum) > i then Stage(sum, i, med) else []
  }

  lemma StageUnfold(sum: nat, i: nat, med: nat)
    requires i > 0
    ensures Stage(sum, i, med) == [i] + More(sum + i, i, med)
    ensures Sum([i]) == i
  {
    assert [i][..0] == [];
    assert [i] + [] == [i];
  }

  lemma Regroup(a: seq<int>, b: seq<int>, c: seq<int>)
    ensures a + (b + c) == (a + b) + c
  {
  }

  /** The loops as they run; the amount's sign is dropped. */
  method GenerateDamageList(amount: int, start: int) returns (list: seq<int>)
    ensures start <= 0 ==> list == []
    ensures start > 0 ==> list == Damages(Abs(amount), start)
    ensures start > 0 ==> (Sum(list) == Abs(amount) <==> 2 * Abs(amount) >= start * (start + 1))
  {
    list := [];
    var total := Abs(amount);
    var sum := 0;
    var i := start;
    while i > 0
      invariant i <= start && 0 <= sum && (start > 0 ==> 0 <= i)
      invariant start > 0 ==> list + Falling(total, start, i, sum) == Damages(total, start)
      invariant start <= 0 ==> list == []
    {
      var n := start + 1 - i;
      var med := Product(n, total) / start;
      ghost var before := list;
      ghost var rest := Falling(total, start, i, sum);
      ghost var hits := Stage(sum, i, med);
      list, sum := AddStage(list, sum, i, med);
      assert rest == hits + Falling(total, start, i - 1, sum);
      assert before + (hits + Falling(total, start, i - 1, sum)) == list + Falling(total, start, i - 1, sum);
      i := i - 1;
    }
    if start > 0 {
      DamagesAreExactIff(total, start);
    }
  }
}
