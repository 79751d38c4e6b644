/**
  Paying and giving change. A wallet is the list of coin stacks that the walk over a
  player's things finds; a stack that has been used up stays in it with count zero.
 */
module Money {
  import opened Arithmetic

  type u16 = x: int | 0 <= x < 0x1_0000
  type u32 = x: int | 0 <= x < 0x1_0000_0000
  type u64 = x: int | 0 <= x < 0x1_0000_0000_0000_0000

  const GOLD := 1
  const PLATINUM := 100
  const CRYSTAL := 10000

  datatype Stack = Stack(unit: nat, count: u16)

  predicate IsCoin(s: Stack) { s.unit == GOLD || s.unit == PLATINUM || s.unit == CRYSTAL }

  function Worth(s: Stack): nat { s.unit * s.count }

  function Total(ss: seq<Stack>): nat { if ss == [] then 0 else Total(ss[..|ss| - 1]) + Worth(ss[|ss| - 1]) }

  lemma {:induction false} TotalUpdate(ss: seq<Stack>, k: nat, s: Stack)
    requires k < |ss|
    ensures Total(ss[k := s]) == Total(ss) - Worth(ss[k]) + Worth(s)
  {
    var n := |ss| - 1;
    if k == n {
      assert ss[k := s][..n] == ss[..n];
    } else {
      TotalUpdate(ss[..n], k, s);
      assert ss[k := s][..n] == ss[..n][k := s];
    }
  }

  lemma TotalSnoc(ss: seq<Stack>, s: Stack)
    ensures Total(ss + [s]) == Total(ss) + Worth(s)
  {
    assert (ss + [s])[..|ss|] == ss;
  }

  // ---------------------------------------------------------------------------
  // The price list: coin stacks by worth
  // ---------------------------------------------------------------------------

  /** An entry of the multimap: what a stack is worth and where it is. */
  datatype Entry = Entry(worth: nat, at: nat)

  ghost predicate Ascending(es: seq<Entry>) {
    forall a, b :: 0 <= a < b < |es| ==> es[a].worth <= es[b].worth
  }

  function Sum(es: seq<Entry>): nat { if es == [] then 0 else es[0].worth + Sum(es[1..]) }

  /** The entries are coin stacks of the wallet, each at most once and at its present worth. */
  ghost predicate Lists(es: seq<Entry>, ss: seq<Stack>) {
    && (forall k :: 0 <= k < |es| ==> es[k].at < |ss| && IsCoin(ss[es[k].at]) && es[k].worth == Worth(ss[es[k].at]) > 0)
    && (forall a, b :: 0 <= a < b < |es| ==> es[a].at != es[b].at)
  }

  lemma {:induction false} SumSplit(a: seq<Entry>, b: seq<Entry>)
    ensures Sum(a + b) == Sum(a) + Sum(b)
  {
    if a == [] {
      assert a + b == b;
    } else {
      SumSplit(a[1..], b);
      assert (a + b)[1..] == a[1..] + b;
    }
  }

  lemma SumFrom(es: seq<Entry>, k: nat)
    requires k < |es|
    ensures Sum(es[k..]) == es[k].worth + Sum(es[k + 1..])
  {
    assert es[k..][1..] == es[k + 1..];
  }

  lemma SumOfNone(es: seq<Entry>)
    ensures Sum(es[|es|..]) == 0
  {
  }

  function Inserted(es: seq<Entry>, k: nat, e: Entry): seq<Entry>
    requires k <= |es|
  {
    es[..k] + [e] + es[k..]
  }

  lemma InsertedSum(es: seq<Entry>, k: nat, e: Entry)
    requires k <= |es|
    ensures Sum(Inserted(es, k, e)) == Sum(es) + e.worth
  {
    assert Sum([e]) == e.worth + Sum([]);
    hide Sum;
    SumSplit(es[..k] + [e], es[k..]);
    SumSplit(es[..k], [e]);
    SumSplit(es[..k], es[k..]);
    assert es[..k] + es[k..] == es;
  }

  lemma InsertedLists(es: seq<Entry>, k: nat, e: Entry, ss: seq<Stack>)
    requires k <= |es| && Lists(es, ss)
    requires e.at < |ss| && IsCoin(ss[e.at]) && e.worth == Worth(ss[e.at]) > 0
    requires forall j :: 0 <= j < |es| ==> es[j].at < e.at
    ensures Lists(Inserted(es, k, e), ss)
    ensures forall j :: 0 <= j <= |es| ==> Inserted(es, k, e)[j].at <= e.at
  {
  }

  /** Inserts behind all entries that are worth no more, as a multimap does. */
  method Emplace(es: seq<Entry>, e: Entry) returns (es': seq<Entry>, ghost k: nat)
    requires Ascending(es)
    ensures Ascending(es') && k <= |es| && es' == Inserted(es, k, e)
    ensures forall j :: 0 <= j < k ==> es[j].worth <= e.worth
    ensures forall j :: k <= j < |es| ==> es[j].worth > e.worth
  {
    var n := |es|;
    while n > 0 && es[n - 1].worth > e.worth
      invariant 0 <= n <= |es|
      invariant forall j :: n <= j < |es| ==> es[j].worth > e.worth
    {
      n := n - 1;
    }
    es', k := es[..n] + [e] + es[n..], n;
  }

  /** The first k stacks of the price list are empty. */
  ghost predicate UsedUp(es: seq<Entry>, ss: seq<Stack>, k: nat) {
    k <= |es| && forall j :: 0 <= j < k ==> es[j].at < |ss| && ss[es[j].at].count == 0
  }

  /** The stacks of the price list from k on are as they were. */
  ghost predicate Untouched(es: seq<Entry>, before: seq<Stack>, ss: seq<Stack>, k: nat) {
    forall j :: k <= j < |es| ==> es[j].at < |before| <= |ss| && ss[es[j].at] == before[es[j].at]
  }

  lemma NothingSpent(es: seq<Entry>, ss: seq<Stack>)
    requires Lists(es, ss)
    ensures UsedUp(es, ss, 0) && Untouched(es, ss, ss, 0)
  {
  }

  lemma CoinAt(es: seq<Entry>, before: seq<Stack>, ss: seq<Stack>, k: nat)
    requires Lists(es, before) && Untouched(es, before, ss, k) && k < |es|
    ensures es[k].at < |before| <= |ss| && IsCoin(ss[es[k].at]) && es[k].worth == Worth(ss[es[k].at]) > 0
  {
  }

  /** Taking coins off the k-th stack touches no other; with count zero it is used up. */
  lemma StackTaken(es: seq<Entry>, before: seq<Stack>, ss: seq<Stack>, k: nat, count: u16)
    requires Lists(es, before) && UsedUp(es, ss, k) && Untouched(es, before, ss, k) && k < |es| && es[k].at < |ss|
    ensures var after := ss[es[k].at := Stack(ss[es[k].at].unit, count)];
            && UsedUp(es, after, k)
            && Untouched(es, before, after, k + 1)
            && (count == 0 ==> UsedUp(es, after, k + 1))
  {
  }

  lemma StacksAdded(es: seq<Entry>, before: seq<Stack>, ss: seq<Stack>, ss': seq<Stack>, k: nat)
    requires UsedUp(es, ss, k) && Untouched(es, before, ss, k) && ss <= ss'
    ensures UsedUp(es, ss', k) && Untouched(es, before, ss', k)
  {
  }

  /** Removing `removeCount` coins of a stack pays `money` and leaves `change` to be given back. */
  method BreakStack(s: Stack, money: nat) returns (removeCount: nat, change: nat)
    requires IsCoin(s) && 0 < money < Worth(s)
    ensures 0 < removeCount <= s.count
    ensures 0 <= change < s.unit && s.unit * removeCount == money + change
  {
    var worth := Worth(s) / s.count;
    UnitWorth(s);
    removeCount := (money + worth - 1) / worth;
    RoundUp(money, worth, s.count, removeCount);
    change := (worth * removeCount) % 0x1_0000_0000 - money;
  }

  lemma UnitWorth(s: Stack)
    requires s.count > 0
    ensures Worth(s) / s.count == s.unit
  {
    ProductDivides(s.unit, s.count);
  }

  lemma RoundUp(money: nat, worth: nat, count: nat, r: nat)
    requires worth > 0 && 0 < money < worth * count && r == (money + worth - 1) / worth
    ensures 0 < r <= count && money <= worth * r < money + worth && worth * r <= worth * count
  {
    assert worth * r + (money + worth - 1) % worth == money + worth - 1;
    assert r > count ==> worth * r >= worth * (count + 1);
    assert r == 0 ==> worth * r == 0;
    assert r <= count ==> worth * r <= worth * count;
  }

  // ---------------------------------------------------------------------------
  // What adding money adds
  // ---------------------------------------------------------------------------

  function CrystalCoins(money: u64): u32 { money / 10000 % 0x1_0000_0000 }

  /** What is left for platinum and gold; the product is computed in 32 bits. */
  function AfterCrystal(money: u64): u64 {
    var paid := CrystalCoins(money) * 10000 % 0x1_0000_0000;
    assert paid <= money;
    money - paid
  }

  function PlatinumCoins(rest: u64): u16 { rest / 100 % 0x1_0000 }

  /** A stackable item is never created with count zero. */
  function CreatedCount(count: nat): u16 {
    var c := count % 0x1_0000;
    if c == 0 then 1 else c
  }

  function GoldCoins(rest: u64): u16 {
    var left := rest - PlatinumCoins(rest) * 100;
    if left == 0 then 0 else CreatedCount(left)
  }

  /** The worth of all the coins that adding `money` creates. */
  function Added(money: u64): nat {
    var rest := AfterCrystal(money);
    CrystalCoins(money) * 10000 + PlatinumCoins(rest) * 100 + GoldCoins(rest)
  }

  /** No truncation happens, or what is truncated happens not to matter. */
  predicate Exact(money: u64) {
    var c := money / 10000;
    || c * 10000 < 0x1_0000_0000
    || (c < 0x1_0000_0000 && PlatinumCoins(AfterCrystal(money)) * 100 < money % 10000)
  }

  lemma AddedWithoutWrap(money: u64)
    requires money / 10000 * 10000 < 0x1_0000_0000
    ensures Added(money) == money
  {
    assert CrystalCoins(money) == money / 10000;
    var rest := AfterCrystal(money);
    assert rest == money % 10000;
    assert PlatinumCoins(rest) == rest / 100;
    assert GoldCoins(rest) == rest % 100;
  }

  lemma AddedAfterWrap(money: u64)
    requires money / 10000 < 0x1_0000_0000 <= money / 10000 * 10000
    ensures Added(money) == money <==> PlatinumCoins(AfterCrystal(money)) * 100 < money % 10000
  {
    var c := money / 10000;
    var r := money % 10000;
    var k := c * 10000 / 0x1_0000_0000;
    var rest := AfterCrystal(money);
    assert rest == r + k * 0x1_0000_0000 && k >= 1;
    var p: int := PlatinumCoins(rest);
    var left: int := rest - p * 100;
    assert left >= 0;
    LowBits(r, k, p, left);
  }

  /** The low 16 bits of what is left for gold depend only on the remainder. */
  lemma LowBits(r: nat, k: nat, p: nat, left: nat)
    requires r < 10000 && p < 0x1_0000 && k >= 1 && left == r + k * 0x1_0000_0000 - p * 100
    ensures p * 100 < r ==> left > 0 && CreatedCount(left) == r - p * 100
    ensures p * 100 >= r ==> left > 0 && p * 100 + CreatedCount(left) != r
  {
    var m := k * 0x1_0000;
    assert left == (r - p * 100) + m * 0x1_0000;
    if p * 100 < r {
      Modulo(r - p * 100, m);
    }
  }

  lemma Modulo(a: int, m: int)
    requires 0 <= a < 0x1_0000
    ensures (a + m * 0x1_0000) % 0x1_0000 == a
  {
  }

  lemma AddedWayTooMuch(money: u64)
    requires money / 10000 >= 0x1_0000_0000
    ensures Added(money) < money
  {
    var c := money / 10000;
    assert c - CrystalCoins(money) >= 0x1_0000_0000;
  }

  /** Adding money adds exactly the amount if and only if no truncation matters. */
  lemma AddedIsExactIff(money: u64)
    ensures Added(money) == money <==> Exact(money)
  {
    if money / 10000 * 10000 < 0x1_0000_0000 {
      AddedWithoutWrap(money);
    } else if money / 10000 < 0x1_0000_0000 {
      AddedAfterWrap(money);
    } else {
      AddedWayTooMuch(money);
    }
  }

  /** So every amount of 32 bits is added exactly; five thousand million is not. */
  lemma AddedIsExactBelow32Bits(money: u64)
    ensures money < 0x1_0000_0000 ==> Added(money) == money
    ensures Added(5_000_000_000) != 5_000_000_000
  {
    AddedIsExactIff(money);
    AddedIsExactIff(5_000_000_000);
  }

  /** How many coins of a unit there are. */
  function Coins(ss: seq<Stack>, unit: nat): nat {
    if ss == [] then 0 else Coins(ss[..|ss| - 1], unit) + if ss[|ss| - 1].unit == unit then ss[|ss| - 1].count else 0
  }

  lemma CoinsSnoc(ss: seq<Stack>, s: Stack)
    ensures forall unit {:trigger Coins(ss + [s], unit)} :: Coins(ss + [s], unit) == Coins(ss, unit) + if s.unit == unit then s.count else 0
  {
    assert (ss + [s])[..|ss|] == ss;
  }

  /**
    The coins that adding `money` creates. Up to 32 bits they are the decimal ones: ten thousands in crystals, hundreds of what
    is left in platinum, and the last two digits in gold. Beyond, the counts and the product are cut to their widths.
   */
  ghost predicate CoinsAdded(before: seq<Stack>, after: seq<Stack>, money: u64) {
    var c := money / 10000 % 0x1_0000_0000;
    var rest := money - c * 10000 % 0x1_0000_0000;
    var p := rest / 100 % 0x1_0000;
    var g := rest - p * 100;
    && Coins(after, 10000) == Coins(before, 10000) + c
    && Coins(after, 100) == Coins(before, 100) + p
    && Coins(after, 1) == Coins(before, 1) + (if g == 0 then 0 else if g % 0x1_0000 == 0 then 1 else g % 0x1_0000)
  }

  lemma DecimalCoins(before: seq<Stack>, after: seq<Stack>, money: u64)
    requires CoinsAdded(before, after, money) && money / 10000 * 10000 < 0x1_0000_0000
    ensures Coins(after, 10000) == Coins(before, 10000) + money / 10000
    ensures Coins(after, 100) == Coins(before, 100) + money % 10000 / 100
    ensures Coins(after, 1) == Coins(before, 1) + money % 100
  {
    hide Coins;
    var c := money / 10000;
    NoWrap(c, 0x1_0000_0000);
    NoWrap(c * 10000, 0x1_0000_0000);
    var rest := money - c * 10000;
    NoWrap(rest / 100, 0x1_0000);
    LastDigits(money);
    NoWrap(rest - rest / 100 * 100, 0x1_0000);
  }

  lemma NoWrap(a: nat, width: nat)
    requires a < width
    ensures a % width == a
  {
  }

  lemma LastDigits(money: nat)
    ensures var rest := money - money / 10000 * 10000; rest == money % 10000 && rest - rest / 100 * 100 == money % 100
  {
    var q, rest := money / 10000, money % 10000;
    QuotientIsUnique(money, 100, 100 * q + rest / 100, rest % 100);
  }

  lemma CoinsOfMoney(before: seq<Stack>, after: seq<Stack>, money: u64)
    requires var rest := AfterCrystal(money);
             && Coins(after, 10000) == Coins(before, 10000) + CrystalCoins(money)
             && Coins(after, 100) == Coins(before, 100) + PlatinumCoins(rest)
             && Coins(after, 1) == Coins(before, 1) + GoldCoins(rest)
    ensures CoinsAdded(before, after, money)
  {
    hide Coins, AfterCrystal, PlatinumCoins, GoldCoins, CrystalCoins, CreatedCount;
    RestIs(money);
    SmallCoinsAre(AfterCrystal(money));
  }

  lemma RestIs(money: u64)
    ensures CrystalCoins(money) == money / 10000 % 0x1_0000_0000
    ensures AfterCrystal(money) == money - money / 10000 % 0x1_0000_0000 * 10000 % 0x1_0000_0000
  {
  }

  lemma SmallCoinsAre(rest: u64)
    ensures PlatinumCoins(rest) == rest / 100 % 0x1_0000
    ensures var g := rest - rest / 100 % 0x1_0000 * 100;
            GoldCoins(rest) == if g == 0 then 0 else if g % 0x1_0000 == 0 then 1 else g % 0x1_0000
  {
  }

  lemma NoMoneyNoCoins()
    ensures CrystalCoins(0) == 0 && AfterCrystal(0) == 0 && PlatinumCoins(0) == 0 && GoldCoins(0) == 0
  {
  }

  /** Everything that `after` adds to `before` satisfies what a created stack does. */
  predicate Extends(before: seq<Stack>, after: seq<Stack>) {
    && before <= after
    && forall k :: |before| <= k < |after| ==> CanBeCreated(after[k])
  }

  /** Created stacks are not empty, and crystal coins come in stacks of at most a hundred. */
  predicate CanBeCreated(s: Stack) {
    && IsCoin(s)
    && 0 < s.count
    && (s.unit == CRYSTAL ==> s.count <= 100)
  }

  class Wallet {
    var stacks: seq<Stack>

    /** Coins that are created end up in the wallet. */
    method AddCoins(unit: nat, count: u16)
      modifies this
      ensures stacks == old(stacks) + [Stack(unit, count)]
      ensures Total(stacks) == Total(old(stacks)) + unit * count
      ensures forall u :: Coins(stacks, u) == Coins(old(stacks), u) + if u == unit then count else 0
    {
      CoinsSnoc(stacks, Stack(unit, count));
      stacks := stacks + [Stack(unit, count)];
      TotalSnoc(old(stacks), Stack(unit, count));
    }

    method AddCrystals(coins: u32)
      modifies this
      ensures Total(stacks) == Total(old(stacks)) + coins * 10000
      ensures forall u :: Coins(stacks, u) == Coins(old(stacks), u) + if u == 10000 then coins else 0
      ensures Extends(old(stacks), stacks)
    {
      var crystalCoins: int := coins;
      while crystalCoins > 0
        invariant 0 <= crystalCoins <= coins
        invariant Total(stacks) == Total(old(stacks)) + (coins - crystalCoins) * 10000
        invariant forall u :: Coins(stacks, u) == Coins(old(stacks), u) + if u == 10000 then coins - crystalCoins else 0
        invariant Extends(old(stacks), stacks)
      {
        var count := if crystalCoins < 100 then crystalCoins else 100;
        AddCoins(CRYSTAL, count);
        crystalCoins := crystalCoins - count;
      }
    }

    method AddMoney(money: u64)
      modifies this
      ensures Total(stacks) == Total(old(stacks)) + Added(money)
      ensures CoinsAdded(old(stacks), stacks, money)
      ensures Extends(old(stacks), stacks)
    {
      hide CrystalCoins, AfterCrystal, PlatinumCoins, GoldCoins, Total, CoinsAdded, Coins;
      if money == 0 {
        NoMoneyNoCoins();
        CoinsOfMoney(stacks, stacks, money);
        AddedIsExactIff(0);
        return;
      }
      AddCrystals(CrystalCoins(money));
      var left := AfterCrystal(money);
      var platinumCoins := PlatinumCoins(left);
      if platinumCoins != 0 {
        AddCoins(PLATINUM, platinumCoins);
      }
      var gold := GoldCoins(left);
      if gold != 0 {
        AddCoins(GOLD, gold);
      }
      CoinsOfMoney(old(stacks), stacks, money);
    }

    method RemoveCoins(at: nat, count: nat)
      requires at < |stacks| && count <= stacks[at].count
      modifies this
      ensures stacks == old(stacks)[at := Stack(old(stacks)[at].unit, old(stacks)[at].count - count)]
      ensures Total(stacks) == Total(old(stacks)) - old(stacks)[at].unit * count
    {
      var s := stacks[at];
      stacks := stacks[at := Stack(s.unit, s.count - count)];
      TotalUpdate(old(stacks), at, Stack(s.unit, s.count - count));
      assert s.unit * s.count - s.unit * (s.count - count) == s.unit * count;
    }

    /** All coin stacks, cheapest first. */
    method PriceList() returns (es: seq<Entry>, moneyCount: nat)
      requires forall s :: s in stacks ==> Worth(s) > 0 ==> IsCoin(s)
      ensures Ascending(es) && Lists(es, stacks) && moneyCount == Sum(es) == Total(stacks)
    {
      es, moneyCount := [], 0;
      for k := 0 to |stacks|
        invariant Ascending(es) && Lists(es, stacks) && moneyCount == Sum(es) == Total(stacks[..k])
        invariant forall j :: 0 <= j < |es| ==> es[j].at < k
      {
        var worth := Worth(stacks[k]);
        assert stacks[..k + 1][..k] == stacks[..k];
        assert stacks[k] in stacks;
        if worth != 0 {
          moneyCount := moneyCount + worth;
          ghost var at;
          ghost var before := es;
          es, at := Emplace(es, Entry(worth, k));
          InsertedSum(before, at, Entry(worth, k));
          InsertedLists(before, at, Entry(worth, k), stacks);
        }
      }
      assert stacks[..|stacks|] == stacks;
    }

    /**
      Pays exactly `money` if there is enough, and otherwise changes nothing. Of the price
      list `es`, cheapest first, the stacks before `spent` are used up and those behind it
      are untouched; the stack at `spent` may be broken, and change comes back for it.
     */
    method RemoveMoney(money: u64) returns (ok: bool, ghost es: seq<Entry>, ghost spent: nat)
      requires forall s :: s in stacks ==> Worth(s) > 0 ==> IsCoin(s)
      modifies this
      ensures ok <==> money <= Total(old(stacks))
      ensures ok ==> Total(stacks) == Total(old(stacks)) - money
      ensures !ok || money == 0 ==> stacks == old(stacks)
      ensures ok && money > 0 ==> Ascending(es) && Lists(es, old(stacks)) && spent < |es|
      ensures ok && money > 0 ==> UsedUp(es, stacks, spent) && Untouched(es, old(stacks), stacks, spent + 1)
    {
      hide Sum, Total, Added, Exact, Ascending, Lists, UsedUp, Untouched, CanBeCreated;
      es, spent := [], 0;
      if money == 0 {
        return true, es, spent;
      }
      var moneyMap, moneyCount := PriceList();
      es := moneyMap;
      if moneyCount < money {
        return false, es, spent;
      }
      var left: nat := money;
      var k := 0;
      assert moneyMap[0..] == moneyMap;
      SumOfNone(moneyMap);
      NothingSpent(moneyMap, stacks);
      while k < |moneyMap|
        invariant 0 <= k <= |moneyMap|
        invariant 0 < left <= Sum(moneyMap[k..])
        invariant Total(stacks) == Total(old(stacks)) - money + left
        invariant UsedUp(es, stacks, k) && Untouched(es, old(stacks), stacks, k)
      {
        var e := moneyMap[k];
        SumFrom(moneyMap, k);
        CoinAt(moneyMap, old(stacks), stacks, k);
        var s := stacks[e.at];
        spent := k;
        if e.worth < left {
          StackTaken(moneyMap, old(stacks), stacks, k, 0);
          RemoveCoins(e.at, s.count);
          left := left - e.worth;
        } else if e.worth > left {
          var removeCount, change := BreakStack(s, left);
          AddedIsExactBelow32Bits(change);
          ghost var broken := stacks;
          AddMoney(change);
          StacksAdded(moneyMap, old(stacks), broken, stacks, k);
          StackTaken(moneyMap, old(stacks), stacks, k, s.count - removeCount);
          RemoveCoins(e.at, removeCount);
          break;
        } else {
          StackTaken(moneyMap, old(stacks), stacks, k, 0);
          RemoveCoins(e.at, s.count);
          break;
        }
        k := k + 1;
      }
      ok := true;
    }
  }
}
