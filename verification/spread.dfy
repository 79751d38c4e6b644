/** The area of a spell that fans out in front of its caster. */
module Spreads {
  import opened Areas
  import opened Arithmetic

  /** How many columns the fan has; division of signed numbers truncates towards zero. */
  function Columns(length: nat, spread: int): int {
    if spread == 0 then 1
    else if spread > 0 then length / spread * 2 + 1
    else 1 - length / -spread * 2
  }

  /** The columns that are filled: a negative number of columns is none. */
  function Width(length: nat, spread: int): nat { if Columns(length, spread) < 0 then 0 else Columns(length, spread) }

  /** By how many columns on either side row y, counted from the far end, is narrower. */
  function Narrowing(spread: int, y: nat): nat { if spread <= 0 then 0 else y / spread }

  /** The value that row y and column x get: the caster's tile, the fan, or nothing. */
  function FanValue(length: nat, spread: int, y: nat, x: nat): u32 {
    var cols := Width(length, spread);
    if y + 1 == length && x == cols / 2 then 3
    else if Narrowing(spread, y) <= x < cols - Narrowing(spread, y) then 1
    else 0
  }

  /** The list holds the fan's values row by row, up to row y and column x. */
  ghost predicate Listed(list: seq<u32>, length: nat, spread: int, y: nat, x: nat) {
    var cols := Width(length, spread);
    && |list| == y * cols + x
    && forall r: nat, c: nat :: c < cols && (r < y || (r == y && c < x)) ==> Value(list, Place(r, c, cols)) == FanValue(length, spread, r, c)
  }

  function Place(y: nat, x: nat, cols: nat): nat { y * cols + x }

  lemma PlacesApart(r: nat, c: nat, y: nat, x: nat, cols: nat)
    requires c < cols && x <= cols && (r < y || (r == y && c < x))
    ensures Place(r, c, cols) < y * cols + x
  {
    if r < y {
      assert (r + 1) * cols <= y * cols;
      assert (r + 1) * cols == r * cols + cols;
    }
  }

  lemma ListedMore(list: seq<u32>, length: nat, spread: int, y: nat, x: nat, v: u32)
    requires Listed(list, length, spread, y, x) && x < Width(length, spread) && v == FanValue(length, spread, y, x)
    ensures Listed(list + [v], length, spread, y, x + 1)
  {
    var cols := Width(length, spread);
    hide FanValue, Width;
    forall r: nat, c: nat | c < cols && (r < y || (r == y && c < x + 1))
      ensures Value(list + [v], Place(r, c, cols)) == FanValue(length, spread, r, c)
    {
      if r < y || c < x {
        PlacesApart(r, c, y, x, cols);
        assert Value(list, Place(r, c, cols)) == FanValue(length, spread, r, c);
      }
    }
  }

  lemma RowListed(list: seq<u32>, length: nat, spread: int, y: nat)
    requires Listed(list, length, spread, y, Width(length, spread))
    ensures Listed(list, length, spread, y + 1, 0)
  {
    hide FanValue, Width;
  }

  lemma Widths(length: nat, spread: int, y: nat)
    requires y < length
    ensures Width(length, spread) > 0 ==> Narrowing(spread, y) <= Columns(length, spread) / 2
    ensures Columns(length, spread) % 2 == 1 && (spread >= 0 ==> Columns(length, spread) > 0)
  {
    if spread > 0 {
      QuotientMonotone(y, length, spread);
    }
  }

  lemma NextQuotient(y: nat, d: nat)
    requires d > 0
    ensures (y + 1) / d == y / d + if (y + 1) % d == 0 then 1 else 0
  {
    var q, r := y / d, y % d;
    assert y == q * d + r;
    if r + 1 == d {
      assert y + 1 == (q + 1) * d;
      QuotientIsUnique(y + 1, d, q + 1, 0);
    } else {
      QuotientIsUnique(y + 1, d, q, r + 1);
    }
  }

  /** Fills the list the way the matrix will be read: row by row, from the far end to the caster. */
  method FanList(length: nat, spread: int) returns (list: seq<u32>)
    ensures Listed(list, length, spread, length, 0)
  {
    hide Listed, FanValue, Narrowing, Quotient, Remainder, Columns;
    list := [];
    var cols := 1;
    if spread != 0 {
      cols := Quotient(length - Remainder(length, spread), spread) * 2 + 1;
    }
    ColumnsAre(length, spread);
    var colSpread := cols;
    NothingListed(length, spread);
    var y := 1;
    while y <= length
      invariant 1 <= y <= length + 1 && cols == Columns(length, spread)
      invariant colSpread == cols - Narrowing(spread, y - 1)
      invariant Listed(list, length, spread, y - 1, 0)
    {
      var mincol := cols - colSpread + 1;
      var maxcol := cols - (cols - colSpread);
      var x := 1;
      while x <= cols
        invariant 1 <= x <= Width(length, spread) + 1 && Listed(list, length, spread, y - 1, x - 1)
      {
        var v: u32 := if y == length && x == Quotient(cols - Remainder(cols, 2), 2) + 1 then 3
                      else if mincol <= x <= maxcol then 1 else 0;
        ValueIs(length, spread, y - 1, x - 1, v);
        ListedMore(list, length, spread, y - 1, x - 1, v);
        list := list + [v];
        x := x + 1;
      }
      RowListed(list, length, spread, y - 1);
      Narrower(spread, y);
      if spread > 0 && Remainder(y, spread) == 0 {
        colSpread := colSpread - 1;
      }
      y := y + 1;
    }
  }

  lemma Narrower(spread: int, y: nat)
    requires y > 0
    ensures Narrowing(spread, y) == Narrowing(spread, y - 1) + if spread > 0 && Remainder(y, spread) == 0 then 1 else 0
  {
    if spread > 0 {
      TowardsZero(y, spread);
      NextQuotient(y - 1, spread);
    }
  }

  /** Division and remainder as the source's operators compute them: towards zero. */
  function Quotient(a: int, b: int): int
    requires b != 0
  {
    if a >= 0 then a / b else -(-a / b)
  }

  function Remainder(a: int, b: int): int
    requires b != 0
  {
    a - Quotient(a, b) * b
  }

  lemma NothingListed(length: nat, spread: int)
    ensures Listed([], length, spread, 0, 0)
  {
  }

  lemma ColumnsAre(length: nat, spread: int)
    ensures Columns(length, spread) ==
            if spread == 0 then 1 else Quotient(length - Remainder(length, spread), spread) * 2 + 1
    ensures Narrowing(spread, 0) == 0
  {
    if spread != 0 {
      WholePart(length, spread);
    }
  }

  lemma WholePart(length: nat, spread: int)
    requires spread != 0
    ensures Columns(length, spread) == Quotient(length - Remainder(length, spread), spread) * 2 + 1
  {
    var d: nat := if spread > 0 then spread else -spread;
    var q := length / d;
    TowardsZero(length, spread);
    assert length - Remainder(length, spread) == q * d;
    TowardsZero(q * d, spread);
    QuotientIsUnique(q * d, d, q, 0);
  }

  lemma TowardsZero(a: nat, b: int)
    requires b != 0
    ensures b > 0 ==> Quotient(a, b) == a / b && Remainder(a, b) == a % b
    ensures b < 0 ==> Quotient(a, b) == -(a / -b) && Remainder(a, b) == a % -b
  {
    if b < 0 {
      var q, r := a / b, a % b;
      assert a == q * b + r;
      assert a == (-q) * (-b) + r;
      assert q >= 1 ==> q * b <= b;
      QuotientIsUnique(a, -b, -q, r);
    }
  }

  lemma ValueIs(length: nat, spread: int, y: nat, x: nat, v: u32)
    requires y < length && x < Width(length, spread)
    requires var cols := Columns(length, spread);
             v == if y + 1 == length && x + 1 == Quotient(cols - Remainder(cols, 2), 2) + 1 then 3
                  else if Narrowing(spread, y) + 1 <= x + 1 <= cols - Narrowing(spread, y) then 1 else 0
    ensures v == FanValue(length, spread, y, x)
  {
    Widths(length, spread, y);
  }

  // ---------------------------------------------------------------------------
  // What the fan covers
  // ---------------------------------------------------------------------------

  /** Tile p is in front of the caster or beside it, within the width of its row. */
  predicate InFan(length: nat, spread: int, p: Offset) {
    && -(length as int) < p.dy <= 0
    && var reach := Columns(length, spread) / 2 - Narrowing(spread, length - 1 + p.dy);
       -reach <= p.dx <= reach
  }

  function CenterPlace(length: nat, spread: int): nat
    requires length > 0
  {
    Place(length - 1, Width(length, spread) / 2, Width(length, spread))
  }

  lemma CenterInList(length: nat, spread: int)
    requires length > 0 && Columns(length, spread) > 0
    ensures CenterPlace(length, spread) < length * Width(length, spread)
  {
    var cols := Width(length, spread);
    assert length * cols == (length - 1) * cols + cols;
  }

  /** Only the caster's tile is marked as centre. */
  lemma MarkedOnce(list: seq<u32>, length: nat, spread: int, m: nat)
    requires length > 0 && Listed(list, length, spread, length, 0) && m < |list|
    ensures MarksCenter(Value(list, m)) <==> m == CenterPlace(length, spread)
  {
    var cols := Width(length, spread);
    hide Width, Narrowing, Value;
    var y, x := m / cols, m % cols;
    RowBelow(y, x, length, cols);
    assert Place(y, x, cols) == m;
    assert Value(list, Place(y, x, cols)) == FanValue(length, spread, y, x);
    if m == CenterPlace(length, spread) {
      QuotientIsUnique(m, cols, length - 1, cols / 2);
    }
  }

  lemma OnlyCenter(list: seq<u32>, length: nat, spread: int, n: nat)
    requires length > 0 && Listed(list, length, spread, length, 0) && n <= |list|
    ensures LastCenter(list, n) == if n > CenterPlace(length, spread) then CenterPlace(length, spread) else -1
  {
    hide CenterPlace, Listed, MarksCenter;
    if n > 0 {
      OnlyCenter(list, length, spread, n - 1);
      MarkedOnce(list, length, spread, n - 1);
    }
  }

  lemma SameColumns(a: nat, b: nat, rows: nat)
    requires rows > 0 && rows * a == rows * b
    ensures a == b
  {
    assert rows * (a - b) == 0;
  }

  lemma SpelledWidth(list: seq<u32>, length: nat, spread: int, a: Area)
    requires length > 0 && Listed(list, length, spread, length, 0) && a.Valid() && Spells(list, a) && a.rows == length
    ensures a.cols == Width(length, spread) && |list| == length * a.cols
  {
    hide Width, FanValue;
    SameColumns(a.cols, Width(length, spread), length);
  }

  /** The matrix that the list spells has the caster in the middle of its last row. */
  lemma CasterInFront(list: seq<u32>, length: nat, spread: int, a: Area)
    requires length > 0 && Listed(list, length, spread, length, 0) && a.Valid() && Spells(list, a) && a.rows == length
    requires Columns(length, spread) > 0
    ensures a.cols == Columns(length, spread) && a.centerY == length - 1 && a.centerX == a.cols / 2
  {
    hide Listed, FanValue;
    SpelledWidth(list, length, spread, a);
    CenterInList(length, spread);
    OnlyCenter(list, length, spread, |list|);
    CenterIs(list, length, spread, a);
  }

  lemma CenterIs(list: seq<u32>, length: nat, spread: int, a: Area)
    requires length > 0 && a.Valid() && Spells(list, a) && a.cols == Width(length, spread)
    requires Columns(length, spread) > 0 && LastCenter(list, |list|) == CenterPlace(length, spread)
    ensures a.centerY == length - 1 && a.centerX == a.cols / 2
  {
    hide LastCenter, Columns;
    QuotientIsUnique(CenterPlace(length, spread), a.cols, length - 1, a.cols / 2);
    QuotientIsUnique(CenterPlace(length, spread), a.cols, a.centerY, a.centerX);
  }

  /**
    The fan covers exactly its tiles: as wide at the far end as it is long for its spread, narrowing to the
    caster. Without a length, or with a negative number of columns, that is none.
   */
  lemma FanCovers(list: seq<u32>, length: nat, spread: int, a: Area, p: Offset)
    requires Listed(list, length, spread, length, 0) && a.Valid() && Spells(list, a) && a.rows == length
    ensures p in Offsets(a) <==> InFan(length, spread, p)
  {
    if length > 0 {
      SpelledWidth(list, length, spread, a);
      Widths(length, spread, 0);
      if Columns(length, spread) > 0 {
        FilledFanCovers(list, length, spread, a, p);
      }
    }
  }

  lemma FilledFanCovers(list: seq<u32>, length: nat, spread: int, a: Area, p: Offset)
    requires length > 0 && Listed(list, length, spread, length, 0) && a.Valid() && Spells(list, a) && a.rows == length
    requires Columns(length, spread) > 0
    ensures p in Offsets(a) <==> InFan(length, spread, p)
  {
    CasterInFront(list, length, spread, a);
    var y, x := a.centerY + p.dy, a.centerX + p.dx;
    if 0 <= y < a.rows {
      Widths(length, spread, y);
      if 0 <= x < a.cols {
        assert a.Inside(y, x);
        assert Value(list, Place(y, x, a.cols)) == FanValue(length, spread, y, x);
      }
    }
  }

  /** The fan is its own mirror image. */
  lemma FanIsSymmetric(list: seq<u32>, length: nat, spread: int, a: Area)
    requires Listed(list, length, spread, length, 0) && a.Valid() && Spells(list, a) && a.rows == length
    ensures MirroredSet(Offsets(a)) == Offsets(a)
  {
    hide Offsets, Spells, Listed;
    var f := p => Mirrored(p);
    forall p
      ensures p in MirroredSet(Offsets(a)) <==> p in Offsets(a)
    {
      FanCovers(list, length, spread, a, p);
      FanCovers(list, length, spread, a, Mirrored(p));
      assert f(Mirrored(p)) == p;
    }
  }

  /** Sets the four directions up for a fan. */
  method SetupFan(combat: AreaCombat, length: nat, spread: int) returns (ghost north: Area)
    requires length < 0x8000_0000 && length * Width(length, spread) < 0x8000_0000
    modifies combat
    ensures north.Valid() && (forall p :: p in Offsets(north) <==> InFan(length, spread, p))
    ensures combat.Straight(Offsets(north)) && forall s :: old(combat.Diagonal(s)) ==> combat.Diagonal(s)
    ensures combat.hasExtArea == old(combat.hasExtArea)
  {
    var list := FanList(length, spread);
    ListSize(list, length, spread);
    hide Listed, InFan, Spells, Offsets, Turned;
    north := combat.SetupArea(list, length);
    forall p
      ensures p in Offsets(north) <==> InFan(length, spread, p)
    {
      FanCovers(list, length, spread, north, p);
    }
  }

  lemma ListSize(list: seq<u32>, length: nat, spread: int)
    requires Listed(list, length, spread, length, 0)
    ensures |list| == length * Width(length, spread)
    ensures if length == 0 then list == [] else |list| % length == 0
  {
    if length > 0 {
      QuotientIsUnique(|list|, length, Width(length, spread), 0);
    }
  }
}
