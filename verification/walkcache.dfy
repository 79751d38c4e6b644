/**
  The walkability cache of a creature: a window of the map around it, shifted in place
  when the creature steps and patched where the map changed.
 */
module WalkCache {

  type u16 = x: int | 0 <= x < 0x1_0000

  datatype Position = Position(x: u16, y: u16, z: nat)

  /** Whether the tile at a position exists and lets the creature on. */
  type World = Position -> bool

  const REACH_X := 15  // maxWalkCacheWidth
  const REACH_Y := 9   // maxWalkCacheHeight
  const WIDTH := 31    // mapWalkWidth
  const HEIGHT := 19   // mapWalkHeight

  predicate InWindow(r: int, c: int) { 0 <= r < HEIGHT && 0 <= c < WIDTH }

  predicate Centre(r: int, c: int) { r == REACH_Y && c == REACH_X }

  type Grid = g: seq<seq<bool>> | |g| == HEIGHT && forall r :: 0 <= r < HEIGHT ==> |g[r]| == WIDTH
    witness seq(HEIGHT, _ => seq(WIDTH, _ => false))

  /** Map coordinates are 16 bits wide; looking up a tile truncates to them. */
  function Lookup(walk: World, x: int, y: int, z: nat): bool {
    walk(Position(x % 0x1_0000, y % 0x1_0000, z))
  }

  predicate OnMap(x: int, y: int) { 0 <= x < 0x1_0000 && 0 <= y < 0x1_0000 }

  /** What cell (r, c) of the window around `pos` ought to hold. */
  function Truth(walk: World, pos: Position, r: int, c: int): bool {
    Lookup(walk, pos.x + c - REACH_X, pos.y + r - REACH_Y, pos.z)
  }

  predicate CellOnMap(pos: Position, r: int, c: int) { OnMap(pos.x + c - REACH_X, pos.y + r - REACH_Y) }

  ghost predicate RowRight(g: Grid, walk: World, pos: Position, r: int)
    requires 0 <= r < HEIGHT
  {
    forall c :: 0 <= c < WIDTH && !Centre(r, c) && CellOnMap(pos, r, c) ==> g[r][c] == Truth(walk, pos, r, c)
  }

  /** Every cell but the one the creature stands on agrees with the map. */
  ghost predicate Right(g: Grid, walk: World, pos: Position) {
    forall r :: 0 <= r < HEIGHT ==> RowRight(g, walk, pos, r)
  }

  // ---------------------------------------------------------------------------
  // What each update computes, cell by cell
  // ---------------------------------------------------------------------------

  function GridOf(cell: (int, int) -> bool): (g: Grid)
    ensures forall r, c :: InWindow(r, c) ==> g[r][c] == cell(r, c)
  {
    seq(HEIGHT, r => seq(WIDTH, c => cell(r, c)))
  }

  lemma SameGrid(a: Grid, b: Grid)
    requires forall r, c :: InWindow(r, c) ==> a[r][c] == b[r][c]
    ensures a == b
  {
    forall r | 0 <= r < HEIGHT
      ensures a[r] == b[r]
    {
      forall c | 0 <= c < WIDTH
        ensures a[r][c] == b[r][c]
      {
        assert InWindow(r, c);
      }
    }
  }

  /** A full refresh; positions that wrap around the map edge are not written. */
  function Refreshed(g: Grid, walk: World, pos: Position): Grid {
    GridOf((r, c) => if !InWindow(r, c) then false
                     else if CellOnMap(pos, r, c) then Truth(walk, pos, r, c) else g[r][c])
  }

  /** The cell that shows `at`, if the window shows it, takes the current value. */
  function Patched(g: Grid, walk: World, pos: Position, at: Position): Grid {
    if at.z != pos.z then g
    else GridOf((r, c) => if !InWindow(r, c) then false
                          else if r == REACH_Y + at.y - pos.y && c == REACH_X + at.x - pos.x then walk(at) else g[r][c])
  }

  /** First half of a step: rows move by one and the row that came into view is read. */
  function RowsShifted(g: Grid, walk: World, from: Position, pos: Position): Grid {
    if from.y > pos.y then
      GridOf((r, c) => if !InWindow(r, c) then false
                       else if r == 0 then Truth(walk, pos, r, c) else g[r - 1][c])
    else if from.y < pos.y then
      GridOf((r, c) => if !InWindow(r, c) then false
                       else if r == HEIGHT - 1 then Truth(walk, pos, r, c) else g[r + 1][c])
    else g
  }

  function Abs(a: int): nat { if a < 0 then -a else a }

  /**
    Second half: columns move, but only from row |dy| down. The source skips the row just
    read by the sign of a distance that is never negative, so it always skips row 0.
   */
  function ColumnsShifted(g: Grid, walk: World, from: Position, pos: Position): Grid {
    var starty := Abs(from.y - pos.y);
    if from.x < pos.x then
      GridOf((r, c) => if !InWindow(r, c) then false
                       else if c == WIDTH - 1 then Truth(walk, pos, r, c)
                       else if r >= starty then g[r][c + 1] else g[r][c])
    else if from.x > pos.x then
      GridOf((r, c) => if !InWindow(r, c) then false
                       else if c == 0 then Truth(walk, pos, r, c)
                       else if r >= starty then g[r][c - 1] else g[r][c])
    else g
  }

  function Stepped(g: Grid, walk: World, from: Position, pos: Position): Grid {
    Patched(ColumnsShifted(RowsShifted(g, walk, from, pos), walk, from, pos), walk, pos, from)
  }

  /** The creature's own move: a full refresh after a teleport or a floor change. */
  function OwnMove(g: Grid, walk: World, from: Position, pos: Position, teleport: bool): Grid {
    if teleport || from.z != pos.z then Refreshed(g, walk, pos) else Stepped(g, walk, from, pos)
  }

  function OtherMove(g: Grid, walk: World, pos: Position, from: Position, dest: Position): Grid {
    Patched(Patched(g, walk, pos, dest), walk, pos, from)
  }

  // ---------------------------------------------------------------------------
  // The cache in place
  // ---------------------------------------------------------------------------

  lemma RowsMovedSouth(g: Grid, h: Grid, walk: World, from: Position, pos: Position)
    requires from.y > pos.y
    requires forall r, c :: InWindow(r, c) ==> h[r][c] == if r == 0 then Truth(walk, pos, r, c) else g[r - 1][c]
    ensures h == RowsShifted(g, walk, from, pos)
  {
    SameGrid(h, RowsShifted(g, walk, from, pos));
  }

  lemma RowsMovedNorth(g: Grid, h: Grid, walk: World, from: Position, pos: Position)
    requires from.y < pos.y
    requires forall r, c :: InWindow(r, c) ==> h[r][c] == if r == HEIGHT - 1 then Truth(walk, pos, r, c) else g[r + 1][c]
    ensures h == RowsShifted(g, walk, from, pos)
  {
    SameGrid(h, RowsShifted(g, walk, from, pos));
  }

  lemma RowsUnmoved(g: Grid, walk: World, from: Position, pos: Position)
    requires from.y == pos.y
    ensures RowsShifted(g, walk, from, pos) == g
  {
  }

  class Creature {
    const localMapCache: array2<bool>
    var position: Position
    var isMapLoaded: bool
    const useCacheMap: bool

    ghost predicate Valid() reads this {
      localMapCache.Length0 == HEIGHT && localMapCache.Length1 == WIDTH
    }

    ghost function Cells(): Grid
      reads this, localMapCache
      requires Valid()
    {
      seq(HEIGHT, r requires 0 <= r < HEIGHT reads this, localMapCache requires Valid() =>
        seq(WIDTH, c requires 0 <= c < WIDTH reads this, localMapCache requires Valid() => localMapCache[r, c]))
    }

    constructor (position: Position, useCacheMap: bool)
      ensures Valid() && !isMapLoaded && this.position == position && this.useCacheMap == useCacheMap
      ensures fresh(localMapCache)
    {
      this.position, this.useCacheMap, isMapLoaded := position, useCacheMap, false;
      localMapCache := new bool[HEIGHT, WIDTH]((_, _) => false);
    }

    method SetOffset(value: bool, dx: int, dy: int)
      requires Valid()
      modifies localMapCache
      ensures forall r, c :: InWindow(r, c) ==>
        localMapCache[r, c] == if r == REACH_Y + dy && c == REACH_X + dx then value else old(localMapCache[r, c])
    {
      if Abs(dx) <= REACH_X && Abs(dy) <= REACH_Y {
        localMapCache[REACH_Y + dy, REACH_X + dx] := value;
      }
    }

    method UpdateTileCache(walk: World, pos: Position)
      requires Valid()
      modifies localMapCache
      ensures Cells() == Patched(old(Cells()), walk, position, pos)
    {
      if pos.z == position.z {
        SetOffset(walk(pos), pos.x - position.x, pos.y - position.y);
      }
      SameGrid(Cells(), Patched(old(Cells()), walk, position, pos));
    }

    method UpdateMapCache(walk: World)
      requires Valid()
      modifies localMapCache
      ensures Cells() == Refreshed(old(Cells()), walk, position)
    {
      for y := -REACH_Y to REACH_Y + 1
        invariant forall r, c :: InWindow(r, c) ==>
          localMapCache[r, c] == if r < y + REACH_Y && CellOnMap(position, r, c)
                                 then Truth(walk, position, r, c) else old(localMapCache[r, c])
      {
        for x := -REACH_X to REACH_X + 1
          invariant forall r, c :: InWindow(r, c) ==>
            localMapCache[r, c] == if (r < y + REACH_Y || (r == y + REACH_Y && c < x + REACH_X)) && CellOnMap(position, r, c)
                                   then Truth(walk, position, r, c) else old(localMapCache[r, c])
        {
          var pos := Position((position.x + x) % 0x1_0000, (position.y + y) % 0x1_0000, position.z);
          SetOffset(walk(pos), pos.x - position.x, pos.y - position.y);
        }
      }
      SameGrid(Cells(), Refreshed(old(Cells()), walk, position));
    }

    method ShiftRowsSouth()
      requires Valid()
      modifies localMapCache
      ensures forall r, c :: InWindow(r, c) ==>
        localMapCache[r, c] == if r > 0 then old(localMapCache[r - 1, c]) else old(localMapCache[r, c])
    {
      var y := HEIGHT - 1;
      while y > 0
        invariant 0 <= y < HEIGHT
        invariant forall r, c :: InWindow(r, c) ==>
          localMapCache[r, c] == if r > y then old(localMapCache[r - 1, c]) else old(localMapCache[r, c])
      {
        y := y - 1;
        forall c | 0 <= c < WIDTH { localMapCache[y + 1, c] := localMapCache[y, c]; }
      }
    }

    method ShiftRowsNorth()
      requires Valid()
      modifies localMapCache
      ensures forall r, c :: InWindow(r, c) ==>
        localMapCache[r, c] == if r < HEIGHT - 1 then old(localMapCache[r + 1, c]) else old(localMapCache[r, c])
    {
      for y := 0 to HEIGHT - 1
        invariant forall r, c :: InWindow(r, c) ==>
          localMapCache[r, c] == if r < y then old(localMapCache[r + 1, c]) else old(localMapCache[r, c])
      {
        forall c | 0 <= c < WIDTH { localMapCache[y, c] := localMapCache[y + 1, c]; }
      }
    }

    method ReadRow(walk: World, dy: int)
      requires Valid() && -REACH_Y <= dy <= REACH_Y
      modifies localMapCache
      ensures forall r, c :: InWindow(r, c) ==>
        localMapCache[r, c] == if r == dy + REACH_Y then Truth(walk, position, r, c) else old(localMapCache[r, c])
    {
      for x := -REACH_X to REACH_X + 1
        invariant forall r, c :: InWindow(r, c) ==>
          localMapCache[r, c] == if r == dy + REACH_Y && c < x + REACH_X
                                 then Truth(walk, position, r, c) else old(localMapCache[r, c])
      {
        SetOffset(Lookup(walk, position.x + x, position.y + dy, position.z), x, dy);
      }
    }

    method ShiftColumnsWest(starty: nat)
      requires Valid() && starty < HEIGHT
      modifies localMapCache
      ensures forall r, c :: InWindow(r, c) ==>
        localMapCache[r, c] == if r >= starty && c < WIDTH - 1 then old(localMapCache[r, c + 1]) else old(localMapCache[r, c])
    {
      for y := starty to HEIGHT
        invariant forall r, c :: InWindow(r, c) ==>
          localMapCache[r, c] == if starty <= r < y && c < WIDTH - 1 then old(localMapCache[r, c + 1]) else old(localMapCache[r, c])
      {
        for x := 0 to WIDTH - 1
          invariant forall r, c :: InWindow(r, c) ==>
            localMapCache[r, c] == if (starty <= r < y && c < WIDTH - 1) || (r == y && c < x)
                                   then old(localMapCache[r, c + 1]) else old(localMapCache[r, c])
        {
          localMapCache[y, x] := localMapCache[y, x + 1];
        }
      }
    }

    method ShiftColumnsEast(starty: nat)
      requires Valid() && starty < HEIGHT
      modifies localMapCache
      ensures forall r, c :: InWindow(r, c) ==>
        localMapCache[r, c] == if r >= starty && c > 0 then old(localMapCache[r, c - 1]) else old(localMapCache[r, c])
    {
      for y := starty to HEIGHT
        invariant forall r, c :: InWindow(r, c) ==>
          localMapCache[r, c] == if starty <= r < y && c > 0 then old(localMapCache[r, c - 1]) else old(localMapCache[r, c])
      {
        var x := WIDTH - 1;
        while x > 0
          invariant 0 <= x < WIDTH
          invariant forall r, c :: InWindow(r, c) ==>
            localMapCache[r, c] == if (starty <= r < y && c > 0) || (r == y && c > x)
                                   then old(localMapCache[r, c - 1]) else old(localMapCache[r, c])
        {
          x := x - 1;
          localMapCache[y, x + 1] := localMapCache[y, x];
        }
      }
    }

    method ReadColumn(walk: World, dx: int)
      requires Valid() && -REACH_X <= dx <= REACH_X
      modifies localMapCache
      ensures forall r, c :: InWindow(r, c) ==>
        localMapCache[r, c] == if c == dx + REACH_X then Truth(walk, position, r, c) else old(localMapCache[r, c])
    {
      for y := -REACH_Y to REACH_Y + 1
        invariant forall r, c :: InWindow(r, c) ==>
          localMapCache[r, c] == if c == dx + REACH_X && r < y + REACH_Y
                                 then Truth(walk, position, r, c) else old(localMapCache[r, c])
      {
        SetOffset(Lookup(walk, position.x + dx, position.y + y, position.z), dx, y);
      }
    }

    method ShiftRows(walk: World, oldPos: Position)
      requires Valid()
      modifies localMapCache
      ensures Cells() == RowsShifted(old(Cells()), walk, oldPos, position)
    {
      hide RowsShifted, Truth;
      if oldPos.y > position.y {
        ShiftRowsSouth();
        ReadRow(walk, -REACH_Y);
        RowsMovedSouth(old(Cells()), Cells(), walk, oldPos, position);
      } else if oldPos.y < position.y {
        ShiftRowsNorth();
        ReadRow(walk, REACH_Y);
        RowsMovedNorth(old(Cells()), Cells(), walk, oldPos, position);
      } else {
        RowsUnmoved(old(Cells()), walk, oldPos, position);
      }
    }

    method ShiftColumns(walk: World, oldPos: Position)
      requires Valid() && Abs(oldPos.y - position.y) < HEIGHT
      modifies localMapCache
      ensures Cells() == ColumnsShifted(old(Cells()), walk, oldPos, position)
    {
      var dy := Abs(oldPos.y - position.y);  // a distance: the source's test for dy < 0 never holds
      if oldPos.x < position.x {
        ShiftColumnsWest(dy);
        ReadColumn(walk, REACH_X);
      } else if oldPos.x > position.x {
        ShiftColumnsEast(dy);
        ReadColumn(walk, -REACH_X);
      }
      SameGrid(Cells(), ColumnsShifted(old(Cells()), walk, oldPos, position));
    }

    /** The creature has moved from `oldPos` to its position. */
    method OnOwnMove(walk: World, oldPos: Position, teleport: bool)
      requires Valid()
      requires !teleport && oldPos.z == position.z ==> Abs(oldPos.x - position.x) <= 1 && Abs(oldPos.y - position.y) <= 1
      modifies localMapCache
      ensures Cells() == if isMapLoaded then OwnMove(old(Cells()), walk, oldPos, position, teleport) else old(Cells())
    {
      hide Creature.Cells, RowsShifted, ColumnsShifted, Patched;
      if isMapLoaded {
        if teleport || oldPos.z != position.z {
          UpdateMapCache(walk);
        } else {
          ShiftRows(walk, oldPos);
          ShiftColumns(walk, oldPos);
          UpdateTileCache(walk, oldPos);
        }
      }
    }

    /** The creature appears on the map: creatures that use a cache read it in full. */
    method OnAppear(walk: World)
      requires Valid()
      modifies this`isMapLoaded, localMapCache
      ensures isMapLoaded == (useCacheMap || old(isMapLoaded))
      ensures Cells() == if useCacheMap then Refreshed(old(Cells()), walk, position) else old(Cells())
    {
      if useCacheMap {
        isMapLoaded := true;
        SameGrid(Cells(), old(Cells()));
        UpdateMapCache(walk);
      }
    }

    /** An item that matters for walking came to or left a tile. */
    method OnTileChanged(walk: World, pos: Position)
      requires Valid()
      modifies localMapCache
      ensures Cells() == if isMapLoaded then Patched(old(Cells()), walk, position, pos) else old(Cells())
    {
      if isMapLoaded && pos.z == position.z {
        UpdateTileCache(walk, pos);
      }
    }

    /** Some other creature has moved. */
    method OnOtherMove(walk: World, oldPos: Position, newPos: Position)
      requires Valid()
      modifies localMapCache
      ensures Cells() == if isMapLoaded then OtherMove(old(Cells()), walk, position, oldPos, newPos) else old(Cells())
    {
      if isMapLoaded {
        if newPos.z == position.z {
          UpdateTileCache(walk, newPos);
        }
        if oldPos.z == position.z {
          UpdateTileCache(walk, oldPos);
        }
      }
    }

    /** 1 walkable, 0 not walkable, 2 unknown. */
    method GetWalkCache(pos: Position) returns (answer: nat)
      requires Valid()
      ensures answer == WalkAnswer(Cells(), useCacheMap, position, pos)
    {
      if !useCacheMap { return 2; }
      if position.z != pos.z { return 0; }
      if pos == position { return 1; }
      var dx := pos.x - position.x;
      if Abs(dx) <= REACH_X {
        var dy := pos.y - position.y;
        if Abs(dy) <= REACH_Y {
          return if localMapCache[REACH_Y + dy, REACH_X + dx] then 1 else 0;
        }
      }
      answer := 2;
    }
  }

  function WalkAnswer(g: Grid, useCacheMap: bool, me: Position, pos: Position): nat {
    if !useCacheMap then 2
    else if me.z != pos.z then 0
    else if pos == me then 1
    else if Abs(pos.x - me.x) <= REACH_X && Abs(pos.y - me.y) <= REACH_Y then
      if g[REACH_Y + pos.y - me.y][REACH_X + pos.x - me.x] then 1 else 0
    else 2
  }

  // ---------------------------------------------------------------------------
  // The cache against recomputing from scratch
  // ---------------------------------------------------------------------------

  /** The map has changed at the listed positions and nowhere else. */
  ghost predicate ChangedOnlyAt(before: World, after: World, a: Position, b: Position) {
    forall p :: p != a && p != b ==> before(p) == after(p)
  }

  predicate OneStep(from: Position, pos: Position) {
    from.z == pos.z && Abs(from.x - pos.x) <= 1 && Abs(from.y - pos.y) <= 1 && from != pos
  }

  predicate SouthDiagonal(from: Position, pos: Position) { from.x != pos.x && from.y < pos.y }

  /** Whatever the cache held, a full refresh makes it right, centre included. */
  lemma RefreshIsRight(g: Grid, walk: World, pos: Position)
    ensures Right(Refreshed(g, walk, pos), walk, pos)
  {
  }

  /** The map position a cell shows. */
  function Shown(pos: Position, r: int, c: int): Position
    requires CellOnMap(pos, r, c)
  {
    Position(pos.x + c - REACH_X, pos.y + r - REACH_Y, pos.z)
  }

  lemma TruthIsShown(walk: World, pos: Position, r: int, c: int)
    requires CellOnMap(pos, r, c)
    ensures Truth(walk, pos, r, c) == walk(Shown(pos, r, c))
  {
  }

  lemma PatchedCell(g: Grid, walk: World, pos: Position, at: Position, r: int, c: int)
    requires InWindow(r, c) && CellOnMap(pos, r, c)
    ensures Patched(g, walk, pos, at)[r][c] == if Shown(pos, r, c) == at then walk(at) else g[r][c]
  {
  }

  lemma PatchKeepsRow(g: Grid, before: World, walk: World, pos: Position, at: Position, other: Position, r: int)
    requires 0 <= r < HEIGHT && RowRight(g, before, pos, r) && ChangedOnlyAt(before, walk, at, other)
    requires other == at || other == pos || other.z != pos.z
    ensures RowRight(Patched(g, walk, pos, at), walk, pos, r)
  {
    forall c | InWindow(r, c) && !Centre(r, c) && CellOnMap(pos, r, c)
      ensures Patched(g, walk, pos, at)[r][c] == Truth(walk, pos, r, c)
    {
      PatchedCell(g, walk, pos, at, r, c);
      TruthIsShown(walk, pos, r, c);
      TruthIsShown(before, pos, r, c);
    }
  }

  /** A cell of a right row that shows neither end of the step is still right. */
  lemma StillRight(g: Grid, before: World, walk: World, from: Position, pos: Position, r: int, c: int)
    requires InWindow(r, c) && RowRight(g, before, from, r) && ChangedOnlyAt(before, walk, from, pos)
    requires CellOnMap(from, r, c) && Shown(from, r, c) != from && Shown(from, r, c) != pos
    ensures g[r][c] == walk(Shown(from, r, c))
  {
    TruthIsShown(before, from, r, c);
  }

  lemma RowsCell(g: Grid, walk: World, from: Position, pos: Position, r: int, c: int)
    requires OneStep(from, pos) && InWindow(r, c)
    ensures var r0 := r + pos.y - from.y;
            RowsShifted(g, walk, from, pos)[r][c] == if 0 <= r0 < HEIGHT then g[r0][c] else Truth(walk, pos, r, c)
  {
  }

  lemma ColumnsCell(h: Grid, walk: World, from: Position, pos: Position, r: int, c: int)
    requires OneStep(from, pos) && InWindow(r, c)
    ensures var c0 := c + pos.x - from.x;
            ColumnsShifted(h, walk, from, pos)[r][c] ==
            if !(0 <= c0 < WIDTH) then Truth(walk, pos, r, c)
            else if r >= Abs(from.y - pos.y) then h[r][c0] else h[r][c]
  {
  }

  /** Where a cell comes from when it is not read afresh. */
  lemma ShiftedCell(g: Grid, walk: World, from: Position, pos: Position, r: int, c: int)
    requires OneStep(from, pos) && InWindow(r, c)
    requires SouthDiagonal(from, pos) ==> 0 < r < HEIGHT - 1
    ensures var shifted := ColumnsShifted(RowsShifted(g, walk, from, pos), walk, from, pos)[r][c];
            var r0, c0 := r + pos.y - from.y, c + pos.x - from.x;
            shifted == if InWindow(r0, c0) then g[r0][c0] else Truth(walk, pos, r, c)
  {
    hide ColumnsShifted, RowsShifted, Truth;
    var h := RowsShifted(g, walk, from, pos);
    var c0 := c + pos.x - from.x;
    ColumnsCell(h, walk, from, pos, r, c);
    RowsCell(g, walk, from, pos, r, c);
    if 0 <= c0 < WIDTH {
      RowsCell(g, walk, from, pos, r, c0);
    }
  }

  /** The row of the old window that shows what row r shows after the step, if there is one, is right. */
  ghost predicate SourceRight(g: Grid, before: World, from: Position, pos: Position, r: int) {
    var r0 := r + pos.y - from.y;
    0 <= r0 < HEIGHT ==> RowRight(g, before, from, r0)
  }

  lemma StepCellIsRight(g: Grid, before: World, walk: World, from: Position, pos: Position, r: int, c: int)
    requires SourceRight(g, before, from, pos, r) && ChangedOnlyAt(before, walk, from, pos) && OneStep(from, pos)
    requires InWindow(r, c) && !Centre(r, c) && CellOnMap(pos, r, c)
    requires SouthDiagonal(from, pos) ==> 0 < r < HEIGHT - 1
    ensures Stepped(g, walk, from, pos)[r][c] == Truth(walk, pos, r, c)
  {
    hide ColumnsShifted, RowsShifted, Patched, RowRight, ChangedOnlyAt, Truth;
    var r0, c0 := r + pos.y - from.y, c + pos.x - from.x;
    PatchedCell(ColumnsShifted(RowsShifted(g, walk, from, pos), walk, from, pos), walk, pos, from, r, c);
    TruthIsShown(walk, pos, r, c);
    ShiftedCell(g, walk, from, pos, r, c);
    if Shown(pos, r, c) != from && InWindow(r0, c0) {
      assert Shown(from, r0, c0) == Shown(pos, r, c);
      StillRight(g, before, walk, from, pos, r0, c0);
    }
  }

  /** A row that was right stays right on its way through the window; only a south-diagonal step spoils two rows. */
  lemma StepKeepsRow(g: Grid, before: World, walk: World, from: Position, pos: Position, r: int)
    requires 0 <= r < HEIGHT && SourceRight(g, before, from, pos, r)
    requires ChangedOnlyAt(before, walk, from, pos) && OneStep(from, pos)
    requires SouthDiagonal(from, pos) ==> 0 < r < HEIGHT - 1
    ensures RowRight(Stepped(g, walk, from, pos), walk, pos, r)
  {
    hide Stepped, Truth, SourceRight, ChangedOnlyAt;
    forall c | 0 <= c < WIDTH && !Centre(r, c) && CellOnMap(pos, r, c)
      ensures Stepped(g, walk, from, pos)[r][c] == Truth(walk, pos, r, c)
    {
      StepCellIsRight(g, before, walk, from, pos, r, c);
    }
  }

  lemma RightRow(g: Grid, walk: World, pos: Position, r: int)
    requires 0 <= r < HEIGHT && Right(g, walk, pos)
    ensures RowRight(g, walk, pos, r)
  {
  }

  lemma RightSource(g: Grid, before: World, from: Position, pos: Position, r: int)
    requires Right(g, before, from)
    ensures SourceRight(g, before, from, pos, r)
  {
  }

  /** An orthogonal or north-diagonal step keeps the whole cache right. */
  lemma StepKeepsCacheRight(g: Grid, before: World, walk: World, from: Position, pos: Position)
    requires Right(g, before, from) && ChangedOnlyAt(before, walk, from, pos) && OneStep(from, pos)
    requires !SouthDiagonal(from, pos)
    ensures Right(Stepped(g, walk, from, pos), walk, pos)
  {
    hide Stepped, RowRight, ChangedOnlyAt, SourceRight;
    forall r | 0 <= r < HEIGHT
      ensures RowRight(Stepped(g, walk, from, pos), walk, pos, r)
    {
      RightSource(g, before, from, pos, r);
      StepKeepsRow(g, before, walk, from, pos, r);
    }
  }

  /** A south-diagonal step still leaves every row right except the first and the last. */
  lemma SouthDiagonalKeepsInnerRows(g: Grid, before: World, walk: World, from: Position, pos: Position, r: int)
    requires Right(g, before, from) && ChangedOnlyAt(before, walk, from, pos) && OneStep(from, pos)
    requires 0 < r < HEIGHT - 1
    ensures RowRight(Stepped(g, walk, from, pos), walk, pos, r)
  {
    RightSource(g, before, from, pos, r);
    StepKeepsRow(g, before, walk, from, pos, r);
  }

  /** What column c of row 0 shows after a south-diagonal step: the cell one column back, if that is on the map. */
  function StayedBehind(g: Grid, walk: World, pos: Position, dx: int, c: int): bool
    requires 0 <= c < WIDTH
  {
    if CellOnMap(pos, 0, c - dx) then Truth(walk, pos, 0, c - dx) else g[1][c]
  }

  lemma SouthDiagonalFirstCell(g: Grid, before: World, walk: World, from: Position, pos: Position, c: int)
    requires Right(g, before, from) && ChangedOnlyAt(before, walk, from, pos) && OneStep(from, pos)
    requires SouthDiagonal(from, pos) && InWindow(0, c) && InWindow(0, c + pos.x - from.x) && CellOnMap(pos, 0, c)
    ensures Stepped(g, walk, from, pos)[0][c] == StayedBehind(g, walk, pos, pos.x - from.x, c)
  {
    hide ColumnsShifted, RowsShifted, Patched, Right, ChangedOnlyAt, Truth;
    var dx := pos.x - from.x;
    var h := RowsShifted(g, walk, from, pos);
    PatchedCell(ColumnsShifted(h, walk, from, pos), walk, pos, from, 0, c);
    ColumnsCell(h, walk, from, pos, 0, c);
    RowsCell(g, walk, from, pos, 0, c);
    if CellOnMap(pos, 0, c - dx) {
      RightRow(g, before, from, 1);
      StillRight(g, before, walk, from, pos, 1, c);
      TruthIsShown(walk, pos, 0, c - dx);
      assert Shown(from, 1, c) == Shown(pos, 0, c - dx);
    }
  }

  lemma SouthDiagonalLastCell(g: Grid, walk: World, from: Position, pos: Position, c: int)
    requires OneStep(from, pos) && SouthDiagonal(from, pos)
    requires InWindow(0, c) && InWindow(0, c + pos.x - from.x) && CellOnMap(pos, HEIGHT - 1, c)
    ensures Stepped(g, walk, from, pos)[HEIGHT - 1][c] == Truth(walk, pos, HEIGHT - 1, c + pos.x - from.x)
  {
    hide ColumnsShifted, RowsShifted, Patched, Truth;
    var h := RowsShifted(g, walk, from, pos);
    PatchedCell(ColumnsShifted(h, walk, from, pos), walk, pos, from, HEIGHT - 1, c);
    ColumnsCell(h, walk, from, pos, HEIGHT - 1, c);
    RowsCell(g, walk, from, pos, HEIGHT - 1, c + pos.x - from.x);
  }

  /** In column c of rows 0 and 18, as far as they are on the map, it looks the same one column back and one column on. */
  predicate Repeats(g: Grid, walk: World, pos: Position, dx: int, c: int)
    requires 0 <= c < WIDTH
  {
    && (CellOnMap(pos, 0, c) ==> Truth(walk, pos, 0, c) == StayedBehind(g, walk, pos, dx, c))
    && (CellOnMap(pos, HEIGHT - 1, c) ==> Truth(walk, pos, HEIGHT - 1, c) == Truth(walk, pos, HEIGHT - 1, c + dx))
  }

  ghost predicate OuterRowsRepeat(g: Grid, walk: World, pos: Position, dx: int) {
    forall c :: 0 <= c < WIDTH && 0 <= c + dx < WIDTH ==> Repeats(g, walk, pos, dx, c)
  }

  lemma OuterCellsRightIff(g: Grid, before: World, walk: World, from: Position, pos: Position, c: int)
    requires Right(g, before, from) && ChangedOnlyAt(before, walk, from, pos) && OneStep(from, pos)
    requires SouthDiagonal(from, pos) && 0 <= c < WIDTH && 0 <= c + pos.x - from.x < WIDTH
    ensures var h := Stepped(g, walk, from, pos);
            (CellOnMap(pos, 0, c) ==> h[0][c] == Truth(walk, pos, 0, c))
            && (CellOnMap(pos, HEIGHT - 1, c) ==> h[HEIGHT - 1][c] == Truth(walk, pos, HEIGHT - 1, c))
            <==> Repeats(g, walk, pos, pos.x - from.x, c)
  {
    hide Stepped, Truth, Right, ChangedOnlyAt, StayedBehind;
    if CellOnMap(pos, 0, c) {
      SouthDiagonalFirstCell(g, before, walk, from, pos, c);
    }
    if CellOnMap(pos, HEIGHT - 1, c) {
      SouthDiagonalLastCell(g, walk, from, pos, c);
    }
  }

  /** After a south-diagonal step the cache is right exactly if those two rows repeat. */
  lemma SouthDiagonalRightIff(g: Grid, before: World, walk: World, from: Position, pos: Position)
    requires Right(g, before, from) && ChangedOnlyAt(before, walk, from, pos) && OneStep(from, pos)
    requires SouthDiagonal(from, pos)
    ensures Right(Stepped(g, walk, from, pos), walk, pos) <==> OuterRowsRepeat(g, walk, pos, pos.x - from.x)
  {
    hide Stepped, Truth, ChangedOnlyAt, Repeats;
    var h := Stepped(g, walk, from, pos);
    var dx := pos.x - from.x;
    if Right(h, walk, pos) {
      assert RowRight(h, walk, pos, 0) && RowRight(h, walk, pos, HEIGHT - 1);
      forall c | 0 <= c < WIDTH && 0 <= c + dx < WIDTH
        ensures Repeats(g, walk, pos, dx, c)
      {
        OuterCellsRightIff(g, before, walk, from, pos, c);
      }
    }
    if OuterRowsRepeat(g, walk, pos, dx) {
      forall r | 0 <= r < HEIGHT
        ensures RowRight(h, walk, pos, r)
      {
        if 0 < r < HEIGHT - 1 {
          SouthDiagonalKeepsInnerRows(g, before, walk, from, pos, r);
        } else {
          OuterRowRight(g, before, walk, from, pos, r);
        }
      }
    }
  }

  lemma OuterRowRight(g: Grid, before: World, walk: World, from: Position, pos: Position, r: int)
    requires Right(g, before, from) && ChangedOnlyAt(before, walk, from, pos) && OneStep(from, pos)
    requires SouthDiagonal(from, pos) && (r == 0 || r == HEIGHT - 1)
    requires OuterRowsRepeat(g, walk, pos, pos.x - from.x)
    ensures RowRight(Stepped(g, walk, from, pos), walk, pos, r)
  {
    hide Stepped, Truth, ChangedOnlyAt, Repeats, Right;
    forall c | 0 <= c < WIDTH && CellOnMap(pos, r, c)
      ensures Stepped(g, walk, from, pos)[r][c] == Truth(walk, pos, r, c)
    {
      if 0 <= c + pos.x - from.x < WIDTH {
        OuterCellsRightIff(g, before, walk, from, pos, c);
      } else {
        ReadColumnCell(g, walk, from, pos, r, c);
      }
    }
  }

  lemma ReadColumnCell(g: Grid, walk: World, from: Position, pos: Position, r: int, c: int)
    requires OneStep(from, pos) && InWindow(r, c) && CellOnMap(pos, r, c) && !(0 <= c + pos.x - from.x < WIDTH)
    ensures Stepped(g, walk, from, pos)[r][c] == Truth(walk, pos, r, c)
  {
    hide ColumnsShifted, RowsShifted, Patched, Truth;
    var h := RowsShifted(g, walk, from, pos);
    PatchedCell(ColumnsShifted(h, walk, from, pos), walk, pos, from, r, c);
    ColumnsCell(h, walk, from, pos, r, c);
    TruthIsShown(walk, pos, r, c);
  }

  /** A step is sure to keep the cache right, whatever the map looks like. */
  ghost predicate AlwaysSafe(from: Position, pos: Position) {
    forall g, before, walk :: Right(g, before, from) && ChangedOnlyAt(before, walk, from, pos)
      ==> Right(Stepped(g, walk, from, pos), walk, pos)
  }

  /** Wherever the step leads, the tile arrived at has a neighbour column on the map that differs from its own. */
  lemma StripesDoNotRepeat(g: Grid, stripes: World, from: Position, pos: Position)
    requires OneStep(from, pos) && from.x != pos.x
    requires forall p: Position :: stripes(p) <==> p.x % 2 == 0
    ensures !OuterRowsRepeat(g, stripes, pos, pos.x - from.x)
  {
    hide Truth;
    var dx := pos.x - from.x;
    if CellOnMap(pos, 0, REACH_X) {
      TruthIsShown(stripes, pos, 0, REACH_X);
      TruthIsShown(stripes, pos, 0, REACH_X - dx);
      assert Shown(pos, 0, REACH_X).x == pos.x && Shown(pos, 0, REACH_X - dx).x == from.x;
    } else {
      StripesBelow(stripes, pos, 0);
      StripesBelow(stripes, pos, dx);
    }
    assert !Repeats(g, stripes, pos, dx, REACH_X);
  }

  lemma StripesBelow(stripes: World, pos: Position, dx: int)
    requires -1 <= dx <= 1 && forall p: Position :: stripes(p) <==> p.x % 2 == 0
    ensures Truth(stripes, pos, HEIGHT - 1, REACH_X + dx) <==> (pos.x + dx) % 2 == 0
  {
    WrapKeepsParity(pos.x + dx);
  }

  lemma WrapKeepsParity(x: int)
    requires -1 <= x <= 0x1_0000
    ensures x % 0x1_0000 % 2 == x % 2
  {
  }

  /** The safe directions are exactly those that are not south-diagonal. */
  lemma SafeDirections(from: Position, pos: Position)
    requires OneStep(from, pos)
    ensures AlwaysSafe(from, pos) <==> !SouthDiagonal(from, pos)
  {
    hide Stepped, Right;
    if SouthDiagonal(from, pos) {
      var stripes: World := (p: Position) => p.x % 2 == 0;
      var g := Refreshed(seq(HEIGHT, _ => seq(WIDTH, _ => false)), stripes, from);
      RefreshIsRight(seq(HEIGHT, _ => seq(WIDTH, _ => false)), stripes, from);
      SouthDiagonalRightIff(g, stripes, stripes, from, pos);
      StripesDoNotRepeat(g, stripes, from, pos);
      assert ChangedOnlyAt(stripes, stripes, from, pos);
    } else {
      forall g, before, walk | Right(g, before, from) && ChangedOnlyAt(before, walk, from, pos)
        ensures Right(Stepped(g, walk, from, pos), walk, pos)
      {
        StepKeepsCacheRight(g, before, walk, from, pos);
      }
    }
  }

  // ---------------------------------------------------------------------------
  // Whole runs
  // ---------------------------------------------------------------------------

  /** What can happen to a creature and the map around it; `walk` is the map afterwards. */
  datatype Event =
    | Moved(pos: Position, teleport: bool, walk: World)
    | OtherMoved(from: Position, dest: Position, walk: World)
    | TileChanged(at: Position, walk: World)

  /** `stale` records which rows of the window a south-diagonal step has spoiled since the last full refresh. */
  datatype State = State(g: Grid, pos: Position, walk: World, stale: set<int>)

  /** Spoiled rows move through the window with the map; a south-diagonal step spoils the first and the last. */
  function StaleAfter(stale: set<int>, from: Position, pos: Position): set<int> {
    set r | 0 <= r < HEIGHT && Spoiled(stale, from, pos, r)
  }

  predicate Spoiled(stale: set<int>, from: Position, pos: Position, r: int) {
    r + pos.y - from.y in stale || (SouthDiagonal(from, pos) && (r == 0 || r == HEIGHT - 1))
  }

  /** Creatures change the map where they leave and arrive; a step spans one tile per axis. */
  ghost predicate CanHappen(s: State, e: Event) {
    match e
    case Moved(pos, teleport, walk) =>
      teleport || s.pos.z != pos.z || (OneStep(s.pos, pos) && ChangedOnlyAt(s.walk, walk, s.pos, pos))
    case OtherMoved(from, dest, walk) => ChangedOnlyAt(s.walk, walk, from, dest)
    case TileChanged(at, walk) => ChangedOnlyAt(s.walk, walk, at, at)
  }

  function After(s: State, e: Event): State {
    match e
    case Moved(pos, teleport, walk) =>
      var refresh := teleport || s.pos.z != pos.z;
      State(OwnMove(s.g, walk, s.pos, pos, teleport), pos, walk, if refresh then {} else StaleAfter(s.stale, s.pos, pos))
    case OtherMoved(from, dest, walk) => State(OtherMove(s.g, walk, s.pos, from, dest), s.pos, walk, s.stale)
    case TileChanged(at, walk) => State(Patched(s.g, walk, s.pos, at), s.pos, walk, s.stale)
  }

  function Run(s: State, events: seq<Event>): State {
    if events == [] then s else After(Run(s, events[..|events| - 1]), events[|events| - 1])
  }

  ghost predicate CanRun(s: State, events: seq<Event>) {
    events != [] ==>
      CanRun(s, events[..|events| - 1]) && CanHappen(Run(s, events[..|events| - 1]), events[|events| - 1])
  }

  /** Every row that is not stale is right. */
  ghost predicate Consistent(s: State) { forall r :: 0 <= r < HEIGHT && r !in s.stale ==> RowRight(s.g, s.walk, s.pos, r) }

  lemma OtherMoveKeepsRow(g: Grid, before: World, walk: World, pos: Position, from: Position, dest: Position, r: int)
    requires 0 <= r < HEIGHT && RowRight(g, before, pos, r) && ChangedOnlyAt(before, walk, from, dest)
    ensures RowRight(OtherMove(g, walk, pos, from, dest), walk, pos, r)
  {
    forall c | InWindow(r, c) && !Centre(r, c) && CellOnMap(pos, r, c)
      ensures OtherMove(g, walk, pos, from, dest)[r][c] == Truth(walk, pos, r, c)
    {
      PatchedCell(g, walk, pos, dest, r, c);
      PatchedCell(Patched(g, walk, pos, dest), walk, pos, from, r, c);
      TruthIsShown(walk, pos, r, c);
      TruthIsShown(before, pos, r, c);
    }
  }

  lemma StepKeepsConsistent(s: State, pos: Position, walk: World)
    requires Consistent(s) && OneStep(s.pos, pos) && ChangedOnlyAt(s.walk, walk, s.pos, pos)
    ensures Consistent(State(Stepped(s.g, walk, s.pos, pos), pos, walk, StaleAfter(s.stale, s.pos, pos)))
  {
    hide Stepped, RowRight, ChangedOnlyAt;
    var stale := StaleAfter(s.stale, s.pos, pos);
    forall r | 0 <= r < HEIGHT && r !in stale
      ensures RowRight(Stepped(s.g, walk, s.pos, pos), walk, pos, r)
    {
      StepKeepsRow(s.g, s.walk, walk, s.pos, pos, r);
    }
  }

  lemma EventKeepsConsistent(s: State, e: Event)
    requires Consistent(s) && CanHappen(s, e)
    ensures Consistent(After(s, e))
  {
    hide RowRight, Stepped, Patched, OtherMove, Refreshed, ChangedOnlyAt, StaleAfter;
    match e
    case Moved(pos, teleport, walk) =>
      if teleport || s.pos.z != pos.z {
        RefreshIsRight(s.g, walk, pos);
      } else {
        StepKeepsConsistent(s, pos, walk);
      }
    case OtherMoved(from, dest, walk) =>
      forall r | 0 <= r < HEIGHT && r !in s.stale
        ensures RowRight(OtherMove(s.g, walk, s.pos, from, dest), walk, s.pos, r)
      {
        OtherMoveKeepsRow(s.g, s.walk, walk, s.pos, from, dest, r);
      }
    case TileChanged(at, walk) =>
      forall r | 0 <= r < HEIGHT && r !in s.stale
        ensures RowRight(Patched(s.g, walk, s.pos, at), walk, s.pos, r)
      {
        PatchKeepsRow(s.g, s.walk, walk, s.pos, at, at, r);
      }
  }

  /**
    Over every run each row is right that no south-diagonal step since the last refresh has spoiled on its way
    through the window; without such a step that is the whole cache.
   */
  lemma {:induction false} RunKeepsCacheRight(s: State, events: seq<Event>)
    requires Right(s.g, s.walk, s.pos) && s.stale == {} && CanRun(s, events)
    ensures Consistent(Run(s, events))
    ensures Run(s, events).stale == {} ==> Right(Run(s, events).g, Run(s, events).walk, Run(s, events).pos)
  {
    hide RowRight, CanHappen, After;
    if events != [] {
      RunKeepsCacheRight(s, events[..|events| - 1]);
      EventKeepsConsistent(Run(s, events[..|events| - 1]), events[|events| - 1]);
    }
  }

  /** The event is no south-diagonal step; teleports and changes of floor read the whole window anyway. */
  predicate Spares(s: State, e: Event) {
    e.Moved? && !e.teleport && s.pos.z == e.pos.z ==> !SouthDiagonal(s.pos, e.pos)
  }

  predicate AllSpare(s: State, events: seq<Event>) {
    events != [] ==> AllSpare(s, events[..|events| - 1]) && Spares(Run(s, events[..|events| - 1]), events[|events| - 1])
  }

  /**
    How far the damage of one south-diagonal step can spread: whatever happens afterwards, short of another such
    step, only the two rows of the map that were then first and last in the window can be shown wrongly.
   */
  lemma {:induction false} DamageStaysInTwoRows(s: State, pos: Position, walk: World, events: seq<Event>, r: int)
    requires Right(s.g, s.walk, s.pos) && s.stale == {} && OneStep(s.pos, pos) && ChangedOnlyAt(s.walk, walk, s.pos, pos)
    requires var hit := After(s, Moved(pos, false, walk)); CanRun(hit, events) && AllSpare(hit, events)
    requires 0 <= r < HEIGHT
    ensures var e := Run(After(s, Moved(pos, false, walk)), events);
            e.pos.y + r == pos.y || e.pos.y + r == pos.y + HEIGHT - 1 || RowRight(e.g, e.walk, e.pos, r)
  {
    var hit := After(s, Moved(pos, false, walk));
    hide RowRight, Stepped, ChangedOnlyAt;
    StepKeepsConsistent(s, pos, walk);
    StaysConsistent(hit, events);
    StaleRows(hit, pos, events, r);
  }

  lemma {:induction false} StaysConsistent(s: State, events: seq<Event>)
    requires Consistent(s) && CanRun(s, events)
    ensures Consistent(Run(s, events))
  {
    hide RowRight, CanHappen, After, Consistent;
    if events != [] {
      StaysConsistent(s, events[..|events| - 1]);
      EventKeepsConsistent(Run(s, events[..|events| - 1]), events[|events| - 1]);
    }
  }

  /** A stale row was stale before, where it was then. */
  lemma StaleBefore(s: State, e: Event, r: int)
    requires Spares(s, e) && r in After(s, e).stale
    ensures r + After(s, e).pos.y - s.pos.y in s.stale
  {
    hide OwnMove, OtherMove, Patched;
  }

  lemma {:induction false} StaleRows(s: State, pos: Position, events: seq<Event>, r: int)
    requires forall q :: q in s.stale ==> s.pos.y + q == pos.y || s.pos.y + q == pos.y + HEIGHT - 1
    requires AllSpare(s, events)
    ensures var e := Run(s, events); r in e.stale ==> e.pos.y + r == pos.y || e.pos.y + r == pos.y + HEIGHT - 1
  {
    hide After, Spares;
    if events != [] {
      var before, e := Run(s, events[..|events| - 1]), events[|events| - 1];
      if r in After(before, e).stale {
        StaleBefore(before, e, r);
        StaleRows(s, pos, events[..|events| - 1], r + After(before, e).pos.y - before.pos.y);
      }
    }
  }

  /** So in such a state the answer about any other tile in reach is the truth about it. */
  lemma AnswersAreTrue(s: State, pos: Position)
    requires Right(s.g, s.walk, s.pos) && pos != s.pos && pos.z == s.pos.z
    ensures var answer := WalkAnswer(s.g, true, s.pos, pos);
            && (answer == 2 <==> Abs(pos.x - s.pos.x) > REACH_X || Abs(pos.y - s.pos.y) > REACH_Y)
            && (answer != 2 ==> (answer == 1 <==> s.walk(pos)))
  {
    var r, c := REACH_Y + pos.y - s.pos.y, REACH_X + pos.x - s.pos.x;
    if InWindow(r, c) {
      assert RowRight(s.g, s.walk, s.pos, r);
      TruthIsShown(s.walk, s.pos, r, c);
      assert Shown(s.pos, r, c) == pos;
    }
  }
}
