/** The layout half of MCSweepEnv (test/mc_onefloor_model_realtime.py): the
    configuration, the grid painted by the constructor, the door list and
    the patrol order. Grid cells are addressed (row y, column x) as in the
    source's numpy array. */
module SweepLayout {
  import opened Wrappers

  /** MCConfig, without the fields only the driver loop reads (max_steps
      and the random seed). */
  datatype Config = Config(
    h: int, w: int, corridorY: int, roomXs: seq<int>, roomDepth: int, roomWidth: int,
    exit0: int, exit1: int, dwellK: int, nOccupants: int)

  /** The dataclass defaults. */
  function DefaultConfig(): Config {
    Config(15, 45, 7, [9, 21, 33], 3, 5, 1, 43, 8, 3)
  }

  /** The cell codes. */
  const OUTSIDE: int := 0
  const CORRIDOR: int := 1
  const ROOM: int := 2
  const EXIT: int := 3

  /** A grid position (row, column). */
  datatype Cell = Cell(y: int, x: int)

  /** The position an integer index denotes in a numpy axis of length `n`:
      negative indices count from the end; anything else raises IndexError. */
  function PyIndex(i: int, n: int): (r: Option<nat>)
    ensures r.Some? <==> -n <= i < n
    ensures r.Some? ==> r.value < n && (r.value == i || r.value == i + n)
  {
    if 0 <= i < n then Some(i)
    else if -n <= i < 0 then Some(i + n)
    else None
  }

  type Grid = seq<seq<int>>

  /** Every row has `w` cells. */
  predicate Shape(g: Grid, w: int) {
    forall r :: 0 <= r < |g| ==> |g[r]| == w
  }

  // ---------------------------------------------------------------------
  // The closed-form layout
  // ---------------------------------------------------------------------

  /** room_width // 2, never negative. */
  function HalfWidth(c: Config): nat {
    if c.roomWidth / 2 < 0 then 0 else c.roomWidth / 2
  }

  /** The room centred on column `rx` covers (r, x): a row within
      room_depth of the corridor row, on either side, and a column within
      the half width of `rx`. The rows are measured from corridor_y as
      written, before any negative-index wrap. */
  predicate RoomCovers(c: Config, rx: int, r: int, x: int) {
    (1 <= c.corridorY - r <= c.roomDepth || 1 <= r - c.corridorY <= c.roomDepth)
    && rx - HalfWidth(c) <= x <= rx + HalfWidth(c)
  }

  /** Some room of the list covers (r, x). */
  predicate InAnyRoom(c: Config, xs: seq<int>, r: int, x: int)
    decreases |xs|
  {
    xs != [] && (RoomCovers(c, xs[0], r, x) || InAnyRoom(c, xs[1..], r, x))
  }

  lemma {:induction false} InAnyRoomExists(c: Config, xs: seq<int>, r: int, x: int)
    ensures InAnyRoom(c, xs, r, x) <==> exists i :: 0 <= i < |xs| && RoomCovers(c, xs[i], r, x)
    decreases |xs|
  {
    if xs != [] {
      InAnyRoomExists(c, xs[1..], r, x);
      if exists i :: 0 <= i < |xs| && RoomCovers(c, xs[i], r, x) {
        var i :| 0 <= i < |xs| && RoomCovers(c, xs[i], r, x);
        if i > 0 {
          assert xs[1..][i - 1] == xs[i];
        }
      }
      if InAnyRoom(c, xs[1..], r, x) {
        var i :| 0 <= i < |xs[1..]| && RoomCovers(c, xs[1..][i], r, x);
        assert xs[i + 1] == xs[1..][i];
      }
    }
  }

  /** The code of cell (r, x) in the finished grid, given the wrapped
      corridor row and exit columns: rooms are painted last, so they win;
      otherwise the corridor row holds corridor and the two exits. */
  function CellCode(c: Config, cy: nat, e0: nat, e1: nat, r: int, x: int): int {
    if InAnyRoom(c, c.roomXs, r, x) then ROOM
    else if r == cy then (if x == e0 || x == e1 then EXIT else CORRIDOR)
    else OUTSIDE
  }

  // ---------------------------------------------------------------------
  // Painting, as the constructor does it
  // ---------------------------------------------------------------------

  /** The all-zero grid. */
  function Zeros(h: nat, w: nat): (g: Grid)
    ensures |g| == h && Shape(g, w)
    ensures forall r, x :: 0 <= r < h && 0 <= x < w ==> g[r][x] == OUTSIDE
  {
    seq(h, _ => seq(w, _ => OUTSIDE))
  }

  /** One guarded write: cells outside the grid are skipped. */
  function PaintCell(g: Grid, w: int, r: int, x: int, v: int): (g': Grid)
    requires Shape(g, w)
    ensures |g'| == |g| && Shape(g', w)
    ensures forall r', x' :: 0 <= r' < |g| && 0 <= x' < w ==>
      g'[r'][x'] == if r' == r && x' == x then v else g[r'][x']
  {
    if 0 <= r < |g| && 0 <= x < w then g[r := g[r][x := v]] else g
  }

  /** Paints columns lo..hi of row `r` with `v`, left to right, skipping
      the ones outside the grid. */
  function PaintSpan(g: Grid, w: int, r: int, lo: int, hi: int, v: int): (g': Grid)
    requires Shape(g, w)
    ensures |g'| == |g| && Shape(g', w)
    ensures forall r', x' :: 0 <= r' < |g| && 0 <= x' < w ==>
      g'[r'][x'] == if r' == r && lo <= x' <= hi then v else g[r'][x']
    decreases hi - lo + 1
  {
    if lo > hi then g else PaintSpan(PaintCell(g, w, r, lo, v), w, r, lo + 1, hi, v)
  }

  /** The distance of row `r` from the corridor on one side. */
  function Away(c: Config, r: int, top: bool): int {
    if top then c.corridorY - r else r - c.corridorY
  }

  /** Paints rows d..room_depth away from the corridor on one side, over
      the columns of the room centred on `rx`. */
  function PaintRows(g: Grid, c: Config, rx: int, top: bool, d: int): (g': Grid)
    requires Shape(g, c.w)
    ensures |g'| == |g| && Shape(g', c.w)
    ensures forall r', x' :: 0 <= r' < |g| && 0 <= x' < c.w ==>
      g'[r'][x'] == if d <= Away(c, r', top) <= c.roomDepth && rx - HalfWidth(c) <= x' <= rx + HalfWidth(c) then ROOM else g[r'][x']
    decreases c.roomDepth - d + 1
  {
    if d > c.roomDepth then g
    else
      var yy := if top then c.corridorY - d else c.corridorY + d;
      var g1 := if 0 <= yy < |g| then PaintSpan(g, c.w, yy, rx - HalfWidth(c), rx + HalfWidth(c), ROOM) else g;
      PaintRows(g1, c, rx, top, d + 1)
  }

  /** One room: the rows above the corridor, then the rows below. */
  function PaintRoom(g: Grid, c: Config, rx: int): (g': Grid)
    requires Shape(g, c.w)
    ensures |g'| == |g| && Shape(g', c.w)
    ensures forall r', x' :: 0 <= r' < |g| && 0 <= x' < c.w ==>
      g'[r'][x'] == if RoomCovers(c, rx, r', x') then ROOM else g[r'][x']
  {
    PaintRows(PaintRows(g, c, rx, true, 1), c, rx, false, 1)
  }

  /** Every room of the list, in order. */
  function PaintRooms(g: Grid, c: Config, xs: seq<int>): (g': Grid)
    requires Shape(g, c.w)
    ensures |g'| == |g| && Shape(g', c.w)
    ensures forall r', x' :: 0 <= r' < |g| && 0 <= x' < c.w ==>
      g'[r'][x'] == if InAnyRoom(c, xs, r', x') then ROOM else g[r'][x']
    decreases |xs|
  {
    if xs == [] then g else PaintRooms(PaintRoom(g, c, xs[0]), c, xs[1..])
  }

  /** The corridor row and exits, before any room: the state after the
      first three writes of the constructor. */
  function CorridorGrid(h: nat, w: nat, cy: nat, e0: nat, e1: nat): (g: Grid)
    requires cy < h && e0 < w && e1 < w
    ensures |g| == h && Shape(g, w)
    ensures forall r, x :: 0 <= r < h && 0 <= x < w ==>
      g[r][x] == if r == cy then (if x == e0 || x == e1 then EXIT else CORRIDOR) else OUTSIDE
  {
    var g0 := Zeros(h, w);
    var g1 := g0[cy := seq(w, _ => CORRIDOR)];
    var g2 := PaintCell(g1, w, cy, e0, EXIT);
    PaintCell(g2, w, cy, e1, EXIT)
  }

  /** The constructor's grid, or None where it raises: a negative
      dimension, or a corridor row or exit column outside the array. */
  function BuildGrid(c: Config): (r: Option<Grid>)
    ensures r.None? <==> c.h < 0 || c.w < 0 || PyIndex(c.corridorY, c.h).None?
                         || PyIndex(c.exit0, c.w).None? || PyIndex(c.exit1, c.w).None?
    // the painted grid is the closed-form layout, cell by cell
    ensures r.Some? ==>
      |r.value| == c.h && Shape(r.value, c.w)
      && forall y, x :: 0 <= y < c.h && 0 <= x < c.w ==>
           r.value[y][x] == CellCode(c, PyIndex(c.corridorY, c.h).value, PyIndex(c.exit0, c.w).value, PyIndex(c.exit1, c.w).value, y, x)
  {
    if c.h < 0 || c.w < 0 then None
    else
      match (PyIndex(c.corridorY, c.h), PyIndex(c.exit0, c.w), PyIndex(c.exit1, c.w))
      case (Some(cy), Some(e0), Some(e1)) =>
        Some(PaintRooms(CorridorGrid(c.h, c.w, cy, e0, e1), c, c.roomXs))
      case _ => None
  }

  /** Every cell holds one of the four codes; a room cell lies within
      room_depth rows of the corridor and within the half width of some
      room column; and, with the corridor row given as a plain in-range
      index, that row is corridor except for the two exit columns. */
  lemma LayoutCells(c: Config, g: Grid, y: int, x: int)
    requires BuildGrid(c) == Some(g) && 0 <= y < c.h && 0 <= x < c.w
    ensures OUTSIDE <= g[y][x] <= EXIT
    ensures g[y][x] == ROOM <==>
      exists i :: 0 <= i < |c.roomXs| && 1 <= (if y < c.corridorY then c.corridorY - y else y - c.corridorY) <= c.roomDepth
                  && c.roomXs[i] - HalfWidth(c) <= x <= c.roomXs[i] + HalfWidth(c)
    ensures 0 <= c.corridorY < c.h && y == c.corridorY ==>
      g[y][x] == (if x == PyIndex(c.exit0, c.w).value || x == PyIndex(c.exit1, c.w).value then EXIT else CORRIDOR)
  {
    InAnyRoomExists(c, c.roomXs, y, x);
    if exists i :: 0 <= i < |c.roomXs| && RoomCovers(c, c.roomXs[i], y, x) {
      var i :| 0 <= i < |c.roomXs| && RoomCovers(c, c.roomXs[i], y, x);
    }
  }

  // ---------------------------------------------------------------------
  // Doors and the patrol order
  // ---------------------------------------------------------------------

  /** The cells one row off the corridor on one side, one per room column. */
  function DoorRow(y: int, xs: seq<int>): (d: seq<Cell>)
    ensures |d| == |xs| && forall i :: 0 <= i < |xs| ==> d[i] == Cell(y, xs[i])
  {
    seq(|xs|, i requires 0 <= i < |xs| => Cell(y, xs[i]))
  }

  function Reverse<T>(s: seq<T>): (r: seq<T>)
    ensures |r| == |s| && forall i :: 0 <= i < |s| ==> r[i] == s[|s| - 1 - i]
  {
    seq(|s|, i requires 0 <= i < |s| => s[|s| - 1 - i])
  }

  lemma {:induction false} ReversePermutes<T>(s: seq<T>)
    ensures multiset(Reverse(s)) == multiset(s)
    decreases |s|
  {
    if s != [] {
      var n := |s|;
      ReversePermutes(s[..n - 1]);
      assert Reverse(s) == [s[n - 1]] + Reverse(s[..n - 1]);
      assert s == s[..n - 1] + [s[n - 1]];
    }
  }

  /** The doors: the top-side cells left to right in room order, then the
      bottom-side cells in the same order. */
  function Doors(c: Config): (d: seq<Cell>)
    ensures |d| == 2 * |c.roomXs|
    ensures forall i :: 0 <= i < |c.roomXs| ==>
      d[i] == Cell(c.corridorY - 1, c.roomXs[i]) && d[|c.roomXs| + i] == Cell(c.corridorY + 1, c.roomXs[i])
  {
    DoorRow(c.corridorY - 1, c.roomXs) + DoorRow(c.corridorY + 1, c.roomXs)
  }

  /** The patrol: the top doors in room order, then the bottom doors in
      reverse room order. */
  function Patrol(c: Config): (p: seq<Cell>)
    ensures |p| == 2 * |c.roomXs|
    ensures forall i :: 0 <= i < |c.roomXs| ==> p[i] == Cell(c.corridorY - 1, c.roomXs[i])
    ensures forall i :: |c.roomXs| <= i < 2 * |c.roomXs| ==>
      p[i] == Cell(c.corridorY + 1, c.roomXs[2 * |c.roomXs| - 1 - i])
  {
    DoorRow(c.corridorY - 1, c.roomXs) + DoorRow(c.corridorY + 1, Reverse(c.roomXs))
  }

  /** The patrol visits the top doors in door order and the bottom doors
      backwards. */
  lemma PatrolOrder(c: Config)
    ensures var n := |c.roomXs|;
      && (forall i :: 0 <= i < n ==> Patrol(c)[i] == Doors(c)[i])
      && (forall i :: n <= i < 2 * n ==> Patrol(c)[i] == Doors(c)[3 * n - 1 - i])
  {
    var n := |c.roomXs|;
    var p := Patrol(c);
    var d := Doors(c);
    var rev := Reverse(c.roomXs);
    forall i | n <= i < 2 * n ensures p[i] == d[3 * n - 1 - i] {
      assert p[i] == DoorRow(c.corridorY + 1, rev)[i - n];
      assert d[3 * n - 1 - i] == DoorRow(c.corridorY + 1, c.roomXs)[2 * n - 1 - i];
    }
  }

  lemma DoorRowReverse(y: int, xs: seq<int>)
    ensures DoorRow(y, Reverse(xs)) == Reverse(DoorRow(y, xs))
  {
  }

  /** The patrol is a rearrangement of the door list: every door is
      visited exactly once per round. */
  lemma PatrolPermutesDoors(c: Config)
    ensures multiset(Patrol(c)) == multiset(Doors(c))
  {
    var top := DoorRow(c.corridorY - 1, c.roomXs);
    var bottom := DoorRow(c.corridorY + 1, c.roomXs);
    var rev := DoorRow(c.corridorY + 1, Reverse(c.roomXs));
    assert Patrol(c) == top + rev;
    assert Doors(c) == top + bottom;
    DoorRowReverse(c.corridorY + 1, c.roomXs);
    ReversePermutes(bottom);
    assert multiset(rev) == multiset(bottom);
  }

  /** With rooms at least one row deep, every door that lies inside the
      grid is a room cell, so the patrol only targets walkable cells. */
  lemma DoorsAreRoomCells(c: Config, g: Grid, i: int)
    requires BuildGrid(c) == Some(g) && c.roomDepth >= 1 && 0 <= i < |Doors(c)|
    requires 0 <= Doors(c)[i].y < c.h && 0 <= Doors(c)[i].x < c.w
    ensures g[Doors(c)[i].y][Doors(c)[i].x] == ROOM
  {
    var n := |c.roomXs|;
    var k := if i < n then i else i - n;
    assert Doors(c)[i].x == c.roomXs[k];
    assert RoomCovers(c, c.roomXs[k], Doors(c)[i].y, Doors(c)[i].x);
    InAnyRoomExists(c, c.roomXs, Doors(c)[i].y, Doors(c)[i].x);
  }
}
