/** Layout description, world alignment and the primitive world-editing
    commands of the building generator (src/main.js).

    Layout coordinates are local; every emitted coordinate is `local + shift`,
    where the shift is computed ONCE, at startup, so that the corridor's
    midpoint lands on the configured origin. Arithmetic note: the source's
    `Math.floor(a / 2)` equals Dafny's `a / 2` for every integer `a`, because
    Dafny's division by a positive divisor rounds toward negative infinity. */
module Geometry {
  import opened Wrappers

  // ---------------------------------------------------------------------------
  // Layout description (the JSON building configuration, already parsed)
  // ---------------------------------------------------------------------------

  /** A layout-local rectangle of `w` columns from `x` and `h` rows from `z`. */
  datatype Rect = Rect(x: int, z: int, w: int, h: int)

  datatype Room = Room(rect: Rect, block: string)

  datatype Frame = Frame(x1: int, z1: int, x2: int, z2: int)

  /** `doors` of the configuration; every field may be absent. */
  datatype DoorSpec = DoorSpec(topZ: Option<int>, bottomZ: Option<int>, xs: Option<seq<int>>)

  /** `wall` of the configuration; every field may be absent. */
  datatype WallSpec = WallSpec(material: Option<string>, height: Option<int>)

  datatype Layout = Layout(
    frame: Frame,
    corridor: Rect,
    roomsTop: seq<Room>,
    roomsBottom: seq<Room>,
    doors: Option<DoorSpec>,
    wall: Option<WallSpec>,
    corridorFloor: Option<string>,
    exitMarker: Option<string>)

  /** Environment-derived settings: CMD_DELAY_MS, CMD_HEAVY_PAD_MS, ORIGIN_X, ORIGIN_Z. */
  datatype Settings = Settings(cmdDelay: nat, heavyPad: nat, originX: int, originZ: int)

  const DOOR_WIDTH: int := 1
  const DOOR_HEIGHT: int := 2
  const DOOR_PAD_MS: nat := 200
  /** Delay used for teleports, the clearance setblock and villager moves. */
  const SLOW_PAD_MS: nat := 800
  const DEFAULT_DOOR_XS: seq<int> := [20, 52, 84]

  /** JavaScript's `s || fallback` for a possibly absent string: the empty string is falsy. */
  function StrOr(o: Option<string>, fallback: string): string {
    match o
    case Some(s) => if s == "" then fallback else s
    case None => fallback
  }

  /** JavaScript's `n || fallback` for a possibly absent number: zero is falsy. */
  function IntOr(o: Option<int>, fallback: int): int {
    match o
    case Some(n) => if n == 0 then fallback else n
    case None => fallback
  }

  /** `CONF.doors?.topZ ?? 24` */
  function TopZ(l: Layout): int {
    match l.doors
    case Some(d) => d.topZ.GetOr(24)
    case None => 24
  }

  /** `CONF.doors?.bottomZ ?? 15` */
  function BottomZ(l: Layout): int {
    match l.doors
    case Some(d) => d.bottomZ.GetOr(15)
    case None => 15
  }

  /** DOOR_XS: the configured list when `doors.xs` is an array, else [20, 52, 84]. */
  function DoorXs(l: Layout): seq<int> {
    match l.doors
    case Some(d) => d.xs.GetOr(DEFAULT_DOOR_XS)
    case None => DEFAULT_DOOR_XS
  }

  function WallMaterial(l: Layout): string {
    match l.wall
    case Some(w) => StrOr(w.material, "white_concrete")
    case None => "white_concrete"
  }

  function WallHeight(l: Layout): int {
    match l.wall
    case Some(w) => IntOr(w.height, 3)
    case None => 3
  }

  function CorridorFloor(l: Layout): string { StrOr(l.corridorFloor, "white_concrete") }

  function ExitMarker(l: Layout): string { StrOr(l.exitMarker, "green_wool") }

  /** The built-in layout used when no configuration file can be read. */
  const DefaultLayout: Layout := Layout(
    Frame(0, 0, 100, 40),
    Rect(5, 16, 90, 8),
    [Room(Rect(8, 24, 24, 12), "orange_wool"),
     Room(Rect(40, 24, 24, 12), "green_wool"),
     Room(Rect(72, 24, 24, 12), "pink_wool")],
    [Room(Rect(8, 1, 24, 15), "cyan_wool"),
     Room(Rect(40, 1, 24, 15), "purple_wool"),
     Room(Rect(72, 1, 24, 15), "blue_wool")],
    Some(DoorSpec(Some(24), Some(15), Some([20, 52, 84]))),
    Some(WallSpec(Some("white_concrete"), Some(3))),
    Some("white_concrete"),
    Some("green_wool"))

  // ---------------------------------------------------------------------------
  // World alignment
  // ---------------------------------------------------------------------------

  /** MID_X: the corridor's middle column, `floor((2x + w) / 2)`. */
  function MidX(c: Rect): int { (c.x * 2 + c.w) / 2 }

  /** MID_Z: the corridor's middle row, `z + floor(h / 2)`. */
  function MidZ(c: Rect): int { c.z + c.h / 2 }

  /** The constants fixed once at startup from the layout loaded then. */
  datatype Anchors = Anchors(
    shiftX: int, shiftZ: int,
    spawnX: int, spawnZ: int,
    topWallZ: int, botWallZ: int)

  function ComputeAnchors(l: Layout, s: Settings): (a: Anchors)
    // the corridor midpoint is carried onto the origin, which is the sync point
    ensures MidX(l.corridor) + a.shiftX == a.spawnX == s.originX
    ensures MidZ(l.corridor) + a.shiftZ == a.spawnZ == s.originZ
    // the room walls carrying doors are shifted like every other coordinate
    ensures a.topWallZ - a.shiftZ == TopZ(l) && a.botWallZ - a.shiftZ == BottomZ(l)
  {
    var midX := MidX(l.corridor);
    var midZ := MidZ(l.corridor);
    var shiftX := s.originX - midX;
    var shiftZ := s.originZ - midZ;
    Anchors(shiftX, shiftZ, midX + shiftX, midZ + shiftZ,
            TopZ(l) + shiftZ, BottomZ(l) + shiftZ)
  }

  function ToWorld(a: Anchors, x: int, z: int): (int, int) { (x + a.shiftX, z + a.shiftZ) }

  function ToLocal(a: Anchors, x: int, z: int): (int, int) { (x - a.shiftX, z - a.shiftZ) }

  lemma ShiftRoundTrip(a: Anchors, x: int, z: int)
    ensures var (wx, wz) := ToWorld(a, x, z); ToLocal(a, wx, wz) == (x, z)
    ensures var (lx, lz) := ToLocal(a, x, z); ToWorld(a, lx, lz) == (x, z)
  {
  }

  // ---------------------------------------------------------------------------
  // Derived geometry (recomputeDerived)
  // ---------------------------------------------------------------------------

  datatype Point3 = Point3(x: int, y: int, z: int)

  datatype Derived = Derived(spawnY: int, patrol: seq<Point3>, exits: seq<Point3>)

  function DoorRow(xs: seq<int>, shiftX: int, y: int, z: int): seq<Point3> {
    seq(|xs|, i requires 0 <= i < |xs| => Point3(xs[i] + shiftX, y, z))
  }

  /** SPAWN_Y, DOOR_POS/PATROL and EXITS for construction layer `layoutY`.
      TOP_DOOR_Z_CORRIDOR and BOT_DOOR_Z_CORRIDOR are the rows one block on the
      corridor side of the two door walls. */
  function RecomputeDerived(l: Layout, a: Anchors, layoutY: int): (d: Derived)
    ensures d.spawnY == layoutY + 1
    ensures |d.patrol| == 2 * |DoorXs(l)|
    ensures forall i :: 0 <= i < |DoorXs(l)| ==>
              d.patrol[i] == Point3(DoorXs(l)[i] + a.shiftX, layoutY, a.topWallZ - 1)
    ensures forall i :: 0 <= i < |DoorXs(l)| ==>
              d.patrol[|DoorXs(l)| + i] == Point3(DoorXs(l)[i] + a.shiftX, layoutY, a.botWallZ + 1)
    ensures |d.exits| == 2
    // the exits are the first and last corridor columns, on the corridor's middle row
    ensures d.exits[0] == Point3(l.corridor.x + a.shiftX, layoutY, MidZ(l.corridor) + a.shiftZ)
    ensures d.exits[1] == d.exits[0].(x := d.exits[0].x + l.corridor.w - 1)
  {
    var xs := DoorXs(l);
    var midRow := l.corridor.z + l.corridor.h / 2 + a.shiftZ;
    Derived(
      layoutY + 1,
      DoorRow(xs, a.shiftX, layoutY, a.topWallZ - 1) + DoorRow(xs, a.shiftX, layoutY, a.botWallZ + 1),
      [Point3(l.corridor.x + a.shiftX, layoutY, midRow),
       Point3(l.corridor.x + l.corridor.w - 1 + a.shiftX, layoutY, midRow)])
  }

  /** For the built-in layout, whatever the origin: the corridor centre (50, 20)
      maps onto the origin, every patrol point lies inside the corridor, and
      the exits are its end columns x = 5 and x = 94 on row z = 20. */
  lemma DefaultLayoutAlignment(s: Settings, layoutY: int)
    ensures var a := ComputeAnchors(DefaultLayout, s);
            a.shiftX == s.originX - 50 && a.shiftZ == s.originZ - 20
    ensures var a := ComputeAnchors(DefaultLayout, s);
            var d := RecomputeDerived(DefaultLayout, a, layoutY);
            |d.patrol| == 6
            && forall i :: 0 <= i < |d.patrol| ==>
                 InRect(DefaultLayout.corridor, d.patrol[i].x - a.shiftX, d.patrol[i].z - a.shiftZ)
    ensures var a := ComputeAnchors(DefaultLayout, s);
            var d := RecomputeDerived(DefaultLayout, a, layoutY);
            ToLocal(a, d.exits[0].x, d.exits[0].z) == (5, 20)
            && ToLocal(a, d.exits[1].x, d.exits[1].z) == (94, 20)
  {
    var a := ComputeAnchors(DefaultLayout, s);
    var d := RecomputeDerived(DefaultLayout, a, layoutY);
    assert DoorXs(DefaultLayout) == [20, 52, 84];
    forall i | 0 <= i < |d.patrol|
      ensures InRect(DefaultLayout.corridor, d.patrol[i].x - a.shiftX, d.patrol[i].z - a.shiftZ)
    {
      var k := if i < 3 then i else i - 3;
      assert d.patrol[i].x - a.shiftX == DoorXs(DefaultLayout)[k];
    }
  }

  // ---------------------------------------------------------------------------
  // Commands
  // ---------------------------------------------------------------------------

  /** The two corners of a `fill`; the filled region is the box they span,
      whichever order they are given in. */
  datatype Box = Box(x1: int, y1: int, z1: int, x2: int, y2: int, z2: int)

  datatype Cmd =
    | Fill(box: Box, block: string)
    | SetBlock(at: Point3, block: string)
    | Tp(to: Point3)
      /** `tp @e[type=villager,limit=1,sort=nearest,x=..,y=..,z=..] X Y Z` */
    | TpVillager(near: Point3, to: Point3)

  /** A command together with the pause the command lane takes after it. */
  datatype Queued = Queued(cmd: Cmd, delay: nat)

  predicate Between(a: int, b: int, v: int) { (a <= v <= b) || (b <= v <= a) }

  /** The world cell (x, y, z) lies in the region a `fill` with box `b` writes. */
  predicate Covers(b: Box, x: int, y: int, z: int) {
    Between(b.x1, b.x2, x) && Between(b.y1, b.y2, y) && Between(b.z1, b.z2, z)
  }

  /** Some fill among `cs` writes the cell (x, y, z). */
  predicate FilledBy(cs: seq<Queued>, x: int, y: int, z: int) {
    exists i :: 0 <= i < |cs| && cs[i].cmd.Fill? && Covers(cs[i].cmd.box, x, y, z)
  }

  /** The local cell (x, z) lies inside rectangle `r`. */
  predicate InRect(r: Rect, x: int, z: int) {
    r.x <= x < r.x + r.w && r.z <= z < r.z + r.h
  }

  /** The local cell (x, z) lies on the outermost ring of rectangle `r`. */
  predicate OnBorder(r: Rect, x: int, z: int) {
    InRect(r, x, z) && (x == r.x || x == r.x + r.w - 1 || z == r.z || z == r.z + r.h - 1)
  }

  /** fillRect: one floor layer over the shifted rectangle. */
  function FillRect(a: Anchors, layoutY: int, delay: nat, r: Rect, block: string): (q: Queued)
    ensures q.cmd.Fill? && q.cmd.block == block && q.delay == delay
    ensures q.cmd.box.x2 - q.cmd.box.x1 + 1 == r.w && q.cmd.box.z2 - q.cmd.box.z1 + 1 == r.h
    ensures r.w >= 1 && r.h >= 1 ==>
              forall x, y, z :: Covers(q.cmd.box, x, y, z) <==>
                y == layoutY && InRect(r, x - a.shiftX, z - a.shiftZ)
  {
    var x1 := r.x + a.shiftX;
    var z1 := r.z + a.shiftZ;
    var x2 := r.x + r.w - 1 + a.shiftX;
    var z2 := r.z + r.h - 1 + a.shiftZ;
    Queued(Fill(Box(x1, layoutY, z1, x2, layoutY, z2), block), delay)
  }

  /** buildWalls: the four sides of the shifted rectangle, `height` blocks
      tall above the floor layer, with no roof. */
  function BuildWalls(a: Anchors, layoutY: int, delay: nat, r: Rect, material: string, height: int)
    : (ws: seq<Queued>)
    ensures |ws| == 4
    ensures forall i :: 0 <= i < 4 ==>
              ws[i].cmd.Fill? && ws[i].cmd.block == material && ws[i].delay == delay
    ensures r.w >= 1 && r.h >= 1 && height >= 1 ==>
              forall x, y, z :: FilledBy(ws, x, y, z) <==>
                layoutY + 1 <= y <= layoutY + height && OnBorder(r, x - a.shiftX, z - a.shiftZ)
  {
    var x1 := r.x + a.shiftX;
    var z1 := r.z + a.shiftZ;
    var x2 := r.x + r.w - 1 + a.shiftX;
    var z2 := r.z + r.h - 1 + a.shiftZ;
    var y1 := layoutY + 1;
    var y2 := layoutY + height;
    var ws := [
      Queued(Fill(Box(x1, y1, z1, x2, y2, z1), material), delay),
      Queued(Fill(Box(x1, y1, z2, x2, y2, z2), material), delay),
      Queued(Fill(Box(x1, y1, z1, x1, y2, z2), material), delay),
      Queued(Fill(Box(x2, y1, z1, x2, y2, z2), material), delay)];
    assert forall x, y, z :: FilledBy(ws, x, y, z) <==>
        (Covers(ws[0].cmd.box, x, y, z) || Covers(ws[1].cmd.box, x, y, z)
         || Covers(ws[2].cmd.box, x, y, z) || Covers(ws[3].cmd.box, x, y, z)) by {
      forall x, y, z | Covers(ws[0].cmd.box, x, y, z) || Covers(ws[1].cmd.box, x, y, z)
          || Covers(ws[2].cmd.box, x, y, z) || Covers(ws[3].cmd.box, x, y, z)
        ensures FilledBy(ws, x, y, z)
      {
        if Covers(ws[0].cmd.box, x, y, z) { assert ws[0].cmd.Fill?; }
        else if Covers(ws[1].cmd.box, x, y, z) { assert ws[1].cmd.Fill?; }
        else if Covers(ws[2].cmd.box, x, y, z) { assert ws[2].cmd.Fill?; }
        else { assert ws[3].cmd.Fill?; }
      }
    }
    ws
  }

  /** carveVerticalDoor: an air shaft `width` columns wide at wall row `z`,
      from the layer above the floor up to `height` blocks; an even width
      puts its extra column on the +x side of `x`. */
  function CarveDoor(layoutY: int, x: int, z: int, height: int, width: int): (q: Queued)
    ensures q.cmd.Fill? && q.cmd.block == "air" && q.delay == DOOR_PAD_MS
    ensures var b := q.cmd.box;
              b.z1 == b.z2 == z && b.y1 == layoutY + 1 && b.y2 == layoutY + height
    ensures var b := q.cmd.box;
              width >= 1 ==>
                b.x2 - b.x1 + 1 == width && b.x1 <= x <= b.x2
                && 0 <= (b.x2 - x) - (x - b.x1) <= 1
  {
    var xl := x - (width - 1) / 2;
    var xr := x + width / 2;
    Queued(Fill(Box(xl, layoutY + 1, z, xr, layoutY + height, z), "air"), DOOR_PAD_MS)
  }

  /** With the default door size the shaft is exactly column `x`, two blocks tall. */
  lemma DefaultDoorShaft(layoutY: int, x: int, z: int)
    ensures forall x', y, z' :: Covers(CarveDoor(layoutY, x, z, DOOR_HEIGHT, DOOR_WIDTH).cmd.box, x', y, z')
              <==> x' == x && z' == z && (y == layoutY + 1 || y == layoutY + 2)
  {
  }

  /** One carve per door column at wall row `z`, in the order of `xs`. */
  function CarveRow(layoutY: int, shiftX: int, z: int, xs: seq<int>): (r: seq<Queued>)
    ensures |r| == |xs|
    ensures forall i :: 0 <= i < |xs| ==> r[i] == CarveDoor(layoutY, xs[i] + shiftX, z, DOOR_HEIGHT, DOOR_WIDTH)
  {
    if xs == [] then []
    else [CarveDoor(layoutY, xs[0] + shiftX, z, DOOR_HEIGHT, DOOR_WIDTH)] + CarveRow(layoutY, shiftX, z, xs[1..])
  }

  /** carveAllDoors: every top-wall door in DOOR_XS order, then every bottom-wall door. */
  function CarveAllDoors(a: Anchors, layoutY: int, xs: seq<int>): (r: seq<Queued>)
    ensures |r| == 2 * |xs|
    ensures forall i :: 0 <= i < |xs| ==>
              r[i] == CarveDoor(layoutY, xs[i] + a.shiftX, a.topWallZ, DOOR_HEIGHT, DOOR_WIDTH)
              && r[|xs| + i] == CarveDoor(layoutY, xs[i] + a.shiftX, a.botWallZ, DOOR_HEIGHT, DOOR_WIDTH)
  {
    CarveRow(layoutY, a.shiftX, a.topWallZ, xs) + CarveRow(layoutY, a.shiftX, a.botWallZ, xs)
  }

  /** A fill list split in two writes a cell iff one of its halves does. */
  lemma FilledByConcat(cs: seq<Queued>, ds: seq<Queued>, x: int, y: int, z: int)
    ensures FilledBy(cs + ds, x, y, z) <==> FilledBy(cs, x, y, z) || FilledBy(ds, x, y, z)
  {
    var es := cs + ds;
    if FilledBy(es, x, y, z) {
      var j :| 0 <= j < |es| && es[j].cmd.Fill? && Covers(es[j].cmd.box, x, y, z);
      if j >= |cs| {
        assert ds[j - |cs|] == es[j];
      }
    }
    if FilledBy(cs, x, y, z) {
      var j :| 0 <= j < |cs| && cs[j].cmd.Fill? && Covers(cs[j].cmd.box, x, y, z);
      assert es[j] == cs[j];
    }
    if FilledBy(ds, x, y, z) {
      var j :| 0 <= j < |ds| && ds[j].cmd.Fill? && Covers(ds[j].cmd.box, x, y, z);
      assert es[|cs| + j] == ds[j];
    }
  }

  /** The cells one carve row writes: the two-high shafts of its columns. */
  lemma {:induction false} CarveRowCells(layoutY: int, shiftX: int, z: int, xs: seq<int>, x: int, y: int, z': int)
    ensures FilledBy(CarveRow(layoutY, shiftX, z, xs), x, y, z') <==>
              z' == z && (y == layoutY + 1 || y == layoutY + 2)
              && exists i :: 0 <= i < |xs| && x == xs[i] + shiftX
    decreases |xs|
  {
    if xs != [] {
      var head := [CarveDoor(layoutY, xs[0] + shiftX, z, DOOR_HEIGHT, DOOR_WIDTH)];
      var tail := CarveRow(layoutY, shiftX, z, xs[1..]);
      assert CarveRow(layoutY, shiftX, z, xs) == head + tail;
      FilledByConcat(head, tail, x, y, z');
      CarveRowCells(layoutY, shiftX, z, xs[1..], x, y, z');
      DefaultDoorShaft(layoutY, xs[0] + shiftX, z);
      assert FilledBy(head, x, y, z') <==> Covers(head[0].cmd.box, x, y, z');
      if exists i :: 0 <= i < |xs| && x == xs[i] + shiftX {
        var i :| 0 <= i < |xs| && x == xs[i] + shiftX;
        if i > 0 {
          assert xs[1..][i - 1] == xs[i];
        }
      }
      if exists i :: 0 <= i < |xs[1..]| && x == xs[1..][i] + shiftX {
        var i :| 0 <= i < |xs[1..]| && x == xs[1..][i] + shiftX;
        assert xs[i + 1] == xs[1..][i];
      }
    }
  }

  /** The cells carved by carveAllDoors are exactly the two-high shafts at
      the shifted door columns of both door walls; no other cell is touched. */
  lemma DoorShaftsExact(a: Anchors, layoutY: int, xs: seq<int>)
    ensures forall x, y, z :: FilledBy(CarveAllDoors(a, layoutY, xs), x, y, z) <==>
              (z == a.topWallZ || z == a.botWallZ) && (y == layoutY + 1 || y == layoutY + 2)
              && exists i :: 0 <= i < |xs| && x == xs[i] + a.shiftX
  {
    forall x, y, z
      ensures FilledBy(CarveAllDoors(a, layoutY, xs), x, y, z) <==>
                (z == a.topWallZ || z == a.botWallZ) && (y == layoutY + 1 || y == layoutY + 2)
                && exists i :: 0 <= i < |xs| && x == xs[i] + a.shiftX
    {
      FilledByConcat(CarveRow(layoutY, a.shiftX, a.topWallZ, xs), CarveRow(layoutY, a.shiftX, a.botWallZ, xs), x, y, z);
      CarveRowCells(layoutY, a.shiftX, a.topWallZ, xs, x, y, z);
      CarveRowCells(layoutY, a.shiftX, a.botWallZ, xs, x, y, z);
    }
  }
}
