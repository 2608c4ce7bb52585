/** buildLayout (src/main.js): the ordered command list that clears the
    previous and the current footprint, lays the corridor, raises the rooms,
    carves the doors, marks the exits and teleports the agent. */
module Build {
  import opened Wrappers
  import opened Geometry

  /** The record `last_build.json` holds between two builds. */
  datatype LastBuild = LastBuild(shiftX: int, shiftZ: int, layoutY: int)

  /** What buildLayout reads: the layout, the settings, the anchors fixed at
      startup and the current construction layer LAYOUT_Y. The derived
      geometry is always the one recomputed for this layer. */
  datatype Context = Context(layout: Layout, settings: Settings, anchors: Anchors, layoutY: int)

  /** The state after module load: anchors from the loaded layout and
      LAYOUT_Y = Y + BUILD_OFFSET. */
  function Startup(l: Layout, s: Settings, layoutY: int): Context {
    Context(l, s, ComputeAnchors(l, s), layoutY)
  }

  function Derive(c: Context): Derived {
    RecomputeDerived(c.layout, c.anchors, c.layoutY)
  }

  /** Air over the frame's footprint, from one above layer `y` to `y + 10`. */
  function FootprintAir(f: Frame, shiftX: int, shiftZ: int, y: int, delay: nat): Queued {
    Queued(Fill(Box(f.x1 + shiftX, y + 1, f.z1 + shiftZ, f.x2 + shiftX, y + 10, f.z2 + shiftZ), "air"), delay)
  }

  /** Grass over the frame's footprint at layer `y`. */
  function FootprintGround(f: Frame, shiftX: int, shiftZ: int, y: int, delay: nat): Queued {
    Queued(Fill(Box(f.x1 + shiftX, y, f.z1 + shiftZ, f.x2 + shiftX, y, f.z2 + shiftZ), "grass_block"), delay)
  }

  /** The cleanup of the previous build's footprint, when a record exists. */
  function PreviousCleanup(f: Frame, last: Option<LastBuild>, delay: nat): seq<Queued> {
    match last
    case Some(b) => [FootprintAir(f, b.shiftX, b.shiftZ, b.layoutY, delay),
                     FootprintGround(f, b.shiftX, b.shiftZ, b.layoutY, delay)]
    case None => []
  }

  /** One room: its floor, then its four walls. */
  function RoomCmds(a: Anchors, y: int, delay: nat, room: Room, material: string, height: int): seq<Queued> {
    [FillRect(a, y, delay, room.rect, room.block)] + BuildWalls(a, y, delay, room.rect, material, height)
  }

  /** A slice of the middle part of a three-part concatenation. */
  lemma SliceOfMiddle<T>(p: seq<T>, m: seq<T>, q: seq<T>, lo: int, hi: int)
    requires 0 <= lo <= hi <= |m|
    ensures (p + m + q)[|p| + lo .. |p| + hi] == m[lo..hi]
  {
    var s := p + m + q;
    assert |s[|p| + lo .. |p| + hi]| == hi - lo;
    forall j | 0 <= j < hi - lo
      ensures s[|p| + lo .. |p| + hi][j] == m[lo..hi][j]
    {
      assert s[|p| + lo + j] == m[lo + j];
    }
  }

  /** Every room of the list in order, five commands each. */
  function RoomsCmds(a: Anchors, y: int, delay: nat, rooms: seq<Room>, material: string, height: int)
    : (r: seq<Queued>)
    ensures |r| == 5 * |rooms|
    ensures forall i :: 0 <= i < |rooms| ==>
              r[5 * i .. 5 * i + 5] == RoomCmds(a, y, delay, rooms[i], material, height)
  {
    if rooms == [] then []
    else
      var head := RoomCmds(a, y, delay, rooms[0], material, height);
      var tail := RoomsCmds(a, y, delay, rooms[1..], material, height);
      assert |head| == 5;
      assert forall i :: 1 <= i < |rooms| ==>
               (head + tail)[5 * i .. 5 * i + 5] == tail[5 * (i - 1) .. 5 * (i - 1) + 5]
      by {
        forall i | 1 <= i < |rooms|
          ensures (head + tail)[5 * i .. 5 * i + 5] == tail[5 * (i - 1) .. 5 * (i - 1) + 5]
        {
          SliceOfMiddle(head, tail, [], 5 * (i - 1), 5 * (i - 1) + 5);
          assert head + tail + [] == head + tail;
        }
      }
      assert forall i :: 1 <= i < |rooms| ==> rooms[i] == rooms[1..][i - 1];
      head + tail
  }

  /** One setblock of the exit marker per exit, at the construction layer. */
  function ExitMarks(exits: seq<Point3>, y: int, marker: string, delay: nat): seq<Queued> {
    seq(|exits|, i requires 0 <= i < |exits| => Queued(SetBlock(Point3(exits[i].x, y, exits[i].z), marker), delay))
  }

  /** The concatenation of a list of command phases. */
  function Flatten(ps: seq<seq<Queued>>): seq<Queued>
    decreases |ps|
  {
    if ps == [] then [] else Flatten(ps[..|ps| - 1]) + ps[|ps| - 1]
  }

  /** Where phase `j` starts in `Flatten(ps)`. */
  function Offset(ps: seq<seq<Queued>>, j: nat): nat
    requires j <= |ps|
  {
    if j == 0 then 0 else Offset(ps, j - 1) + |ps[j - 1]|
  }

  lemma {:induction false} OffsetOfPrefix(ps: seq<seq<Queued>>, n: nat, j: nat)
    requires j <= n <= |ps|
    ensures Offset(ps[..n], j) == Offset(ps, j)
  {
    if j > 0 {
      OffsetOfPrefix(ps, n, j - 1);
      assert ps[..n][j - 1] == ps[j - 1];
    }
  }

  lemma {:induction false} OffsetMonotone(ps: seq<seq<Queued>>, i: nat, j: nat)
    requires i <= j <= |ps|
    ensures Offset(ps, i) <= Offset(ps, j)
    decreases j - i
  {
    if i < j {
      OffsetMonotone(ps, i, j - 1);
    }
  }

  lemma {:induction false} FlattenLength(ps: seq<seq<Queued>>)
    ensures |Flatten(ps)| == Offset(ps, |ps|)
    decreases |ps|
  {
    if ps != [] {
      var n := |ps|;
      FlattenLength(ps[..n - 1]);
      OffsetOfPrefix(ps, n - 1, n - 1);
    }
  }

  /** Phase `j` occupies exactly the slice [Offset(j), Offset(j + 1)) of the flattened list. */
  lemma {:induction false} FlattenSlice(ps: seq<seq<Queued>>, j: nat)
    requires j < |ps|
    ensures |Flatten(ps)| == Offset(ps, |ps|)
    ensures Offset(ps, j + 1) <= Offset(ps, |ps|)
    ensures Flatten(ps)[Offset(ps, j) .. Offset(ps, j + 1)] == ps[j]
    decreases |ps|
  {
    var n := |ps|;
    var init := ps[..n - 1];
    FlattenLength(ps);
    FlattenLength(init);
    OffsetMonotone(ps, j + 1, n);
    OffsetOfPrefix(ps, n - 1, n - 1);
    if j < n - 1 {
      FlattenSlice(init, j);
      OffsetOfPrefix(ps, n - 1, j);
      OffsetOfPrefix(ps, n - 1, j + 1);
      assert init[j] == ps[j];
    }
    assert Flatten(ps) == Flatten(init) + ps[n - 1];
  }

  /** The phases of buildLayout, in issue order, for context `c`. */
  function BuildPhases(c: Context, last: Option<LastBuild>): (ps: seq<seq<Queued>>)
    ensures |ps| == 8
  {
    var l := c.layout;
    var a := c.anchors;
    var y := c.layoutY;
    var s := c.settings;
    var d := Derive(c);
    [ PreviousCleanup(l.frame, last, s.heavyPad),
      [FootprintAir(l.frame, a.shiftX, a.shiftZ, y, s.heavyPad),
       FootprintGround(l.frame, a.shiftX, a.shiftZ, y, s.heavyPad)],
      [FillRect(a, y, s.cmdDelay, l.corridor, CorridorFloor(l))],
      RoomsCmds(a, y, s.cmdDelay, l.roomsTop, WallMaterial(l), WallHeight(l)),
      RoomsCmds(a, y, s.cmdDelay, l.roomsBottom, WallMaterial(l), WallHeight(l)),
      CarveAllDoors(a, y, DoorXs(l)),
      ExitMarks(d.exits, y, ExitMarker(l), s.cmdDelay),
      [Queued(Tp(Point3(a.spawnX, d.spawnY, a.spawnZ)), SLOW_PAD_MS)] ]
  }

  /** Where each phase of buildLayout starts. */
  lemma PhaseOffsets(c: Context, last: Option<LastBuild>)
    ensures
      var ps := BuildPhases(c, last);
      var k := if last.Some? then 2 else 0;
      var rooms := k + 3 + 5 * (|c.layout.roomsTop| + |c.layout.roomsBottom|);
      && Offset(ps, 1) == k
      && Offset(ps, 2) == k + 2
      && Offset(ps, 3) == k + 3
      && Offset(ps, 4) == k + 3 + 5 * |c.layout.roomsTop|
      && Offset(ps, 5) == rooms
      && Offset(ps, 6) == rooms + 2 * |DoorXs(c.layout)|
      && Offset(ps, 7) == rooms + 2 * |DoorXs(c.layout)| + 2
      && Offset(ps, 8) == rooms + 2 * |DoorXs(c.layout)| + 3
      && |Flatten(ps)| == Offset(ps, 8)
  {
    var ps := BuildPhases(c, last);
    assert Offset(ps, 1) == |ps[0]|;
    assert Offset(ps, 2) == Offset(ps, 1) + |ps[1]|;
    assert Offset(ps, 3) == Offset(ps, 2) + |ps[2]|;
    assert Offset(ps, 4) == Offset(ps, 3) + |ps[3]|;
    assert Offset(ps, 5) == Offset(ps, 4) + |ps[4]|;
    assert Offset(ps, 6) == Offset(ps, 5) + |ps[5]|;
    assert Offset(ps, 7) == Offset(ps, 6) + |ps[6]|;
    assert Offset(ps, 8) == Offset(ps, 7) + |ps[7]|;
    FlattenLength(ps);
  }

  datatype BuildResult = BuildResult(cmds: seq<Queued>, ctx: Context, record: LastBuild)

  /** buildLayout. `ground` is the outcome of ground detection (None when it
      is switched off or found nothing); `last` is the previous build record. */
  function BuildLayout(ctx: Context, ground: Option<int>, last: Option<LastBuild>): (r: BuildResult)
    // only the construction layer changes, and only when detection succeeded
    ensures r.ctx == ctx.(layoutY := ground.GetOr(ctx.layoutY))
    // the record written is the footprint this build occupies
    ensures r.record == LastBuild(ctx.anchors.shiftX, ctx.anchors.shiftZ, r.ctx.layoutY)
    // two footprint commands per footprint, the corridor, five per room,
    // two carves per door column, two exits and the teleport
    ensures |r.cmds| == (if last.Some? then 2 else 0) + 2 + 1
                        + 5 * (|ctx.layout.roomsTop| + |ctx.layout.roomsBottom|)
                        + 2 * |DoorXs(ctx.layout)| + 2 + 1
  {
    var c := if ground.Some? then ctx.(layoutY := ground.value) else ctx;
    PhaseOffsets(c, last);
    BuildResult(Flatten(BuildPhases(c, last)), c, LastBuild(c.anchors.shiftX, c.anchors.shiftZ, c.layoutY))
  }

  lemma SliceOfSlice(s: seq<Queued>, a: int, b: int, c: int, d: int)
    requires 0 <= a <= b <= |s| && 0 <= c <= d <= b - a
    ensures s[a..b][c..d] == s[a + c .. a + d]
  {
    assert forall k :: 0 <= k < d - c ==> s[a..b][c..d][k] == s[a + c + k];
  }

  /** buildLayout first clears the previous footprint (when recorded), then
      the current one, air above the layer before ground on it, and lays the
      corridor floor next. */
  lemma BuildBeginsWithFootprints(ctx: Context, ground: Option<int>, last: Option<LastBuild>)
    ensures
      var r := BuildLayout(ctx, ground, last);
      var l := ctx.layout;
      var a := ctx.anchors;
      var s := ctx.settings;
      var y := r.ctx.layoutY;
      var k := if last.Some? then 2 else 0;
      && (last.Some? ==>
            r.cmds[0] == FootprintAir(l.frame, last.value.shiftX, last.value.shiftZ, last.value.layoutY, s.heavyPad)
            && r.cmds[1] == FootprintGround(l.frame, last.value.shiftX, last.value.shiftZ, last.value.layoutY, s.heavyPad))
      && r.cmds[k] == FootprintAir(l.frame, a.shiftX, a.shiftZ, y, s.heavyPad)
      && r.cmds[k + 1] == FootprintGround(l.frame, a.shiftX, a.shiftZ, y, s.heavyPad)
      && r.cmds[k + 2] == FillRect(a, y, s.cmdDelay, l.corridor, CorridorFloor(l))
  {
    var r := BuildLayout(ctx, ground, last);
    var ps := BuildPhases(r.ctx, last);
    PhaseOffsets(r.ctx, last);
    FlattenSlice(ps, 0);
    FlattenSlice(ps, 1);
    FlattenSlice(ps, 2);
    var cmds := r.cmds;
    if last.Some? {
      assert cmds[0..2] == ps[0];
      assert cmds[0] == cmds[0..2][0];
    }
    var k := Offset(ps, 1);
    assert cmds[k .. k + 2] == ps[1];
    assert cmds[k] == cmds[k .. k + 2][0] && cmds[k + 1] == cmds[k .. k + 2][1];
    assert cmds[k + 2 .. k + 3] == ps[2];
    assert cmds[k + 2] == cmds[k + 2 .. k + 3][0];
  }

  /** A slice inside phase `j` of a flattened phase list. */
  lemma PhaseSlice(ps: seq<seq<Queued>>, j: nat, lo: int, hi: int)
    requires j < |ps| && 0 <= lo <= hi <= |ps[j]|
    ensures Offset(ps, j) + hi <= |Flatten(ps)|
    ensures Flatten(ps)[Offset(ps, j) + lo .. Offset(ps, j) + hi] == ps[j][lo..hi]
  {
    FlattenSlice(ps, j);
    SliceOfSlice(Flatten(ps), Offset(ps, j), Offset(ps, j + 1), lo, hi);
  }

  /** The rooms of one side: the top rooms are phase 3, the bottom rooms phase 4. */
  function SideRooms(l: Layout, bottom: bool): seq<Room> {
    if bottom then l.roomsBottom else l.roomsTop
  }

  /** Room `i` of one side of a build occupies five consecutive commands. */
  lemma RoomAt(c: Context, last: Option<LastBuild>, bottom: bool, i: int)
    requires 0 <= i < |SideRooms(c.layout, bottom)|
    ensures
      var ps := BuildPhases(c, last);
      var j := if bottom then 4 else 3;
      var l := c.layout;
      Offset(ps, j) + 5 * i + 5 <= |Flatten(ps)|
      && Flatten(ps)[Offset(ps, j) + 5 * i .. Offset(ps, j) + 5 * i + 5]
         == RoomCmds(c.anchors, c.layoutY, c.settings.cmdDelay, SideRooms(l, bottom)[i], WallMaterial(l), WallHeight(l))
  {
    var ps := BuildPhases(c, last);
    var j := if bottom then 4 else 3;
    var l := c.layout;
    var rs := RoomsCmds(c.anchors, c.layoutY, c.settings.cmdDelay, SideRooms(l, bottom), WallMaterial(l), WallHeight(l));
    assert ps[j] == rs;
    PhaseSlice(ps, j, 5 * i, 5 * i + 5);
  }

  /** Then every top room and then every bottom room, in list order, each
      as its floor followed by its four walls: room `i` of the top list at
      position `k + 3 + 5i`, room `i` of the bottom list at `k + 3 + 5(nt + i)`,
      where `k` counts the previous-footprint commands and `nt` the top rooms. */
  lemma BuildRoomsInOrder(ctx: Context, ground: Option<int>, last: Option<LastBuild>, bottom: bool)
    ensures
      var r := BuildLayout(ctx, ground, last);
      var l := ctx.layout;
      var rooms := SideRooms(l, bottom);
      var k := if last.Some? then 2 else 0;
      var base := k + 3 + (if bottom then 5 * |l.roomsTop| else 0);
      forall i :: 0 <= i < |rooms| ==>
        r.cmds[base + 5 * i .. base + 5 * i + 5]
        == RoomCmds(ctx.anchors, r.ctx.layoutY, ctx.settings.cmdDelay, rooms[i], WallMaterial(l), WallHeight(l))
  {
    var r := BuildLayout(ctx, ground, last);
    var c := r.ctx;
    var ps := BuildPhases(c, last);
    assert r.cmds == Flatten(ps);
    PhaseOffsets(c, last);
    var j := if bottom then 4 else 3;
    forall i | 0 <= i < |SideRooms(c.layout, bottom)|
      ensures r.cmds[Offset(ps, j) + 5 * i .. Offset(ps, j) + 5 * i + 5]
              == RoomCmds(c.anchors, c.layoutY, c.settings.cmdDelay, SideRooms(c.layout, bottom)[i], WallMaterial(c.layout), WallHeight(c.layout))
    {
      RoomAt(c, last, bottom, i);
    }
  }

  /** The carve phase of a build, located by its offset. */
  lemma CarvePhase(c: Context, last: Option<LastBuild>)
    ensures
      var ps := BuildPhases(c, last);
      Offset(ps, 5) + 2 * |DoorXs(c.layout)| <= |Flatten(ps)|
      && Flatten(ps)[Offset(ps, 5) .. Offset(ps, 5) + 2 * |DoorXs(c.layout)|]
         == CarveAllDoors(c.anchors, c.layoutY, DoorXs(c.layout))
  {
    var ps := BuildPhases(c, last);
    var cv := CarveAllDoors(c.anchors, c.layoutY, DoorXs(c.layout));
    assert ps[5] == cv;
    PhaseSlice(ps, 5, 0, |cv|);
    assert cv[0..|cv|] == cv;
  }

  /** Then the door carves, all of them, right after the rooms. */
  lemma BuildCarvesDoorsAfterRooms(ctx: Context, ground: Option<int>, last: Option<LastBuild>)
    ensures
      var r := BuildLayout(ctx, ground, last);
      var l := ctx.layout;
      var k := if last.Some? then 2 else 0;
      var carve := k + 3 + 5 * (|l.roomsTop| + |l.roomsBottom|);
      r.cmds[carve .. carve + 2 * |DoorXs(l)|] == CarveAllDoors(ctx.anchors, r.ctx.layoutY, DoorXs(l))
  {
    var r := BuildLayout(ctx, ground, last);
    var c := r.ctx;
    var ps := BuildPhases(c, last);
    assert r.cmds == Flatten(ps);
    PhaseOffsets(c, last);
    CarvePhase(c, last);
  }

  /** The last three commands of a flattening whose last two phases hold
      two commands and one. */
  lemma {:induction false} LastThree(ps: seq<seq<Queued>>)
    requires |ps| >= 2 && |ps[|ps| - 2]| == 2 && |ps[|ps| - 1]| == 1
    ensures var f := Flatten(ps);
      var n := |f|;
      n >= 3 && f[n - 3] == ps[|ps| - 2][0] && f[n - 2] == ps[|ps| - 2][1] && f[n - 1] == ps[|ps| - 1][0]
  {
    var m := |ps|;
    assert Flatten(ps) == Flatten(ps[..m - 1]) + ps[m - 1];
    assert ps[..m - 1][..m - 2] == ps[..m - 2];
    assert Flatten(ps[..m - 1]) == Flatten(ps[..m - 2]) + ps[m - 2];
  }

  /** Last come the two exit markers, at the corridor's end columns on its
      middle row, and the teleport to the sync point one above the layer. */
  lemma BuildEndsWithExitsAndTeleport(ctx: Context, ground: Option<int>, last: Option<LastBuild>)
    requires ctx.anchors == ComputeAnchors(ctx.layout, ctx.settings)
    ensures
      var r := BuildLayout(ctx, ground, last);
      var l := ctx.layout;
      var a := ctx.anchors;
      var y := r.ctx.layoutY;
      var n := |r.cmds|;
      && r.cmds[n - 3] == Queued(SetBlock(Point3(l.corridor.x + a.shiftX, y, a.spawnZ), ExitMarker(l)), ctx.settings.cmdDelay)
      && r.cmds[n - 2] == Queued(SetBlock(Point3(l.corridor.x + l.corridor.w - 1 + a.shiftX, y, a.spawnZ), ExitMarker(l)), ctx.settings.cmdDelay)
      && r.cmds[n - 1] == Queued(Tp(Point3(a.spawnX, y + 1, a.spawnZ)), SLOW_PAD_MS)
  {
    var r := BuildLayout(ctx, ground, last);
    var c := r.ctx;
    var ps := BuildPhases(c, last);
    assert r.cmds == Flatten(ps);
    LastThree(ps);
  }

  /** A build's footprint cleanup undoes exactly the footprint the build it
      read the record of prepared: same air box, same ground box, as long as
      the frame is unchanged. */
  lemma NextBuildClearsPreviousFootprint(ctx: Context, g1: Option<int>, last: Option<LastBuild>, ctx2: Context, g2: Option<int>)
    requires ctx2.layout.frame == ctx.layout.frame && ctx2.settings.heavyPad == ctx.settings.heavyPad
    ensures
      var b1 := BuildLayout(ctx, g1, last);
      var b2 := BuildLayout(ctx2, g2, Some(b1.record));
      var k := if last.Some? then 2 else 0;
      b2.cmds[0] == b1.cmds[k] && b2.cmds[1] == b1.cmds[k + 1]
  {
    BuildBeginsWithFootprints(ctx, g1, last);
    BuildBeginsWithFootprints(ctx2, g2, Some(BuildLayout(ctx, g1, last).record));
  }

  /** Rebuilding an unchanged layout issues the same frame, corridor, room,
      door, exit and teleport commands whatever the previous record was. */
  lemma RebuildIsIdempotent(ctx: Context, ground: Option<int>, last1: Option<LastBuild>, last2: Option<LastBuild>)
    ensures
      var b1 := BuildLayout(ctx, ground, last1);
      var b2 := BuildLayout(ctx, ground, last2);
      var k1 := if last1.Some? then 2 else 0;
      var k2 := if last2.Some? then 2 else 0;
      b1.cmds[k1..] == b2.cmds[k2..] && b1.ctx == b2.ctx && b1.record == b2.record
  {
    var b1 := BuildLayout(ctx, ground, last1);
    var b2 := BuildLayout(ctx, ground, last2);
    var ps1 := BuildPhases(b1.ctx, last1);
    var ps2 := BuildPhases(b2.ctx, last2);
    assert ps1[1..] == ps2[1..];
    FlattenDropFirst(ps1);
    FlattenDropFirst(ps2);
  }

  /** Dropping the first phase drops exactly its commands. */
  lemma {:induction false} FlattenDropFirst(ps: seq<seq<Queued>>)
    requires |ps| > 0
    ensures |ps[0]| <= |Flatten(ps)| && Flatten(ps)[|ps[0]|..] == Flatten(ps[1..])
    decreases |ps|
  {
    var n := |ps|;
    if n > 1 {
      FlattenDropFirst(ps[..n - 1]);
      assert ps[..n - 1][0] == ps[0];
      assert ps[..n - 1][1..] == ps[1..][..n - 2];
      assert Flatten(ps[1..]) == Flatten(ps[1..][..n - 2]) + ps[n - 1];
    } else {
      assert ps[1..] == [];
    }
  }
}
