/** The dynamic half of MCSweepEnv (test/mc_onefloor_model_realtime.py):
    reset, the neighbourhood and exit helpers, the greedy mover, the door's
    room cell and one simulation step. The random draws of a step are an
    input: for each occupant, whether it takes its greedy move or the
    candidate a random integer selects. */
module SweepEnv {
  import opened Wrappers
  import opened SweepLayout

  /** A logged event; the simulator only logs door clearances. */
  datatype Event = Clear(t: nat, doorIdx: nat, roomCell: Cell)

  /** The simulator: its configuration and painted grid, the doors and the
      patrol, and the mutable state reset() initialises. */
  datatype Env = Env(
    cfg: Config, grid: Grid, doors: seq<Cell>, patrol: seq<Cell>,
    t: nat, responder: Cell, occupants: seq<Cell>, cleared: seq<bool>,
    dwell: nat, patrolIdx: nat,
    responderTrack: seq<Cell>, occupantTracks: seq<seq<Cell>>, events: seq<Event>)

  /** Manhattan distance. */
  function Dist(a: Cell, b: Cell): nat {
    (if a.y < b.y then b.y - a.y else a.y - b.y) + (if a.x < b.x then b.x - a.x else a.x - b.x)
  }

  // ---------------------------------------------------------------------
  // reset
  // ---------------------------------------------------------------------

  /** The stop index of the Python slice `s[:n]`. */
  function SliceStop(len: nat, n: int): (k: nat)
    ensures k <= len
    ensures n >= 0 ==> k == (if n < len then n else len)
    ensures n < 0 ==> k == (if len + n < 0 then 0 else len + n)
  {
    if n >= 0 then (if n < len then n else len)
    else if len + n < 0 then 0 else len + n
  }

  /** reset(): None where it raises, which is when there are fewer than
      two room columns (the occupant start list reads room_xs[1]). */
  function Reset(e: Env): (r: Option<Env>)
    ensures r.None? <==> |e.cfg.roomXs| < 2
    ensures r.Some? ==>
      var n := r.value;
      && n.cfg == e.cfg && n.grid == e.grid && n.doors == e.doors && n.patrol == e.patrol
      && n.t == 0 && n.dwell == 0 && n.patrolIdx == 0
      && n.responder == Cell(e.cfg.corridorY, e.cfg.exit0)
      && |n.cleared| == |e.doors| && (forall i :: 0 <= i < |n.cleared| ==> !n.cleared[i])
      && |n.occupants| == SliceStop(3, e.cfg.nOccupants)
      && n.responderTrack == [] && n.events == []
      && |n.occupantTracks| == |n.occupants| && (forall i :: 0 <= i < |n.occupantTracks| ==> n.occupantTracks[i] == [])
    // the occupants start, in this order, two rows above the first and the
    // last room's door and two rows below the second room's door
    ensures r.Some? ==>
      var y, xs := e.cfg.corridorY, e.cfg.roomXs;
      forall i :: 0 <= i < |r.value.occupants| ==>
        r.value.occupants[i] == [Cell(y - 2, xs[0]), Cell(y - 2, xs[|xs| - 1]), Cell(y + 2, xs[1])][i]
  {
    var c := e.cfg;
    if |c.roomXs| < 2 then None
    else
      var y := c.corridorY;
      var starts := [Cell(y - 2, c.roomXs[0]), Cell(y - 2, c.roomXs[|c.roomXs| - 1]), Cell(y + 2, c.roomXs[1])];
      var occ := starts[..SliceStop(3, c.nOccupants)];
      Some(e.(t := 0, responder := Cell(y, c.exit0), occupants := occ,
              cleared := seq(|e.doors|, _ => false), dwell := 0, patrolIdx := 0,
              responderTrack := [], occupantTracks := seq(|occ|, _ => []), events := []))
  }

  /** __init__: paint the grid, list the doors and the patrol, then reset. */
  function Make(c: Config): (r: Option<Env>)
    ensures r.Some? <==> BuildGrid(c).Some? && |c.roomXs| >= 2
    ensures r.Some? ==> r.value.grid == BuildGrid(c).value && r.value.doors == Doors(c) && r.value.patrol == Patrol(c)
  {
    match BuildGrid(c)
    case None => None
    case Some(g) => Reset(Env(c, g, Doors(c), Patrol(c), 0, Cell(0, 0), [], [], 0, 0, [], [], []))
  }

  // ---------------------------------------------------------------------
  // Moving on the grid
  // ---------------------------------------------------------------------

  predicate InBounds(c: Config, p: Cell) {
    0 <= p.y < c.h && 0 <= p.x < c.w
  }

  /** The cell holds corridor, room or exit. */
  predicate Walkable(g: Grid, p: Cell) {
    0 <= p.y < |g| && 0 <= p.x < |g[p.y]| && g[p.y][p.x] in {CORRIDOR, ROOM, EXIT}
  }

  predicate Passable(c: Config, g: Grid, p: Cell) {
    InBounds(c, p) && Walkable(g, p)
  }

  /** The four unit steps in the order tried: up, down, left, right. */
  function Around(p: Cell): seq<Cell> {
    [Cell(p.y - 1, p.x), Cell(p.y + 1, p.x), Cell(p.y, p.x - 1), Cell(p.y, p.x + 1)]
  }

  function KeepPassable(c: Config, g: Grid, s: seq<Cell>): (r: seq<Cell>)
    ensures |r| <= |s|
    ensures forall q :: q in r <==> q in s && Passable(c, g, q)
    decreases |s|
  {
    if s == [] then []
    else (if Passable(c, g, s[0]) then [s[0]] else []) + KeepPassable(c, g, s[1..])
  }

  /** Where a unit step sits in the order tried: up 0, down 1, left 2,
      right 3 (and 4 for a cell that is no unit step away). */
  function StepRank(p: Cell, q: Cell): nat {
    if q.x == p.x && q.y == p.y - 1 then 0
    else if q.x == p.x && q.y == p.y + 1 then 1
    else if q.y == p.y && q.x == p.x - 1 then 2
    else if q.y == p.y && q.x == p.x + 1 then 3
    else 4
  }

  /** Each cell comes strictly later in the step order than the one before. */
  predicate InStepOrder(p: Cell, s: seq<Cell>) {
    forall i, j :: 0 <= i < j < |s| ==> StepRank(p, s[i]) < StepRank(p, s[j])
  }

  /** neighbors(): the passable cells one unit step away, in the order
      up, down, left, right. */
  function Neighbors(c: Config, g: Grid, p: Cell): (r: seq<Cell>)
    ensures |r| <= 4
    ensures forall q :: q in r <==> Dist(p, q) == 1 && Passable(c, g, q)
    // listed in the order tried, each step once
    ensures InStepOrder(p, r)
  {
    var a := Around(p);
    var r := KeepPassable(c, g, a);
    assert forall q :: Dist(p, q) == 1 <==> q in a;
    assert a[1..][1..][1..][1..] == [];
    assert forall i :: 0 <= i < 4 ==> StepRank(p, a[i]) == i;
    KeepPassableRanked(c, g, p, a);
    r
  }

  /** Filtering keeps a list that is increasing in step order increasing. */
  lemma {:induction false} KeepPassableRanked(c: Config, g: Grid, p: Cell, s: seq<Cell>)
    requires InStepOrder(p, s)
    ensures InStepOrder(p, KeepPassable(c, g, s))
    decreases |s|
  {
    if s != [] {
      var rest := KeepPassable(c, g, s[1..]);
      KeepPassableRanked(c, g, p, s[1..]);
      forall q | q in rest ensures StepRank(p, s[0]) < StepRank(p, q) {
        var k :| 0 <= k < |s[1..]| && s[1..][k] == q;
        assert s[k + 1] == q;
      }
      var r := KeepPassable(c, g, s);
      if Passable(c, g, s[0]) {
        assert r == [s[0]] + rest;
        forall i, j | 0 <= i < j < |r| ensures StepRank(p, r[i]) < StepRank(p, r[j]) {
          assert r[j] == rest[j - 1] && r[j] in rest;
          if i > 0 {
            assert r[i] == rest[i - 1];
          }
        }
      } else {
        assert r == rest;
      }
    }
  }

  /** nearest_exit(): the exit closer in Manhattan distance, the first one
      on a tie. Exits are taken as written, without index wrap. */
  function NearestExit(c: Config, p: Cell): (r: Cell)
    ensures r == Cell(c.corridorY, c.exit0) || r == Cell(c.corridorY, c.exit1)
    ensures Dist(p, r) <= Dist(p, Cell(c.corridorY, c.exit0)) && Dist(p, r) <= Dist(p, Cell(c.corridorY, c.exit1))
    ensures Dist(p, Cell(c.corridorY, c.exit0)) <= Dist(p, Cell(c.corridorY, c.exit1)) ==> r == Cell(c.corridorY, c.exit0)
  {
    var e1 := Cell(c.corridorY, c.exit0);
    var e2 := Cell(c.corridorY, c.exit1);
    if Dist(p, e1) <= Dist(p, e2) then e1 else e2
  }

  function Sign(n: int): int {
    if n > 0 then 1 else if n < 0 then -1 else 0
  }

  /** _greedy_move(): the row step toward the target if it is passable,
      else the column step toward it, else stay. */
  function GreedyMove(c: Config, g: Grid, pos: Cell, target: Cell): (r: Cell)
    // either stay, or take one passable unit step that gets one closer
    ensures r == pos || (Passable(c, g, r) && Dist(pos, r) == 1 && Dist(r, target) + 1 == Dist(pos, target))
    ensures Dist(r, target) <= Dist(pos, target)
    // the row step is preferred, then the column step
    ensures pos.y != target.y && Passable(c, g, Cell(pos.y + Sign(target.y - pos.y), pos.x)) ==>
              r == Cell(pos.y + Sign(target.y - pos.y), pos.x)
    ensures r != pos && r.y == pos.y ==> !(pos.y != target.y && Passable(c, g, Cell(pos.y + Sign(target.y - pos.y), pos.x)))
    ensures (pos.y == target.y || !Passable(c, g, Cell(pos.y + Sign(target.y - pos.y), pos.x)))
            && pos.x != target.x && Passable(c, g, Cell(pos.y, pos.x + Sign(target.x - pos.x))) ==>
              r == Cell(pos.y, pos.x + Sign(target.x - pos.x))
    // with neither step available, stay
    ensures (pos.y == target.y || !Passable(c, g, Cell(pos.y + Sign(target.y - pos.y), pos.x)))
            && (pos.x == target.x || !Passable(c, g, Cell(pos.y, pos.x + Sign(target.x - pos.x)))) ==>
              r == pos
  {
    var ystep := Cell(pos.y + Sign(target.y - pos.y), pos.x);
    var xstep := Cell(pos.y, pos.x + Sign(target.x - pos.x));
    var options := (if target.y != pos.y then [ystep] else []) + (if target.x != pos.x then [xstep] else []) + [pos];
    var xi := if target.y != pos.y then 1 else 0;
    assert target.x != pos.x ==> options[xi] == xstep && forall j :: 0 <= j < xi ==> options[j] == ystep;
    FirstPassable(c, g, options, pos)
  }

  /** The first passable option, or `fallback` when none is. */
  function FirstPassable(c: Config, g: Grid, options: seq<Cell>, fallback: Cell): (r: Cell)
    ensures r == fallback || (r in options && Passable(c, g, r))
    ensures forall k ::
      (0 <= k < |options| && Passable(c, g, options[k]) && forall j :: 0 <= j < k ==> !Passable(c, g, options[j])) ==>
        r == options[k]
    ensures (forall j :: 0 <= j < |options| ==> !Passable(c, g, options[j])) ==> r == fallback
    decreases |options|
  {
    if options == [] then fallback
    else if Passable(c, g, options[0]) then options[0]
    else FirstPassable(c, g, options[1..], fallback)
  }

  /** _door_room_cell(): the cell one row farther from the corridor than
      door `i`, on the door's side; None where the index raises. */
  function DoorRoomCell(e: Env, i: int): (r: Option<Cell>)
    ensures r.Some? <==> PyIndex(i, |e.doors|).Some?
    ensures r.Some? ==>
      var d := e.doors[PyIndex(i, |e.doors|).value];
      && r.value.x == d.x
      && (d.y < e.cfg.corridorY ==> e.cfg.corridorY - r.value.y == e.cfg.corridorY - d.y + 1)
      && (d.y >= e.cfg.corridorY ==> r.value.y - e.cfg.corridorY == d.y - e.cfg.corridorY + 1)
  {
    match PyIndex(i, |e.doors|)
    case None => None
    case Some(k) =>
      var d := e.doors[k];
      Some(if d.y < e.cfg.corridorY then Cell(d.y - 1, d.x) else Cell(d.y + 1, d.x))
  }

  // ---------------------------------------------------------------------
  // Occupants
  // ---------------------------------------------------------------------

  /** What the random generator decided for one occupant: the greedy
      move (the `random() < 0.75` branch), or the candidate picked by a
      random integer (`integers(len(cands))`, any draw reduced modulo the
      candidate count). */
  datatype Choice = Greedy | Random(draw: nat)

  /** np.argmax: the first position of the largest value. */
  function ArgMax(s: seq<int>): (k: nat)
    requires |s| > 0
    ensures k < |s|
    ensures forall j :: 0 <= j < |s| ==> s[j] <= s[k]
    ensures forall j :: 0 <= j < k ==> s[j] < s[k]
    decreases |s|
  {
    if |s| == 1 then 0
    else
      var k := ArgMax(s[..|s| - 1]);
      assert forall j :: 0 <= j < |s| - 1 ==> s[..|s| - 1][j] == s[j];
      if s[|s| - 1] > s[k] then |s| - 1 else k
  }

  /** The gain of each candidate: how much closer it is to the exit than
      the occupant's current cell. */
  function Gains(cands: seq<Cell>, ex: Cell, d0: int): (gs: seq<int>)
    ensures |gs| == |cands| && forall i :: 0 <= i < |cands| ==> gs[i] == d0 - Dist(cands[i], ex)
  {
    seq(|cands|, i requires 0 <= i < |cands| => d0 - Dist(cands[i], ex))
  }

  /** The candidate with the largest gain is a candidate closest to the exit. */
  lemma LargestGainIsClosest(cands: seq<Cell>, ex: Cell, d0: int)
    requires |cands| > 0
    ensures forall q :: q in cands ==> Dist(cands[ArgMax(Gains(cands, ex, d0))], ex) <= Dist(q, ex)
    ensures var k := ArgMax(Gains(cands, ex, d0));
      forall j :: 0 <= j < k ==> Dist(cands[j], ex) > Dist(cands[k], ex)
  {
    var gs := Gains(cands, ex, d0);
    var k := ArgMax(gs);
    forall q | q in cands ensures Dist(cands[k], ex) <= Dist(q, ex) {
      var j :| 0 <= j < |cands| && cands[j] == q;
      assert gs[j] <= gs[k];
    }
  }

  /** One occupant's move: stay when boxed in, otherwise the neighbour the
      choice selects. The greedy choice takes the first neighbour that is
      closest to the occupant's nearest exit. */
  function MoveOccupant(c: Config, g: Grid, p: Cell, choice: Choice): (r: Cell)
    ensures Neighbors(c, g, p) == [] ==> r == p
    ensures Neighbors(c, g, p) != [] ==> r in Neighbors(c, g, p)
    ensures Neighbors(c, g, p) != [] && choice.Greedy? ==>
      forall q :: q in Neighbors(c, g, p) ==> Dist(r, NearestExit(c, p)) <= Dist(q, NearestExit(c, p))
    // ties go to the first closest neighbour
    ensures Neighbors(c, g, p) != [] && choice.Greedy? ==>
      exists k :: 0 <= k < |Neighbors(c, g, p)| && r == Neighbors(c, g, p)[k]
        && forall j :: 0 <= j < k ==> Dist(Neighbors(c, g, p)[j], NearestExit(c, p)) > Dist(r, NearestExit(c, p))
    // a random draw indexes the neighbour list, wrapped around
    ensures Neighbors(c, g, p) != [] && choice.Random? ==> r == Neighbors(c, g, p)[choice.draw % |Neighbors(c, g, p)|]
  {
    var ex := NearestExit(c, p);
    var cands := Neighbors(c, g, p);
    if cands == [] then p
    else
      var gains := Gains(cands, ex, Dist(p, ex));
      match choice
      case Greedy =>
        LargestGainIsClosest(cands, ex, Dist(p, ex));
        cands[ArgMax(gains)]
      case Random(u) => cands[u % |cands|]
  }

  // ---------------------------------------------------------------------
  // step
  // ---------------------------------------------------------------------

  /** The shape every constructed simulator keeps: one flag per door, one
      patrol point per door, one track per occupant. */
  predicate Valid(e: Env) {
    && |e.grid| == e.cfg.h && Shape(e.grid, e.cfg.w)
    && |e.patrol| > 0 && |e.cleared| == |e.doors| == |e.patrol|
    && |e.occupantTracks| == |e.occupants|
  }

  /** The responder half of step(): move toward the patrol target, dwell,
      clear, advance; None where it raises (an empty patrol, or a patrol
      position past the end of the flag list). The flag set and the door
      named in the CLEAR event are the ones at the patrol position `pi` of
      the door list, not the door list's entry for the patrol target. */
  function PatrolPhase(e: Env): (r: Option<Env>)
    ensures Valid(e) ==> r.Some?
    ensures r.Some? ==> |e.patrol| > 0
    ensures r.Some? ==>
      var n := r.value;
      var pi := e.patrolIdx % |e.patrol|;
      var tgt := e.patrol[pi];
      && n == e.(t := n.t, responder := n.responder, dwell := n.dwell, patrolIdx := n.patrolIdx,
                 cleared := n.cleared, events := n.events, responderTrack := n.responderTrack)
      && n.t == e.t + 1
      && n.responder == GreedyMove(e.cfg, e.grid, e.responder, tgt)
      && n.responderTrack == e.responderTrack + [n.responder]
      && (n.responder != tgt ==> n.dwell == e.dwell && n.patrolIdx == e.patrolIdx)
      && (n.responder == tgt ==>
            if e.dwell + 1 >= e.cfg.dwellK then n.dwell == 0 && n.patrolIdx == e.patrolIdx + 1
            else n.dwell == e.dwell + 1 && n.patrolIdx == e.patrolIdx)
      && |n.cleared| == |e.cleared|
      && (forall i :: 0 <= i < |e.cleared| && e.cleared[i] ==> n.cleared[i])
      && (n.cleared != e.cleared <==> n.events != e.events)
      && (n.cleared != e.cleared ==>
            && pi < |e.cleared| && !e.cleared[pi]
            && n.cleared == e.cleared[pi := true]
            && e.dwell == 0 && n.responder == tgt && DoorRoomCell(e, pi).Some?
            && n.events == e.events + [Clear(n.t, pi, DoorRoomCell(e, pi).value)])
  {
    if |e.patrol| == 0 then None
    else
      var t := e.t + 1;
      var pi := e.patrolIdx % |e.patrol|;
      var tgt := e.patrol[pi];
      var resp := GreedyMove(e.cfg, e.grid, e.responder, tgt);
      var at := resp == tgt;
      var dwell := if at then e.dwell + 1 else e.dwell;
      if at && dwell == 1 && pi >= |e.cleared| then None
      else
        var flip := at && dwell == 1 && !e.cleared[pi];
        var cell := if flip then DoorRoomCell(e, pi) else None;
        if flip && cell.None? then None
        else
          var advance := at && dwell >= e.cfg.dwellK;
          Some(e.(t := t, responder := resp,
                  cleared := if flip then e.cleared[pi := true] else e.cleared,
                  events := if flip then e.events + [Clear(t, pi, cell.value)] else e.events,
                  dwell := if advance then 0 else dwell,
                  patrolIdx := if advance then e.patrolIdx + 1 else e.patrolIdx,
                  responderTrack := e.responderTrack + [resp]))
  }

  /** The occupant half of step(): every occupant moves by its choice and
      every track gains the new position; None where the track list is
      shorter than the occupant list. */
  function OccupantPhase(e: Env, pick: nat -> Choice): (r: Option<Env>)
    ensures r.Some? <==> |e.occupantTracks| >= |e.occupants|
    ensures r.Some? ==>
      var n := r.value;
      && n == e.(occupants := n.occupants, occupantTracks := n.occupantTracks)
      && |e.occupantTracks| >= |e.occupants|
      && |n.occupants| == |e.occupants| && |n.occupantTracks| == |e.occupantTracks|
      && (forall i :: 0 <= i < |e.occupants| ==> n.occupants[i] == MoveOccupant(e.cfg, e.grid, e.occupants[i], pick(i)))
      && (forall i :: 0 <= i < |e.occupants| ==> n.occupantTracks[i] == e.occupantTracks[i] + [n.occupants[i]])
      && (forall i :: |e.occupants| <= i < |e.occupantTracks| ==> n.occupantTracks[i] == e.occupantTracks[i])
  {
    if |e.occupantTracks| < |e.occupants| then None
    else
      var occ := seq(|e.occupants|, i requires 0 <= i < |e.occupants| => MoveOccupant(e.cfg, e.grid, e.occupants[i], pick(i)));
      var tracks := seq(|e.occupantTracks|, i requires 0 <= i < |e.occupantTracks| =>
                          if i < |occ| then e.occupantTracks[i] + [occ[i]] else e.occupantTracks[i]);
      Some(e.(occupants := occ, occupantTracks := tracks))
  }

  /** step(): the responder half, then the occupant half. */
  function Step(e: Env, pick: nat -> Choice): (r: Option<Env>)
    ensures Valid(e) ==> r.Some? && Valid(r.value)
    ensures r.Some? ==>
      var n := r.value;
      && |e.patrol| > 0
      && n.cfg == e.cfg && n.grid == e.grid && n.doors == e.doors && n.patrol == e.patrol
      // time advances by one, the patrol index by at most one
      && n.t == e.t + 1
      && (n.patrolIdx == e.patrolIdx || n.patrolIdx == e.patrolIdx + 1)
      // dwell stays below dwell_k
      && (1 <= e.cfg.dwellK && e.dwell < e.cfg.dwellK ==> n.dwell < e.cfg.dwellK)
      // each track gains exactly one entry, the new position
      && n.responderTrack == e.responderTrack + [n.responder]
      && |e.occupantTracks| >= |e.occupants|
      && |n.occupants| == |e.occupants| && |n.occupantTracks| == |e.occupantTracks|
      && (forall i :: 0 <= i < |e.occupants| ==> n.occupantTracks[i] == e.occupantTracks[i] + [n.occupants[i]])
      // an occupant stays put only when boxed in, and otherwise moves to a neighbour
      && (forall i :: 0 <= i < |e.occupants| ==>
            if Neighbors(e.cfg, e.grid, e.occupants[i]) == [] then n.occupants[i] == e.occupants[i]
            else n.occupants[i] in Neighbors(e.cfg, e.grid, e.occupants[i]))
  {
    match PatrolPhase(e)
    case None => None
    case Some(e1) => OccupantPhase(e1, pick)
  }

  /** A flag only goes from clear to cleared, one flag per step: the flag
      at the patrol position, on the first tick of a dwell with the
      responder on its target; and each flip logs exactly one CLEAR event
      naming that position and the room cell of the door list's entry there. */
  lemma StepClears(e: Env, pick: nat -> Choice)
    requires Step(e, pick).Some?
    ensures var n := Step(e, pick).value;
      && |n.cleared| == |e.cleared|
      && (forall i :: 0 <= i < |e.cleared| && e.cleared[i] ==> n.cleared[i])
      && (n.cleared == e.cleared <==> n.events == e.events)
      && (n.cleared != e.cleared ==>
            var pi := e.patrolIdx % |e.patrol|;
            && pi < |e.cleared| && !e.cleared[pi] && n.cleared == e.cleared[pi := true]
            && e.dwell == 0 && n.responder == e.patrol[pi] && DoorRoomCell(e, pi).Some?
            && n.events == e.events + [Clear(n.t, pi, DoorRoomCell(e, pi).value)])
  {
    var e1 := PatrolPhase(e).value;
    assert Step(e, pick) == OccupantPhase(e1, pick);
  }

  /** Because flags are indexed by patrol position, the first bottom-row
      clearance of the default building names another room: the responder
      stands on the bottom door of the third room (8, 33), but the event
      names door-list position 3, the bottom door of the first room, and its
      room cell (9, 9). */
  lemma PatrolPositionLogsOtherRoom(e: Env, pick: nat -> Choice)
    requires e.cfg == DefaultConfig() && e.doors == Doors(e.cfg) && e.patrol == Patrol(e.cfg)
    requires e.patrolIdx == 3 && e.responder == Cell(8, 33) && e.dwell == 0
    requires e.cleared == [false, false, false, false, false, false]
    requires |e.occupantTracks| >= |e.occupants|
    ensures Step(e, pick).Some?
    ensures var n := Step(e, pick).value;
      && n.responder == Cell(8, 33)
      && n.events == e.events + [Clear(e.t + 1, 3, Cell(9, 9))]
  {
    assert e.patrol[3] == Cell(8, 33);
    assert e.doors[3] == Cell(8, 9);
    assert GreedyMove(e.cfg, e.grid, e.responder, e.patrol[3]) == Cell(8, 33);
  }

  /** The number of cleared flags. */
  function CountCleared(s: seq<bool>): (n: nat)
    ensures n <= |s|
    decreases |s|
  {
    if s == [] then 0 else (if s[0] then 1 else 0) + CountCleared(s[1..])
  }

  /** Setting a clear flag adds one to the count. */
  lemma {:induction false} CountAfterFlag(s: seq<bool>, k: nat)
    requires k < |s| && !s[k]
    ensures CountCleared(s[k := true]) == CountCleared(s) + 1
    decreases |s|
  {
    if k > 0 {
      assert s[k := true][1..] == s[1..][k - 1 := true];
      CountAfterFlag(s[1..], k - 1);
    }
  }

  /** Every CLEAR event is one flag flipped: a step keeps the event count
      equal to the cleared count, so no door is ever logged twice and the
      log never holds more events than there are doors. */
  lemma StepKeepsEventCount(e: Env, pick: nat -> Choice)
    requires Step(e, pick).Some? && |e.events| == CountCleared(e.cleared)
    ensures var n := Step(e, pick).value;
      |n.events| == CountCleared(n.cleared) && |n.events| <= |n.cleared|
  {
    StepClears(e, pick);
    var n := Step(e, pick).value;
    if n.cleared != e.cleared {
      CountAfterFlag(e.cleared, e.patrolIdx % |e.patrol|);
    }
  }

  /** Every constructed simulator is valid and has logged nothing. */
  lemma MakeValid(c: Config)
    requires Make(c).Some?
    ensures Valid(Make(c).value)
    ensures |Make(c).value.events| == CountCleared(Make(c).value.cleared) == 0
  {
    NoneCleared(Make(c).value.cleared);
  }

  lemma {:induction false} NoneCleared(s: seq<bool>)
    requires forall i :: 0 <= i < |s| ==> !s[i]
    ensures CountCleared(s) == 0
    decreases |s|
  {
    if s != [] {
      NoneCleared(s[1..]);
    }
  }

  /** The simulator after a run of steps, one choice function per step. */
  function Run(e: Env, picks: seq<nat -> Choice>): (r: Option<Env>)
    requires Valid(e) && |e.events| == CountCleared(e.cleared)
    ensures r.Some? && Valid(r.value)
    ensures r.value.t == e.t + |picks| && |r.value.responderTrack| == |e.responderTrack| + |picks|
    // at most one CLEAR per door, however long the run
    ensures |r.value.events| == CountCleared(r.value.cleared) <= |e.doors|
    decreases |picks|
  {
    if picks == [] then Some(e)
    else
      StepKeepsEventCount(e, picks[0]);
      Run(Step(e, picks[0]).value, picks[1..])
  }
}
