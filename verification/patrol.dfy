/** The patrol controller of src/main.js: the per-tick state machine run by
    the startPatrol timer, its start/stop guards, the status line and the
    low-frequency villager wander. One timer callback is one atomic Tick. */
module Patrol {
  import opened Wrappers
  import opened Geometry

  /** At-checkpoint ticks spent at a door before moving on. */
  const DWELL_K: nat := 8
  /** Manhattan radius (x and z only) within which the agent is "at" a checkpoint. */
  const CHECKPOINT_RADIUS: real := 1.2
  /** The block laid on a checkpoint when its door is cleared. */
  const CLEAR_BLOCK: string := "blue_concrete"
  /** Villagers are nudged on ticks that are multiples of this. */
  const WANDER_PERIOD: nat := 80
  /** The size of a villager nudge along x and along z. */
  const WANDER_STEP: int := 2

  /** One entry of doorsState: built once from the patrol points at startup. */
  datatype DoorState = DoorState(idx: nat, at: Point3, cleared: bool, clearedTick: int)

  /** The patrol variables; `running` says whether the timer is installed. */
  datatype State = State(tick: nat, patrolIdx: nat, dwell: nat, doors: seq<DoorState>, running: bool)

  /** The agent's position as the bot reports it (floating point in the source). */
  datatype Pos = Pos(x: real, y: real, z: real)

  /** here(): the bot's position, or the origin when it has no entity yet. */
  function Here(p: Option<Pos>): Pos {
    p.GetOr(Pos(0.0, 0.0, 0.0))
  }

  /** doorsState as built at startup: door `i` is patrol point `i`, not yet cleared. */
  function InitialDoors(patrol: seq<Point3>): (ds: seq<DoorState>)
    ensures |ds| == |patrol|
    ensures forall i :: 0 <= i < |ds| ==> ds[i].idx == i && ds[i].at == patrol[i]
  {
    seq(|patrol|, i requires 0 <= i < |patrol| => DoorState(i, patrol[i], false, -1))
  }

  /** The state at module load: timer off, counters zero. */
  function Initial(patrol: seq<Point3>): State {
    State(0, 0, 0, InitialDoors(patrol), false)
  }

  function Abs(r: real): real {
    if r < 0.0 then -r else r
  }

  predicate AtCheckpoint(pos: Pos, tgt: Point3) {
    Abs(pos.x - tgt.x as real) + Abs(pos.z - tgt.z as real) <= CHECKPOINT_RADIUS
  }

  /** What one timer callback produces besides the next state: the pathfinder
      goal it sets, the clearance command it queues, whether this is a wander
      tick, and whether the callback died on a TypeError (an empty patrol or
      door list) before finishing. */
  datatype TickOut = TickOut(next: State, goal: Option<Point3>, clear: Option<Queued>, wander: bool, aborted: bool)

  /** The number of cleared doors. */
  function ClearedCount(ds: seq<DoorState>): (n: nat)
    ensures n <= |ds|
    decreases |ds|
  {
    if ds == [] then 0 else ClearedCount(ds[..|ds| - 1]) + (if ds[|ds| - 1].cleared then 1 else 0)
  }

  /** The count is zero exactly when no door is cleared, and full exactly
      when every door is. */
  lemma {:induction false} ClearedCountNoneAll(ds: seq<DoorState>)
    ensures ClearedCount(ds) == 0 <==> forall i :: 0 <= i < |ds| ==> !ds[i].cleared
    ensures ClearedCount(ds) == |ds| <==> forall i :: 0 <= i < |ds| ==> ds[i].cleared
    decreases |ds|
  {
    if ds != [] {
      var m := |ds| - 1;
      ClearedCountNoneAll(ds[..m]);
      assert forall i :: 0 <= i < m ==> ds[..m][i] == ds[i];
    }
  }

  /** The count is the number of door indices whose flag is set. */
  lemma {:induction false} ClearedCountIsSetSize(ds: seq<DoorState>)
    ensures ClearedCount(ds) == |set i | 0 <= i < |ds| && ds[i].cleared|
    decreases |ds|
  {
    if ds != [] {
      var m := |ds| - 1;
      var pre := ds[..m];
      ClearedCountIsSetSize(pre);
      var a := set i | 0 <= i < |pre| && pre[i].cleared;
      var b := set i | 0 <= i < |ds| && ds[i].cleared;
      if ds[m].cleared {
        assert b == a + {m};
        assert m !in a;
      } else {
        assert b == a;
      }
    }
  }

  /** The clearance command for checkpoint `tgt` on layer `layoutY`. */
  function ClearCmd(tgt: Point3, layoutY: int): Queued {
    Queued(SetBlock(Point3(tgt.x, layoutY, tgt.z), CLEAR_BLOCK), SLOW_PAD_MS)
  }

  /** One tick of the patrol timer, with the agent at `pos`, the current
      patrol points and the current construction layer. */
  function Tick(s: State, patrol: seq<Point3>, layoutY: int, pos: Pos): (o: TickOut)
    // the tick counter always advances by exactly one
    ensures o.next.tick == s.tick + 1
    // the door list keeps its length, and each door its index and position
    ensures |o.next.doors| == |s.doors|
    ensures forall i :: 0 <= i < |s.doors| ==> o.next.doors[i].idx == s.doors[i].idx && o.next.doors[i].at == s.doors[i].at
    ensures o.next.running == s.running
    // a cleared door stays cleared with its stamp
    ensures forall i :: 0 <= i < |s.doors| && s.doors[i].cleared ==> o.next.doors[i] == s.doors[i]
    // off the checkpoint: only the goal is set, nothing else changes
    ensures |patrol| > 0 && !o.aborted && !AtCheckpoint(pos, patrol[s.patrolIdx % |patrol|]) ==>
              o.next == s.(tick := s.tick + 1) && o.goal == Some(patrol[s.patrolIdx % |patrol|]) && o.clear.None?
    // on the checkpoint: dwell grows, and the index advances exactly on the DWELL_K-th tick
    ensures |patrol| > 0 && !o.aborted && AtCheckpoint(pos, patrol[s.patrolIdx % |patrol|]) ==>
              o.goal.None?
              && (if s.dwell + 1 >= DWELL_K then o.next.patrolIdx == s.patrolIdx + 1 && o.next.dwell == 0
                  else o.next.patrolIdx == s.patrolIdx && o.next.dwell == s.dwell + 1)
    // a callback dies only on an empty patrol, or on an empty door list at a first dwell tick
    ensures o.aborted <==> |patrol| == 0 || (|s.doors| == 0 && s.dwell == 0 && AtCheckpoint(pos, patrol[s.patrolIdx % |patrol|]))
    ensures o.aborted ==> o.clear.None? && o.next.doors == s.doors && !o.wander
    // a dying callback has already counted the tick, and on an empty door
    // list also the dwell; it sets no goal
    ensures o.aborted ==> o.goal.None?
    ensures o.aborted ==>
              o.next == (if |patrol| == 0 then s.(tick := s.tick + 1) else s.(tick := s.tick + 1, dwell := s.dwell + 1))
    ensures !o.aborted ==> o.wander == (o.next.tick % WANDER_PERIOD == 0)
    // between ticks dwell stays below DWELL_K
    ensures s.dwell < DWELL_K ==> o.next.dwell < DWELL_K
    // a clearance happens exactly on the first at-checkpoint tick of a dwell,
    // for a door not yet cleared: the selected door flips to cleared with the
    // new tick as its stamp, every other door is untouched, and one command
    // lays the clear block on the checkpoint at the construction layer
    ensures o.clear.Some? <==>
              |patrol| > 0 && |s.doors| > 0 && s.dwell == 0
              && AtCheckpoint(pos, patrol[s.patrolIdx % |patrol|]) && !s.doors[s.patrolIdx % |s.doors|].cleared
    ensures o.clear.Some? ==>
              o.clear.value == Queued(SetBlock(Point3(patrol[s.patrolIdx % |patrol|].x, layoutY, patrol[s.patrolIdx % |patrol|].z), CLEAR_BLOCK), SLOW_PAD_MS)
              && o.next.doors == s.doors[s.patrolIdx % |s.doors| := s.doors[s.patrolIdx % |s.doors|].(cleared := true, clearedTick := o.next.tick)]
    ensures o.clear.None? ==> o.next.doors == s.doors
  {
    var t := s.tick + 1;
    if |patrol| == 0 then
      TickOut(s.(tick := t), None, None, false, true)
    else
      var tgt := patrol[s.patrolIdx % |patrol|];
      var wander := t % WANDER_PERIOD == 0;
      if !AtCheckpoint(pos, tgt) then
        TickOut(s.(tick := t), Some(tgt), None, wander, false)
      else
        var dwell := s.dwell + 1;
        if dwell == 1 && |s.doors| == 0 then
          TickOut(s.(tick := t, dwell := dwell), None, None, false, true)
        else
          var di := if |s.doors| == 0 then 0 else s.patrolIdx % |s.doors|;
          var clearNow := dwell == 1 && !s.doors[di].cleared;
          var doors := if clearNow then s.doors[di := s.doors[di].(cleared := true, clearedTick := t)] else s.doors;
          var clear := if clearNow then Some(ClearCmd(tgt, layoutY)) else None;
          var advance := dwell >= DWELL_K;
          var next := State(t, if advance then s.patrolIdx + 1 else s.patrolIdx,
                            if advance then 0 else dwell, doors, s.running);
          TickOut(next, None, clear, wander, false)
  }

  /** The door a tick may clear: the one selected by the patrol index. */
  function DoorIndex(s: State): nat
    requires |s.doors| > 0
  {
    s.patrolIdx % |s.doors|
  }

  /** The cleared count grows by one exactly when a clearance command is
      emitted, and stays put otherwise. */
  lemma TickClearedMonotone(s: State, patrol: seq<Point3>, layoutY: int, pos: Pos)
    ensures
      var o := Tick(s, patrol, layoutY, pos);
      ClearedCount(o.next.doors) == ClearedCount(s.doors) + (if o.clear.Some? then 1 else 0)
  {
    var o := Tick(s, patrol, layoutY, pos);
    if o.clear.Some? {
      CountAfterClear(s.doors, DoorIndex(s), o.next.tick);
    }
  }

  /** Flipping one uncleared door to cleared adds one to the count. */
  lemma {:induction false} CountAfterClear(ds: seq<DoorState>, i: nat, t: int)
    requires i < |ds| && !ds[i].cleared
    ensures ClearedCount(ds[i := ds[i].(cleared := true, clearedTick := t)]) == ClearedCount(ds) + 1
    decreases |ds|
  {
    var ds' := ds[i := ds[i].(cleared := true, clearedTick := t)];
    var n := |ds|;
    assert ds'[..n - 1] == if i < n - 1 then ds[..n - 1][i := ds[i].(cleared := true, clearedTick := t)] else ds[..n - 1];
    if i < n - 1 {
      CountAfterClear(ds[..n - 1], i, t);
    }
  }

  /** The ticks of a run of callbacks, one agent position per tick. */
  function Run(s: State, patrol: seq<Point3>, layoutY: int, positions: seq<Pos>): (r: State)
    ensures r.tick == s.tick + |positions|
    ensures |r.doors| == |s.doors|
    ensures forall i :: 0 <= i < |s.doors| && s.doors[i].cleared ==> r.doors[i] == s.doors[i]
    decreases |positions|
  {
    if positions == [] then s
    else Run(Tick(s, patrol, layoutY, positions[0]).next, patrol, layoutY, positions[1..])
  }

  /** Where a run of callbacks ends: the last state, and whether a callback
      died, which under Node's default handling of an unhandled rejection
      ends the process. */
  datatype RunOut = RunOut(last: State, died: bool)

  /** The ticks of a run of callbacks that stops at the first one that
      dies: the process exits there, after that tick's own updates. */
  function RunUntilDeath(s: State, patrol: seq<Point3>, layoutY: int, positions: seq<Pos>): (r: RunOut)
    // a run with no dying callback is the plain run
    ensures !r.died ==> r.last == Run(s, patrol, layoutY, positions)
    // with no patrol points the very first callback dies
    ensures |patrol| == 0 && |positions| > 0 ==> r.died && r.last == s.(tick := s.tick + 1)
    // with patrol points and doors no callback dies
    ensures |patrol| > 0 && |s.doors| > 0 ==> !r.died
    ensures s.tick <= r.last.tick <= s.tick + |positions| && |r.last.doors| == |s.doors|
    decreases |positions|
  {
    if positions == [] then RunOut(s, false)
    else
      var o := Tick(s, patrol, layoutY, positions[0]);
      if o.aborted then RunOut(o.next, true)
      else RunUntilDeath(o.next, patrol, layoutY, positions[1..])
  }

  /** An agent that stands on its checkpoint from the start of a dwell clears
      the door on the first tick, is still dwelling after `n < DWELL_K`
      ticks and moves on to the next checkpoint after exactly DWELL_K ticks. */
  lemma {:induction false} DwellThenAdvance(s: State, patrol: seq<Point3>, layoutY: int, positions: seq<Pos>)
    requires |patrol| > 0 && |s.doors| > 0 && s.dwell < DWELL_K
    requires s.dwell + |positions| <= DWELL_K
    requires forall i :: 0 <= i < |positions| ==> AtCheckpoint(positions[i], patrol[s.patrolIdx % |patrol|])
    ensures
      var r := Run(s, patrol, layoutY, positions);
      if s.dwell + |positions| == DWELL_K then r.patrolIdx == s.patrolIdx + 1 && r.dwell == 0
      else r.patrolIdx == s.patrolIdx && r.dwell == s.dwell + |positions|
    ensures s.dwell == 0 && |positions| > 0 ==> Run(s, patrol, layoutY, positions).doors[DoorIndex(s)].cleared
    decreases |positions|
  {
    if positions != [] {
      var o := Tick(s, patrol, layoutY, positions[0]);
      assert AtCheckpoint(positions[0], patrol[s.patrolIdx % |patrol|]);
      assert s.dwell == 0 ==> o.next.doors[DoorIndex(s)].cleared;
      if s.dwell + 1 < DWELL_K {
        var rest := positions[1..];
        forall i | 0 <= i < |rest| ensures AtCheckpoint(rest[i], patrol[o.next.patrolIdx % |patrol|]) {
          assert rest[i] == positions[i + 1];
        }
        DwellThenAdvance(o.next, patrol, layoutY, rest);
      } else {
        assert positions[1..] == [];
      }
    }
  }

  /** startPatrol: refused while the bot is locked; otherwise the counters
      restart and the timer is (re)installed, with the door states kept. */
  function Start(s: State, locked: bool): (r: State)
    ensures locked ==> r == s
    ensures !locked ==> r.running && r.tick == 0 && r.patrolIdx == 0 && r.dwell == 0 && r.doors == s.doors
  {
    if locked then s else State(0, 0, 0, s.doors, true)
  }

  /** stopPatrol: removes the timer and nothing else. */
  function Stop(s: State): (r: State)
    ensures !r.running && r.(running := s.running) == s
  {
    s.(running := false)
  }

  /** Starting twice is starting once, and so is stopping; a restart after a
      stop keeps every cleared flag. */
  lemma StartStopIdempotent(s: State, locked: bool)
    ensures Start(Start(s, locked), locked) == Start(s, locked)
    ensures Stop(Stop(s)) == Stop(s)
    ensures Start(Stop(s), false).doors == s.doors
  {
  }

  /** The status line: cleared doors, all doors, current tick. */
  datatype Status = Status(cleared: nat, total: nat, tick: nat)

  function StatusOf(s: State): (st: Status)
    ensures st.cleared <= st.total == |s.doors| && st.tick == s.tick
    // the count is exactly the cleared-door count: zero iff none, total iff all
    ensures st.cleared == ClearedCount(s.doors)
    ensures st.cleared == 0 <==> forall i :: 0 <= i < |s.doors| ==> !s.doors[i].cleared
    ensures st.cleared == st.total <==> forall i :: 0 <= i < |s.doors| ==> s.doors[i].cleared
  {
    ClearedCountNoneAll(s.doors);
    Status(ClearedCount(s.doors), |s.doors|, s.tick)
  }

  /** No door is cleared before the first patrol. */
  lemma {:induction false} InitialNothingCleared(patrol: seq<Point3>)
    ensures StatusOf(Initial(patrol)) == Status(0, |patrol|, 0)
    decreases |patrol|
  {
    var ds := InitialDoors(patrol);
    if patrol != [] {
      InitialNothingCleared(patrol[..|patrol| - 1]);
      assert ds[..|ds| - 1] == InitialDoors(patrol[..|patrol| - 1]);
    }
  }

  /** The sign drawn for each axis of a villager nudge. */
  datatype Jitter = Jitter(negX: bool, negZ: bool)

  /** The wander tick: every villager (at its rounded position) is teleported
      by WANDER_STEP along x and z, each sign drawn independently. */
  function WanderCmds(villagers: seq<Point3>, jitter: nat -> Jitter): (cs: seq<Queued>)
    ensures |cs| == |villagers|
    ensures forall i :: 0 <= i < |cs| ==>
      cs[i].delay == SLOW_PAD_MS && cs[i].cmd.TpVillager? && cs[i].cmd.near == villagers[i]
      && var to := cs[i].cmd.to;
         to.y == villagers[i].y && Abs((to.x - villagers[i].x) as real) == 2.0 && Abs((to.z - villagers[i].z) as real) == 2.0
  {
    seq(|villagers|, i requires 0 <= i < |villagers| =>
      var v := villagers[i];
      var j := jitter(i);
      Queued(TpVillager(v, Point3(v.x + (if j.negX then -WANDER_STEP else WANDER_STEP), v.y,
                                  v.z + (if j.negZ then -WANDER_STEP else WANDER_STEP))), SLOW_PAD_MS))
  }
}
