/** Ground detection of src/main.js: the top-down column scan of
    highestSurfaceYAt and the median of the corridor samples taken by
    detectGroundYNearCorridor. */
module Ground {
  import opened Wrappers
  import opened Geometry

  /** The highest layer scanned when the game reports no usable height. */
  const DEFAULT_TOP: int := 255
  /** The sample row sits this many blocks past the corridor's local z. */
  const SAMPLE_ROW_OFFSET: int := 4

  /** What a block lookup sees at (x, y, z): None when no block is known
      there (the chunk is not loaded, or the lookup threw), otherwise its
      name, with the empty string standing for a block without a name. */
  type World = (int, int, int) -> Option<string>

  /** The bot as the scan sees it: whether it has a world to query at all,
      the game height it reports (None when missing or not finite), and the
      world itself. */
  datatype Probe = Probe(ready: bool, gameHeight: Option<int>, world: World)

  /** `sub` occurs in `s` (String.prototype.includes). */
  predicate Contains(s: string, sub: string) {
    exists i :: 0 <= i <= |s| && sub <= s[i..]
  }

  /** A block counts as ground unless it is air or a liquid. A block without
      a name counts as ground. */
  predicate IsSurface(name: string) {
    name != "air" && !Contains(name, "water") && !Contains(name, "lava")
  }

  /** The first layer scanned: one below the reported height when that is
      a non-zero number, otherwise 255. */
  function TopLayer(p: Probe): int {
    match p.gameHeight
    case Some(h) => if h != 0 then h - 1 else DEFAULT_TOP
    case None => DEFAULT_TOP
  }

  /** Layer y of column (x, z) holds a ground block. */
  predicate SolidAt(w: World, x: int, y: int, z: int) {
    w(x, y, z).Some? && IsSurface(w(x, y, z).value)
  }

  /** The reference answer: one above the topmost ground block at or below
      layer `y` and at or above layer 0. */
  function SurfaceFrom(w: World, x: int, z: int, y: int): (r: Option<int>)
    ensures r.Some? ==> 1 <= r.value <= y + 1 && SolidAt(w, x, r.value - 1, z)
    ensures r.Some? ==> forall y' :: r.value - 1 < y' <= y ==> !SolidAt(w, x, y', z)
    ensures r.None? ==> forall y' :: 0 <= y' <= y ==> !SolidAt(w, x, y', z)
    decreases y + 1
  {
    if y < 0 then None
    else if SolidAt(w, x, y, z) then Some(y + 1)
    else SurfaceFrom(w, x, z, y - 1)
  }

  /** highestSurfaceYAt: scans column (x, z) from the top layer down to
      layer 0 and answers one above the first ground block it meets. */
  method HighestSurfaceYAt(p: Probe, x: int, z: int) returns (r: Option<int>)
    ensures !p.ready ==> r.None?
    ensures p.ready ==> r == SurfaceFrom(p.world, x, z, TopLayer(p))
  {
    if !p.ready {
      return None;
    }
    var top := TopLayer(p);
    var y := top;
    while y >= 0
      invariant y <= top
      invariant SurfaceFrom(p.world, x, z, top) == SurfaceFrom(p.world, x, z, y)
      decreases y + 1
    {
      var b := p.world(x, y, z);
      if b.Some? {
        var name := b.value;
        if name != "air" && !Contains(name, "water") && !Contains(name, "lava") {
          return Some(y + 1);
        }
      }
      y := y - 1;
    }
    return None;
  }

  // ---------------------------------------------------------------------
  // Sorting and the median
  // ---------------------------------------------------------------------

  predicate Sorted(s: seq<int>) {
    forall i, j :: 0 <= i < j < |s| ==> s[i] <= s[j]
  }

  /** Inserts `x` before the first element not smaller than it. */
  function Insert(s: seq<int>, x: int): (r: seq<int>)
    ensures multiset(r) == multiset(s) + multiset{x}
    decreases |s|
  {
    if s == [] || x <= s[0] then [x] + s
    else
      assert s == [s[0]] + s[1..];
      [s[0]] + Insert(s[1..], x)
  }

  /** Insertion keeps a sorted list sorted. */
  lemma {:induction false} InsertSorted(s: seq<int>, x: int)
    requires Sorted(s)
    ensures Sorted(Insert(s, x))
    decreases |s|
  {
    if s != [] && x > s[0] {
      var rest := Insert(s[1..], x);
      InsertSorted(s[1..], x);
      forall j | 0 <= j < |rest| ensures s[0] <= rest[j] {
        assert rest[j] in multiset(rest);
        assert rest[j] in multiset(s[1..]) + multiset{x};
      }
    }
  }

  /** The samples in ascending numeric order. */
  function Sort(s: seq<int>): (r: seq<int>)
    ensures Sorted(r) && multiset(r) == multiset(s)
    decreases |s|
  {
    if s == [] then []
    else
      assert s == s[..|s| - 1] + [s[|s| - 1]];
      InsertSorted(Sort(s[..|s| - 1]), s[|s| - 1]);
      Insert(Sort(s[..|s| - 1]), s[|s| - 1])
  }

  /** Two sorted lists with the same elements are the same list. */
  lemma {:induction false} SortedUnique(a: seq<int>, b: seq<int>)
    requires Sorted(a) && Sorted(b) && multiset(a) == multiset(b)
    ensures a == b
    decreases |a|
  {
    assert |a| == |multiset(a)| == |multiset(b)| == |b|;
    if a != [] {
      assert a[0] in multiset(b);
      assert b[0] in multiset(a);
      assert a[0] == b[0];
      assert a == [a[0]] + a[1..];
      assert b == [b[0]] + b[1..];
      assert multiset(a[1..]) == multiset(a) - multiset{a[0]};
      assert multiset(b[1..]) == multiset(b) - multiset{b[0]};
      SortedUnique(a[1..], b[1..]);
    }
  }

  /** The middle element of the sorted samples (the upper one of the two
      middles when the count is even). */
  function Median(s: seq<int>): (m: int)
    requires |s| > 0
    ensures m in s
    // at least |s|/2 + 1 samples are no larger, and at least |s| - |s|/2 no smaller
    ensures exists t :: multiset(t) == multiset(s) && Sorted(t) && t[|s| / 2] == m
  {
    var t := Sort(s);
    assert |t| == |multiset(t)| == |s|;
    assert t[|s| / 2] in multiset(s);
    t[|s| / 2]
  }

  /** The median does not depend on the order the samples arrive in. */
  lemma MedianOrderIndependent(s: seq<int>, s': seq<int>)
    requires |s| > 0 && multiset(s) == multiset(s')
    ensures |s'| > 0 && Median(s) == Median(s')
  {
    assert |s| == |multiset(s)| == |multiset(s')| == |s'|;
    SortedUnique(Sort(s), Sort(s'));
  }

  /** The median is the sorted list's middle element: any sorted
      rearrangement of the samples has it in the middle. */
  lemma MedianOfSorted(s: seq<int>, t: seq<int>)
    requires |s| > 0 && Sorted(t) && multiset(t) == multiset(s)
    ensures |t| == |s| && Median(s) == t[|s| / 2]
  {
    assert |t| == |multiset(t)| == |s|;
    SortedUnique(Sort(s), t);
  }

  lemma ExampleRearranged()
    ensures multiset([9, 10, 11, 12, 100]) == multiset([10, 12, 11, 9, 100])
  {
    assert multiset([9, 10, 11, 12, 100]) == multiset{9, 10, 11, 12, 100};
    assert multiset([10, 12, 11, 9, 100]) == multiset{10, 12, 11, 9, 100};
  }

  lemma ExampleSorted()
    ensures Sorted([9, 10, 11, 12, 100])
  {
  }

  /** One outlier does not move the median: the five samples 10, 12, 11, 9
      and 100 give 11. */
  lemma MedianExample(samples: seq<int>)
    requires samples == [10, 12, 11, 9, 100]
    ensures Median(samples) == 11
  {
    ExampleRearranged();
    ExampleSorted();
    MedianOfSorted(samples, [9, 10, 11, 12, 100]);
  }

  // ---------------------------------------------------------------------
  // detectGroundYNearCorridor
  // ---------------------------------------------------------------------

  /** The reference answers of the columns at `xs` on row `z`, the ones
      that found ground, in sample order. */
  function Samples(p: Probe, xs: seq<int>, z: int): seq<int>
    decreases |xs|
  {
    if xs == [] then []
    else
      var last := xs[|xs| - 1];
      var r := if p.ready then SurfaceFrom(p.world, last, z, TopLayer(p)) else None;
      Samples(p, xs[..|xs| - 1], z) + (if r.Some? then [r.value] else [])
  }

  /** The samples of one more column are the earlier samples followed by
      that column's answer, when it found ground. */
  lemma SamplesStep(p: Probe, xs: seq<int>, i: nat, z: int)
    requires i < |xs|
    ensures var r := if p.ready then SurfaceFrom(p.world, xs[i], z, TopLayer(p)) else None;
      Samples(p, xs[..i + 1], z) == Samples(p, xs[..i], z) + (if r.Some? then [r.value] else [])
  {
    assert xs[..i + 1][..i] == xs[..i];
  }

  /** The fallback when no sample found ground: one below the bot's feet,
      rounded down and never below 0, when the bot has a position. */
  function Fallback(feetY: Option<real>): (r: Option<int>)
    ensures feetY.None? <==> r.None?
    // the block under the feet, floored, and clamped to zero below the first block
    ensures r.Some? ==> r.value >= 0
    ensures r.Some? ==> (feetY.value < 1.0 ==> r.value == 0)
    ensures r.Some? ==> (feetY.value >= 1.0 ==> r.value as real <= feetY.value - 1.0 < r.value as real + 1.0)
  {
    match feetY
    case Some(py) => Some(if (py - 1.0).Floor < 0 then 0 else (py - 1.0).Floor)
    case None => None
  }

  /** The sampling loop: asks each column in turn and keeps the answers
      that found ground. */
  method CollectSamples(p: Probe, xs: seq<int>, z: int) returns (samples: seq<int>)
    ensures samples == Samples(p, xs, z)
  {
    samples := [];
    var i := 0;
    while i < |xs|
      invariant 0 <= i <= |xs|
      invariant samples == Samples(p, xs[..i], z)
    {
      var y := HighestSurfaceYAt(p, xs[i], z);
      SamplesStep(p, xs, i, z);
      if y.Some? {
        samples := samples + [y.value];
      }
      i := i + 1;
    }
    assert xs[..|xs|] == xs;
  }

  /** detectGroundYNearCorridor: samples the columns `xs` on the row four
      blocks past the corridor's local z (shifted to world z), keeps the
      columns that found ground and answers their median; with no sample it
      falls back to the bot's feet. */
  method DetectGround(p: Probe, xs: seq<int>, corridor: Rect, shiftZ: int, feetY: Option<real>) returns (r: Option<int>)
    ensures var ss := Samples(p, xs, corridor.z + SAMPLE_ROW_OFFSET + shiftZ);
      && (ss == [] ==> r == Fallback(feetY))
      && (ss != [] ==> r == Some(Median(ss)))
  {
    var samples := CollectSamples(p, xs, corridor.z + SAMPLE_ROW_OFFSET + shiftZ);
    if samples == [] {
      return Fallback(feetY);
    }
    return Some(Median(samples));
  }
}
