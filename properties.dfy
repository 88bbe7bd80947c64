/**
 * What the plan of `run` guarantees: which wells each phase touches, in which
 * order, with which volumes, and how the phases relate to each other.
 */
module Properties {
  import opened Wrappers
  import opened Layout
  import Marker
  import opened Protocol

  /** The number of source wells the Plate walk visits. */
  function PlatedCount(g: Geometry): nat
  {
    WalkLength(g.sourceWells, g.lastSource)
  }

  /** The number of destination wells the Pool walk visits. */
  function PooledCount(g: Geometry): nat
  {
    WalkLength(g.destWells, g.lastDest)
  }

  /** The number of columns resuspended before the run completes or fails. */
  function ResuspendedCount(g: Geometry, numCols: int): nat
  {
    if numCols > g.columns then g.columns else if numCols < 0 then 0 else numCols
  }

  /** A marker that does not parse stops the run after Plate and the first pause. */
  lemma SegmentsBadMarker(g: Geometry)
    ensures Schedule(g, None) == Execution(DistributePrefix(g, PlatedCount(g)) + [Pause], BadMarker)
  {
  }

  /** A column count above the plate's columns stops the run after one transfer per column. */
  lemma SegmentsColumnOutOfRange(g: Geometry, n: int)
    requires n > g.columns
    ensures Schedule(g, Some(n)) == Execution(
      DistributePrefix(g, PlatedCount(g)) + [Pause] + ResuspendPrefix(g.columns),
      ColumnOutOfRange(g.columns))
  {
  }

  /** Otherwise the run completes all three phases. */
  lemma SegmentsCompleted(g: Geometry, n: int)
    requires n <= g.columns
    ensures Schedule(g, Some(n)) == Execution(
      DistributePrefix(g, PlatedCount(g)) + [Pause] + ResuspendPrefix(ResuspendedCount(g, n))
        + [Pause] + PoolPrefix(g, PooledCount(g)),
      Completed)
  {
  }

  /** The kinds of the actions of each phase prefix. */
  lemma PrefixKinds(g: Geometry, m: nat)
    ensures forall a :: a in DistributePrefix(g, m) ==> a.Distribute?
    ensures forall a :: a in ResuspendPrefix(m) ==> a.Transfer?
    ensures forall a :: a in PoolPrefix(g, m) ==> a.Consolidate?
  {
    forall a | a in DistributePrefix(g, m) ensures a.Distribute? {
      var i :| 0 <= i < m && DistributePrefix(g, m)[i] == a;
    }
    forall a | a in ResuspendPrefix(m) ensures a.Transfer? {
      var i :| 0 <= i < m && ResuspendPrefix(m)[i] == a;
    }
    forall a | a in PoolPrefix(g, m) ensures a.Consolidate? {
      var i :| 0 <= i < m && PoolPrefix(g, m)[i] == a;
    }
  }

  /** What follows Plate's pause: nothing, the transfers, or the transfers, a pause and the consolidations. */
  function AfterPause(g: Geometry, cols: Option<int>): seq<Action>
  {
    match cols
    case None => []
    case Some(n) =>
      if n > g.columns then ResuspendPrefix(g.columns)
      else ResuspendPrefix(ResuspendedCount(g, n)) + [Pause] + PoolPrefix(g, PooledCount(g))
  }

  /** The actions after the Plate phase and its pause are transfers, pauses and consolidations. */
  lemma AfterPlate(g: Geometry, cols: Option<int>)
    ensures Schedule(g, cols).trace == DistributePrefix(g, PlatedCount(g)) + [Pause] + AfterPause(g, cols)
    ensures forall a :: a in AfterPause(g, cols) ==> !a.Distribute?
  {
    match cols
    case None =>
      SegmentsBadMarker(g);
    case Some(n) =>
      PrefixKinds(g, PooledCount(g));
      if n > g.columns {
        SegmentsColumnOutOfRange(g, n);
        PrefixKinds(g, g.columns);
      } else {
        SegmentsCompleted(g, n);
        PrefixKinds(g, ResuspendedCount(g, n));
      }
  }

  /** In `d + [Pause] + rest`, the first `|d|` actions are `d`'s and only they can be distributes. */
  lemma DistributesOnlyIn(d: seq<Action>, rest: seq<Action>)
    requires forall a :: a in rest ==> !a.Distribute?
    ensures var t := d + [Pause] + rest;
      && (forall i :: 0 <= i < |d| ==> t[i] == d[i])
      && (forall i :: |d| <= i < |t| ==> !t[i].Distribute?)
  {
    var t := d + [Pause] + rest;
    forall i | |d| < i < |t| ensures !t[i].Distribute? {
      assert t[i] == rest[i - |d| - 1];
    }
  }

  /**
   * Plate visits source wells `0 .. lastSource` in order (every well when the
   * marker is not on the plate), distributing 75 uL from well `k` into block `k`;
   * the first pause follows and no later action distributes.
   */
  lemma PlateWalk(g: Geometry, cols: Option<int>)
    ensures var t := Schedule(g, cols).trace;
      && PlatedCount(g) < |t| && t[PlatedCount(g)] == Pause
      && (forall i :: 0 <= i < PlatedCount(g) ==>
            t[i] == Distribute(DistributeVolume, i, Block(i, g.IntermediateWells())))
      && (forall i :: PlatedCount(g) <= i < |t| ==> !t[i].Distribute?)
  {
    AfterPlate(g, cols);
    DistributesOnlyIn(DistributePrefix(g, PlatedCount(g)), AfterPause(g, cols));
  }

  /**
   * Resuspend transfers into columns `0, 1, ..` in order, one per column up to
   * `_get_num_cols()` (or up to the plate's last column, where the next lookup
   * raises), each of 40 uL from reagent well A1 with a 3 x 40 uL mix after;
   * they directly follow the first pause and are the only transfers.
   */
  lemma ResuspendWalk(g: Geometry, cols: Option<int>, n: int)
    requires cols == Some(n)
    ensures var t := Schedule(g, cols).trace;
      var start := PlatedCount(g) + 1;
      && start + ResuspendedCount(g, n) <= |t|
      && (forall c :: 0 <= c < ResuspendedCount(g, n) ==>
            t[start + c] == Transfer(ResuspendVolume, ReagentWell, c, MixRepetitions, MixVolume))
      && (forall i :: 0 <= i < |t| && t[i].Transfer? ==> start <= i < start + ResuspendedCount(g, n))
  {
    var d := DistributePrefix(g, PlatedCount(g));
    var m := ResuspendedCount(g, n);
    var tail: seq<Action> := if n > g.columns then [] else [Pause] + PoolPrefix(g, PooledCount(g));
    assert Schedule(g, cols).trace == d + [Pause] + ResuspendPrefix(m) + tail by {
      if n > g.columns {
        SegmentsColumnOutOfRange(g, n);
      } else {
        SegmentsCompleted(g, n);
      }
    }
    assert (forall a :: a in d ==> !a.Transfer?) && (forall a :: a in tail ==> !a.Transfer?) by {
      PrefixKinds(g, PlatedCount(g));
      PrefixKinds(g, PooledCount(g));
    }
    ResuspendMiddle(d, m, tail);
  }

  /** Between `d + [Pause]` and `tail`, neither holding transfers, the `m` resuspend steps are the only transfers. */
  lemma ResuspendMiddle(d: seq<Action>, m: nat, tail: seq<Action>)
    requires forall a :: a in d ==> !a.Transfer?
    requires forall a :: a in tail ==> !a.Transfer?
    ensures var t := d + [Pause] + ResuspendPrefix(m) + tail;
      var start := |d| + 1;
      && start + m <= |t|
      && (forall c :: 0 <= c < m ==>
            t[start + c] == Transfer(ResuspendVolume, ReagentWell, c, MixRepetitions, MixVolume))
      && (forall i :: 0 <= i < |t| && t[i].Transfer? ==> start <= i < start + m)
  {
    var r := ResuspendPrefix(m);
    var t := d + [Pause] + r + tail;
    forall c | 0 <= c < m
      ensures t[|d| + 1 + c] == Transfer(ResuspendVolume, ReagentWell, c, MixRepetitions, MixVolume)
    {
      assert t[|d| + 1 + c] == r[c];
    }
    forall i | 0 <= i < |d| ensures !t[i].Transfer? {
      assert t[i] == d[i];
    }
    forall i | |d| + 1 + m <= i < |t| ensures !t[i].Transfer? {
      assert t[i] == tail[i - |d| - 1 - m];
    }
  }

  /**
   * On a completed run, Pool consolidates 40 uL from block `k` into destination
   * well `k` for `k = 0 .. lastDest` in order (every well when the marker is
   * not on the plate); these are the last actions, right after the second pause,
   * and nothing before them consolidates.
   */
  lemma PoolWalk(g: Geometry, cols: Option<int>)
    requires Schedule(g, cols).outcome == Completed
    ensures var t := Schedule(g, cols).trace;
      var first := |t| - PooledCount(g);
      && 0 < first && t[first - 1] == Pause
      && (forall k :: 0 <= k < PooledCount(g) ==>
            t[first + k] == Consolidate(PoolVolume, Block(k, g.IntermediateWells()), k))
      && (forall i :: 0 <= i < first ==> !t[i].Consolidate?)
  {
    Outcomes(g, cols);
    var n := cols.value;
    var head := DistributePrefix(g, PlatedCount(g)) + [Pause] + ResuspendPrefix(ResuspendedCount(g, n));
    assert Schedule(g, cols).trace == head + [Pause] + PoolPrefix(g, PooledCount(g)) by {
      SegmentsCompleted(g, n);
    }
    assert forall a :: a in head ==> !a.Consolidate? by {
      PrefixKinds(g, PlatedCount(g));
      PrefixKinds(g, ResuspendedCount(g, n));
    }
    PoolTail(g, head, PooledCount(g));
  }

  /** After a pause, `m` pool steps end the trace, and nothing before them consolidates. */
  lemma PoolTail(g: Geometry, head: seq<Action>, m: nat)
    requires forall a :: a in head ==> !a.Consolidate?
    ensures var t := head + [Pause] + PoolPrefix(g, m);
      var first := |t| - m;
      && 0 < first && t[first - 1] == Pause
      && (forall k :: 0 <= k < m ==>
            t[first + k] == Consolidate(PoolVolume, Block(k, g.IntermediateWells()), k))
      && (forall i :: 0 <= i < first ==> !t[i].Consolidate?)
  {
    var p := PoolPrefix(g, m);
    var t := head + [Pause] + p;
    forall i | 0 <= i < |head| ensures !t[i].Consolidate? {
      assert t[i] == head[i];
    }
    forall k | 0 <= k < m
      ensures t[|head| + 1 + k] == Consolidate(PoolVolume, Block(k, g.IntermediateWells()), k)
    {
      assert t[|head| + 1 + k] == p[k];
    }
  }

  /** A run ends with ValueError exactly when the marker's tail is not an integer,
      and with IndexError exactly when it names more columns than the plate has;
      neither reaches the Pool phase. */
  lemma Outcomes(g: Geometry, cols: Option<int>)
    ensures Schedule(g, cols).outcome == Completed <==> cols.Some? && cols.value <= g.columns
    ensures Schedule(g, cols).outcome == BadMarker <==> cols == None
    ensures Schedule(g, cols).outcome.ColumnOutOfRange? <==>
      cols.Some? && cols.value > g.columns
    ensures Schedule(g, cols).outcome.ColumnOutOfRange? ==> Schedule(g, cols).outcome.column == g.columns
    ensures Schedule(g, cols).outcome != Completed ==>
      forall i :: 0 <= i < |Schedule(g, cols).trace| ==> !Schedule(g, cols).trace[i].Consolidate?
  {
    var t := Schedule(g, cols).trace;
    if Schedule(g, cols).outcome != Completed {
      var d := DistributePrefix(g, PlatedCount(g));
      forall i | 0 <= i < |t| ensures !t[i].Consolidate? {
        if i < |d| { assert t[i] == d[i]; }
      }
    }
  }

  /**
   * The phases never interleave: all distributes, one pause, the transfers, and
   * on completion a second pause followed only by consolidations.
   */
  lemma PhaseOrder(g: Geometry, cols: Option<int>)
    ensures var t := Schedule(g, cols).trace;
      && PlatedCount(g) < |t| && t[PlatedCount(g)] == Pause
      && (forall i :: 0 <= i < PlatedCount(g) ==> t[i].Distribute?)
      && (Schedule(g, cols).outcome != Completed ==> forall i :: PlatedCount(g) < i < |t| ==> t[i].Transfer?)
      && (Schedule(g, cols).outcome == Completed ==>
            exists j :: PlatedCount(g) < j < |t| && t[j] == Pause
              && (forall i :: PlatedCount(g) < i < j ==> t[i].Transfer?)
              && (forall i :: j < i < |t| ==> t[i].Consolidate?))
  {
    var t := Schedule(g, cols).trace;
    PlateWalk(g, cols);
    if cols.Some? {
      var n := cols.value;
      ResuspendWalk(g, cols, n);
      var start := PlatedCount(g) + 1;
      var j := start + ResuspendedCount(g, n);
      if Schedule(g, cols).outcome == Completed {
        PoolWalk(g, cols);
        assert |t| - PooledCount(g) == j + 1;
        assert PlatedCount(g) < j < |t| && t[j] == Pause;
        forall i | PlatedCount(g) < i < j ensures t[i].Transfer? {
          assert t[start + (i - start)].Transfer?;
        }
        forall i | j < i < |t| ensures t[i].Consolidate? {
          assert t[j + 1 + (i - j - 1)].Consolidate?;
        }
      } else {
        assert |t| == j;
        forall i | PlatedCount(g) < i < |t| ensures t[i].Transfer? {
          assert t[start + (i - start)].Transfer?;
        }
      }
    }
  }

  /** Each phase uses one fixed volume: 75 uL to distribute, 40 uL to resuspend and to pool. */
  lemma Volumes(g: Geometry, cols: Option<int>)
    ensures forall a :: a in Schedule(g, cols).trace && a.Distribute? ==> a.volume == DistributeVolume
    ensures forall a :: a in Schedule(g, cols).trace && a.Transfer? ==>
      a.volume == ResuspendVolume && a.reagent == ReagentWell
      && a.mixRepetitions == MixRepetitions && a.mixVolume == MixVolume
    ensures forall a :: a in Schedule(g, cols).trace && a.Consolidate? ==> a.volume == PoolVolume
  {
    PlateWalk(g, cols);
    if cols.Some? {
      ResuspendWalk(g, cols, cols.value);
    }
    if Schedule(g, cols).outcome == Completed {
      PoolWalk(g, cols);
    } else {
      Outcomes(g, cols);
    }
  }

  /** No two distribute actions of a run share an intermediate well. */
  lemma DistributeTargetsDisjoint(g: Geometry, cols: Option<int>, i: nat, j: nat)
    requires i < |Schedule(g, cols).trace| && j < |Schedule(g, cols).trace| && i != j
    requires Schedule(g, cols).trace[i].Distribute? && Schedule(g, cols).trace[j].Distribute?
    ensures forall w :: w in Schedule(g, cols).trace[i].targets ==> w !in Schedule(g, cols).trace[j].targets
  {
    PlateWalk(g, cols);
    BlocksDisjoint(i, j, g.IntermediateWells());
  }

  /**
   * The wells filled by Plate are exactly the first `PlatedCount * R` wells of
   * the intermediate plate (fewer if the plate ends first).
   */
  lemma PlatedWells(g: Geometry, cols: Option<int>, w: nat)
    ensures (exists i :: 0 <= i < |Schedule(g, cols).trace| && Schedule(g, cols).trace[i].Distribute? && w in Schedule(g, cols).trace[i].targets)
      <==> w < Min(PlatedCount(g) * Replicates, g.IntermediateWells())
  {
    var t := Schedule(g, cols).trace;
    var n := g.IntermediateWells();
    PlateWalk(g, cols);
    if w < Min(PlatedCount(g) * Replicates, n) {
      var k := w / Replicates;
      InBlock(w, k, n);
      assert t[k].Distribute? && w in t[k].targets;
    }
    if exists i :: 0 <= i < |t| && t[i].Distribute? && w in t[i].targets {
      var i :| 0 <= i < |t| && t[i].Distribute? && w in t[i].targets;
      InBlock(w, i, n);
    }
  }

  /**
   * Pool reads back what Plate wrote: the consolidation into destination well
   * `k` comes after, and draws from exactly the wells of, the distribution of
   * source well `k`.
   */
  lemma PoolDrawsPlatedBlock(g: Geometry, cols: Option<int>, i: nat, j: nat)
    requires i < |Schedule(g, cols).trace| && j < |Schedule(g, cols).trace|
    requires Schedule(g, cols).trace[i].Distribute? && Schedule(g, cols).trace[j].Consolidate?
    requires Schedule(g, cols).trace[i].source == Schedule(g, cols).trace[j].dest
    ensures i < j
    ensures Schedule(g, cols).trace[j].sources == Schedule(g, cols).trace[i].targets
  {
    var t := Schedule(g, cols).trace;
    Outcomes(g, cols);
    PlateWalk(g, cols);
    PoolWalk(g, cols);
    var first := |t| - PooledCount(g);
    assert t[first + (j - first)].dest == j - first;
  }

  /** The intermediate wells named by the distribute actions of `actions`, in order. */
  function Targets(actions: seq<Action>): seq<nat>
  {
    if |actions| == 0 then []
    else
      var last := actions[|actions| - 1];
      Targets(actions[..|actions| - 1]) + (if last.Distribute? then last.targets else [])
  }

  lemma {:induction false} PrefixTargets(g: Geometry, m: nat)
    ensures Targets(DistributePrefix(g, m)) == Blocks(m, g.IntermediateWells())
  {
    if m > 0 {
      PrefixTargets(g, m - 1);
      assert DistributePrefix(g, m)[..m - 1] == DistributePrefix(g, m - 1);
    }
  }

  /**
   * Plate fills the intermediate plate from well 0 upwards, one well after the
   * other with no gap and no well twice, up to `PlatedCount * R` (or the end of
   * the plate).
   */
  lemma PlateFillsInOrder(g: Geometry, cols: Option<int>)
    ensures Targets(Schedule(g, cols).trace[..PlatedCount(g)])
      == Range(0, Min(PlatedCount(g) * Replicates, g.IntermediateWells()))
  {
    var d := DistributePrefix(g, PlatedCount(g));
    AfterPlate(g, cols);
    assert (d + [Pause] + AfterPause(g, cols))[..|d|] == d;
    PrefixTargets(g, PlatedCount(g));
    BlocksCover(PlatedCount(g), g.IntermediateWells());
  }

  lemma {:induction false} MulMonotone(a: nat, b: nat, r: nat)
    requires a <= b
    ensures a * r <= b * r
    decreases b - a
  {
    if a < b {
      MulMonotone(a + 1, b, r);
      assert (a + 1) * r == a * r + r;
    }
  }

  /** Column-major arithmetic: well `w` lies in one of the first `c` columns of `rows` wells exactly when `w < c * rows`. */
  lemma DivBelow(w: nat, rows: nat, c: nat)
    requires rows > 0
    ensures w / rows < c <==> w < c * rows
  {
    var q, m := w / rows, w % rows;
    assert w == q * rows + m && m < rows;
    if q < c {
      MulMonotone(q + 1, c, rows);
      assert (q + 1) * rows == q * rows + rows;
    } else {
      MulMonotone(c, q, rows);
    }
  }

  /** Some transfer of `t` reaches intermediate column `col`. */
  predicate ReachesColumn(t: seq<Action>, col: nat)
  {
    exists i :: 0 <= i < |t| && t[i].Transfer? && t[i].column == col
  }

  /** Resuspend reaches column `col` exactly when `col` is below the number of columns it resuspends. */
  lemma ResuspendedColumns(g: Geometry, cols: Option<int>, n: int, col: nat)
    requires cols == Some(n)
    ensures ReachesColumn(Schedule(g, cols).trace, col) <==> col < ResuspendedCount(g, n)
  {
    var t := Schedule(g, cols).trace;
    var start := PlatedCount(g) + 1;
    ResuspendWalk(g, cols, n);
    if col < ResuspendedCount(g, n) {
      assert t[start + col].Transfer? && t[start + col].column == col;
    }
    if ReachesColumn(t, col) {
      var i :| 0 <= i < |t| && t[i].Transfer? && t[i].column == col;
      assert t[i] == t[start + (i - start)];
    }
  }

  /**
   * With the wells of each column listed together, column after column (so
   * that intermediate well `w` sits in column `w / rows`), Resuspend reaches
   * exactly the wells below `ResuspendedCount * rows`.
   */
  lemma ResuspendedWells(g: Geometry, cols: Option<int>, n: int, w: nat)
    requires cols == Some(n) && g.rows > 0
    ensures ReachesColumn(Schedule(g, cols).trace, w / g.rows) <==> w < ResuspendedCount(g, n) * g.rows
  {
    ResuspendedColumns(g, cols, n, w / g.rows);
    DivBelow(w, g.rows, ResuspendedCount(g, n));
  }

  /**
   * The geometry the protocol ships with: 24 source wells, 96-well intermediate
   * (8 rows by 12 columns) and destination plates, marker "A2", which Opentrons
   * lists as well 4 of the 4-row source block and well 8 of the 96-well plate.
   */
  const Shipped := Geometry(24, 4, 8, 12, 96, 8, Marker.SampleLast)

  /** The shipped marker gives two columns, so the shipped run is `Schedule(Shipped, Some(2))`. */
  lemma ShippedPlan()
    ensures Plan(Shipped) == Schedule(Shipped, Some(2))
  {
    Marker.SampleLastColumns();
  }

  /** The shipped run completes with 5 distributions, 2 resuspended columns and 9 consolidations. */
  lemma ShippedRun()
    ensures Schedule(Shipped, Some(2)).outcome == Completed
    ensures PlatedCount(Shipped) == 5 && ResuspendedCount(Shipped, 2) == 2 && PooledCount(Shipped) == 9
    ensures |Schedule(Shipped, Some(2)).trace| == 5 + 1 + 2 + 1 + 9
  {
    SegmentsCompleted(Shipped, 2);
  }

  /** In the shipped layout the fifth sample's block is wells 16 .. 19, all in column 2 (of 8 wells each), past the two columns Resuspend reaches. */
  lemma ShippedLastBlock()
    ensures Block(4, Shipped.IntermediateWells()) == [16, 17, 18, 19]
    ensures forall w :: w in Block(4, Shipped.IntermediateWells()) ==> w / 8 == 2
  {
    var n := Shipped.IntermediateWells();
    var b := Block(4, n);
    assert |b| == 4 && forall i :: 0 <= i < 4 ==> b[i] == 16 + i by {
      assert n == 96;
      FullBlock(4, n);
    }
    assert b == [16, 17, 18, 19];
  }

  /** In the shipped layout pool steps 5 .. 8 draw from wells beyond the 20 that Plate fills. */
  lemma ShippedPoolBeyondPlate()
    ensures forall k, w :: 5 <= k < 9 && w in Block(k, Shipped.IntermediateWells()) ==>
      w >= PlatedCount(Shipped) * Replicates
  {
    var n := Shipped.IntermediateWells();
    forall k, w | 5 <= k < 9 && w in Block(k, n) ensures w >= 20 {
      InBlock(w, k, n);
    }
  }
}
