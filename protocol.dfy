/**
 * The sequencing engine of the protocol's `run`.
 *
 * Every pipette or operator call becomes one `Action` in an ordered trace:
 *  1. Plate: source well `k` is distributed into intermediate block `k`, for
 *     `k = 0, 1, ..` up to and including the last-sample well;
 *  2. a pause, then Resuspend: one multichannel transfer of reagent into each
 *     intermediate column `0 .. _get_num_cols()-1`, mixing after;
 *  3. a pause, then Pool: intermediate block `k` is consolidated into
 *     destination well `k`, up to and including the destination plate's
 *     last-sample well.
 */
module Protocol {
  import opened Wrappers
  import opened Layout
  import Marker

  const DistributeVolume: nat := 75
  const ResuspendVolume: nat := 40
  const MixRepetitions: nat := 3
  const MixVolume: nat := 40
  const PoolVolume: nat := 40
  /** The reservoir well the reagent is drawn from. */
  const ReagentWell: string := "A1"

  /** One call on a pipette or on the protocol, with the wells it names. */
  datatype Action =
    | Distribute(volume: nat, source: nat, targets: seq<nat>)
    | Pause
    | Transfer(volume: nat, reagent: string, column: nat, mixRepetitions: nat, mixVolume: nat)
    | Consolidate(volume: nat, sources: seq<nat>, dest: nat)

  /** How a run ends: normally, or with the exception Python raises. */
  datatype Outcome =
    | Completed
    | BadMarker                     // `int` raised ValueError inside `_get_num_cols`
    | ColumnOutOfRange(column: nat)  // `int_plt.columns()[col]` raised IndexError

  /**
   * What the run depends on: the number of wells of the source and destination
   * plates, the positions of the last-sample well in each plate's `wells()`,
   * the intermediate plate's shape, and the marker string.
   */
  datatype Geometry = Geometry(
    sourceWells: nat, lastSource: nat,
    rows: nat, columns: nat,
    destWells: nat, lastDest: nat,
    marker: string)
  {
    function IntermediateWells(): nat { rows * columns }
  }

  datatype Execution = Execution(trace: seq<Action>, outcome: Outcome)

  /** Iterations of `for i, w in enumerate(wells): ...; if w == last: break`. */
  function WalkLength(wells: nat, last: nat): nat
  {
    if last < wells then last + 1 else wells
  }

  function DistributeStep(g: Geometry, k: nat): Action
  {
    Distribute(DistributeVolume, k, Block(k, g.IntermediateWells()))
  }

  function ResuspendStep(col: nat): Action
  {
    Transfer(ResuspendVolume, ReagentWell, col, MixRepetitions, MixVolume)
  }

  function PoolStep(g: Geometry, k: nat): Action
  {
    Consolidate(PoolVolume, Block(k, g.IntermediateWells()), k)
  }

  function DistributePrefix(g: Geometry, m: nat): seq<Action>
  {
    seq(m, k requires 0 <= k => DistributeStep(g, k))
  }

  function ResuspendPrefix(m: nat): seq<Action>
  {
    seq(m, c requires 0 <= c => ResuspendStep(c))
  }

  function PoolPrefix(g: Geometry, m: nat): seq<Action>
  {
    seq(m, k requires 0 <= k => PoolStep(g, k))
  }

  /**
   * The trace and outcome of `run` once `_get_num_cols()` has been evaluated to
   * `numCols` (`None` when it raises ValueError).
   */
  function Schedule(g: Geometry, numCols: Option<int>): Execution
  {
    var plated := DistributePrefix(g, WalkLength(g.sourceWells, g.lastSource)) + [Pause];
    match numCols
    case None => Execution(plated, BadMarker)
    case Some(n) =>
      if n > g.columns then
        Execution(plated + ResuspendPrefix(g.columns), ColumnOutOfRange(g.columns))
      else
        Execution(plated + ResuspendPrefix(if n < 0 then 0 else n) + [Pause]
                  + PoolPrefix(g, WalkLength(g.destWells, g.lastDest)), Completed)
  }

  /** The trace and outcome `run` produces. */
  function Plan(g: Geometry): Execution
  {
    Schedule(g, Marker.GetNumCols(g.marker))
  }

  /** The Plate loop of `run` (distribute, then break on the last-sample well). */
  method Plate(g: Geometry) returns (actions: seq<Action>)
    ensures actions == DistributePrefix(g, WalkLength(g.sourceWells, g.lastSource))
  {
    var wells := g.IntermediateWells();
    actions := [];
    var srcIdx := 0;
    while srcIdx < g.sourceWells
      invariant srcIdx <= g.sourceWells && srcIdx <= g.lastSource
      invariant actions == DistributePrefix(g, srcIdx)
    {
      actions := actions + [Distribute(DistributeVolume, srcIdx, Block(srcIdx, wells))];
      assert actions == DistributePrefix(g, srcIdx + 1);
      if srcIdx == g.lastSource {
        break;
      }
      srcIdx := srcIdx + 1;
    }
  }

  /**
   * The Resuspend loop of `run` for `numCols` columns; `failedAt` is the column
   * whose lookup in `int_plt.columns()` raises IndexError, if any.
   */
  method Resuspend(g: Geometry, numCols: int) returns (actions: seq<Action>, failedAt: Option<nat>)
    ensures numCols > g.columns ==> actions == ResuspendPrefix(g.columns) && failedAt == Some(g.columns)
    ensures numCols <= g.columns ==>
      actions == ResuspendPrefix(if numCols < 0 then 0 else numCols) && failedAt == None
  {
    actions := [];
    var col := 0;
    while col < numCols
      invariant 0 <= col <= g.columns
      invariant col == 0 || col <= numCols
      invariant actions == ResuspendPrefix(col)
    {
      if col >= g.columns {
        failedAt := Some(col);
        return;
      }
      actions := actions + [Transfer(ResuspendVolume, ReagentWell, col, MixRepetitions, MixVolume)];
      assert actions == ResuspendPrefix(col + 1);
      col := col + 1;
    }
    failedAt := None;
  }

  /** The Pool loop of `run` (consolidate, then break on the destination's last-sample well). */
  method Pool(g: Geometry) returns (actions: seq<Action>)
    ensures actions == PoolPrefix(g, WalkLength(g.destWells, g.lastDest))
  {
    var wells := g.IntermediateWells();
    actions := [];
    var destIdx := 0;
    while destIdx < g.destWells
      invariant destIdx <= g.destWells && destIdx <= g.lastDest
      invariant actions == PoolPrefix(g, destIdx)
    {
      actions := actions + [Consolidate(PoolVolume, Block(destIdx, wells), destIdx)];
      assert actions == PoolPrefix(g, destIdx + 1);
      if destIdx == g.lastDest {
        break;
      }
      destIdx := destIdx + 1;
    }
  }

  /** `run`: the three phases with a pause between each, stopping where Python would raise. */
  method Run(g: Geometry) returns (trace: seq<Action>, outcome: Outcome)
    ensures Execution(trace, outcome) == Plan(g)
  {
    var plated := Plate(g);
    trace := plated + [Pause];
    var numCols := Marker.GetNumCols(g.marker);
    if numCols.None? {
      outcome := BadMarker;
      return;
    }
    var resuspended, failedAt := Resuspend(g, numCols.value);
    trace := trace + resuspended;
    if failedAt.Some? {
      outcome := ColumnOutOfRange(failedAt.value);
      return;
    }
    var pooled := Pool(g);
    trace := trace + [Pause] + pooled;
    outcome := Completed;
  }
}
