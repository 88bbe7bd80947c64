# liv-msprep: the sample-preparation protocol's layout and sequencing, in Dafny

The repository is an Opentrons protocol (`liv_msprep/msprep.py`) that splits
samples into replicates on an intermediate 96-well plate, resuspends them with
a reagent, and pools the replicates into a destination plate. Almost all of it
calls the Opentrons API. The logic it has of its own is in `run` and
`_get_num_cols`: which wells each phase touches, when each walk stops, how many
columns are resuspended, and the order of the phases. This project models
that logic and proves what it guarantees.

Every pipette or protocol call becomes one abstract `Action` in an ordered trace:
`Distribute(volume, source, targets)`, `Pause`,
`Transfer(volume, reagent, column, mixRepetitions, mixVolume)` and
`Consolidate(volume, sources, dest)`. A well is its position in its plate's
`wells()` list. A column of the intermediate plate is its index in `columns()`.

- `layout.dfy` (module `Layout`): `_NUM_REPS` = 4, Python's slice semantics, and
  the block `[k*4, (k+1)*4)` of intermediate wells that belongs to sample `k`.
  The slice is cut at the end of the plate, as Python cuts it.
- `marker.dfy` (module `Marker`): `_get_num_cols`, which is `int(marker[1:])`.
  Python's `int` is modelled on strings: surrounding whitespace, one sign, and
  digits with single underscores between them. `None` stands for `ValueError`.
- `protocol.dfy` (module `Protocol`): the three loops of `run` as the methods
  `Plate`, `Resuspend` and `Pool`, and `Run`, which chains them with a pause
  between phases. Each method is proved equal to a specification function.
  `Plan(g)` is the whole trace and outcome for a geometry `g`. It is
  `Schedule(g, GetNumCols(g.marker))`.
- `properties.dfy` (module `Properties`): what a schedule guarantees, proved for
  every value `_get_num_cols()` can take. Each lemma takes that value as the
  parameter `cols`, and `Plan(g)` is the case `cols == GetNumCols(g.marker)`.
- `wrappers.dfy`: the `Option` type.

The positions of the last-sample well on the source and destination plates are
parameters (`lastSource`, `lastDest`), because turning the label "A2" into a
position is Opentrons behaviour. The two are independent, since `run` looks the
label up on two different plates (lines 41 and 64). In the model, a walk whose
marker is not on the plate visits every well.

`run` can stop early in two places, and the model keeps both:
- `int` raises `ValueError` when the marker's tail is not an integer. The
  outcome is then `BadMarker`, after the Plate actions and the first pause.
- `int_plt.columns()[col]` raises `IndexError` when the count names more
  columns than the plate has. The outcome is then `ColumnOutOfRange(columns)`,
  after one transfer per existing column.

A negative count resuspends nothing, as `range` of a negative number is empty.

Replicates sit in contiguous blocks. There is no separate Mix phase, only the
transfer's `mix_after=(3, 40)`. There is no flow-rate override, no explicit tip
policy and no pool-boundary column. Pool walks destination wells
`0 .. lastDest` and consolidates block `k` into well `k`.

On the shipped configuration, Opentrons lists wells column by column, so "A2"
is well 4 of the 4-row source block and well 8 of the 96-well plates. With that
order the model shows the following (`ShippedRun`, `ShippedLastBlock`,
`ShippedPoolBeyondPlate`):
- Plate fills intermediate wells 0 .. 19 from five samples.
- Resuspend reaches columns 0 and 1, which are wells 0 .. 15.
- The fifth sample's block, wells 16 .. 19, is in column 2.
- Pool consolidates nine blocks, and blocks 5 .. 8 were never filled.

These are proved consequences of the code as written.

## Model

| member | source | states |
|---|---|---|
| `Layout.Slice` | liv_msprep/msprep.py:39 | Python's `s[lo:hi]` with non-negative bounds. Its length is `min(hi, len) - lo`, or 0 when that is not positive. Element `i` is `s[lo + i]`. |
| `Layout.BlockIsRange` | liv_msprep/msprep.py:39 | The slice for sample `k` is the run of wells from `min(k*4, n)` up to `min((k+1)*4, n)`, in order. |
| `Layout.FullBlock` | liv_msprep/msprep.py:36-39 | When `(k+1)*4 <= n`, sample `k`'s block is exactly 4 wells, `k*4 .. k*4+3`, ascending. |
| `Layout.InBlock` | liv_msprep/msprep.py:39 | Well `w` is in block `k` if and only if `w < n` and `w / 4 == k`. |
| `Layout.BlocksDisjoint` | liv_msprep/msprep.py:39 | The blocks of two different samples share no well. |
| `Layout.BlocksCover` | liv_msprep/msprep.py:35-39 | The first `m` blocks, joined in order, are exactly the wells `0 .. min(m*4, n)-1`. There is no gap and no repeat. |
| `Marker.TrimStart` | liv_msprep/msprep.py:96 | The leading whitespace `int` ignores: the result is a suffix of the input that does not start with whitespace, and every character removed is whitespace. |
| `Marker.TrimEnd` | liv_msprep/msprep.py:96 | The trailing whitespace `int` ignores: the result is a prefix of the input that does not end with whitespace, and every character removed is whitespace. |
| `Marker.DecimalValue` | liv_msprep/msprep.py:96 | The canonical decimal spelling of `n` is a valid digit string, and its value is `n`. |
| `Marker.ParseDecimal` | liv_msprep/msprep.py:96 | `int(str(n)) == n` and `int('-' + str(n)) == -n`. |
| `Marker.RejectsLeadingNonDigit` | liv_msprep/msprep.py:96 | `int` raises on any string whose first character is not whitespace, a sign or a digit, whatever follows it. |
| `Marker.NumColsOfLabel` | liv_msprep/msprep.py:94-96 | `_get_num_cols` of a label "row letter + n" is `n`, whatever the row letter. |
| `Marker.SampleLastColumns` | liv_msprep/msprep.py:24 | With the shipped marker "A2", `_get_num_cols()` is 2. |
| `Marker.MalformedMarkers` | liv_msprep/msprep.py:94-96 | A marker that is empty, a single character, or has an ASCII letter as its second character makes `_get_num_cols` raise `ValueError`, whatever follows. |
| `Protocol.Plate` | liv_msprep/msprep.py:35-42 | The Plate loop, with its `break` after the last-sample well, issues exactly the distributes of sources `0 .. WalkLength-1`. |
| `Protocol.Resuspend` | liv_msprep/msprep.py:47-52 | The Resuspend loop issues transfers for columns `0 .. numCols-1`, or none when `numCols < 0`. When `numCols` exceeds the plate's columns, it stops with IndexError at column `columns`, after one transfer per existing column. |
| `Protocol.Pool` | liv_msprep/msprep.py:58-65 | The Pool loop, with its `break` after the destination's last-sample well, issues exactly the consolidations `0 .. WalkLength-1`. |
| `Protocol.Run` | liv_msprep/msprep.py:28-65 | `run` produces exactly the trace and outcome of `Plan(g)`, including the `ValueError` and `IndexError` stops. |
| `Properties.AfterPlate` | liv_msprep/msprep.py:35-65 | The trace is the Plate actions, then one pause, then the rest of the run. Nothing in the rest distributes, whichever way the run ends. |
| `Properties.PlateWalk` | liv_msprep/msprep.py:35-42 | Plate visits source wells `0 .. lastSource` in ascending order, or every well when the marker is not on the plate. Step `k` distributes 75 uL from source `k` into block `k`. The pause follows, and no later action distributes. |
| `Properties.ResuspendWalk` | liv_msprep/msprep.py:44-52 | Right after the first pause come transfers to columns `0, 1, ..` in order. There are `_get_num_cols()` of them, capped at the plate's columns and at least 0. Each moves 40 uL from reagent well A1 with a 3 x 40 uL mix after. They are the only transfers. |
| `Properties.PoolWalk` | liv_msprep/msprep.py:54-65 | On completion, after the second pause, Pool consolidates 40 uL from block `k` into destination well `k` for `k = 0 .. lastDest` in order, or for every well when the marker is absent. These are the last actions, and nothing earlier consolidates. |
| `Properties.Outcomes` | liv_msprep/msprep.py:47-52 | A run fails with ValueError exactly when the marker's tail is not an integer. It fails with IndexError, at column `columns`, exactly when the count exceeds the plate's columns. A failed run never reaches Pool. |
| `Properties.PhaseOrder` | liv_msprep/msprep.py:35-65 | All distributes come first, then one pause, then only transfers. On completion there is a second pause, followed only by consolidations. No phase's action comes before an earlier phase ends. |
| `Properties.Volumes` | liv_msprep/msprep.py:35-65 | Every distribute moves 75 uL. Every transfer moves 40 uL from A1 with mix (3, 40). Every consolidation moves 40 uL. |
| `Properties.DistributeTargetsDisjoint` | liv_msprep/msprep.py:35-39 | Two different distribute actions of a run never target the same intermediate well. |
| `Properties.PlatedWells` | liv_msprep/msprep.py:35-42 | An intermediate well receives a sample if and only if it is below `min(PlatedCount * 4, n)`. |
| `Properties.PlateFillsInOrder` | liv_msprep/msprep.py:35-42 | The Plate targets, concatenated in trace order, are exactly the wells `0, 1, .., min(PlatedCount * 4, n)-1`. |
| `Properties.ResuspendedColumns` | liv_msprep/msprep.py:47-52 | Some transfer reaches intermediate column `col` if and only if `col` is below the number of columns resuspended. |
| `Properties.ResuspendedWells` | liv_msprep/msprep.py:47-52 | With wells listed column by column, an intermediate well is in a resuspended column if and only if it is below `ResuspendedCount * rows`. |
| `Properties.PoolDrawsPlatedBlock` | liv_msprep/msprep.py:35-65 | The consolidation into destination well `k` comes after the distribution from source well `k`. It draws from exactly the wells that distribution filled. |
| `Properties.ShippedPlan` | liv_msprep/msprep.py:24-65 | With the shipped marker "A2", `run` behaves as a schedule with a column count of 2. |
| `Properties.ShippedRun` | liv_msprep/msprep.py:20-65 | With a column count of 2, the shipped configuration completes with 5 distributes, 2 resuspended columns, 9 consolidations and 18 actions in all. |
| `Properties.ShippedLastBlock` | liv_msprep/msprep.py:24-52 | In the shipped configuration, the fifth sample's block is wells 16 .. 19, which is column 2, beyond the two columns resuspended. |
| `Properties.ShippedPoolBeyondPlate` | liv_msprep/msprep.py:24-65 | In the shipped configuration, pool steps 5 .. 8 draw only from wells at or above 20, which Plate never fills. |

## Left out

- `_setup` (liv_msprep/msprep.py:68-91) is left out. Loading the temperature module, labware and pipettes is Opentrons API calls with no logic of their own.
- `main` (liv_msprep/msprep.py:99-105) is left out. It reads the file and runs the Opentrons simulator, which is I/O and a foreign library.
- `distribute`, `transfer`, `consolidate`, mixing and tip handling are Opentrons library code. Each is one opaque action record. The model does not check whether Opentrons accepts an empty target list at the end of the plate.
- Turning a label such as "A2" into a position, and the order of `wells()`, are library behaviour. `lastSource` and `lastDest` are parameters. The comparison of `Well` objects at lines 41 and 64 is modelled as equality of positions.
- A label that is not on the plate would make the lookup at line 41 or 64 raise `KeyError`. The model instead treats such a marker as never matching, so the walk covers every well.
- The pause messages and `metadata` are operator-facing text and are left out. Each pause is a plain `Pause` action.
- Marker.ParseInt: Python's `int` also strips non-ASCII whitespace and accepts non-ASCII decimal digits. The model rejects both, as they cannot occur in a well label.
