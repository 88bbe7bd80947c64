/**
 * Layout of the intermediate plate.
 *
 * Wells of a plate are identified by their position in the plate's `wells()`
 * enumeration, so the intermediate plate of `n` wells is the list `0 .. n-1`.
 * Source sample `k` owns the contiguous block of wells `[k*R, (k+1)*R)`, cut
 * by Python's slice semantics at the end of the plate.
 */
module Layout {

  /** Number of replicate wells per sample (`_NUM_REPS`). */
  const Replicates: nat := 4

  function Min(a: int, b: int): int { if a <= b then a else b }

  /** The integers `lo, lo+1, .., hi-1` (empty when `hi <= lo`). */
  function Range(lo: nat, hi: nat): (r: seq<nat>)
    ensures |r| == if lo <= hi then hi - lo else 0
    ensures forall i :: 0 <= i < |r| ==> r[i] == lo + i
    decreases hi - lo
  {
    if hi <= lo then [] else [lo] + Range(lo + 1, hi)
  }

  /** A plate's `wells()` list, each well named by its position in it. */
  function Wells(n: nat): seq<nat>
  {
    Range(0, n)
  }

  /** Python's `s[lo:hi]` for non-negative bounds: both bounds are cut at `len(s)`. */
  function Slice<T>(s: seq<T>, lo: nat, hi: nat): (r: seq<T>)
    ensures |r| == if lo < Min(hi, |s|) then Min(hi, |s|) - lo else 0
    ensures forall i :: 0 <= i < |r| ==> lo + i < |s| && r[i] == s[lo + i]
  {
    if hi <= lo || |s| <= lo then [] else s[lo..Min(hi, |s|)]
  }

  /** `int_plt.wells()[k * _NUM_REPS:(k + 1) * _NUM_REPS]` on a plate of `n` wells. */
  function Block(k: nat, n: nat): seq<nat>
  {
    Slice(Wells(n), k * Replicates, (k + 1) * Replicates)
  }

  /** Block `k` is the run of wells from `k*R` up to `(k+1)*R`, both cut at `n`. */
  lemma BlockIsRange(k: nat, n: nat)
    ensures Block(k, n) == Range(Min(k * Replicates, n), Min((k + 1) * Replicates, n))
  {
    var b, r := Block(k, n), Range(Min(k * Replicates, n), Min((k + 1) * Replicates, n));
    assert |b| == |r|;
    forall i | 0 <= i < |b| ensures b[i] == r[i] { }
  }

  /** When the plate is large enough a block holds exactly `R` wells, `k*R .. k*R+R-1` in order. */
  lemma FullBlock(k: nat, n: nat)
    requires (k + 1) * Replicates <= n
    ensures |Block(k, n)| == Replicates
    ensures forall i :: 0 <= i < Replicates ==> Block(k, n)[i] == k * Replicates + i
  {
  }

  /** A well belongs to a block exactly when it lies on the plate and its index divided by `R` is the block. */
  lemma InBlock(w: nat, k: nat, n: nat)
    ensures w in Block(k, n) <==> w < n && w / Replicates == k
  {
    var b := Block(k, n);
    if w in b {
      var i :| 0 <= i < |b| && b[i] == w;
      assert w == k * Replicates + i;
    }
    if w < n && w / Replicates == k {
      var i := w - k * Replicates;
      assert 0 <= i < |b| && b[i] == w;
    }
  }

  /** Blocks of distinct samples never share a well. */
  lemma BlocksDisjoint(j: nat, k: nat, n: nat)
    requires j != k
    ensures forall w :: w in Block(j, n) ==> w !in Block(k, n)
  {
    forall w | w in Block(j, n) ensures w !in Block(k, n) {
      InBlock(w, j, n);
      InBlock(w, k, n);
    }
  }

  /** The blocks of samples `0 .. m-1`, concatenated in sample order. */
  function Blocks(m: nat, n: nat): seq<nat>
  {
    if m == 0 then [] else Blocks(m - 1, n) + Block(m - 1, n)
  }

  lemma RangeAppend(a: nat, b: nat, c: nat)
    requires a <= b <= c
    ensures Range(a, b) + Range(b, c) == Range(a, c)
  {
    var l, r := Range(a, b) + Range(b, c), Range(a, c);
    assert |l| == |r|;
    forall i | 0 <= i < |l| ensures l[i] == r[i] {
      if i >= b - a { assert l[i] == Range(b, c)[i - (b - a)]; }
    }
  }

  /** Consecutive blocks are adjacent: the first `m` blocks tile `[0, m*R)` (cut at `n`) with no gap and no overlap. */
  lemma {:induction false} BlocksCover(m: nat, n: nat)
    ensures Blocks(m, n) == Range(0, Min(m * Replicates, n))
  {
    if m > 0 {
      BlocksCover(m - 1, n);
      BlockIsRange(m - 1, n);
      RangeAppend(0, Min((m - 1) * Replicates, n), Min(m * Replicates, n));
    }
  }
}
