/**
 * The fixed-size range walk used by both the alignment scan and the
 * Message-ID resolver: ranges [c, min(c + size - 1, hi)] from lo upwards,
 * each starting right after the previous one ends.
 */
module Batches {

  const AlignScanBatchSize: nat := 500
  const ResolveUidScanBatchSize: nat := 500

  datatype Range = Range(lo: int, hi: int)

  function Min(a: int, b: int): int { if a < b then a else b }

  predicate InRange(r: Range, x: int) { r.lo <= x <= r.hi }

  /**
   * rs is a prefix of the walk over [lo, hi] in ranges of `size` positions:
   * each range starts right after the previous one (the first at lo) and
   * ends `size - 1` positions later or at hi.
   */
  ghost predicate Batched(rs: seq<Range>, lo: int, hi: int, size: nat)
    decreases |rs|
  {
    rs == [] ||
    var n := |rs| - 1;
    && Batched(rs[..n], lo, hi, size)
    && rs[n].lo == (if n == 0 then lo else rs[n - 1].hi + 1)
    && rs[n].lo <= rs[n].hi == Min(rs[n].lo + size - 1, hi)
  }

  /** The walk reached hi (or had nothing to walk). */
  ghost predicate Complete(rs: seq<Range>, lo: int, hi: int)
  {
    lo <= hi ==> |rs| > 0 && rs[|rs| - 1].hi == hi
  }

  /** A walk, range by range: it starts at lo, each range has the batch size (cut at hi), and each starts after the previous. */
  lemma {:induction false} BatchedShape(rs: seq<Range>, lo: int, hi: int, size: nat)
    requires Batched(rs, lo, hi, size)
    ensures |rs| > 0 ==> rs[0].lo == lo
    ensures forall j :: 0 <= j < |rs| ==> rs[j].lo <= rs[j].hi == Min(rs[j].lo + size - 1, hi)
    ensures forall j :: 0 <= j < |rs| - 1 ==> rs[j + 1].lo == rs[j].hi + 1
    decreases |rs|
  {
    if rs != [] {
      var n := |rs| - 1;
      BatchedShape(rs[..n], lo, hi, size);
      assert forall j :: 0 <= j < n ==> rs[..n][j] == rs[j];
    }
  }

  /** The step both loops take: the next range starts right after the last one. */
  lemma BatchedExtend(rs: seq<Range>, lo: int, hi: int, size: nat, cursor: int)
    requires Batched(rs, lo, hi, size) && size >= 1 && cursor <= hi
    requires if rs == [] then cursor == lo else rs[|rs| - 1].hi + 1 == cursor
    ensures Batched(rs + [Range(cursor, Min(cursor + size - 1, hi))], lo, hi, size)
  {
    assert (rs + [Range(cursor, Min(cursor + size - 1, hi))])[..|rs|] == rs;
  }

  /** A walk is its first range followed by the walk from the position after it. */
  lemma {:induction false} BatchedCons(r: Range, rest: seq<Range>, lo: int, hi: int, size: nat)
    requires r.lo == lo && r.lo <= r.hi == Min(lo + size - 1, hi)
    requires Batched(rest, r.hi + 1, hi, size)
    ensures Batched([r] + rest, lo, hi, size)
    decreases |rest|
  {
    if rest != [] {
      var n := |rest| - 1;
      BatchedCons(r, rest[..n], lo, hi, size);
      assert ([r] + rest)[..n + 1] == [r] + rest[..n];
    }
  }

  /** Ranges of a walk are strictly ascending, hence pairwise disjoint. */
  lemma {:induction false} BatchedDisjoint(rs: seq<Range>, lo: int, hi: int, size: nat, j: nat, k: nat)
    requires Batched(rs, lo, hi, size)
    requires j < k < |rs|
    ensures rs[j].hi < rs[k].lo
    decreases k - j
  {
    BatchedShape(rs, lo, hi, size);
    if k > j + 1 {
      BatchedDisjoint(rs, lo, hi, size, j + 1, k);
    }
  }

  /** Every position from lo to the end of the last range lies in some range of the walk. */
  lemma {:induction false} BatchedCovers(rs: seq<Range>, lo: int, hi: int, size: nat, x: int)
    requires Batched(rs, lo, hi, size)
    requires |rs| > 0 && lo <= x <= rs[|rs| - 1].hi
    ensures exists j :: 0 <= j < |rs| && InRange(rs[j], x)
    decreases |rs|
  {
    BatchedShape(rs, lo, hi, size);
    var n := |rs| - 1;
    if x < rs[n].lo {
      assert n > 0;
      BatchedCovers(rs[..n], lo, hi, size, x);
      var j :| 0 <= j < n && InRange(rs[..n][j], x);
      assert InRange(rs[j], x);
    } else {
      assert InRange(rs[n], x);
    }
  }

  /** A complete walk over [lo, hi] touches exactly the positions lo..hi, each once. */
  lemma CompleteWalkPartitions(rs: seq<Range>, lo: int, hi: int, size: nat, x: int)
    requires Batched(rs, lo, hi, size) && Complete(rs, lo, hi)
    ensures (exists j :: 0 <= j < |rs| && InRange(rs[j], x)) <==> lo <= x <= hi
    ensures forall j, k :: 0 <= j < k < |rs| ==> rs[j].hi < rs[k].lo
  {
    BatchedShape(rs, lo, hi, size);
    forall j, k | 0 <= j < k < |rs| ensures rs[j].hi < rs[k].lo {
      BatchedDisjoint(rs, lo, hi, size, j, k);
    }
    if lo <= x <= hi {
      BatchedCovers(rs, lo, hi, size, x);
    }
    if exists j :: 0 <= j < |rs| && InRange(rs[j], x) {
      var j :| 0 <= j < |rs| && InRange(rs[j], x);
      if j > 0 {
        BatchedDisjoint(rs, lo, hi, size, 0, j);
      }
    }
  }
}
