/**
 * Splitting a checkpoint of `rows` rows into at most four contiguous ranges
 * (`partition_ranges`), and the facts the fan-out plan relies on: the ranges
 * tile the rows in order, and gluing the slices back gives the whole sequence.
 */
module Partition {
  import opened Options

  datatype Range = Range(start: nat, end: nat)

  const MAX_PARTITIONS: nat := 4

  /** Consecutive ranges from `from` to `to`: no gap, no overlap, none reversed. */
  ghost predicate Tiles(rs: seq<Range>, from: nat, to: nat) {
    if rs == [] then from == to
    else rs[0].start == from && from <= rs[0].end <= to && Tiles(rs[1..], rs[0].end, to)
  }

  function PartitionCount(rows: nat): nat {
    if rows == 0 then 1 else if rows < MAX_PARTITIONS then rows else MAX_PARTITIONS
  }

  /** Where range `i` starts: the first `rows % p` ranges are one row longer. */
  function Boundary(rows: nat, i: nat): nat {
    var p := PartitionCount(rows);
    i * (rows / p) + (if i < rows % p then i else rows % p)
  }

  function PartitionRanges(rows: nat): (rs: seq<Range>)
    ensures |rs| == PartitionCount(rows)
  {
    seq(PartitionCount(rows),
      i requires 0 <= i < PartitionCount(rows) => Range(Boundary(rows, i), Boundary(rows, i + 1)))
  }

  /** `partition_ranges`; None stands for the ValueError on a negative row count. */
  method ComputeRanges(rowCount: int) returns (ok: bool, out: seq<Range>)
    ensures ok <==> rowCount >= 0
    ensures ok ==> out == PartitionRanges(rowCount)
  {
    if rowCount < 0 {
      return false, [];
    }
    if rowCount == 0 {
      return true, [Range(0, 0)];
    }
    var p := if rowCount < 4 then rowCount else 4;
    if p < 1 { p := 1; }
    var base, rem := rowCount / p, rowCount % p;
    out := [];
    var start := 0;
    for i := 0 to p
      invariant |out| == i && start == Boundary(rowCount, i)
      invariant forall k :: 0 <= k < i ==> out[k] == PartitionRanges(rowCount)[k]
    {
      var size := base + (if i < rem then 1 else 0);
      BoundaryStep(rowCount, i);
      out := out + [Range(start, start + size)];
      start := start + size;
    }
    ok := true;
  }

  lemma BoundaryStep(rows: nat, i: nat)
    ensures Boundary(rows, i + 1)
         == Boundary(rows, i) + rows / PartitionCount(rows) + (if i < rows % PartitionCount(rows) then 1 else 0)
  {
    var q := rows / PartitionCount(rows);
    assert (i + 1) * q == i * q + q;
  }

  lemma BoundaryLimits(rows: nat, i: nat)
    requires i <= PartitionCount(rows)
    ensures Boundary(rows, i) <= Boundary(rows, PartitionCount(rows)) == rows
  {
    var p := PartitionCount(rows);
    var q, r := rows / p, rows % p;
    assert rows == p * q + r;
    assert i * q <= p * q;
  }

  lemma {:induction false} TilesFrom(rows: nat, i: nat)
    requires i <= PartitionCount(rows)
    ensures Tiles(PartitionRanges(rows)[i..], Boundary(rows, i), rows)
    decreases PartitionCount(rows) - i
  {
    var p := PartitionCount(rows);
    var rs := PartitionRanges(rows);
    BoundaryLimits(rows, i);
    if i == p {
      assert rs[i..] == [];
    } else {
      TilesFrom(rows, i + 1);
      BoundaryLimits(rows, i + 1);
      assert Boundary(rows, i) <= Boundary(rows, i + 1) by { BoundaryStep(rows, i); }
      assert rs[i..][0] == rs[i] && rs[i..][1..] == rs[i + 1..];
    }
  }

  /** The computed ranges tile `[0, rows)`, and their sizes differ by at most one. */
  lemma RangesTile(rows: nat)
    ensures Tiles(PartitionRanges(rows), 0, rows)
    ensures 1 <= |PartitionRanges(rows)| <= MAX_PARTITIONS
    ensures forall r, q :: r in PartitionRanges(rows) && q in PartitionRanges(rows)
              ==> r.end - r.start <= q.end - q.start + 1
  {
    TilesFrom(rows, 0);
    var rs := PartitionRanges(rows);
    assert rs[0..] == rs && Boundary(rows, 0) == 0;
    var p := PartitionCount(rows);
    forall i | 0 <= i < p
      ensures rs[i].end - rs[i].start == rows / p + (if i < rows % p then 1 else 0)
    {
      BoundaryStep(rows, i);
    }
  }

  lemma {:induction false} TilesBounds(rs: seq<Range>, from: nat, to: nat, i: nat)
    requires Tiles(rs, from, to) && i < |rs|
    ensures from <= rs[i].start <= rs[i].end <= to
  {
    TilesOrdered(rs, from, to);
    if i > 0 {
      TilesBounds(rs[1..], rs[0].end, to, i - 1);
    }
  }

  lemma {:induction false} TilesOrdered(rs: seq<Range>, from: nat, to: nat)
    requires Tiles(rs, from, to)
    ensures from <= to
  {
    if rs != [] {
      TilesOrdered(rs[1..], rs[0].end, to);
    }
  }

  function Concat<T>(parts: seq<seq<T>>): seq<T> {
    if parts == [] then [] else parts[0] + Concat(parts[1..])
  }

  /** Slices of tiling ranges, glued in order, are the covered stretch. */
  lemma {:induction false} SlicesGlue<T>(rs: seq<Range>, from: nat, to: nat, content: seq<T>, parts: seq<seq<T>>)
    requires Tiles(rs, from, to) && to <= |content|
    requires |parts| == |rs|
    requires forall i :: 0 <= i < |rs| ==>
      rs[i].start <= rs[i].end <= |content| && parts[i] == content[rs[i].start..rs[i].end]
    ensures from <= to && Concat(parts) == content[from..to]
  {
    if rs != [] {
      TilesOrdered(rs[1..], rs[0].end, to);
      SlicesGlue(rs[1..], rs[0].end, to, content, parts[1..]);
      assert content[from..to] == content[from..rs[0].end] + content[rs[0].end..to];
    }
  }
}
