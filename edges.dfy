/**
 * Bin-edge tables and half-open ranges, the shape shared by the binning
 * catalogue, the trigger ranges and the pT-hat slices.  Consecutive edges
 * e[i], e[i+1] bound the half-open bin [e[i], e[i+1]).
 */
module Edges {
  /** Every edge is below the next one. */
  predicate StrictlyIncreasing(e: seq<real>) {
    forall i :: 0 <= i < |e| - 1 ==> e[i] < e[i + 1]
  }

  /** `v` falls in bin `i` of the edge table `e`. */
  predicate InBin(e: seq<real>, i: int, v: real) {
    0 <= i < |e| - 1 && e[i] <= v < e[i + 1]
  }

  /** Strictly increasing adjacent edges are strictly increasing overall. */
  lemma {:induction false} IncreasingOrdered(e: seq<real>, i: int, j: int)
    requires StrictlyIncreasing(e)
    ensures 0 <= i < j < |e| ==> e[i] < e[j]
    decreases j - i
  {
    if 0 <= i && i + 1 < j < |e| {
      IncreasingOrdered(e, i + 1, j);
    }
  }

  /** Between the first and the last edge every value has a bin. */
  lemma {:induction false} BinExists(e: seq<real>, v: real) returns (i: nat)
    requires |e| >= 2 && e[0] <= v < e[|e| - 1]
    ensures InBin(e, i, v)
    decreases |e|
  {
    if v < e[1] {
      i := 0;
    } else {
      var k := BinExists(e[1..], v);
      i := k + 1;
    }
  }

  /**
   * The bins of an increasing edge table partition [first edge, last edge):
   * a value lies in some bin exactly when it is in that interval, and in
   * at most one bin.
   */
  lemma BinPartition(e: seq<real>, v: real)
    requires StrictlyIncreasing(e) && |e| >= 2
    ensures (exists i :: InBin(e, i, v)) <==> e[0] <= v < e[|e| - 1]
    ensures forall i, j :: InBin(e, i, v) && InBin(e, j, v) ==> i == j
  {
    if e[0] <= v < e[|e| - 1] {
      var i := BinExists(e, v);
    }
    forall i | InBin(e, i, v)
      ensures e[0] <= v < e[|e| - 1]
    {
      IncreasingOrdered(e, 0, i);
      IncreasingOrdered(e, i + 1, |e| - 1);
    }
    forall i, j | InBin(e, i, v) && InBin(e, j, v)
      ensures i == j
    {
      IncreasingOrdered(e, i + 1, j);
      IncreasingOrdered(e, j + 1, i);
    }
  }

  /** Two increasing tables joined at an increasing seam form one increasing table. */
  lemma IncreasingJoin(a: seq<real>, b: seq<real>)
    requires StrictlyIncreasing(a) && StrictlyIncreasing(b)
    requires |a| > 0 && |b| > 0 && a[|a| - 1] < b[0]
    ensures StrictlyIncreasing(a + b)
  {
    forall i | 0 <= i < |a + b| - 1
      ensures (a + b)[i] < (a + b)[i + 1]
    {
      if i < |a| - 1 {
      } else if i == |a| - 1 {
      } else {
      }
    }
  }

  /** Four tables written one after the other. */
  function Concat4(p: seq<seq<real>>): (e: seq<real>)
    requires |p| == 4
    ensures |e| == |p[0]| + |p[1]| + |p[2]| + |p[3]|
  {
    p[0] + p[1] + p[2] + p[3]
  }

  /** Four increasing non-empty pieces with increasing seams join into one increasing table. */
  lemma IncreasingJoin4(p: seq<seq<real>>)
    requires |p| == 4
    requires forall k :: 0 <= k < 4 ==> |p[k]| > 0 && StrictlyIncreasing(p[k])
    requires forall k :: 0 <= k < 3 ==> p[k][|p[k]| - 1] < p[k + 1][0]
    ensures StrictlyIncreasing(Concat4(p)) && Concat4(p)[0] == p[0][0]
  {
    IncreasingJoin(p[0], p[1]);
    IncreasingJoin(p[0] + p[1], p[2]);
    IncreasingJoin(p[0] + p[1] + p[2], p[3]);
  }

  /** A half-open range [lo, hi). */
  datatype Range = Range(lo: real, hi: real) {
    predicate Contains(v: real) {
      lo <= v < hi
    }
  }

  predicate NonEmptyRanges(rs: seq<Range>) {
    forall i :: 0 <= i < |rs| ==> rs[i].lo < rs[i].hi
  }

  /** Each range ends where the next one begins. */
  predicate Contiguous(rs: seq<Range>) {
    forall i :: 0 <= i < |rs| - 1 ==> rs[i].hi == rs[i + 1].lo
  }

  /** The edge table of a run of ranges: the first lower end, then every upper end. */
  function RangeEdges(rs: seq<Range>): (e: seq<real>)
    requires |rs| > 0
    ensures |e| == |rs| + 1 && e[0] == rs[0].lo && e[|rs|] == rs[|rs| - 1].hi
    ensures forall i :: 0 <= i < |rs| ==> e[i + 1] == rs[i].hi
  {
    [rs[0].lo] + seq(|rs|, i requires 0 <= i < |rs| => rs[i].hi)
  }

  /** With contiguous ranges, the edge table also lists every lower end. */
  lemma RangeEdgesLow(rs: seq<Range>, i: nat)
    requires |rs| > 0 && Contiguous(rs) && i < |rs|
    ensures RangeEdges(rs)[i] == rs[i].lo
  {
    if i > 0 {
      assert RangeEdges(rs)[(i - 1) + 1] == rs[i - 1].hi;
    }
  }

  /** Contiguous non-empty ranges are exactly the bins of their edge table. */
  lemma RangeEdgesAreBins(rs: seq<Range>)
    requires |rs| > 0 && NonEmptyRanges(rs) && Contiguous(rs)
    ensures StrictlyIncreasing(RangeEdges(rs))
    ensures forall i, v :: 0 <= i < |rs| ==> (rs[i].Contains(v) <==> InBin(RangeEdges(rs), i, v))
  {
    var e := RangeEdges(rs);
    forall i | 0 <= i < |e| - 1
      ensures e[i] < e[i + 1]
    {
      RangeEdgesLow(rs, i);
    }
    forall i, v | 0 <= i < |rs|
      ensures rs[i].Contains(v) <==> InBin(e, i, v)
    {
      RangeEdgesLow(rs, i);
    }
  }

  /**
   * Contiguous non-empty ranges partition [first lower end, last upper end):
   * a value lies in some range exactly when it is in that interval, and in
   * at most one range.
   */
  lemma RangesPartition(rs: seq<Range>, v: real)
    requires |rs| > 0 && NonEmptyRanges(rs) && Contiguous(rs)
    ensures (exists i :: 0 <= i < |rs| && rs[i].Contains(v)) <==> rs[0].lo <= v < rs[|rs| - 1].hi
    ensures forall i, j :: 0 <= i < |rs| && 0 <= j < |rs| && rs[i].Contains(v) && rs[j].Contains(v) ==> i == j
  {
    var e := RangeEdges(rs);
    RangeEdgesAreBins(rs);
    BinPartition(e, v);
    if rs[0].lo <= v < rs[|rs| - 1].hi {
      var i :| InBin(e, i, v);
      assert rs[i].Contains(v);
    }
  }

  // Fixed-width rows padded with zeros.  A row holds its real edges first;
  // the first zero after position 0 marks where the padding starts.

  /** The first position at or after `i` that holds zero, or |row| if none. */
  function FirstZeroFrom(row: seq<real>, i: nat): (k: nat)
    requires i <= |row|
    ensures i <= k <= |row|
    ensures forall j :: i <= j < k ==> row[j] != 0.0
    ensures k < |row| ==> row[k] == 0.0
    decreases |row| - i
  {
    if i == |row| then i else if row[i] == 0.0 then i else FirstZeroFrom(row, i + 1)
  }

  /** The number of real edges of a padded row: the position of the first zero after position 0. */
  function ValidLength(row: seq<real>): (k: nat)
    ensures k <= |row| && (|row| > 0 ==> k >= 1)
    ensures forall j :: 1 <= j < k ==> row[j] != 0.0
    ensures k < |row| ==> row[k] == 0.0
  {
    if |row| == 0 then 0 else FirstZeroFrom(row, 1)
  }

  /** The valid length is the one position that fits the description above. */
  lemma ValidLengthIs(row: seq<real>, k: nat)
    requires 1 <= k <= |row|
    requires forall j :: 1 <= j < k ==> row[j] != 0.0
    requires k < |row| ==> row[k] == 0.0
    ensures ValidLength(row) == k
  {
  }

  /**
   * A well-formed padded row: the entries before the first zero (after
   * position 0) strictly increase and every entry from there on is zero.
   */
  predicate ZeroPadded(row: seq<real>) {
    && |row| > 0
    && (forall i :: 0 <= i < ValidLength(row) - 1 ==> row[i] < row[i + 1])
    && (forall j :: ValidLength(row) <= j < |row| ==> row[j] == 0.0)
  }

  /** The real edges of a padded row. */
  function Trim(row: seq<real>): (e: seq<real>)
    ensures |e| == ValidLength(row) && e == row[..|e|]
  {
    row[..ValidLength(row)]
  }

  /** An edge table written into a row of the given width, padded with zeros. */
  function Pad(e: seq<real>, width: nat): (row: seq<real>)
    requires |e| <= width
    ensures |row| == width && row[..|e|] == e
    ensures forall j :: |e| <= j < width ==> row[j] == 0.0
  {
    e + seq(width - |e|, _ => 0.0)
  }

  /** Trimming a well-formed padded row gives an increasing table that pads back to the row. */
  lemma PadTrim(row: seq<real>)
    requires ZeroPadded(row)
    ensures StrictlyIncreasing(Trim(row)) && |Trim(row)| >= 1
    ensures Pad(Trim(row), |row|) == row
  {
    var e := Trim(row);
    var p := Pad(e, |row|);
    forall j | 0 <= j < |row|
      ensures p[j] == row[j]
    {
      if j < |e| {
        assert p[j] == p[..|e|][j];
      }
    }
  }

  /**
   * Padding an increasing table that starts at zero or above gives a
   * well-formed row whose trimmed edges are the table again.
   */
  lemma TrimPad(e: seq<real>, width: nat)
    requires StrictlyIncreasing(e) && |e| >= 1 && e[0] >= 0.0 && |e| <= width
    ensures ZeroPadded(Pad(e, width))
    ensures Trim(Pad(e, width)) == e
  {
    var row := Pad(e, width);
    forall j | 1 <= j < |e|
      ensures row[j] != 0.0
    {
      IncreasingOrdered(e, 0, j);
      assert row[j] == row[..|e|][j];
    }
    forall j | 0 <= j < |e|
      ensures row[j] == e[j]
    {
      assert row[j] == row[..|e|][j];
    }
    ValidLengthIs(row, |e|);
  }
}
