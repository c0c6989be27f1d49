/**
 * The binning catalogue of settings.h: one-dimensional pT and
 * pseudorapidity edge tables, the bin counts derived from their sizes, and
 * the zero-padded table of pT edges per |eta| slice.  Long tables are
 * written line by line, each line a short table of its own, and the table
 * is the concatenation of its lines.
 */
module Binnings {
  import opened Edges

  /** Standard pT binning, in GeV, line by line as in the header. */
  const PtRangeLines: seq<seq<real>> := [
    [1.0, 5.0, 6.0, 8.0, 10.0, 12.0, 15.0, 18.0, 21.0, 24.0, 28.0, 32.0, 37.0, 43.0, 49.0, 56.0, 64.0, 74.0, 84.0],
    [97.0, 114.0, 133.0, 153.0, 174.0, 196.0, 220.0, 245.0, 272.0, 300.0, 330.0, 362.0, 395.0, 430.0, 468.0],
    [507.0, 548.0, 592.0, 638.0, 686.0, 737.0, 790.0, 846.0, 905.0, 967.0],
    [1032.0, 1101.0, 1172.0, 1248.0, 1327.0, 1410.0, 1497.0, 1588.0, 1684.0, 1784.0, 1890.0, 2000.0],
    [2116.0, 2238.0, 2366.0, 2500.0, 2640.0, 2787.0, 2941.0, 3103.0, 3273.0, 3450.0, 3637.0, 3832.0],
    [4037.0, 4252.0, 4477.0, 4713.0, 4961.0, 5220.0, 5492.0, 5777.0, 6076.0, 6389.0, 6717.0, 7000.0]
  ]
  const PtRange: seq<real> :=
    PtRangeLines[0] + PtRangeLines[1] + PtRangeLines[2] + PtRangeLines[3] + PtRangeLines[4] + PtRangeLines[5]
  const NPts: nat := |PtRange| - 1

  /** Wide pT binning. */
  const WPtRangeLines: seq<seq<real>> := [
    [1.0, 15.0, 21.0, 28.0, 37.0, 49.0, 64.0, 84.0, 114.0, 153.0, 196.0, 245.0, 300.0, 395.0, 468.0, 548.0],
    [686.0, 846.0, 1032.0, 1248.0, 1588.0, 2000.0, 2500.0, 3103.0, 3450.0, 3637.0, 3832.0],
    [4037.0, 4252.0, 4477.0, 4713.0, 4961.0, 5220.0, 5492.0, 5777.0, 6076.0, 6389.0, 6717.0, 7000.0]
  ]
  const WPtRange: seq<real> :=
    WPtRangeLines[0] + WPtRangeLines[1] + WPtRangeLines[2]
  const NWPts: nat := |WPtRange| - 1

  /** Extra-wide pT binning, for b-jets. */
  const WWPtRangeLines: seq<seq<real>> := [
    [1.0, 5.0, 15.0, 24.0, 37.0, 56.0, 84.0, 114.0, 153.0, 196.0, 245.0, 330.0, 430.0, 548.0, 686.0, 846.0],
    [1032.0, 1248.0, 1497.0, 1784.0, 2116.0, 2500.0, 2941.0, 3450.0, 3637.0],
    [4252.0, 4961.0, 5777.0, 6717.0, 7000.0]
  ]
  const WWPtRange: seq<real> :=
    WWPtRangeLines[0] + WWPtRangeLines[1] + WWPtRangeLines[2]
  const NWWPts: nat := |WWPtRange| - 1

  /** The number of |eta| slices of the optimized binning, and the width of each of its rows. */
  const NPtRanges: nat := 8
  const NPtsEta: nat := 65

  /**
   * The real pT edges of each |eta| slice of width 0.5, in four pieces per
   * slice.  The header writes each slice into a row of NPtsEta entries and
   * fills the rest of the row with zeros; PtRangeVsEta is that table.
   */
  const PtRangeVsEtaPieces: seq<seq<seq<real>>> := [
    // Eta_0.0-0.5
    [[10.0, 12.0, 15.0, 18.0, 21.0, 24.0, 28.0, 32.0, 37.0, 43.0, 49.0, 56.0, 64.0, 74.0, 84.0, 97.0, 114.0],
     [133.0, 153.0, 174.0, 196.0, 220.0, 245.0, 272.0, 300.0, 330.0, 362.0, 395.0, 430.0, 468.0, 507.0, 548.0, 592.0, 638.0],
     [686.0, 737.0, 790.0, 846.0, 905.0, 967.0, 1032.0, 1101.0, 1172.0, 1248.0, 1327.0, 1410.0, 1497.0, 1588.0, 1684.0, 1784.0, 1890.0],
     [2000.0, 2116.0, 2238.0, 2366.0, 2500.0, 2640.0, 2787.0, 2941.0, 3103.0, 3273.0, 3450.0, 3832.0, 6076.0, 6389.0]],
    // Eta_0.5-1.0
    [[10.0, 12.0, 15.0, 18.0, 21.0, 24.0, 28.0, 32.0, 37.0, 43.0, 49.0, 56.0, 64.0, 74.0, 84.0, 97.0],
     [114.0, 133.0, 153.0, 174.0, 196.0, 220.0, 245.0, 272.0, 300.0, 330.0, 362.0, 395.0, 430.0, 468.0, 507.0, 548.0],
     [592.0, 638.0, 686.0, 737.0, 790.0, 846.0, 905.0, 967.0, 1032.0, 1101.0, 1172.0, 1248.0, 1327.0, 1410.0, 1497.0, 1588.0],
     [1684.0, 1784.0, 1890.0, 2000.0, 2116.0, 2238.0, 2366.0, 2500.0, 2640.0, 2787.0, 2941.0, 3103.0, 3273.0, 3637.0, 5220.0, 5492.0]],
    // Eta_1.0-1.5
    [[10.0, 12.0, 15.0, 18.0, 21.0, 24.0, 28.0, 32.0, 37.0, 43.0, 49.0, 56.0, 64.0, 74.0, 84.0],
     [97.0, 114.0, 133.0, 153.0, 174.0, 196.0, 220.0, 245.0, 272.0, 300.0, 330.0, 362.0, 395.0, 430.0, 468.0],
     [507.0, 548.0, 592.0, 638.0, 686.0, 737.0, 790.0, 846.0, 905.0, 967.0, 1032.0, 1101.0, 1172.0, 1248.0, 1327.0],
     [1410.0, 1497.0, 1588.0, 1684.0, 1784.0, 1890.0, 2000.0, 2116.0, 2238.0, 2366.0, 2500.0, 2640.0, 2941.0, 3832.0, 4037.0]],
    // Eta_1.5-2.0
    [[10.0, 12.0, 15.0, 18.0, 21.0, 24.0, 28.0, 32.0, 37.0, 43.0, 49.0, 56.0, 64.0, 74.0],
     [84.0, 97.0, 114.0, 133.0, 153.0, 174.0, 196.0, 220.0, 245.0, 272.0, 300.0, 330.0, 362.0, 395.0],
     [430.0, 468.0, 507.0, 548.0, 592.0, 638.0, 686.0, 737.0, 790.0, 846.0, 905.0, 967.0, 1032.0, 1101.0],
     [1172.0, 1248.0, 1327.0, 1410.0, 1497.0, 1588.0, 1684.0, 1784.0, 1890.0, 2000.0, 2116.0, 2500.0, 2640.0]],
    // Eta_2.0-2.5
    [[10.0, 12.0, 15.0, 18.0, 21.0, 24.0, 28.0, 32.0, 37.0, 43.0, 49.0, 56.0, 64.0],
     [74.0, 84.0, 97.0, 114.0, 133.0, 153.0, 174.0, 196.0, 220.0, 245.0, 272.0, 300.0, 330.0],
     [362.0, 395.0, 430.0, 468.0, 507.0, 548.0, 592.0, 638.0, 686.0, 737.0, 790.0, 846.0, 905.0],
     [967.0, 1032.0, 1101.0, 1172.0, 1248.0, 1327.0, 1410.0, 1497.0, 1588.0, 1684.0]],
    // Eta_2.5-3.0
    [[10.0, 12.0, 15.0, 18.0, 21.0, 24.0, 28.0, 32.0, 37.0, 43.0, 49.0],
     [56.0, 64.0, 74.0, 84.0, 97.0, 114.0, 133.0, 153.0, 174.0, 196.0, 220.0],
     [245.0, 272.0, 300.0, 330.0, 362.0, 395.0, 430.0, 468.0, 507.0, 548.0, 592.0],
     [638.0, 686.0, 737.0, 790.0, 846.0, 905.0, 967.0, 1032.0]],
    // Eta_3.0-3.5
    [[10.0, 12.0, 15.0, 18.0, 21.0, 24.0, 28.0, 32.0, 37.0, 43.0, 49.0],
     [56.0, 64.0, 74.0, 84.0, 97.0, 114.0, 133.0, 153.0, 174.0, 196.0, 220.0],
     [245.0, 272.0, 300.0, 330.0, 362.0, 395.0, 430.0, 468.0, 507.0, 548.0, 592.0],
     [638.0, 686.0, 737.0, 790.0, 846.0, 905.0, 967.0, 1032.0]],
    // Eta_3.5-4.0
    [[10.0, 12.0, 15.0, 18.0, 21.0, 24.0, 28.0, 32.0, 37.0, 43.0, 49.0],
     [56.0, 64.0, 74.0, 84.0, 97.0, 114.0, 133.0, 153.0, 174.0, 196.0, 220.0],
     [245.0, 272.0, 300.0, 330.0, 362.0, 395.0, 430.0, 468.0, 507.0, 548.0, 592.0],
     [638.0, 686.0, 737.0, 790.0, 846.0, 905.0, 967.0, 1032.0]]
  ]

  /** The real pT edges of slice r. */
  function SliceEdges(r: nat): (e: seq<real>)
    requires r < NPtRanges
  {
    Concat4(PtRangeVsEtaPieces[r])
  }

  /** The optimized binning as the header stores it: one zero-padded row per slice. */
  const PtRangeVsEta: seq<seq<real>> :=
    seq(NPtRanges, r requires 0 <= r < NPtRanges => Pad(SliceEdges(r), NPtsEta))


  /** Wide pseudorapidity binning. */
  const WEtaRangeLines: seq<seq<real>> := [
    [-5.191, -3.839, -3.489, -3.139, -2.964, -2.853, -2.650, -2.500, -2.322],
    [-2.172, -1.930, -1.653, -1.479, -1.305, -1.044, -0.783, -0.522, -0.261],
    [0.000, 0.261, 0.522, 0.783, 1.044, 1.305, 1.479, 1.653, 1.930],
    [2.172, 2.322, 2.500, 2.650, 2.853, 2.964, 3.139, 3.489, 3.839, 5.191]
  ]
  const WEtaRange: seq<real> :=
    WEtaRangeLines[0] + WEtaRangeLines[1] + WEtaRangeLines[2] + WEtaRangeLines[3]
  const NWEtas: nat := |WEtaRange| - 1

  /** Binning in |eta|. */
  const PosEtaRange: seq<real> := [0.0, 0.261, 0.522, 0.783, 0.957, 1.131, 1.305, 1.479, 1.93, 2.322, 2.411, 2.5, 2.853, 2.964, 5.191]
  /** The |eta| count is the number of edges, not the number of bins. */
  const NPosEtas: nat := |PosEtaRange|

  /** Standard pseudorapidity binning. */
  const EtaRangeLines: seq<seq<real>> := [
    [-5.191, -4.889, -4.716, -4.538, -4.363, -4.191, -4.013, -3.839, -3.664, -3.489, -3.314],
    [-3.139, -2.964, -2.853, -2.65, -2.5, -2.322, -2.172, -2.043, -1.93, -1.83, -1.74, -1.653],
    [-1.566, -1.479, -1.392, -1.305, -1.218, -1.131, -1.044, -0.957, -0.879, -0.783, -0.696],
    [-0.609, -0.522, -0.435, -0.348, -0.261, -0.174, -0.087, 0.000, 0.087, 0.174, 0.261],
    [0.348, 0.435, 0.522, 0.609, 0.696, 0.783, 0.879, 0.957, 1.044, 1.131, 1.218],
    [1.305, 1.392, 1.479, 1.566, 1.653, 1.74, 1.83, 1.93, 2.043, 2.172, 2.322, 2.5],
    [2.65, 2.853, 2.964, 3.139, 3.314, 3.489, 3.664, 3.839, 4.013, 4.191, 4.363],
    [4.538, 4.716, 4.889, 5.191]
  ]
  const EtaRange: seq<real> :=
    EtaRangeLines[0] + EtaRangeLines[1] + EtaRangeLines[2] + EtaRangeLines[3] + EtaRangeLines[4] + EtaRangeLines[5] + EtaRangeLines[6] + EtaRangeLines[7]
  const NEtas: nat := |EtaRange| - 1

  /** PtRange strictly increases: each line does, and so does each seam between lines. */
  lemma PtRangeIncreasing()
    ensures StrictlyIncreasing(PtRange)
  {
    var l := PtRangeLines;
    IncreasingJoin(l[0], l[1]);
    IncreasingJoin(l[0] + l[1], l[2]);
    IncreasingJoin(l[0] + l[1] + l[2], l[3]);
    IncreasingJoin(l[0] + l[1] + l[2] + l[3], l[4]);
    IncreasingJoin(l[0] + l[1] + l[2] + l[3] + l[4], l[5]);
  }

  /** WPtRange strictly increases: each line does, and so does each seam between lines. */
  lemma WPtRangeIncreasing()
    ensures StrictlyIncreasing(WPtRange)
  {
    var l := WPtRangeLines;
    IncreasingJoin(l[0], l[1]);
    IncreasingJoin(l[0] + l[1], l[2]);
  }

  /** WWPtRange strictly increases: each line does, and so does each seam between lines. */
  lemma WWPtRangeIncreasing()
    ensures StrictlyIncreasing(WWPtRange)
  {
    var l := WWPtRangeLines;
    IncreasingJoin(l[0], l[1]);
    IncreasingJoin(l[0] + l[1], l[2]);
  }

  /** WEtaRange strictly increases: each line does, and so does each seam between lines. */
  lemma WEtaRangeIncreasing()
    ensures StrictlyIncreasing(WEtaRange)
  {
    var l := WEtaRangeLines;
    IncreasingJoin(l[0], l[1]);
    IncreasingJoin(l[0] + l[1], l[2]);
    IncreasingJoin(l[0] + l[1] + l[2], l[3]);
  }

  /** EtaRange strictly increases: each line does, and so does each seam between lines. */
  lemma EtaRangeIncreasing()
    ensures StrictlyIncreasing(EtaRange)
  {
    var l := EtaRangeLines;
    IncreasingJoin(l[0], l[1]);
    IncreasingJoin(l[0] + l[1], l[2]);
    IncreasingJoin(l[0] + l[1] + l[2], l[3]);
    IncreasingJoin(l[0] + l[1] + l[2] + l[3], l[4]);
    IncreasingJoin(l[0] + l[1] + l[2] + l[3] + l[4], l[5]);
    IncreasingJoin(l[0] + l[1] + l[2] + l[3] + l[4] + l[5], l[6]);
    IncreasingJoin(l[0] + l[1] + l[2] + l[3] + l[4] + l[5] + l[6], l[7]);
  }

  /** Every one-dimensional edge table strictly increases. */
  lemma EdgeTablesIncreasing()
    ensures StrictlyIncreasing(PtRange) && StrictlyIncreasing(WPtRange) && StrictlyIncreasing(WWPtRange)
    ensures StrictlyIncreasing(WEtaRange) && StrictlyIncreasing(PosEtaRange) && StrictlyIncreasing(EtaRange)
  {
    PtRangeIncreasing();
    WPtRangeIncreasing();
    WWPtRangeIncreasing();
    WEtaRangeIncreasing();
    EtaRangeIncreasing();
  }

  /** Every pT from 1 to 7000 GeV lies in exactly one bin of the standard pT binning, and no other pT in any. */
  lemma PtRangeBins(v: real)
    ensures (exists i :: InBin(PtRange, i, v)) <==> 1.0 <= v < 7000.0
    ensures forall i, j :: InBin(PtRange, i, v) && InBin(PtRange, j, v) ==> i == j
  {
    PtRangeIncreasing();
    BinPartition(PtRange, v);
  }

  /** The same for the wide pT binning. */
  lemma WPtRangeBins(v: real)
    ensures (exists i :: InBin(WPtRange, i, v)) <==> 1.0 <= v < 7000.0
    ensures forall i, j :: InBin(WPtRange, i, v) && InBin(WPtRange, j, v) ==> i == j
  {
    WPtRangeIncreasing();
    BinPartition(WPtRange, v);
  }

  /** The same for the extra-wide pT binning. */
  lemma WWPtRangeBins(v: real)
    ensures (exists i :: InBin(WWPtRange, i, v)) <==> 1.0 <= v < 7000.0
    ensures forall i, j :: InBin(WWPtRange, i, v) && InBin(WWPtRange, j, v) ==> i == j
  {
    WWPtRangeIncreasing();
    BinPartition(WWPtRange, v);
  }

  /** Every eta in [-5.191, 5.191) lies in exactly one bin of the wide eta binning. */
  lemma WEtaRangeBins(v: real)
    ensures (exists i :: InBin(WEtaRange, i, v)) <==> -5.191 <= v < 5.191
    ensures forall i, j :: InBin(WEtaRange, i, v) && InBin(WEtaRange, j, v) ==> i == j
  {
    WEtaRangeIncreasing();
    BinPartition(WEtaRange, v);
  }

  /** Every eta in [-5.191, 5.191) lies in exactly one bin of the standard eta binning. */
  lemma EtaRangeBins(v: real)
    ensures (exists i :: InBin(EtaRange, i, v)) <==> -5.191 <= v < 5.191
    ensures forall i, j :: InBin(EtaRange, i, v) && InBin(EtaRange, j, v) ==> i == j
  {
    EtaRangeIncreasing();
    BinPartition(EtaRange, v);
  }

  /** Every absolute eta in [0, 5.191) lies in exactly one bin of the absolute-eta binning. */
  lemma PosEtaRangeBins(v: real)
    ensures (exists i :: InBin(PosEtaRange, i, v)) <==> 0.0 <= v < 5.191
    ensures forall i, j :: InBin(PosEtaRange, i, v) && InBin(PosEtaRange, j, v) ==> i == j
  {
    BinPartition(PosEtaRange, v);
  }

  /**
   * The derived counts are the numbers of bins, one less than the numbers
   * of edges, except the |eta| count, which is the number of edges.
   */
  lemma BinCounts()
    ensures NPts == 79 && |PtRange| == NPts + 1
    ensures NWPts == 38 && |WPtRange| == NWPts + 1
    ensures NWWPts == 29 && |WWPtRange| == NWWPts + 1
    ensures NWEtas == 36 && |WEtaRange| == NWEtas + 1
    ensures NEtas == 82 && |EtaRange| == NEtas + 1
    ensures NPosEtas == 15 && |PosEtaRange| == NPosEtas
  {
  }

  // One lemma per slice keeps each proof small.

  lemma Slice0Increasing()
    ensures StrictlyIncreasing(SliceEdges(0)) && SliceEdges(0)[0] == 10.0
  {
    IncreasingJoin4(PtRangeVsEtaPieces[0]);
  }

  lemma Slice1Increasing()
    ensures StrictlyIncreasing(SliceEdges(1)) && SliceEdges(1)[0] == 10.0
  {
    IncreasingJoin4(PtRangeVsEtaPieces[1]);
  }

  lemma Slice2Increasing()
    ensures StrictlyIncreasing(SliceEdges(2)) && SliceEdges(2)[0] == 10.0
  {
    IncreasingJoin4(PtRangeVsEtaPieces[2]);
  }

  lemma Slice3Increasing()
    ensures StrictlyIncreasing(SliceEdges(3)) && SliceEdges(3)[0] == 10.0
  {
    IncreasingJoin4(PtRangeVsEtaPieces[3]);
  }

  lemma Slice4Increasing()
    ensures StrictlyIncreasing(SliceEdges(4)) && SliceEdges(4)[0] == 10.0
  {
    IncreasingJoin4(PtRangeVsEtaPieces[4]);
  }

  lemma Slice5Increasing()
    ensures StrictlyIncreasing(SliceEdges(5)) && SliceEdges(5)[0] == 10.0
  {
    IncreasingJoin4(PtRangeVsEtaPieces[5]);
  }

  lemma Slice6Increasing()
    ensures StrictlyIncreasing(SliceEdges(6)) && SliceEdges(6)[0] == 10.0
  {
    IncreasingJoin4(PtRangeVsEtaPieces[6]);
  }

  lemma Slice7Increasing()
    ensures StrictlyIncreasing(SliceEdges(7)) && SliceEdges(7)[0] == 10.0
  {
    IncreasingJoin4(PtRangeVsEtaPieces[7]);
  }

  /** The real edges of each slice strictly increase from 10 GeV. */
  lemma SliceEdgesIncreasing(r: nat)
    requires r < NPtRanges
    ensures StrictlyIncreasing(SliceEdges(r)) && SliceEdges(r)[0] == 10.0
  {
    if r == 0 {
      Slice0Increasing();
    } else if r == 1 {
      Slice1Increasing();
    } else if r == 2 {
      Slice2Increasing();
    } else if r == 3 {
      Slice3Increasing();
    } else if r == 4 {
      Slice4Increasing();
    } else if r == 5 {
      Slice5Increasing();
    } else if r == 6 {
      Slice6Increasing();
    } else {
      Slice7Increasing();
    }
  }

  /**
   * Every row of the per-slice table is a well-formed zero-padded row of
   * NPtsEta entries whose real edges are the slice's edges; the slices
   * hold 65, 64, 60, 55, 49, 41, 41 and 41 real edges.
   */
  lemma PtRangeVsEtaWellFormed()
    ensures |PtRangeVsEta| == NPtRanges
    ensures forall r :: 0 <= r < NPtRanges ==>
      |PtRangeVsEta[r]| == NPtsEta && ZeroPadded(PtRangeVsEta[r]) && Trim(PtRangeVsEta[r]) == SliceEdges(r)
    ensures ValidLength(PtRangeVsEta[0]) == 65 && ValidLength(PtRangeVsEta[1]) == 64
    ensures ValidLength(PtRangeVsEta[2]) == 60 && ValidLength(PtRangeVsEta[3]) == 55
    ensures ValidLength(PtRangeVsEta[4]) == 49 && ValidLength(PtRangeVsEta[5]) == 41
    ensures ValidLength(PtRangeVsEta[6]) == 41 && ValidLength(PtRangeVsEta[7]) == 41
  {
    forall r | 0 <= r < NPtRanges
      ensures |PtRangeVsEta[r]| == NPtsEta && ZeroPadded(PtRangeVsEta[r]) && Trim(PtRangeVsEta[r]) == SliceEdges(r)
    {
      SliceEdgesIncreasing(r);
      TrimPad(SliceEdges(r), NPtsEta);
    }
  }

  /**
   * Within slice r, every pT from 10 GeV up to the slice's last real edge
   * lies in exactly one bin of that slice, and no other pT in any.
   */
  lemma SliceBins(r: nat, v: real)
    requires r < NPtRanges
    ensures |SliceEdges(r)| >= 41
    ensures (exists i :: InBin(SliceEdges(r), i, v)) <==> 10.0 <= v < SliceEdges(r)[|SliceEdges(r)| - 1]
    ensures forall i, j :: InBin(SliceEdges(r), i, v) && InBin(SliceEdges(r), j, v) ==> i == j
  {
    SliceEdgesIncreasing(r);
    PtRangeVsEtaWellFormed();
    BinPartition(SliceEdges(r), v);
  }

  /** The signed pseudorapidity tables span [-5.191, 5.191]; the |eta| table spans [0, 5.191]. */
  lemma EtaTablesSpan()
    ensures EtaRange[0] == WEtaRange[0] == -5.191
    ensures EtaRange[NEtas] == WEtaRange[NWEtas] == PosEtaRange[NPosEtas - 1] == 5.191
    ensures PosEtaRange[0] == 0.0
  {
  }
}
