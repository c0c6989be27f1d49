/**
 * The pT-hat sliced simulation samples of settings.h: the slice edges in
 * GeV (the last edge, 20000, stands for infinity), the cross-section of
 * each slice, its number of events and the file that holds it.
 */
module PtHatSlices {
  import opened Decimal
  import opened Edges
  import RunParameters

  const PtHatBins: bool := true
  const NPtHatBins: nat := 14
  const PtHatRanges: seq<real> :=
    [30.0, 50.0, 80.0, 120.0, 170.0, 300.0, 470.0, 600.0, 800.0, 1000.0, 1400.0, 1800.0, 2400.0, 3200.0, 20000.0]
  /** The "infinite" upper edge of the last slice. */
  const Sentinel: real := 20000.0
  /** Cross-section of each slice, in an arbitrary common scale. */
  const PtHatSigmas: seq<real> :=
    [140932000.0, 19204300.0, 2762530.0, 471100.0, 117276.0, 7823.0, 648.2, 186.9, 32.293, 9.4183,
     0.84265, 0.114943, 0.00682981, 0.000165445]
  const FilePrefix: string := "QCD_Pt_"
  const FileSuffix: string := "_TuneCUETP8M_13TeV_pythia8.root"

  /** Number of events in each slice. */
  const PtHatNevts: seq<real> :=
    [9699558.0, 9948791.0, 7742665.0, 5748730.0, 7838066.0, 11701816.0, 3959986.0, 9628335.0, 11915305.0,
     6992746.0, 2477018.0, 1584378.0, 596904.0, 391735.0]
  /**
   * The file holding each slice.  Every name is the shared prefix, the
   * slice's range text and the shared suffix.
   */
  const PtHatFiles: seq<string> := [
    FilePrefix + "30to50" + FileSuffix,
    FilePrefix + "50to80" + FileSuffix,
    FilePrefix + "80to120" + FileSuffix,
    FilePrefix + "120to170" + FileSuffix,
    FilePrefix + "170to300" + FileSuffix,
    FilePrefix + "300to470" + FileSuffix,
    FilePrefix + "470to600" + FileSuffix,
    FilePrefix + "600to800" + FileSuffix,
    FilePrefix + "800to1000" + FileSuffix,
    FilePrefix + "1000to1400" + FileSuffix,
    FilePrefix + "1400to1800" + FileSuffix,
    FilePrefix + "1800to2400" + FileSuffix,
    FilePrefix + "2400to3200" + FileSuffix,
    FilePrefix + "3200toInf" + FileSuffix
  ]

  /** The text of a slice's upper edge in its file name: "Inf" for the last slice. */
  function UpperText(hi: nat, last: bool): (t: string)
    ensures |t| > 0
    ensures last <==> !IsDigit(t[0])
  {
    NatToStringCanonical(hi);
    if last then "Inf" else NatToString(hi)
  }

  /** The range part of a slice's file name: <lo>to<hi>, or <lo>toInf for the last slice. */
  function RangeText(lo: nat, hi: nat, last: bool): (t: string)
    ensures |t| > 0 && IsDigit(t[0])
  {
    NatToStringCanonical(lo);
    NatToString(lo) + ("to" + UpperText(hi, last))
  }

  /** The file-name convention of the slices: QCD_Pt_<lo>to<hi or Inf>_TuneCUETP8M_13TeV_pythia8.root. */
  function SliceFileName(lo: nat, hi: nat, last: bool): (name: string)
    ensures |name| == |FilePrefix| + |RangeText(lo, hi, last)| + |FileSuffix|
    ensures name[..|FilePrefix|] == FilePrefix && name[|name| - |FileSuffix|..] == FileSuffix
    ensures name[|FilePrefix|..|name| - |FileSuffix|] == RangeText(lo, hi, last)
  {
    var name := FilePrefix + RangeText(lo, hi, last) + FileSuffix;
    assert name[|FilePrefix|..|name| - |FileSuffix|] == RangeText(lo, hi, last);
    name
  }

  /** The upper-edge text tells the last slice from the others, and otherwise gives the edge back. */
  lemma UpperTextInjective(hi1: nat, last1: bool, hi2: nat, last2: bool)
    ensures UpperText(hi1, last1) == UpperText(hi2, last2) <==> last1 == last2 && (last1 || hi1 == hi2)
  {
    if !last1 && !last2 {
      NatToStringInjective(hi1, hi2);
    }
  }

  /** The range text gives back the lower edge, whether the slice is last, and the upper edge if it is not. */
  lemma RangeTextInjective(lo1: nat, hi1: nat, last1: bool, lo2: nat, hi2: nat, last2: bool)
    ensures RangeText(lo1, hi1, last1) == RangeText(lo2, hi2, last2) <==>
      lo1 == lo2 && last1 == last2 && (last1 || hi1 == hi2)
  {
    var u1, u2 := UpperText(hi1, last1), UpperText(hi2, last2);
    UpperTextInjective(hi1, last1, hi2, last2);
    if RangeText(lo1, hi1, last1) == RangeText(lo2, hi2, last2) {
      assert NatToString(lo1) + ("to" + u1) == NatToString(lo2) + ("to" + u2);
      NatToStringCanonical(lo1);
      NatToStringCanonical(lo2);
      DigitsSplitUnique(NatToString(lo1), "to" + u1, NatToString(lo2), "to" + u2);
      NatToStringInjective(lo1, lo2);
      assert u1 == ("to" + u1)[2..] && u2 == ("to" + u2)[2..];
    }
  }

  /**
   * The file-name convention loses nothing: two names are equal exactly
   * when the lower edges agree, both or neither slice is the last, and the
   * upper edges agree unless the slices are last.
   */
  lemma SliceFileNameInjective(lo1: nat, hi1: nat, last1: bool, lo2: nat, hi2: nat, last2: bool)
    ensures SliceFileName(lo1, hi1, last1) == SliceFileName(lo2, hi2, last2) <==>
      lo1 == lo2 && last1 == last2 && (last1 || hi1 == hi2)
  {
    RangeTextInjective(lo1, hi1, last1, lo2, hi2, last2);
  }

  /** `x` is a whole number, as every slice edge is. */
  predicate Whole(x: real) {
    x == x.Floor as real
  }

  /** Every cross-section is below the one before it. */
  predicate StrictlyDecreasing(s: seq<real>) {
    forall i :: 0 <= i < |s| - 1 ==> s[i] > s[i + 1]
  }

  /** Every edge is a whole, non-negative number of GeV. */
  predicate WholeEdges(edges: seq<real>) {
    forall i :: 0 <= i < |edges| ==> edges[i] >= 0.0 && Whole(edges[i])
  }

  /** Every slice's file is named after its edges, the last one after its lower edge and "Inf". */
  predicate FilesNamed(n: nat, edges: seq<real>, files: seq<string>)
    requires |edges| == n + 1 && |files| == n && WholeEdges(edges)
  {
    forall i :: 0 <= i < n ==> files[i] == SliceFileName(edges[i].Floor, edges[i + 1].Floor, i == n - 1)
  }

  /** Every entry is above zero. */
  predicate Positive(s: seq<real>) {
    forall i :: 0 <= i < |s| ==> s[i] > 0.0
  }

  /** Everything the rest of the analysis assumes of a pT-hat slice table. */
  predicate WellFormed(n: nat, edges: seq<real>, sigmas: seq<real>, nevts: seq<real>, files: seq<string>) {
    && n > 0 && |edges| == n + 1 && |sigmas| == n && |nevts| == n && |files| == n
    && StrictlyIncreasing(edges)
    && WholeEdges(edges)
    && Positive(sigmas) && Positive(nevts)
    && FilesNamed(n, edges, files)
  }

  /** In a well-formed table the last edge, the "infinite" one, is above every other edge. */
  lemma SentinelIsLargest(n: nat, edges: seq<real>, sigmas: seq<real>, nevts: seq<real>, files: seq<string>)
    requires WellFormed(n, edges, sigmas, nevts, files)
    ensures forall i :: 0 <= i < n ==> edges[i] < edges[n]
  {
    forall i | 0 <= i < n
      ensures edges[i] < edges[n]
    {
      IncreasingOrdered(edges, i, n);
    }
  }

  /** No two slices of a well-formed table are read from the same file. */
  lemma FileNamesDistinct(n: nat, edges: seq<real>, sigmas: seq<real>, nevts: seq<real>, files: seq<string>)
    requires WellFormed(n, edges, sigmas, nevts, files)
    ensures forall i, j :: 0 <= i < j < n ==> files[i] != files[j]
  {
    forall i, j | 0 <= i < j < n
      ensures files[i] != files[j]
    {
      IncreasingOrdered(edges, i, j);
      SliceFileNameInjective(edges[i].Floor, edges[i + 1].Floor, i == n - 1, edges[j].Floor, edges[j + 1].Floor, j == n - 1);
    }
  }

  /**
   * The slices of a well-formed table partition [first edge, sentinel): a
   * generated pT-hat in that interval belongs to exactly one slice, and one
   * outside it to none.
   */
  lemma SlicesPartition(n: nat, edges: seq<real>, sigmas: seq<real>, nevts: seq<real>, files: seq<string>, pthat: real)
    requires WellFormed(n, edges, sigmas, nevts, files)
    ensures (exists i :: InBin(edges, i, pthat)) <==> edges[0] <= pthat < edges[n]
    ensures forall i, j :: InBin(edges, i, pthat) && InBin(edges, j, pthat) ==> i == j
  {
    BinPartition(edges, pthat);
  }

  // The configured file names, two slices at a time (one proof for all is too large).

  lemma SliceFiles0And1(i: nat)
    requires 0 <= i < 2
    ensures PtHatFiles[i] == SliceFileName(PtHatRanges[i].Floor, PtHatRanges[i + 1].Floor, i == NPtHatBins - 1)
  {
    if i == 0 {
      assert PtHatRanges[0].Floor == 30 && PtHatRanges[1].Floor == 50;
      assert "30to50" == RangeText(30, 50, false);
    } else {
      assert PtHatRanges[1].Floor == 50 && PtHatRanges[2].Floor == 80;
      assert "50to80" == RangeText(50, 80, false);
    }
  }

  lemma SliceFiles2And3(i: nat)
    requires 2 <= i < 4
    ensures PtHatFiles[i] == SliceFileName(PtHatRanges[i].Floor, PtHatRanges[i + 1].Floor, i == NPtHatBins - 1)
  {
    if i == 2 {
      assert PtHatRanges[2].Floor == 80 && PtHatRanges[3].Floor == 120;
      assert "80to120" == RangeText(80, 120, false);
    } else {
      assert PtHatRanges[3].Floor == 120 && PtHatRanges[4].Floor == 170;
      assert "120to170" == RangeText(120, 170, false);
    }
  }

  lemma SliceFiles4And5(i: nat)
    requires 4 <= i < 6
    ensures PtHatFiles[i] == SliceFileName(PtHatRanges[i].Floor, PtHatRanges[i + 1].Floor, i == NPtHatBins - 1)
  {
    if i == 4 {
      assert PtHatRanges[4].Floor == 170 && PtHatRanges[5].Floor == 300;
      assert "170to300" == RangeText(170, 300, false);
    } else {
      assert PtHatRanges[5].Floor == 300 && PtHatRanges[6].Floor == 470;
      assert "300to470" == RangeText(300, 470, false);
    }
  }

  lemma SliceFiles6And7(i: nat)
    requires 6 <= i < 8
    ensures PtHatFiles[i] == SliceFileName(PtHatRanges[i].Floor, PtHatRanges[i + 1].Floor, i == NPtHatBins - 1)
  {
    if i == 6 {
      assert PtHatRanges[6].Floor == 470 && PtHatRanges[7].Floor == 600;
      assert "470to600" == RangeText(470, 600, false);
    } else {
      assert PtHatRanges[7].Floor == 600 && PtHatRanges[8].Floor == 800;
      assert "600to800" == RangeText(600, 800, false);
    }
  }

  lemma SliceFiles8And9(i: nat)
    requires 8 <= i < 10
    ensures PtHatFiles[i] == SliceFileName(PtHatRanges[i].Floor, PtHatRanges[i + 1].Floor, i == NPtHatBins - 1)
  {
    if i == 8 {
      assert PtHatRanges[8].Floor == 800 && PtHatRanges[9].Floor == 1000;
      assert "800to1000" == RangeText(800, 1000, false);
    } else {
      assert PtHatRanges[9].Floor == 1000 && PtHatRanges[10].Floor == 1400;
      assert "1000to1400" == RangeText(1000, 1400, false);
    }
  }

  lemma SliceFiles10And11(i: nat)
    requires 10 <= i < 12
    ensures PtHatFiles[i] == SliceFileName(PtHatRanges[i].Floor, PtHatRanges[i + 1].Floor, i == NPtHatBins - 1)
  {
    if i == 10 {
      assert PtHatRanges[10].Floor == 1400 && PtHatRanges[11].Floor == 1800;
      assert "1400to1800" == RangeText(1400, 1800, false);
    } else {
      assert PtHatRanges[11].Floor == 1800 && PtHatRanges[12].Floor == 2400;
      assert "1800to2400" == RangeText(1800, 2400, false);
    }
  }

  lemma SliceFiles12And13(i: nat)
    requires 12 <= i < 14
    ensures PtHatFiles[i] == SliceFileName(PtHatRanges[i].Floor, PtHatRanges[i + 1].Floor, i == NPtHatBins - 1)
  {
    if i == 12 {
      assert PtHatRanges[12].Floor == 2400 && PtHatRanges[13].Floor == 3200;
      assert "2400to3200" == RangeText(2400, 3200, false);
    } else {
      assert PtHatRanges[13].Floor == 3200 && PtHatRanges[14].Floor == 20000;
      assert "3200toInf" == RangeText(3200, 20000, true);
    }
  }

  lemma ConfiguredEdgesWhole()
    ensures WholeEdges(PtHatRanges)
  {
  }

  /** Every configured slice's file is named after its edges. */
  lemma ConfiguredFilesNamed()
    ensures WholeEdges(PtHatRanges) && FilesNamed(NPtHatBins, PtHatRanges, PtHatFiles)
  {
    ConfiguredEdgesWhole();
    forall i | 0 <= i < NPtHatBins
      ensures PtHatFiles[i] == SliceFileName(PtHatRanges[i].Floor, PtHatRanges[i + 1].Floor, i == NPtHatBins - 1)
    {
      if i < 2 {
        SliceFiles0And1(i);
      } else if i < 4 {
        SliceFiles2And3(i);
      } else if i < 6 {
        SliceFiles4And5(i);
      } else if i < 8 {
        SliceFiles6And7(i);
      } else if i < 10 {
        SliceFiles8And9(i);
      } else if i < 12 {
        SliceFiles10And11(i);
      } else {
        SliceFiles12And13(i);
      }
    }
  }

  lemma ConfiguredSliceNumbers()
    ensures StrictlyIncreasing(PtHatRanges) && Positive(PtHatSigmas) && Positive(PtHatNevts)
  {
  }

  /** The configured table is well-formed. */
  lemma ConfiguredSlicesWellFormed()
    ensures WellFormed(NPtHatBins, PtHatRanges, PtHatSigmas, PtHatNevts, PtHatFiles)
  {
    ConfiguredSliceNumbers();
    ConfiguredFilesNamed();
  }

  /**
   * With the configured table, the sentinel 20000 GeV is the largest edge
   * and lies beyond the largest possible jet pT, half of sqrt(s); every
   * pT-hat in [30, 20000) belongs to exactly one slice.
   */
  lemma ConfiguredSlicesPartition(pthat: real)
    ensures PtHatRanges[NPtHatBins] == Sentinel && RunParameters.EMax < Sentinel
    ensures forall i :: 0 <= i < NPtHatBins ==> PtHatRanges[i] < Sentinel
    ensures (exists i :: InBin(PtHatRanges, i, pthat)) <==> 30.0 <= pthat < Sentinel
    ensures forall i, j :: InBin(PtHatRanges, i, pthat) && InBin(PtHatRanges, j, pthat) ==> i == j
  {
    ConfiguredSlicesWellFormed();
    SentinelIsLargest(NPtHatBins, PtHatRanges, PtHatSigmas, PtHatNevts, PtHatFiles);
    SlicesPartition(NPtHatBins, PtHatRanges, PtHatSigmas, PtHatNevts, PtHatFiles, pthat);
  }

  /** No two configured slices share a file. */
  lemma ConfiguredFilesDistinct()
    ensures forall i, j :: 0 <= i < j < NPtHatBins ==> PtHatFiles[i] != PtHatFiles[j]
  {
    ConfiguredSlicesWellFormed();
    FileNamesDistinct(NPtHatBins, PtHatRanges, PtHatSigmas, PtHatNevts, PtHatFiles);
  }

  /** Slices further up in pT-hat have smaller cross-sections. */
  lemma SigmasDecrease()
    ensures StrictlyDecreasing(PtHatSigmas)
  {
  }

  /** A pT-hat of 90 GeV belongs to the third slice, 80 to 120 GeV, and to no other. */
  lemma SliceOf90()
    ensures InBin(PtHatRanges, 2, 90.0)
    ensures forall i :: InBin(PtHatRanges, i, 90.0) ==> i == 2
  {
    ConfiguredSlicesPartition(90.0);
  }
}
