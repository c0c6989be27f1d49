/**
 * The trigger table of settings.h: trigger names, their thresholds, the pT
 * ranges in which each trigger is the one of record, the recorded
 * luminosities, the reference (unprescaled) trigger and the unprescaled
 * luminosity `_jp_lumi`.
 */
module TriggerTable {
  import opened Optional
  import opened Decimal
  import opened Edges
  import Binnings
  import opened RunParameters

  const NTrigs: nat := 9
  const Triggers: seq<string> :=
    ["jt40", "jt60", "jt80", "jt140", "jt200", "jt260", "jt320", "jt400", "jt450"]
  /** Reference trigger for the pile-up profile and for luminosity weighting. */
  const RefTrig: string := "jt450"
  /** Thresholds, in GeV, as in the trigger names. */
  const TrigThr: seq<real> :=
    [40.0, 60.0, 80.0, 140.0, 200.0, 260.0, 320.0, 400.0, 450.0]
  /** pT ranges, in GeV, over which each trigger is used. */
  const TrigRanges: seq<Range> :=
    [Range(0.0, 84.0), Range(84.0, 114.0), Range(114.0, 196.0), Range(196.0, 272.0), Range(272.0, 330.0),
     Range(330.0, 395.0), Range(395.0, 468.0), Range(468.0, 548.0), Range(548.0, 6500.0)]
  const UseTrigLumi: bool := true
  /** Recorded luminosity of each trigger, in inverse microbarn. */
  const TrigLumi: seq<real> :=
    [264821.835, 718829.826, 2733420.74, 23966019.286, 102854094.409, 587728815.19,
     1753996573.885, 5141160409.826, 35860066023.522]
  /** Unprescaled luminosity, in inverse femtobarn. */
  const Lumi: real := TrigLumi[NTrigs - 1] / 1000000000.0

  /** The threshold a trigger name carries: "jt" followed by canonical decimal digits. */
  function NameThreshold(name: string): (r: Option<nat>)
    ensures r.Some? <==> |name| > 2 && name[..2] == "jt" && IsCanonical(name[2..])
    ensures r.Some? ==> name == "jt" + NatToString(r.value)
  {
    if |name| > 2 && name[..2] == "jt" && IsCanonical(name[2..]) then
      NatToStringParse(name[2..]);
      Some(ParseNat(name[2..]))
    else
      None
  }

  /** The name written for a threshold is read back as that threshold. */
  lemma NameThresholdOf(k: nat)
    ensures NameThreshold("jt" + NatToString(k)) == Some(k)
  {
    var name := "jt" + NatToString(k);
    ParseNatToString(k);
    assert name[..2] == "jt" && name[2..] == NatToString(k);
  }

  /** The trigger name carries the threshold `thr`. */
  predicate NameCarries(name: string, thr: real) {
    NameThreshold(name).Some? && thr == NameThreshold(name).value as real
  }

  /** Every trigger name carries the threshold listed beside it. */
  predicate NamesCarry(names: seq<string>, thr: seq<real>)
    requires |names| == |thr|
  {
    forall i :: 0 <= i < |names| ==> NameCarries(names[i], thr[i])
  }

  /** Everything the rest of the analysis assumes of a trigger table. */
  predicate WellFormed(n: nat, names: seq<string>, thr: seq<real>, ranges: seq<Range>,
                       lumi: seq<real>, ref: string)
  {
    && n > 0 && |names| == n && |thr| == n && |ranges| == n && |lumi| == n
    // each threshold is the number in its trigger name
    && NamesCarry(names, thr)
    && StrictlyIncreasing(thr)
    // the ranges start at zero, are non-empty and follow each other without gaps
    && ranges[0].lo == 0.0 && NonEmptyRanges(ranges) && Contiguous(ranges)
    // the reference trigger is the last one and has the largest luminosity
    && ref == names[n - 1]
    && (forall i :: 0 <= i < n ==> 0.0 < lumi[i] <= lumi[n - 1])
  }

  // The configured names, three at a time (one proof for all nine is too large).
  lemma LowTriggerNames(i: nat)
    requires 0 <= i < 3
    ensures NameCarries(Triggers[i], TrigThr[i])
  {
    if i == 0 {
      NameThresholdOf(40);
      assert Triggers[0] == "jt" + NatToString(40);
    } else if i == 1 {
      NameThresholdOf(60);
      assert Triggers[1] == "jt" + NatToString(60);
    } else {
      NameThresholdOf(80);
      assert Triggers[2] == "jt" + NatToString(80);
    }
  }

  lemma MiddleTriggerNames(i: nat)
    requires 3 <= i < 6
    ensures NameCarries(Triggers[i], TrigThr[i])
  {
    if i == 3 {
      NameThresholdOf(140);
      assert Triggers[3] == "jt" + NatToString(140);
    } else if i == 4 {
      NameThresholdOf(200);
      assert Triggers[4] == "jt" + NatToString(200);
    } else {
      NameThresholdOf(260);
      assert Triggers[5] == "jt" + NatToString(260);
    }
  }

  lemma HighTriggerNames(i: nat)
    requires 6 <= i < 9
    ensures NameCarries(Triggers[i], TrigThr[i])
  {
    if i == 6 {
      NameThresholdOf(320);
      assert Triggers[6] == "jt" + NatToString(320);
    } else if i == 7 {
      NameThresholdOf(400);
      assert Triggers[7] == "jt" + NatToString(400);
    } else {
      NameThresholdOf(450);
      assert Triggers[8] == "jt" + NatToString(450);
    }
  }

  /** Each configured threshold is the number in its trigger name. */
  lemma ConfiguredNamesCarryThresholds()
    ensures NamesCarry(Triggers, TrigThr)
  {
    forall i | 0 <= i < NTrigs
      ensures NameCarries(Triggers[i], TrigThr[i])
    {
      if i < 3 {
        LowTriggerNames(i);
      } else if i < 6 {
        MiddleTriggerNames(i);
      } else {
        HighTriggerNames(i);
      }
    }
  }

  /** The configured trigger table has the shape the analysis relies on. */
  lemma ConfiguredTriggersWellFormed()
    ensures WellFormed(NTrigs, Triggers, TrigThr, TrigRanges, TrigLumi, RefTrig)
  {
    ConfiguredNamesCarryThresholds();
  }

  /** No two triggers of a well-formed table share a name. */
  lemma NamesDistinct(n: nat, names: seq<string>, thr: seq<real>, ranges: seq<Range>, lumi: seq<real>, ref: string)
    requires WellFormed(n, names, thr, ranges, lumi, ref)
    ensures forall i, j :: 0 <= i < j < n ==> names[i] != names[j]
  {
    forall i, j | 0 <= i < j < n
      ensures names[i] != names[j]
    {
      IncreasingOrdered(thr, i, j);
    }
  }

  /**
   * In a well-formed table the reference trigger is the last entry and no
   * other, it has the highest threshold and the largest luminosity.
   */
  lemma ReferenceIsHighest(n: nat, names: seq<string>, thr: seq<real>, ranges: seq<Range>, lumi: seq<real>, ref: string)
    requires WellFormed(n, names, thr, ranges, lumi, ref)
    ensures forall i :: 0 <= i < n ==> (names[i] == ref <==> i == n - 1)
    ensures forall i :: 0 <= i < n ==> thr[i] <= thr[n - 1] && lumi[i] <= lumi[n - 1]
  {
    NamesDistinct(n, names, thr, ranges, lumi, ref);
    forall i | 0 <= i < n
      ensures thr[i] <= thr[n - 1]
    {
      IncreasingOrdered(thr, i, n - 1);
    }
  }

  /**
   * The trigger ranges of a well-formed table partition [0, top): every pT
   * in that interval has exactly one trigger of record, and no pT outside it
   * has one.
   */
  lemma TriggerRangesPartition(n: nat, names: seq<string>, thr: seq<real>, ranges: seq<Range>, lumi: seq<real>, ref: string, pt: real)
    requires WellFormed(n, names, thr, ranges, lumi, ref)
    ensures (exists i :: 0 <= i < n && ranges[i].Contains(pt)) <==> 0.0 <= pt < ranges[n - 1].hi
    ensures forall i, j :: 0 <= i < n && 0 <= j < n && ranges[i].Contains(pt) && ranges[j].Contains(pt) ==> i == j
  {
    RangesPartition(ranges, pt);
  }

  /** With the configured table, every pT in [0, 6500) has exactly one trigger of record. */
  lemma ConfiguredTriggerCoverage(pt: real)
    ensures (exists i :: 0 <= i < NTrigs && TrigRanges[i].Contains(pt)) <==> 0.0 <= pt < 6500.0
    ensures forall i, j :: 0 <= i < NTrigs && 0 <= j < NTrigs && TrigRanges[i].Contains(pt) && TrigRanges[j].Contains(pt) ==> i == j
  {
    ConfiguredTriggersWellFormed();
    TriggerRangesPartition(NTrigs, Triggers, TrigThr, TrigRanges, TrigLumi, RefTrig, pt);
  }

  /** The configured reference trigger "jt450" is the last, highest-threshold, largest-luminosity trigger. */
  lemma ConfiguredReference()
    ensures Triggers[NTrigs - 1] == RefTrig && TrigThr[NTrigs - 1] == 450.0
    ensures forall i :: 0 <= i < NTrigs ==> (Triggers[i] == RefTrig <==> i == NTrigs - 1)
    ensures forall i :: 0 <= i < NTrigs ==> TrigThr[i] <= TrigThr[NTrigs - 1] && TrigLumi[i] <= TrigLumi[NTrigs - 1]
  {
    ConfiguredTriggersWellFormed();
    ReferenceIsHighest(NTrigs, Triggers, TrigThr, TrigRanges, TrigLumi, RefTrig);
  }

  /** The plotted luminosity is the reference trigger's, converted from /ub to /fb. */
  lemma LumiIsReferenceLumi()
    ensures Lumi * 1000000000.0 == TrigLumi[NTrigs - 1]
    ensures Lumi == 35.860066023522
  {
  }

  /** The last trigger range ends at the largest possible jet pT, half of sqrt(s). */
  lemma TopRangeEndsAtEMax()
    ensures TrigRanges[NTrigs - 1].hi == EMax
  {
  }

  /** Each trigger above the lowest is used only from above its threshold. */
  lemma RangesStartAboveThresholds()
    ensures forall i :: 1 <= i < NTrigs ==> TrigThr[i] < TrigRanges[i].lo
  {
  }

  /**
   * Every boundary between two trigger ranges is an edge of the standard
   * pT binning, so no bin of that binning straddles two triggers.
   */
  lemma TriggerBoundariesAreBinEdges()
    ensures forall i :: 1 <= i < NTrigs ==> TrigRanges[i].lo in Binnings.PtRange
  {
    assert Binnings.PtRange[18] == 84.0 && Binnings.PtRange[20] == 114.0;
    assert Binnings.PtRange[24] == 196.0 && Binnings.PtRange[27] == 272.0;
    assert Binnings.PtRange[29] == 330.0 && Binnings.PtRange[31] == 395.0;
    assert Binnings.PtRange[33] == 468.0 && Binnings.PtRange[35] == 548.0;
  }

  /** The trigger of record just below and at 84 GeV (the first boundary). */
  lemma BoundaryAt84()
    ensures TrigRanges[0].Contains(83.999) && !TrigRanges[1].Contains(83.999)
    ensures TrigRanges[1].Contains(84.0) && !TrigRanges[0].Contains(84.0)
  {
  }

  /** The top range is closed at 6500 GeV: a jet of 10000 GeV has no trigger of record. */
  lemma NoTriggerAt10000()
    ensures forall i :: 0 <= i < NTrigs ==> !TrigRanges[i].Contains(10000.0)
  {
  }
}
