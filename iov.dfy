/**
 * The JEC intervals of validity (IOVs) of settings.h: named, inclusive run
 * ranges, each with its own set of jet energy corrections.  Run 1 stands
 * for minus infinity and run 400000 for plus infinity.
 */
module IovTable {
  /** An inclusive range of run numbers [first, last]. */
  datatype RunRange = RunRange(first: int, last: int) {
    predicate Contains(run: int) {
      first <= run <= last
    }
  }

  const UseIov: bool := true
  const NIov: nat := 4
  const IovNames: seq<string> := ["BCD", "EF", "G", "H"]
  const IovRanges: seq<RunRange> :=
    [RunRange(1, 276811), RunRange(276831, 278801), RunRange(278802, 280385), RunRange(280919, 400000)]

  /** The sentinel runs standing for minus and plus infinity. */
  const RunMin: int := 1
  const RunMax: int := 400000

  /** Every range is non-empty and ends before the next one starts. */
  predicate Ordered(rs: seq<RunRange>) {
    && (forall i :: 0 <= i < |rs| ==> rs[i].first <= rs[i].last)
    && (forall i :: 0 <= i < |rs| - 1 ==> rs[i].last < rs[i + 1].first)
  }

  /** Everything the rest of the analysis assumes of an IOV table. */
  predicate WellFormed(n: nat, names: seq<string>, ranges: seq<RunRange>) {
    && n > 0 && |names| == n && |ranges| == n
    && Ordered(ranges)
    && (forall i, j :: 0 <= i < j < n ==> names[i] != names[j])
    // the first range starts at the minus-infinity sentinel, the last ends at plus infinity
    && ranges[0].first == RunMin && ranges[n - 1].last == RunMax
  }

  /** In an ordered table, any earlier range ends before any later one starts. */
  lemma {:induction false} OrderedApart(rs: seq<RunRange>, i: int, j: int)
    requires Ordered(rs)
    ensures 0 <= i < j < |rs| ==> rs[i].last < rs[j].first
    decreases j - i
  {
    if 0 <= i && i + 1 < j < |rs| {
      OrderedApart(rs, i + 1, j);
    }
  }

  /** The ranges of an ordered table are pairwise disjoint. */
  lemma OrderedDisjoint(rs: seq<RunRange>, run: int)
    requires Ordered(rs)
    ensures forall i, j :: 0 <= i < |rs| && 0 <= j < |rs| && rs[i].Contains(run) && rs[j].Contains(run) ==> i == j
  {
    forall i, j | 0 <= i < |rs| && 0 <= j < |rs| && rs[i].Contains(run) && rs[j].Contains(run)
      ensures i == j
    {
      OrderedApart(rs, i, j);
      OrderedApart(rs, j, i);
    }
  }

  /**
   * In a well-formed table a run lies in at most one IOV, so a run that is
   * covered at all has exactly one IOV name; every covered run lies between
   * the two sentinels.
   */
  lemma RunHasOneIov(n: nat, names: seq<string>, ranges: seq<RunRange>, run: int)
    requires WellFormed(n, names, ranges)
    ensures forall i, j :: 0 <= i < n && 0 <= j < n && ranges[i].Contains(run) && ranges[j].Contains(run) ==>
      i == j && names[i] == names[j]
    ensures forall i, j :: 0 <= i < n && 0 <= j < n && ranges[i].Contains(run) && names[i] == names[j] ==>
      ranges[j].Contains(run)
    ensures (exists i :: 0 <= i < n && ranges[i].Contains(run)) ==> RunMin <= run <= RunMax
  {
    OrderedDisjoint(ranges, run);
    forall i | 0 <= i < n && ranges[i].Contains(run)
      ensures RunMin <= run <= RunMax
    {
      OrderedApart(ranges, 0, i);
      OrderedApart(ranges, i, n - 1);
    }
  }

  /** The configured table is well-formed. */
  lemma ConfiguredIovWellFormed()
    ensures WellFormed(NIov, IovNames, IovRanges)
  {
  }

  /**
   * The configured IOVs cover exactly the runs from 1 to 400000 outside the
   * two gaps 276812-276830 and 280386-280918, and each covered run has one
   * IOV.
   */
  lemma ConfiguredIovCoverage(run: int)
    ensures (exists i :: 0 <= i < NIov && IovRanges[i].Contains(run)) <==>
      RunMin <= run <= RunMax && !(276812 <= run <= 276830) && !(280386 <= run <= 280918)
    ensures forall i, j :: 0 <= i < NIov && 0 <= j < NIov && IovRanges[i].Contains(run) && IovRanges[j].Contains(run) ==>
      i == j
  {
    ConfiguredIovWellFormed();
    RunHasOneIov(NIov, IovNames, IovRanges, run);
    if RunMin <= run <= RunMax && !(276812 <= run <= 276830) && !(280386 <= run <= 280918) {
      if run <= 276811 {
        assert IovRanges[0].Contains(run);
      } else if run <= 278801 {
        assert IovRanges[1].Contains(run);
      } else if run <= 280385 {
        assert IovRanges[2].Contains(run);
      } else {
        assert IovRanges[3].Contains(run);
      }
    }
  }

  /** A run in the gap between IOVs G and H has no IOV; the runs around it do. */
  lemma GapBetweenGAndH()
    ensures forall i :: 0 <= i < NIov ==> !IovRanges[i].Contains(280600)
    ensures IovRanges[2].Contains(280385) && IovRanges[3].Contains(280919)
  {
  }
}
