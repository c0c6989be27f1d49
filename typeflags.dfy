/**
 * The data-type setting `_jp_type` and the flags `_jp_isdt`, `_jp_ismc`,
 * `_jp_ispy` and `_jp_ishw` derived from it with strings_equal.  The flags
 * are written as functions of the type string, so that they can be studied
 * for every setting; the constants of the header are those functions at
 * the configured value.
 */
module TypeFlags {
  import opened CString

  /** Data type: "DATA", "MC" (Pythia) or "HW" (Herwig). */
  const JpType: string := Literal("DATA")

  /** The data flag: the type string reads "DATA". */
  function IsData(t: string): (b: bool)
    requires IsCString(t)
    ensures b <==> Terminated(t) == Literal("DATA")
  {
    TerminatedLiteral("DATA");
    StringsEqual(t, Literal("DATA"))
  }

  /** Simulation is everything that is not data. */
  function IsSimulation(t: string): (b: bool)
    requires IsCString(t)
    ensures b <==> Terminated(t) != Literal("DATA")
  {
    !IsData(t)
  }

  /** The Pythia flag: the type string reads "MC". */
  function IsPythia(t: string): (b: bool)
    requires IsCString(t)
    ensures b <==> Terminated(t) == Literal("MC")
  {
    TerminatedLiteral("MC");
    StringsEqual(t, Literal("MC"))
  }

  /** The Herwig flag: the type string reads "HW". */
  function IsHerwig(t: string): (b: bool)
    requires IsCString(t)
    ensures b <==> Terminated(t) == Literal("HW")
  {
    TerminatedLiteral("HW");
    StringsEqual(t, Literal("HW"))
  }

  const IsDt: bool := IsData(JpType)
  const IsMc: bool := IsSimulation(JpType)
  const IsPy: bool := IsPythia(JpType)
  const IsHw: bool := IsHerwig(JpType)

  /** With the configured type "DATA" the analysis runs on data. */
  lemma ConfiguredTypeIsData()
    ensures IsDt && !IsMc && !IsPy && !IsHw
    ensures IsMc == !IsDt
  {
    LiteralsEqual("DATA", "DATA");
    LiteralsEqual("DATA", "MC");
    LiteralsEqual("DATA", "HW");
  }

  /**
   * For every type string: the Pythia and Herwig flags never hold together,
   * and either of them implies the simulation flag.
   */
  lemma FlagsConsistent(t: string)
    requires IsCString(t)
    ensures !(IsPythia(t) && IsHerwig(t))
    ensures IsPythia(t) ==> IsSimulation(t)
    ensures IsHerwig(t) ==> IsSimulation(t)
  {
    TerminatedLiteral("DATA");
    TerminatedLiteral("MC");
    TerminatedLiteral("HW");
    assert Literal("MC")[0] != Literal("HW")[0];
    assert Literal("MC")[0] != Literal("DATA")[0];
    assert Literal("HW")[0] != Literal("DATA")[0];
  }

  /** A type string that reads as `x` is data exactly when `x` is "DATA". */
  lemma DataFlagReads(t: string, x: string)
    requires IsCString(t) && NUL !in x && Terminated(t) == Literal(x)
    ensures IsData(t) <==> x == "DATA"
  {
    ReadsAs(t, x, "DATA");
  }

  /** A type string that reads as `x` selects Pythia exactly when `x` is "MC". */
  lemma PythiaFlagReads(t: string, x: string)
    requires IsCString(t) && NUL !in x && Terminated(t) == Literal(x)
    ensures IsPythia(t) <==> x == "MC"
  {
    ReadsAs(t, x, "MC");
  }

  /** A type string that reads as `x` selects Herwig exactly when `x` is "HW". */
  lemma HerwigFlagReads(t: string, x: string)
    requires IsCString(t) && NUL !in x && Terminated(t) == Literal(x)
    ensures IsHerwig(t) <==> x == "HW"
  {
    ReadsAs(t, x, "HW");
  }

  /**
   * For the three documented settings, the simulation flag holds exactly
   * when one of the two generator flags does.
   */
  lemma DocumentedTypes(t: string, x: string)
    requires IsCString(t) && x in {"DATA", "MC", "HW"} && Terminated(t) == Literal(x)
    ensures IsSimulation(t) <==> IsPythia(t) || IsHerwig(t)
  {
    DataFlagReads(t, x);
    PythiaFlagReads(t, x);
    HerwigFlagReads(t, x);
  }
}
