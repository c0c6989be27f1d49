# jetphys `settings.h` in Dafny

`settings.h` configures the jetphys inclusive-jet analysis. The header
holds one piece of real code and a set of static tables that the rest of
the analysis relies on:

- `strings_equal`, a constexpr recursive comparison of NUL-terminated C
  strings. The data-type flags `_jp_isdt`, `_jp_ismc`, `_jp_ispy` and
  `_jp_ishw` are computed with it.
- The trigger table: names, thresholds, pT ranges, recorded luminosities
  and the reference trigger.
- The intervals of validity (IOVs) of the jet energy corrections: named
  run ranges.
- The pT-hat sliced simulation samples: slice edges, cross-sections, event
  counts and file names.
- The binning catalogue: one-dimensional pT and pseudorapidity edge
  tables, the bin counts derived from their sizes, and an 8×65 table of pT
  edges per |eta| slice, padded with zeros.

The model is pure, like the header.

- Every table is a module constant.
- `strings_equal`, the four type flags and the parsing of names are functions.
- What the analysis assumes of the trigger, IOV and pT-hat tables is a
  `WellFormed` predicate in each of those modules. The binning tables are
  specified instead by `Edges.StrictlyIncreasing` (the one-dimensional
  tables and the real edges of each per-eta row) and `Edges.ZeroPadded`
  (the rows of the per-eta table).
- Lemmas prove that the configured constants satisfy these predicates.
- Further lemmas derive what the rest of the analysis relies on: every pT
  has exactly one trigger of record; a run has at most one IOV; the slices
  partition pT-hat; file names are distinct; every value in a binning's
  range lies in exactly one of its bins; padding occurs only at the end of
  a row. Each partition and uniqueness fact is proved once in general (for
  any table meeting `WellFormed`, or for any strictly increasing edge table
  in `Edges.BinPartition`) and then applied to the configured tables.

Modules:

- `RunParameters`: `_jp_sqrts` and `_jp_emax`.
- `CString`: C strings as `seq<char>` holding a `'\0'`, the text up to and including the first terminator, and `StringsEqual`.
- `TypeFlags`: `_jp_type` and the four flags.
- `Decimal`: the decimal text of natural numbers, used by trigger names ("jt450") and file names ("QCD_Pt_80to120…").
- `Edges`: edge tables, bins, contiguous ranges, and rows padded with zeros.
- `TriggerTable`, `IovTable`, `PtHatSlices`, `Binnings`: the tables.

Representation choices:

- `double` literals are the exact `real` numbers they denote. They are only compared, and `_jp_lumi` is one exact division.
- IOV run numbers are `int`.
- Trigger, IOV and file names are plain strings. A terminator is added only where `strings_equal` reads a string (`CString.Literal`).
- Long tables are written as their lines, each line a short sequence, and the table is the concatenation of its lines. This is the same sequence of numbers.
- Each row of the per-|eta| table is written as its real edges. `Pad` fills the row with zeros to the declared width of 65, as the header does.
- The pT-hat file names are written as the shared prefix `QCD_Pt_`, the slice's range text (say `80to120`) and the shared suffix `_TuneCUETP8M_13TeV_pythia8.root`. This is the same text as in the header.

Three facts about the header that are easy to overlook:

- The last trigger range ends at 6500 GeV (excluded), which is `_jp_emax`. So a 10000 GeV jet has no trigger of record (`TriggerTable.NoTriggerAt10000`).
- The IOVs leave two gaps, runs 276812–276830 and runs 280386–280918 (`IovTable.ConfiguredIovCoverage`).
- `_jp_nposetas` counts the edges of `_jp_posetarange`, not its bins, unlike every other count (`Binnings.BinCounts`).

## Model

| member | source | states |
|---|---|---|
| CString.Literal | settings.h:46 | a string literal is its characters followed by one terminator |
| CString.Terminated | settings.h:30-32 | the text of a C string: its longest prefix ending in the first terminator, with no terminator before it |
| CString.StringsEqual | settings.h:30-32 | `strings_equal(a, b)` holds exactly when the texts of `a` and `b` agree character for character up to and including the terminator |
| CString.TerminatedLiteral | settings.h:30-32 | the text of a literal without inner terminators is the whole literal |
| CString.LiteralsEqual | settings.h:50-53 | two literals compare equal exactly when their characters are equal |
| CString.ReadsAs | settings.h:50-53 | a C string whose text is literal `x` compares equal to literal `y` exactly when `x == y` |
| TypeFlags.IsData | settings.h:50 | `_jp_isdt = strings_equal(type, "DATA")`: it holds exactly when the type string reads "DATA" |
| TypeFlags.IsSimulation | settings.h:51 | `_jp_ismc = !_jp_isdt`: it holds exactly when the type string does not read "DATA" |
| TypeFlags.IsPythia | settings.h:52 | `_jp_ispy = strings_equal(type, "MC")`: it holds exactly when the type string reads "MC" |
| TypeFlags.IsHerwig | settings.h:53 | `_jp_ishw = strings_equal(type, "HW")`: it holds exactly when the type string reads "HW" |
| TypeFlags.ConfiguredTypeIsData | settings.h:46-53 | with `_jp_type = "DATA"` (the constants `TypeFlags.IsDt`, `IsMc`, `IsPy` and `IsHw`): `_jp_isdt` holds, and `_jp_ismc`, `_jp_ispy` and `_jp_ishw` do not; `_jp_ismc == !_jp_isdt` |
| TypeFlags.FlagsConsistent | settings.h:50-53 | for any type string, `_jp_ispy` and `_jp_ishw` are never both true, and each implies `_jp_ismc` |
| TypeFlags.DataFlagReads | settings.h:50 | `_jp_isdt` holds exactly when the type reads "DATA" |
| TypeFlags.PythiaFlagReads | settings.h:52 | `_jp_ispy` holds exactly when the type reads "MC" |
| TypeFlags.HerwigFlagReads | settings.h:53 | `_jp_ishw` holds exactly when the type reads "HW" |
| TypeFlags.DocumentedTypes | settings.h:45-53 | for each documented type ("DATA", "MC", "HW"), simulation holds exactly when one of the two generator flags does |
| Decimal.NatToStringCanonical | settings.h:127-132 | the decimal text of a number is non-empty digits without a leading zero, and one digit exactly below ten |
| Decimal.ParseNatToString | settings.h:127-132 | reading the text of a number gives the number back |
| Decimal.NatToStringParse | settings.h:127-132 | writing the value of canonical text gives the text back |
| Decimal.NatToStringInjective | settings.h:190-203 | two numbers have the same text exactly when they are equal |
| Decimal.DigitsSplitUnique | settings.h:190-203 | digits followed by a non-digit split in one way only |
| Edges.IncreasingOrdered | settings.h:264-320 | in a table of strictly increasing adjacent edges, any earlier edge is below any later one |
| Edges.BinPartition | settings.h:264-320 | the bins of an increasing edge table partition [first edge, last edge): a value has a bin exactly when it lies in that interval, and at most one |
| Edges.IncreasingJoin | settings.h:264-320 | two increasing tables with an increasing seam join into one increasing table |
| Edges.IncreasingJoin4 | settings.h:291-298 | four increasing pieces with increasing seams join into one increasing table |
| Edges.RangeEdges | settings.h:134-135 | the edge table of a run of ranges lists the first lower end, then every upper end |
| Edges.RangeEdgesAreBins | settings.h:134-135 | contiguous non-empty ranges are exactly the bins of their edge table |
| Edges.RangesPartition | settings.h:134-135 | contiguous non-empty ranges partition [first lower end, last upper end), with at most one range per value |
| Edges.ValidLength | settings.h:288-298 | the real length of a padded row: the first zero after position 0, or the whole row |
| Edges.PadTrim | settings.h:288-298 | the real edges of a well-formed padded row increase and pad back to the row |
| Edges.TrimPad | settings.h:288-298 | padding an increasing table that starts at or above zero gives a well-formed row whose real edges are that table |
| TriggerTable.NameThreshold | settings.h:126-132 | a trigger name carries a threshold exactly when it is "jt" followed by canonical digits, and then it is "jt" and that number's text |
| TriggerTable.NameThresholdOf | settings.h:126-132 | the name written for a threshold reads back as that threshold |
| TriggerTable.ConfiguredNamesCarryThresholds | settings.h:126-132 | each configured threshold is the number in its trigger name ("jt40" to 40 … "jt450" to 450) |
| TriggerTable.ConfiguredTriggersWellFormed | settings.h:125-141 | the configured table is well-formed: 9 entries in each column, names carry thresholds, thresholds strictly increase, ranges start at 0 and are non-empty and contiguous, and the reference is the last trigger with the largest luminosity |
| TriggerTable.NamesDistinct | settings.h:126-132 | no two triggers of a well-formed table share a name |
| TriggerTable.ReferenceIsHighest | settings.h:126-141 | in a well-formed table the reference trigger is the last entry and no other, and it has the highest threshold and the largest luminosity |
| TriggerTable.TriggerRangesPartition | settings.h:134-135 | in a well-formed table every pT in [0, top) lies in exactly one trigger range, and no pT outside it lies in one |
| TriggerTable.ConfiguredTriggerCoverage | settings.h:134-135 | every pT in [0, 6500) has exactly one configured trigger of record, and no other pT has one |
| TriggerTable.ConfiguredReference | settings.h:125-141 | "jt450" is the last trigger and no other, with threshold 450, the highest threshold and the largest luminosity |
| TriggerTable.LumiIsReferenceLumi | settings.h:145 | `_jp_lumi` (the constant `TriggerTable.Lumi`) is the reference trigger's luminosity divided by 1e9, that is 35.860066023522 /fb |
| TriggerTable.TopRangeEndsAtEMax | settings.h:134-135 | the last trigger range ends at `_jp_emax = _jp_sqrts / 2` |
| TriggerTable.RangesStartAboveThresholds | settings.h:131-135 | every trigger above the lowest is used only from above its threshold |
| TriggerTable.TriggerBoundariesAreBinEdges | settings.h:134-135 | every boundary between trigger ranges is an edge of `_jp_ptrange` |
| TriggerTable.BoundaryAt84 | settings.h:135 | 83.999 GeV belongs to jt40's range and 84 GeV to jt60's, not the other way round |
| TriggerTable.NoTriggerAt10000 | settings.h:135 | no trigger range contains 10000 GeV |
| IovTable.OrderedApart | settings.h:160-162 | in an ordered IOV table any earlier range ends before any later one starts |
| IovTable.OrderedDisjoint | settings.h:160-162 | the ranges of an ordered IOV table are pairwise disjoint |
| IovTable.RunHasOneIov | settings.h:156-162 | in a well-formed IOV table a covered run has exactly one IOV and one IOV name, and lies between the sentinels 1 and 400000 |
| IovTable.ConfiguredIovWellFormed | settings.h:156-162 | 4 names and 4 ranges, each range with first ≤ last, strictly ordered, distinct names, from sentinel 1 to sentinel 400000 |
| IovTable.ConfiguredIovCoverage | settings.h:159-162 | a run has a configured IOV exactly when it is in [1, 400000] and outside 276812–276830 and 280386–280918, and then exactly one |
| IovTable.GapBetweenGAndH | settings.h:162 | run 280600 has no IOV; runs 280385 (G) and 280919 (H) do |
| PtHatSlices.UpperText | settings.h:190-203 | the upper-edge text of a slice file starts with a digit exactly when the slice is not the last |
| PtHatSlices.RangeText | settings.h:190-203 | the range text of a slice file is non-empty and starts with a digit |
| PtHatSlices.SliceFileName | settings.h:190-203 | a slice file name is the prefix `QCD_Pt_`, the range text and the suffix `_TuneCUETP8M_13TeV_pythia8.root` |
| PtHatSlices.UpperTextInjective | settings.h:190-203 | the upper-edge texts agree exactly when both slices are last or both have the same upper edge |
| PtHatSlices.RangeTextInjective | settings.h:190-203 | the range texts agree exactly when the lower edges, the last-slice flags and (for non-last slices) the upper edges agree |
| PtHatSlices.SliceFileNameInjective | settings.h:190-203 | the file-name convention loses nothing: two names are equal exactly when their slices' edges agree (upper edges only for non-last slices) |
| PtHatSlices.SentinelIsLargest | settings.h:179-181 | in a well-formed slice table the "~inf" last edge is above every other edge |
| PtHatSlices.FileNamesDistinct | settings.h:189-204 | no two slices of a well-formed table share a file |
| PtHatSlices.SlicesPartition | settings.h:179-181 | the slices of a well-formed table partition [first edge, sentinel): each pT-hat in it has exactly one slice |
| PtHatSlices.ConfiguredFilesNamed | settings.h:180-204 | file i is named after edges i and i+1, except the last, which is named `…3200toInf…` |
| PtHatSlices.ConfiguredSliceNumbers | settings.h:180-187 | the slice edges strictly increase; every cross-section and event count is positive |
| PtHatSlices.ConfiguredSlicesWellFormed | settings.h:176-204 | 15 whole, non-negative, strictly increasing edges; 14 positive cross-sections, 14 positive event counts and 14 files named by the convention |
| PtHatSlices.ConfiguredSlicesPartition | settings.h:179-181 | the last edge is the sentinel 20000, above every other edge and above `_jp_emax`; each pT-hat in [30, 20000) has exactly one slice |
| PtHatSlices.ConfiguredFilesDistinct | settings.h:189-204 | the 14 configured files are all different |
| PtHatSlices.SigmasDecrease | settings.h:183-184 | the cross-sections strictly decrease from slice to slice |
| PtHatSlices.SliceOf90 | settings.h:181 | 90 GeV falls in the 80–120 slice and no other |
| Binnings.PtRangeIncreasing | settings.h:264-270 | `_jp_ptrange` strictly increases |
| Binnings.WPtRangeIncreasing | settings.h:273-276 | `_jp_wptrange` strictly increases |
| Binnings.WWPtRangeIncreasing | settings.h:280-283 | `_jp_wwptrange` strictly increases |
| Binnings.WEtaRangeIncreasing | settings.h:300-304 | `_jp_wetarange` strictly increases |
| Binnings.EtaRangeIncreasing | settings.h:311-319 | `_jp_etarange` strictly increases |
| Binnings.EdgeTablesIncreasing | settings.h:264-320 | every one-dimensional edge table strictly increases, `_jp_posetarange` included |
| Binnings.BinCounts | settings.h:264-320 | `_jp_npts` = 79, `_jp_nwpts` = 38, `_jp_nwwpts` = 29, `_jp_nwetas` = 36 and `_jp_netas` = 82 are edge counts minus one; `_jp_nposetas` = 15 is the edge count |
| Binnings.PtRangeBins | settings.h:264-271 | every pT in [1, 7000) GeV lies in exactly one bin of `_jp_ptrange`, and no other pT lies in any |
| Binnings.WPtRangeBins | settings.h:273-277 | every pT in [1, 7000) GeV lies in exactly one bin of `_jp_wptrange`, and no other pT lies in any |
| Binnings.WWPtRangeBins | settings.h:280-284 | every pT in [1, 7000) GeV lies in exactly one bin of `_jp_wwptrange`, and no other pT lies in any |
| Binnings.WEtaRangeBins | settings.h:300-305 | every eta in [-5.191, 5.191) lies in exactly one bin of `_jp_wetarange`, and no other eta lies in any |
| Binnings.EtaRangeBins | settings.h:311-320 | every eta in [-5.191, 5.191) lies in exactly one bin of `_jp_etarange`, and no other eta lies in any |
| Binnings.PosEtaRangeBins | settings.h:307-309 | every absolute eta in [0, 5.191) lies in exactly one bin of `_jp_posetarange`, and no other value lies in any |
| Binnings.SliceBins | settings.h:288-298 | each per-eta row has at least 41 real edges, and every pT from 10 GeV up to the row's last real edge lies in exactly one of its bins, and no other pT lies in any |
| Binnings.SliceEdgesIncreasing | settings.h:290-298 | the real edges of each absolute-eta slice strictly increase from 10 GeV |
| Binnings.PtRangeVsEtaWellFormed | settings.h:288-298 | `_jp_ptrangevseta` (the constant `Binnings.PtRangeVsEta`) has 8 rows of 65 entries; in each row the entries before the first zero (after position 0) strictly increase and all later entries are zero; the rows hold 65, 64, 60, 55, 49, 41, 41 and 41 real edges, so row 0 has no padding |
| Binnings.EtaTablesSpan | settings.h:300-319 | the signed eta tables run from -5.191 to 5.191; the absolute-eta table runs from 0 to 5.191 |

## Left out

- File paths, I/O settings and their switches: JSON, luminosity CSV, pile-up, prescale, QGL and ECAL-veto files. They only feed I/O done elsewhere.
- Histogram, plotting, fitting and run-length switches. These are flags and numeric limits with no logic:
  - the histogram and analysis flags (`_jp_quick`, `_jp_save`, `_jp_do…Histos`, `_jp_dotrigeff` and the like), `_jp_debug`, `_jp_domctrigsim`/`_jp_usemctrig` and `_jp_checkduplicates`;
  - the plotting and fitting limits `_jp_fitptmin`, `_jp_xmin57`, `_jp_xminpas`, `_jp_xmin` and `_jp_xmax`;
  - the event counts `_jp_nentries`, `_jp_nskip` and `_jp_skim`.
- The switches `_jp_usetriglumi`, `_jp_useIOV` and `_jp_pthatbins` are kept as the plain constants `TriggerTable.UseTrigLumi`, `IovTable.UseIov` and `PtHatSlices.PtHatBins`, beside the tables they enable. They carry no invariant, and nothing in the model reads them.
- `_jp_chs`, `_jp_algo`, `_jp_run`, the JEC tags and `_jp_recopt`/`_jp_xsecMinBias`. They choose the jet algorithm, the run, the JEC set, the minimum jet pT (`_jp_recopt`) and the minimum-bias cross-section (`_jp_xsecMinBias`) for code outside this header, and carry no invariant of their own.
- Bin-index search, run-to-IOV resolution, trigger selection, luminosity weighting and pT-hat cross-section weighting. The header does not implement them; the model states the partition and uniqueness facts they rely on.
- The commented-out 2017 and legacy alternatives. They are not live configuration.
- IEEE-754 behaviour of `double`. Every literal is an exact decimal, and the model compares these exactly.
- Mirror symmetry of `_jp_wetarange` and `_jp_etarange` about zero. The data is symmetric, but the model proves only their common end points (`Binnings.EtaTablesSpan`), not the full symmetry.
- `bool` and `unsigned int` widths. The counts and flags are small constants; the model uses `nat` and `bool`.
