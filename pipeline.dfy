/**
 * The run behind the "Lancer le traitement" button of Main.py: select the
 * mapping rows of one partner, fetch the images, then build one export row
 * per product that has logistics lines, in mapping order. A missing
 * workbook stops the run before anything happens; a product whose lines
 * all lack a numeric QC makes idxmin raise, and the handler around the
 * whole run then reports the error, so no data.xlsx is written (the images
 * fetched before that point stay on disk).
 */
module Pipeline {
  import opened Common
  import opened Sheets
  import opened Units
  import opened UnitCodes
  import opened Packaging
  import opened Records
  import opened Images

  // ---------------------------------------------------------------------
  // The two row filters
  // ---------------------------------------------------------------------

  /** df_codes[df_codes['FOURNISSEUR'] == partner], keeping the table order. */
  function SelectPartner(mapping: seq<CodeMapping>, partner: string): (r: seq<CodeMapping>)
    ensures forall m :: m in r <==> m in mapping && m.partner == partner
    ensures |r| <= |mapping|
    decreases |mapping|
  {
    if |mapping| == 0 then []
    else
      var n := |mapping| - 1;
      assert mapping == mapping[..n] + [mapping[n]];
      var rest := SelectPartner(mapping[..n], partner);
      if mapping[n].partner == partner then rest + [mapping[n]] else rest
  }

  /** df_logistique[df_logistique['REFCIALE'] == partnerCode], keeping the sheet order. */
  function LinesFor(logistics: seq<LogisticsLine>, partnerCode: string): (r: seq<LogisticsLine>)
    ensures forall l :: l in r <==> l in logistics && l.partnerCode == partnerCode
    ensures |r| <= |logistics|
    decreases |logistics|
  {
    if |logistics| == 0 then []
    else
      var n := |logistics| - 1;
      assert logistics == logistics[..n] + [logistics[n]];
      var rest := LinesFor(logistics[..n], partnerCode);
      if logistics[n].partnerCode == partnerCode then rest + [logistics[n]] else rest
  }

  /** Filtering keeps the order: the rows of a concatenation are the rows of each part, in turn. */
  lemma {:induction false} SelectPartnerConcat(a: seq<CodeMapping>, b: seq<CodeMapping>, partner: string)
    ensures SelectPartner(a + b, partner) == SelectPartner(a, partner) + SelectPartner(b, partner)
    decreases |b|
  {
    if |b| > 0 {
      var n := |b| - 1;
      assert (a + b)[..|a| + n] == a + b[..n];
      assert (a + b)[|a| + n] == b[n];
      SelectPartnerConcat(a, b[..n], partner);
    } else {
      assert a + b == a;
    }
  }

  /** The same for the logistics filter. */
  lemma {:induction false} LinesForConcat(a: seq<LogisticsLine>, b: seq<LogisticsLine>, partnerCode: string)
    ensures LinesFor(a + b, partnerCode) == LinesFor(a, partnerCode) + LinesFor(b, partnerCode)
    decreases |b|
  {
    if |b| > 0 {
      var n := |b| - 1;
      assert (a + b)[..|a| + n] == a + b[..n];
      assert (a + b)[|a| + n] == b[n];
      LinesForConcat(a, b[..n], partnerCode);
    } else {
      assert a + b == a;
    }
  }

  // ---------------------------------------------------------------------
  // One product of the logistics loop
  // ---------------------------------------------------------------------

  /**
   * Why a run produces no export. The product in NoNumericQuantity records
   * which product raised; the program's own message (pandas' error text) does
   * not name it.
   */
  datatype RunError = MissingWorkbook | NoNumericQuantity(internalCode: string)

  /** What the loop body does for one mapping row: skip it, append a row, or raise. */
  datatype ProductStep = Skip | Emit(record: OutputRecord) | Abort(error: RunError)

  function RowFor(ref: CodeMapping, logistics: seq<LogisticsLine>): ProductStep {
    var lines := LinesFor(logistics, ref.partnerCode);
    if |lines| == 0 then Skip
    else
      match SelectTiers(lines)
      case None => Abort(NoNumericQuantity(ref.internalCode))
      case Some(t) => Emit(BuildRecord(ref.internalCode, ref.partnerCode, lines[t.low], lines[t.high]))
  }

  /**
   * A product without logistics lines is skipped; one whose lines have no
   * numeric QC raises, naming the product; any other gives a row with its
   * own codes.
   */
  lemma RowForCases(ref: CodeMapping, logistics: seq<LogisticsLine>)
    ensures var s := RowFor(ref, logistics);
      var lines := LinesFor(logistics, ref.partnerCode);
      && (s.Skip? <==> |lines| == 0)
      && (s.Abort? <==> |lines| > 0 && !HasNumber(Quantities(lines)))
      && (s.Abort? ==> s.error == NoNumericQuantity(ref.internalCode))
      && (s.Emit? ==> s.record.internalCode == ref.internalCode && s.record.partnerCode == ref.partnerCode)
  {
  }

  /**
   * The row of a product is built from its first line of smallest QC and
   * its first line of largest QC, whichever lines those are.
   */
  lemma RowFromTiers(ref: CodeMapping, logistics: seq<LogisticsLine>, low: nat, high: nat)
    requires IsIdxMin(Quantities(LinesFor(logistics, ref.partnerCode)), low)
    requires IsIdxMax(Quantities(LinesFor(logistics, ref.partnerCode)), high)
    ensures var lines := LinesFor(logistics, ref.partnerCode);
      RowFor(ref, logistics) == Emit(BuildRecord(ref.internalCode, ref.partnerCode, lines[low], lines[high]))
  {
    var q := Quantities(LinesFor(logistics, ref.partnerCode));
    IdxMinCharacterised(q, low);
    IdxMaxCharacterised(q, high);
  }

  // ---------------------------------------------------------------------
  // The logistics loop
  // ---------------------------------------------------------------------

  /** The step of each mapping row, in order. */
  function Steps(refs: seq<CodeMapping>, logistics: seq<LogisticsLine>): (s: seq<ProductStep>)
    ensures |s| == |refs|
    decreases |refs|
  {
    if |refs| == 0 then []
    else Steps(refs[..|refs| - 1], logistics) + [RowFor(refs[|refs| - 1], logistics)]
  }

  /** The k-th step is the step of the k-th row. */
  lemma {:induction false} StepsAt(refs: seq<CodeMapping>, logistics: seq<LogisticsLine>, k: nat)
    requires k < |refs|
    ensures Steps(refs, logistics)[k] == RowFor(refs[k], logistics)
    decreases |refs|
  {
    var n := |refs| - 1;
    if k < n {
      StepsAt(refs[..n], logistics, k);
      assert refs[..n][k] == refs[k];
    }
  }

  /**
   * What the loop accumulates from the steps: the rows in order, until the
   * first step that raises, whose error ends the run.
   */
  function Collect(steps: seq<ProductStep>): Result<seq<OutputRecord>, RunError>
    decreases |steps|
  {
    if |steps| == 0 then Ok([])
    else
      var n := |steps| - 1;
      match Collect(steps[..n])
      case Err(e) => Err(e)
      case Ok(rows) =>
        match steps[n]
        case Skip => Ok(rows)
        case Emit(record) => Ok(rows + [record])
        case Abort(e) => Err(e)
  }

  /** The export of the logistics loop over refs, or the error that ended it. */
  function Rows(refs: seq<CodeMapping>, logistics: seq<LogisticsLine>): Result<seq<OutputRecord>, RunError> {
    Collect(Steps(refs, logistics))
  }

  /** The records of the steps that append one, in order. */
  function Emitted(steps: seq<ProductStep>): seq<OutputRecord>
    decreases |steps|
  {
    if |steps| == 0 then []
    else
      var n := |steps| - 1;
      if steps[n].Emit? then Emitted(steps[..n]) + [steps[n].record] else Emitted(steps[..n])
  }

  /** The loop finishes exactly when no step raises. */
  lemma {:induction false} CollectOkIff(steps: seq<ProductStep>)
    ensures Collect(steps).Ok? <==> forall k :: 0 <= k < |steps| ==> !steps[k].Abort?
    decreases |steps|
  {
    if |steps| > 0 {
      var n := |steps| - 1;
      assert forall k :: 0 <= k < n ==> steps[..n][k] == steps[k];
      CollectOkIff(steps[..n]);
    }
  }

  /** A finished loop holds the row of every Emit step, in order, and nothing else. */
  lemma {:induction false} CollectEmits(steps: seq<ProductStep>)
    requires Collect(steps).Ok?
    ensures Collect(steps).value == Emitted(steps)
    decreases |steps|
  {
    if |steps| > 0 {
      CollectEmits(steps[..|steps| - 1]);
    }
  }

  /** The error of a failed loop is that of its first raising step. */
  lemma {:induction false} CollectErrorIsFirstAbort(steps: seq<ProductStep>)
    requires Collect(steps).Err?
    ensures exists k :: (0 <= k < |steps| && steps[k].Abort? && Collect(steps).error == steps[k].error
      && forall j :: 0 <= j < k ==> !steps[j].Abort?)
    decreases |steps|
  {
    var n := |steps| - 1;
    if Collect(steps[..n]).Err? {
      CollectErrorIsFirstAbort(steps[..n]);
      var k :| 0 <= k < n && steps[..n][k].Abort? && Collect(steps[..n]).error == steps[..n][k].error
        && forall j :: 0 <= j < k ==> !steps[..n][j].Abort?;
      assert forall j :: 0 <= j <= k ==> steps[..n][j] == steps[j];
    } else {
      CollectOkIff(steps[..n]);
      assert forall j :: 0 <= j < n ==> steps[..n][j] == steps[j];
    }
  }

  /** Once the loop has raised, the rest of the steps change nothing. */
  lemma {:induction false} ErrorPersists(steps: seq<ProductStep>, i: nat)
    requires i <= |steps|
    requires Collect(steps[..i]).Err?
    ensures Collect(steps) == Collect(steps[..i])
    decreases |steps| - i
  {
    if i < |steps| {
      assert steps[..i + 1][..i] == steps[..i];
      ErrorPersists(steps, i + 1);
    } else {
      assert steps[..i] == steps;
    }
  }

  /** The mapping rows that have at least one logistics line, in order. */
  function WithLines(refs: seq<CodeMapping>, logistics: seq<LogisticsLine>): (r: seq<CodeMapping>)
    ensures forall m :: m in r <==> m in refs && |LinesFor(logistics, m.partnerCode)| > 0
    ensures |r| <= |refs|
    decreases |refs|
  {
    if |refs| == 0 then []
    else
      var n := |refs| - 1;
      assert refs == refs[..n] + [refs[n]];
      var rest := WithLines(refs[..n], logistics);
      if |LinesFor(logistics, refs[n].partnerCode)| > 0 then rest + [refs[n]] else rest
  }

  /** Keeping the products with lines preserves their order: the filter distributes over concatenation. */
  lemma {:induction false} WithLinesConcat(a: seq<CodeMapping>, b: seq<CodeMapping>, logistics: seq<LogisticsLine>)
    ensures WithLines(a + b, logistics) == WithLines(a, logistics) + WithLines(b, logistics)
    decreases |b|
  {
    if |b| > 0 {
      var n := |b| - 1;
      assert (a + b)[..|a| + n] == a + b[..n];
      assert (a + b)[|a| + n] == b[n];
      WithLinesConcat(a, b[..n], logistics);
    } else {
      assert a + b == a;
    }
  }

  /** The logistics loop of Main.py, with the exception of idxmin as an early return. */
  method BuildRows(refs: seq<CodeMapping>, logistics: seq<LogisticsLine>) returns (result: Result<seq<OutputRecord>, RunError>)
    ensures result == Rows(refs, logistics)
  {
    ghost var steps := Steps(refs, logistics);
    var rows: seq<OutputRecord> := [];
    var i := 0;
    while i < |refs|
      invariant 0 <= i <= |refs|
      invariant Collect(steps[..i]) == Ok(rows)
    {
      assert steps[..i + 1][..i] == steps[..i];
      assert steps[..i + 1][i] == steps[i];
      StepsAt(refs, logistics, i);
      var lines := LinesFor(logistics, refs[i].partnerCode);
      if |lines| > 0 {
        var tiers := SelectTiers(lines);
        if tiers.None? {
          result := Err(NoNumericQuantity(refs[i].internalCode));
          ErrorPersists(steps, i + 1);
          return;
        }
        var low, high := lines[tiers.value.low], lines[tiers.value.high];
        rows := rows + [BuildRecord(refs[i].internalCode, refs[i].partnerCode, low, high)];
      }
      i := i + 1;
    }
    assert steps[..i] == steps;
    result := Ok(rows);
  }

  /**
   * The export exists exactly when every selected product either has no
   * logistics line or has one with a numeric QC.
   */
  lemma RowsOkIff(refs: seq<CodeMapping>, logistics: seq<LogisticsLine>)
    ensures Rows(refs, logistics).Ok? <==> forall k :: 0 <= k < |refs| ==>
      |LinesFor(logistics, refs[k].partnerCode)| == 0 || HasNumber(Quantities(LinesFor(logistics, refs[k].partnerCode)))
  {
    var steps := Steps(refs, logistics);
    CollectOkIff(steps);
    forall k | 0 <= k < |refs|
      ensures !steps[k].Abort? <==> |LinesFor(logistics, refs[k].partnerCode)| == 0 || HasNumber(Quantities(LinesFor(logistics, refs[k].partnerCode)))
    {
      StepsAt(refs, logistics, k);
      RowForCases(refs[k], logistics);
    }
  }

  /** A failed export names the first selected product whose lines have no numeric QC. */
  lemma RowsErrorIsFirstAbort(refs: seq<CodeMapping>, logistics: seq<LogisticsLine>)
    requires Rows(refs, logistics).Err?
    ensures exists k :: (0 <= k < |refs| && RowFor(refs[k], logistics).Abort?
      && Rows(refs, logistics).error == NoNumericQuantity(refs[k].internalCode)
      && forall j :: 0 <= j < k ==> !RowFor(refs[j], logistics).Abort?)
  {
    var steps := Steps(refs, logistics);
    CollectErrorIsFirstAbort(steps);
    var k :| 0 <= k < |steps| && steps[k].Abort? && Collect(steps).error == steps[k].error
      && forall j :: 0 <= j < k ==> !steps[j].Abort?;
    StepsAt(refs, logistics, k);
    RowForCases(refs[k], logistics);
    forall j | 0 <= j < k ensures !RowFor(refs[j], logistics).Abort? {
      StepsAt(refs, logistics, j);
    }
  }

  /** The rows of steps without an Abort are one per product with logistics lines. */
  lemma {:induction false} EmittedMatchesProducts(refs: seq<CodeMapping>, logistics: seq<LogisticsLine>)
    requires forall k :: 0 <= k < |refs| ==> !RowFor(refs[k], logistics).Abort?
    ensures var rows := Emitted(Steps(refs, logistics));
      var products := WithLines(refs, logistics);
      |rows| == |products|
      && forall k :: 0 <= k < |rows| ==> RowFor(products[k], logistics) == Emit(rows[k])
    decreases |refs|
  {
    if |refs| > 0 {
      var n := |refs| - 1;
      var prev := Steps(refs[..n], logistics);
      var step := RowFor(refs[n], logistics);
      assert Steps(refs, logistics) == prev + [step];
      assert (prev + [step])[..n] == prev;
      assert forall k :: 0 <= k < n ==> refs[..n][k] == refs[k];
      EmittedMatchesProducts(refs[..n], logistics);
      RowForCases(refs[n], logistics);
    }
  }

  /**
   * A successful export has one row per selected product with logistics
   * lines, in mapping order, and that row is the one its lines give: a
   * product absent from the logistics sheet gives no row at all.
   */
  lemma RowsMatchProducts(refs: seq<CodeMapping>, logistics: seq<LogisticsLine>)
    requires Rows(refs, logistics).Ok?
    ensures var rows := Rows(refs, logistics).value;
      var products := WithLines(refs, logistics);
      |rows| == |products|
      && forall k :: 0 <= k < |rows| ==> RowFor(products[k], logistics) == Emit(rows[k])
  {
    var steps := Steps(refs, logistics);
    CollectOkIff(steps);
    CollectEmits(steps);
    forall k | 0 <= k < |refs| ensures !RowFor(refs[k], logistics).Abort? {
      StepsAt(refs, logistics, k);
    }
    EmittedMatchesProducts(refs, logistics);
  }

  /** Every exported row belongs to the selected partner and comes from a row of the code table. */
  lemma ExportOnlySelectedPartner(mapping: seq<CodeMapping>, partner: string, logistics: seq<LogisticsLine>, k: nat)
    requires Rows(SelectPartner(mapping, partner), logistics).Ok?
    requires k < |Rows(SelectPartner(mapping, partner), logistics).value|
    ensures var r := Rows(SelectPartner(mapping, partner), logistics).value[k];
      CodeMapping(partner, r.internalCode, r.partnerCode) in mapping
  {
    var refs := SelectPartner(mapping, partner);
    RowsMatchProducts(refs, logistics);
    var m := WithLines(refs, logistics)[k];
    assert m in WithLines(refs, logistics);
    RowForCases(m, logistics);
    assert m == CodeMapping(partner, m.internalCode, m.partnerCode);
  }

  // ---------------------------------------------------------------------
  // A worked example: partner P1, product A1 known to it as X1
  // ---------------------------------------------------------------------

  const NoMeasure := Measure(None, "")

  /** The tier of 1 unit, 10 cm high. */
  const SmallTier := LogisticsLine("X1", Some(1.0), Measure(Some(10.0), "CMT"), NoMeasure, NoMeasure, NoMeasure, NoMeasure, "PCE")

  /** The tier of 10 units, 1 m high. */
  const LargeTier := LogisticsLine("X1", Some(10.0), Measure(Some(1.0), "MTR"), NoMeasure, NoMeasure, NoMeasure, NoMeasure, "CAR")

  /** The large tier comes first in the sheet: the selection goes by QC, not by position. */
  lemma ExampleTiers()
    ensures LinesFor([LargeTier, SmallTier], "X1") == [LargeTier, SmallTier]
    ensures SelectTiers([LargeTier, SmallTier]) == Some(Tiers(1, 0))
  {
    var lines := [LargeTier, SmallTier];
    assert lines[..1] == [LargeTier];
    assert [LargeTier][..0] == [];
    var q := Quantities(lines);
    assert q == [Some(10.0), Some(1.0)];
    IdxMinCharacterised(q, 1);
    IdxMaxCharacterised(q, 0);
  }

  /** 10 CMT is 100 mm and 1 MTR is 1000 mm. */
  lemma ExampleHeights()
    ensures LengthOf(SmallTier.height) == Converted(Some(100.0), MillimetreLabel)
    ensures LengthOf(LargeTier.height) == Converted(Some(1000.0), MillimetreLabel)
  {
    NormalizeBare("CMT");
    assert Upper("CMT") == "CMT";
    NormalizeBare("MTR");
    assert Upper("MTR") == "MTR";
    ToMillimetreExact(10.0, "CMT");
    ToMillimetreExact(1.0, "MTR");
  }

  /** A1's step builds its row from the small tier and the large tier. */
  lemma ExampleStep()
    ensures RowFor(CodeMapping("P1", "A1", "X1"), [LargeTier, SmallTier]) == Emit(BuildRecord("A1", "X1", SmallTier, LargeTier))
  {
    ExampleTiers();
  }

  /** A single product whose step gives a row exports exactly that row. */
  lemma SingleProductRows(m: CodeMapping, logistics: seq<LogisticsLine>, record: OutputRecord)
    requires RowFor(m, logistics) == Emit(record)
    ensures Rows([m], logistics) == Ok([record])
  {
    assert [m][..0] == [];
    var steps := Steps([m], logistics);
    assert steps == [Emit(record)];
    assert steps[..0] == [];
    assert Collect(steps[..0]) == Ok([]);
    assert [] + [record] == [record];
  }

  /** The loop over the selected rows of the example gives that one row. */
  lemma ExampleRows()
    ensures Rows(SelectPartner([CodeMapping("P1", "A1", "X1")], "P1"), [LargeTier, SmallTier])
      == Ok([BuildRecord("A1", "X1", SmallTier, LargeTier)])
  {
    var m := CodeMapping("P1", "A1", "X1");
    assert [m][..0] == [];
    assert SelectPartner([m], "P1") == [m];
    ExampleStep();
    SingleProductRows(m, [LargeTier, SmallTier], BuildRecord("A1", "X1", SmallTier, LargeTier));
  }

  /**
   * The export of the example has one row for A1: height 100 mm from the
   * smallest tier, packaging height 1000 mm from the largest, quantities 1
   * and 10.
   */
  lemma ExampleExport()
    ensures var r := Rows(SelectPartner([CodeMapping("P1", "A1", "X1")], "P1"), [LargeTier, SmallTier]);
      && r.Ok? && |r.value| == 1
      && r.value[0].internalCode == "A1" && r.value[0].partnerCode == "X1"
      && r.value[0].height == Converted(Some(100.0), MillimetreLabel)
      && r.value[0].packHeight == Converted(Some(1000.0), MillimetreLabel)
      && r.value[0].smallestQuantity == Some(1.0) && r.value[0].largestQuantity == Some(10.0)
  {
    ExampleRows();
    ExampleHeights();
    var record := BuildRecord("A1", "X1", SmallTier, LargeTier);
    assert record.height == LengthOf(SmallTier.height);
    assert record.packHeight == LengthOf(LargeTier.height);
  }

  // ---------------------------------------------------------------------
  // The whole run
  // ---------------------------------------------------------------------

  /** The two sheets read from the uploaded FABDIS workbook. */
  datatype Workbook = Workbook(media: seq<MediaRecord>, logistics: seq<LogisticsLine>)

  /** What a run leaves behind: the export (or its error) and the image folder with the fetches made. */
  datatype RunOutcome = RunOutcome(data: Result<seq<OutputRecord>, RunError>, images: Cache)

  function RunResult(partner: string, mapping: seq<CodeMapping>, workbook: Option<Workbook>, network: seq<FetchOutcome>, files: Files): RunOutcome
    requires |network| == |SelectPartner(mapping, partner)|
  {
    var refs := SelectPartner(mapping, partner);
    match workbook
    case None => RunOutcome(Err(MissingWorkbook), Cache(files, []))
    case Some(w) => RunOutcome(Rows(refs, w.logistics), ImagesAfter(refs, w.media, network, files))
  }

  /**
   * The run: the workbook check, then the image loop, then the logistics
   * loop. `network[i]` is what fetching the image of the i-th selected
   * mapping row would give.
   */
  method Run(partner: string, mapping: seq<CodeMapping>, workbook: Option<Workbook>, network: seq<FetchOutcome>, files: Files)
    returns (data: Result<seq<OutputRecord>, RunError>, newFiles: Files, requests: seq<string>)
    requires |network| == |SelectPartner(mapping, partner)|
    ensures RunOutcome(data, Cache(newFiles, requests)) == RunResult(partner, mapping, workbook, network, files)
  {
    var refs := SelectPartner(mapping, partner);
    if workbook.None? {
      return Err(MissingWorkbook), files, [];
    }
    newFiles, requests := DownloadImages(refs, workbook.value.media, network, files);
    data := BuildRows(refs, workbook.value.logistics);
  }

  /** Without a workbook nothing is fetched and nothing is written. */
  lemma MissingWorkbookTouchesNothing(partner: string, mapping: seq<CodeMapping>, network: seq<FetchOutcome>, files: Files)
    requires |network| == |SelectPartner(mapping, partner)|
    ensures RunResult(partner, mapping, None, network, files) == RunOutcome(Err(MissingWorkbook), Cache(files, []))
  {
  }

  /**
   * A failed export does not undo the images: they are those of the full
   * image loop, which runs before the logistics loop.
   */
  lemma AbortKeepsImages(partner: string, mapping: seq<CodeMapping>, w: Workbook, network: seq<FetchOutcome>, files: Files)
    requires |network| == |SelectPartner(mapping, partner)|
    requires RunResult(partner, mapping, Some(w), network, files).data.Err?
    ensures RunResult(partner, mapping, Some(w), network, files).data.error.NoNumericQuantity?
    ensures RunResult(partner, mapping, Some(w), network, files).images == ImagesAfter(SelectPartner(mapping, partner), w.media, network, files)
  {
    RowsErrorIsFirstAbort(SelectPartner(mapping, partner), w.logistics);
  }
}
