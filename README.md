# Product data export for one supplier (libaud_streamlit, Main.py)

Main.py is a Streamlit page. The user picks a partner (supplier) from the
code table, uploads the partner's FABDIS workbook and starts a run. The run:

1. keeps the rows of the code table that belong to the partner;
2. for each of those rows, downloads the partner's first product photo to
   `<internal code>.png`, unless that file already exists (a permanent
   cache, with every fetch error swallowed);
3. for each of those rows, gathers the logistics lines of the partner code,
   picks the smallest packaging tier (`idxmin` of QC) and the largest
   (`idxmax` of QC), converts the dimensions to millimetres, the weight to
   kilograms and the volume to cubic metres, and appends one export row;
4. writes the rows to `data.xlsx`.

The Dafny modules follow those steps:

| file | module | models |
|---|---|---|
| common.dfy | Common | Option, Result, absolute value |
| rounding.dfy | Rounding | Python's `round(x, d)` (half to even) on exact reals |
| codes.dfy | UnitCodes | `unite.strip().upper()` |
| units.dfy | Units | `convertir_en_mm`, `convertir_en_kg`, `convertir_en_m3` |
| sheets.dfy | Sheets | typed rows of the code table and of the two FABDIS sheets |
| packaging.dfy | Packaging | `idxmin` / `idxmax` of the QC column |
| records.dfy | Records | building one export row from the two tiers |
| images.dfy | Images | the image loop, as a `while` loop over a file map |
| pipeline.dfy | Pipeline | partner filter, logistics loop (a `while` loop with early exit) and the whole run |
| columns.dfy | Columns | the column rename of line 36 (see Findings) |

Modelling choices:

- Cells are parsed at the boundary. A cell that `float()` or
  `to_numeric(errors='coerce')` would reject is `None`. A converter given
  `None` returns no value with the canonical unit label, which matches
  `return '', 'Millimètre'`.
- Numbers are exact reals. `round` rounds half to even on the exact
  product.
- The image folder is a map from file name to content. The network is a
  parameter: the outcome each fetch would have, one per selected mapping
  row. `DownloadImages` and `Run` also return the URLs they fetched, in
  order, so that "no network access" can be stated.
- The export is the sequence of rows given to `to_excel`, or the error
  that stopped the run.

Behaviour of the code a reader may not expect, which the model keeps:

- The unit labels are the French ones the code returns: `Millimètre`,
  `Kilogramme`, `mètre cube`.
- When no line of a product has a numeric QC, `idxmin`, or the `.loc` on
  its NaN result, raises. The handler
  around the whole run (lines 129-130) catches it, so the run writes no
  `data.xlsx` at all. It does not fall back to the first line. Images
  fetched before that point stay on disk.
- A missing workbook stops the run before any image is fetched
  (lines 41-43).
- Only the first PHOTO row of a product counts. If its URL is empty,
  nothing is fetched, even when a later PHOTO row has a URL.

## Model

| member | source | states |
|---|---|---|
| Rounding.NearestEven | Main.py:10 | the chosen integer is within 1/2 of the scaled value; at exactly 1/2 it is the even neighbour; an integer stays unchanged |
| Rounding.Round | Main.py:10 | `round(x, d)` is within half a unit of the d-th decimal of x; its number of decimals is stated by Rounding.RoundDecimals2, RoundDecimals3 and RoundDecimals6 |
| Rounding.RoundDecimals2 | Main.py:10 | `round(x, 2)` has at most 2 decimals: times 100 it is a whole number |
| Rounding.RoundDecimals3 | Main.py:15 | `round(x, 3)` has at most 3 decimals: times 1000 it is a whole number |
| Rounding.RoundDecimals6 | Main.py:20 | `round(x, 6)` has at most 6 decimals: times 10^6 it is a whole number |
| Rounding.RoundExact2 | Main.py:10 | a value with at most 2 decimals is unchanged by `round(·, 2)` |
| Rounding.RoundExact3 | Main.py:15 | a value with at most 3 decimals is unchanged by `round(·, 3)` |
| Rounding.RoundExact6 | Main.py:20 | a value with at most 6 decimals is unchanged by `round(·, 6)` |
| Rounding.NearestOfInteger | Main.py:10 | rounding an integer gives that integer |
| Rounding.RoundError | Main.py:10 | scaling back a rounded scaled value keeps the error within 1/2 divided by the scale |
| UnitCodes.UpperChar | Main.py:10 | `a`-`z` become `A`-`Z` (code point minus 32) and every other character is unchanged, so whitespace stays whitespace and no lower-case ASCII letter is left |
| UnitCodes.Upper | Main.py:10 | `str.upper()` character by character; its properties are UnitCodes.UpperAt, UpperLength, UpperConcat and UpperIdempotent |
| UnitCodes.Strip | Main.py:10 | `str.strip()`: leading then trailing whitespace removed; its properties are UnitCodes.TrimStartPadding, TrimEndPadding and StripIdempotent |
| UnitCodes.NormalizeCode | Main.py:10 | `unite.strip().upper()`; its properties are UnitCodes.NormalizePadded, NormalizeIgnoresCase and NormalizeIdempotent |
| UnitCodes.UpperAt | Main.py:10 | upper-casing works character by character and keeps the length |
| UnitCodes.UpperLength | Main.py:10 | upper-casing keeps the length |
| UnitCodes.UpperConcat | Main.py:10 | upper-casing distributes over concatenation |
| UnitCodes.UpperIdempotent | Main.py:10 | upper-casing twice is upper-casing once |
| UnitCodes.TrimStartPadding | Main.py:10 | `strip` removes exactly the leading whitespace in front of a non-blank word |
| UnitCodes.TrimEndPadding | Main.py:10 | `strip` removes exactly the trailing whitespace after a non-blank word |
| UnitCodes.TrimStartIdempotent | Main.py:10 | removing leading whitespace twice is removing it once |
| UnitCodes.TrimEndIdempotent | Main.py:10 | removing trailing whitespace twice is removing it once |
| UnitCodes.TrimStartFirst | Main.py:10 | after removing leading whitespace, the text is empty or starts with a non-space |
| UnitCodes.TrimEndKeepsStart | Main.py:10 | removing trailing whitespace keeps a non-space first character first |
| UnitCodes.StripIdempotent | Main.py:10 | `strip()` twice is `strip()` once |
| UnitCodes.UpperCommutesWithTrimStart | Main.py:10 | upper-casing and removing leading whitespace commute |
| UnitCodes.UpperCommutesWithTrimEnd | Main.py:10 | upper-casing and removing trailing whitespace commute |
| UnitCodes.UpperCommutesWithStrip | Main.py:10 | `s.upper().strip() == s.strip().upper()` |
| UnitCodes.NormalizePadded | Main.py:10 | a code padded with whitespace normalises to the upper-cased code |
| UnitCodes.NormalizeIgnoresCase | Main.py:10 | the unit code is case-insensitive |
| UnitCodes.NormalizeIdempotent | Main.py:10 | normalising a normalised code changes nothing |
| Units.Factor | Main.py:10 | `.get(code, 0)`: the table's factor for a known code, 0 for any other |
| Units.Convert | Main.py:7-10 | the label is always the given unit label; a value comes out exactly when the input parsed; it lies within half a unit of the last kept digit of the parsed value times the factor of the normalised code |
| Units.ToMillimetre | Main.py:7-10 | label `Millimètre`; a value exactly when the input parsed; within 0.005 of value × factor (MMT 1, CMT 10, DMT 100, MTR 1000) |
| Units.ToKilogramme | Main.py:12-15 | label `Kilogramme`; a value exactly when the input parsed; within 0.0005 of value × factor (GRM 0.001, KGM 1) |
| Units.ToCubicMetre | Main.py:17-20 | label `mètre cube`; a value exactly when the input parsed; within 0.0000005 of value × factor (CTQ 0.000001, DMQ 0.001, MTQ 1) |
| Units.LengthFactors | Main.py:10 | the length table: MMT 1, CMT 10, DMT 100, MTR 1000, 0 for any other code |
| Units.MassFactors | Main.py:15 | the mass table: GRM 0.001, KGM 1, 0 for any other code |
| Units.VolumeFactors | Main.py:20 | the volume table: CTQ 0.000001, DMQ 0.001, MTQ 1, 0 for any other code |
| Units.ConvertNumber | Main.py:7-10 | the numeric part of a converter: within half a unit of the last kept digit of the number times the factor of the normalised code |
| Units.ConvertValue | Main.py:7-10 | a parsed number becomes `round(value * factor, digits)` in every converter |
| Units.MillimetreValue | Main.py:10 | a parsed length becomes `round(value * factor, 2)`, the factor being that of the stripped, upper-cased code |
| Units.KilogrammeValue | Main.py:15 | a parsed mass becomes `round(value * factor, 3)` |
| Units.CubicMetreValue | Main.py:20 | a parsed volume becomes `round(value * factor, 6)` |
| Units.MillimetreDecimals | Main.py:10 | a converted length has at most 2 decimals |
| Units.KilogrammeDecimals | Main.py:15 | a converted mass has at most 3 decimals |
| Units.CubicMetreDecimals | Main.py:20 | a converted volume has at most 6 decimals |
| Units.LengthExact | Main.py:10 | every length factor times a value with 2 decimals is left unchanged by `round(·, 2)` |
| Units.MassExact | Main.py:15 | every mass factor times a whole number is left unchanged by `round(·, 3)` |
| Units.VolumeExact | Main.py:20 | every volume factor times a whole number is left unchanged by `round(·, 6)` |
| Units.ToMillimetreExact | Main.py:7-10 | a length with at most 2 decimals converts exactly: no rounding error |
| Units.ToKilogrammeExact | Main.py:12-15 | a whole mass converts exactly |
| Units.ToCubicMetreExact | Main.py:17-20 | a whole volume converts exactly |
| Units.NonNumericKeepsLabel | Main.py:7-20 | a value that does not parse gives no value with the canonical label, in all three converters |
| Units.UnknownCodeGivesZero | Main.py:7-20 | a code missing from one converter's own table gives 0 in that converter, whatever the other tables hold |
| Units.UnknownLengthCode | Main.py:7-10 | a code missing from the length table gives 0 mm |
| Units.UnknownMassCode | Main.py:12-15 | a code missing from the mass table gives 0 kg |
| Units.UnknownVolumeCode | Main.py:17-20 | a code missing from the volume table gives 0 cubic metres |
| Units.WrongTableExample | Main.py:7-15 | a mass code used as a length: 2 KGM is 0 mm, while it is 2 kg |
| Units.NormalizeBare | Main.py:10 | a code without surrounding blanks is only upper-cased |
| Units.LengthExamples | Main.py:7-10 | 5 CMT is 50 mm; 1 MTR is 1000 mm |
| Units.PaddedCodeExample | Main.py:10 | 2.5 with code " cmt " is 25 mm |
| Units.MassExamples | Main.py:12-15 | 2 GRM is 0.002 kg; 3 KGM is 3 kg |
| Units.VolumeExample | Main.py:17-20 | 500000 CTQ is 0.5 m³ |
| Packaging.Quantities | Main.py:85-86 | the QC column `df_lignes['QC']` that `idxmin`/`idxmax` scan: one entry per line, that line's QC (the coercion of line 48 happens when the cells are parsed) |
| Packaging.IdxMin | Main.py:85 | a position comes out exactly when some QC is a number; it holds the least number, with no earlier position holding it |
| Packaging.IdxMax | Main.py:86 | a position comes out exactly when some QC is a number; it holds the greatest number, with no earlier position holding it |
| Packaging.SelectTiers | Main.py:85-86 | both tiers exist exactly when some QC is a number; they are the idxmin and idxmax positions |
| Packaging.IdxMinUnique | Main.py:85 | the first-occurrence rule determines the minimum position uniquely |
| Packaging.IdxMaxUnique | Main.py:86 | the first-occurrence rule determines the maximum position uniquely |
| Packaging.IdxMinCharacterised | Main.py:85 | `IdxMin(s) == Some(i)` if and only if i is the first position of the least number |
| Packaging.IdxMaxCharacterised | Main.py:86 | `IdxMax(s) == Some(i)` if and only if i is the first position of the greatest number |
| Packaging.TiersOrdered | Main.py:85-86 | the smallest tier's QC is at most the largest tier's QC |
| Packaging.SingleLineBothTiers | Main.py:85-86 | with one line that has a numeric QC, that line is both tiers |
| Packaging.NoNumericQuantity | Main.py:85-86 | with no numeric QC there are no tiers (idxmin raises) |
| Packaging.SelectionExamples | Main.py:85-86 | QC [5, 2, 8] gives positions 1 and 2; [2, NaN, 2, 8, 8] gives 0 and 3 (ties go to the first) |
| Records.LengthOf | Main.py:88-121 | one dimension through `convertir_en_mm` with its own unit code; see Records.RecordFromSmallestTier |
| Records.BuildRecord | Main.py:88-121 | the codes are copied; every unit label is canonical; each of the eight values (weight, volume, height, width, depth from the smallest tier; packaging height, width, depth from the largest) appears exactly when its source cell parsed; QCT and QC come from the smallest and the largest tier |
| Records.RecordReadsOnlyTierFields | Main.py:88-121 | the row depends only on the smallest tier's measurements, QCT and QC and the largest tier's dimensions, QCT and QC |
| Records.RecordFromSmallestTier | Main.py:88-96 | weight, volume and dimensions come from the smallest tier; packaging dimensions from the largest, each through its own unit code |
| Records.SingleTierRecord | Main.py:85-121 | when one line is both tiers, packaging dimensions and both tier columns repeat each other |
| Images.FirstPhoto | Main.py:63-65 | the first media row with the partner code and type PHOTO, or none when there is none |
| Images.PhotoUrl | Main.py:63-66 | a URL exactly when the first PHOTO row exists and its MURLT is not empty; it is that MURLT |
| Images.ImageStep | Main.py:58-73 | an existing `<code>.png` means no fetch and no change; otherwise one fetch exactly when there is a URL; only a successful fetch writes, and only `<code>.png` |
| Images.DownloadImages | Main.py:55-73 | the loop's folder and fetches are those of the row-by-row steps |
| Images.ImageName | Main.py:58 | the file name `<internal code>.png`; used by Images.ImageStep, ImagesOnlyGrow and SuccessfulFetchesCacheAll |
| Images.ImagesAfter | Main.py:55-73 | the folder and fetches after the row-by-row steps in order; Images.DownloadImages computes it and Images.ImagesOnlyGrow, CachedRunIsNoop, FailedFetchesWriteNothing, SuccessfulFetchesCacheAll and SecondRunFetchesNothing state its properties |
| Images.Names | Main.py:58 | exactly the `<code>.png` names of the selected rows: every row's name is in it, and every name in it is some row's |
| Images.ImagesOnlyGrow | Main.py:55-73 | no existing file is changed or removed; new files are images of selected rows; no more fetches than selected rows |
| Images.CachedRunIsNoop | Main.py:60-61 | when every image exists, nothing is fetched or written, whatever the media sheet and network |
| Images.FailedFetchesWriteNothing | Main.py:67-73 | when every fetch fails, the folder is unchanged |
| Images.SuccessfulFetchesCacheAll | Main.py:55-73 | when every row has a URL and every fetch succeeds, every image exists afterwards |
| Images.SecondRunFetchesNothing | Main.py:55-73 | after a fully successful run, a second run fetches nothing and changes nothing, even with a changed media sheet |
| Images.EmptyFirstUrlExample | Main.py:63-66 | an empty URL on the first PHOTO row means no fetch even when a later row has one; non-PHOTO rows are ignored |
| Pipeline.SelectPartner | Main.py:36 | exactly the rows of the chosen partner, and no more rows than the table |
| Pipeline.SelectPartnerConcat | Main.py:36 | the filter keeps the table order |
| Pipeline.LinesFor | Main.py:80 | exactly the logistics lines of the partner code |
| Pipeline.LinesForConcat | Main.py:80 | the filter keeps the sheet order |
| Pipeline.RowFor | Main.py:78-121 | the body of the logistics loop for one row; Pipeline.RowForCases and RowFromTiers state what it gives |
| Pipeline.RowForCases | Main.py:80-121 | a product without lines is skipped; one without a numeric QC raises, and the model records that product as the cause; otherwise it gives a row with its own codes |
| Pipeline.RowFromTiers | Main.py:85-121 | a product's row is built from its first line of least QC and its first line of greatest QC |
| Pipeline.Steps | Main.py:77-121 | one step per selected row |
| Pipeline.StepsAt | Main.py:77-121 | the k-th step is the loop body applied to the k-th row |
| Pipeline.Collect | Main.py:76-121 | what the loop accumulates: rows in order until the first raise; see Pipeline.CollectOkIff, CollectEmits, CollectErrorIsFirstAbort and ErrorPersists |
| Pipeline.Rows | Main.py:76-121 | the export of the loop or its error; see Pipeline.RowsOkIff, RowsErrorIsFirstAbort and RowsMatchProducts |
| Pipeline.CollectOkIff | Main.py:76-121 | the loop finishes exactly when no product raises |
| Pipeline.CollectEmits | Main.py:76-121 | a finished loop holds each product's row in order, and nothing else |
| Pipeline.CollectErrorIsFirstAbort | Main.py:85-86 | a failed loop reports the error of its first raising product |
| Pipeline.ErrorPersists | Main.py:129-130 | once the loop has raised, later rows change nothing |
| Pipeline.WithLines | Main.py:82-83 | exactly the selected rows that have at least one logistics line |
| Pipeline.WithLinesConcat | Main.py:77-83 | the products with lines keep the mapping order: the filter distributes over concatenation |
| Pipeline.BuildRows | Main.py:76-121 | the loop's result is the row of every product in order, or the first error |
| Pipeline.RowsOkIff | Main.py:82-86 | the export exists if and only if every selected product has no line or has a numeric QC |
| Pipeline.RowsErrorIsFirstAbort | Main.py:85-86 | a failed export is attributed to the first product whose lines have no numeric QC (the program's own message does not name it) |
| Pipeline.EmittedMatchesProducts | Main.py:77-121 | without a raising product, the rows are one per product with lines, in order |
| Pipeline.RowsMatchProducts | Main.py:77-121 | a successful export has one row per product with logistics lines, in mapping order; a product absent from the sheet gives no row |
| Pipeline.ExportOnlySelectedPartner | Main.py:36-121 | every exported row's codes form a row of the code table for the chosen partner |
| Pipeline.ExampleTiers | Main.py:80-86 | with QC 10 listed before QC 1, the smallest tier is the second line and the largest the first |
| Pipeline.ExampleHeights | Main.py:7-10 | 10 CMT is 100 mm and 1 MTR is 1000 mm |
| Pipeline.ExampleStep | Main.py:80-121 | the example product gets its row from the QC-1 line and the QC-10 line |
| Pipeline.SingleProductRows | Main.py:76-121 | one product whose step gives a row exports exactly that row |
| Pipeline.ExampleRows | Main.py:36-121 | the example run exports exactly the row of A1 |
| Pipeline.ExampleExport | Main.py:36-121 | partner P1, A1/X1, lines (QC 1, 10 CMT) and (QC 10, 1 MTR): one row, height 100 mm, packaging height 1000 mm, quantities 1 and 10 |
| Pipeline.RunResult | Main.py:34-130 | the outcome of one run (export or error, and the folder); Pipeline.Run computes it and Pipeline.MissingWorkbookTouchesNothing and AbortKeepsImages state its properties |
| Pipeline.Run | Main.py:34-130 | without a workbook: an error, no fetch, no write; otherwise the image loop then the logistics loop over the partner's rows |
| Pipeline.MissingWorkbookTouchesNothing | Main.py:41-43 | without a workbook nothing is fetched and the folder is unchanged |
| Pipeline.AbortKeepsImages | Main.py:55-130 | a failed export is a no-numeric-QC error, and the images of the full image loop remain |
| Columns.Rename | Main.py:36-39 | each column label the rename names is replaced, the others are kept, in place |
| Columns.CountPositive | Main.py:36-39 | a label present in the header is counted at least once |
| Columns.AsWrittenPartnerColumns | Main.py:36-39 | after the rename as written, a column is labelled FOURNISSEUR exactly when it was FOURNISSEUR or CODE FOURNISSEUR, and the counts add up |
| Columns.AsWrittenDuplicate | Main.py:36-39 | a table with both columns ends up with at least two FOURNISSEUR columns |
| Columns.CorrectedPartnerColumns | Main.py:36-39 | after the corrected rename, a column is labelled FOURNISSEUR exactly when it was CODE FOURNISSEUR, position by position, and the counts agree |
| Columns.CorrectedUnique | Main.py:36-39 | with one partner-code column, the corrected rename leaves exactly one FOURNISSEUR column |

## Left out

- The Streamlit interface: the title, the partner selector, the upload widget, the output-folder field, the button, and the error, success and preview messages. The partner, the workbook and the folder are parameters of `Pipeline.Run`.
- Reading `code.csv` from the network and the workbook's sheets from Excel, and writing `data.xlsx`. These are file I/O. The model takes typed rows and returns the rows it would write.
- The text-to-number parsing of `float()` and `to_numeric`, including "nan", "inf" and exponent forms. Cells arrive already parsed.
- Binary floating point. The factors 0.001 and 1e-6 and the products are exact reals, so float representation error in the product before `round` is not modelled.
- Rounding.Round: that the result has at most d decimals is proved for d = 2, 3 and 6 only, the three precisions the converters use (Rounding.RoundDecimals2, RoundDecimals3, RoundDecimals6). For a symbolic d the fact involves a product of two unknown reals under `Floor`, which the solver does not settle.
- UnitCodes.UpperChar: upper-cases ASCII letters only. Python's `upper()` also maps other scripts, but every key of the three unit tables is plain ASCII.
- `os.makedirs` and `os.path.join`. The folder is a flat map from file name to content.
- The 10-second timeout, the HTTP status check and partial writes. Each fetch is one of two outcomes, a body or a failure; a failure writes nothing.
- Concurrency. The source is sequential, and so is the model.
- The text of the error that `idxmin`/`idxmax` raise on a group with no numeric QC. It is pandas' own (for example `Erreur : nan` after lines 129-130) and names no product. The product in `Pipeline.NoNumericQuantity` is the model's bookkeeping of which product raised first.
- The duplicate column that the rename on line 36 creates. The Columns module exhibits it; the rest of the model reads the partner code from its own field, as the corrected rename would.

## Findings

| source | as written | input that shows it | evidently intended | confidence | as-written member | corrected member |
|---|---|---|---|---|---|---|
| Main.py:36-39 | `rename` maps `CODE FOURNISSEUR` onto `FOURNISSEUR`, a label the table already has (line 28 reads it). So two columns are labelled `FOURNISSEUR`, and `row['FOURNISSEUR']` on lines 57 and 79 yields both cells instead of one partner code. Comparing a sheet column with that two-cell value (line 63, and line 80 for every product) raises. Lines 129-130 then turn this into an error message for the whole run. | any code table with columns FOURNISSEUR, CODE LIBAUD and CODE FOURNISSEUR that has at least one row for the chosen partner | `row['FOURNISSEUR']` is that row's partner code | high, not executed | Columns.AsWrittenDuplicate | Columns.CorrectedUnique |
