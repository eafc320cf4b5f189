/**
 * Building one export row from the two selected tiers (Main.py, the block
 * that ends in `data_rows.append({...})`). The smallest tier (ligne_min)
 * gives weight, volume, height, width and depth; the largest tier
 * (ligne_max) gives the packaging height, width and depth; the unit label
 * (QCT) and quantity (QC) of both tiers are copied unchanged.
 */
module Records {
  import opened Common
  import opened Units
  import opened Sheets

  /** One row of data.xlsx, in the column order of the source. */
  datatype OutputRecord = OutputRecord(
    internalCode: string,
    partnerCode: string,
    weight: Converted,
    volume: Converted,
    height: Converted,
    width: Converted,
    depth: Converted,
    packHeight: Converted,
    packWidth: Converted,
    packDepth: Converted,
    smallestUnit: string,
    smallestQuantity: Option<real>,
    largestUnit: string,
    largestQuantity: Option<real>)

  function LengthOf(m: Measure): Converted {
    ToMillimetre(m.value, m.unit)
  }

  /**
   * The row for one product: every measurement is converted with the unit
   * code of its own column, and every unit label is the canonical one
   * whether or not the value parsed.
   */
  function BuildRecord(internalCode: string, partnerCode: string, low: LogisticsLine, high: LogisticsLine): (r: OutputRecord)
    ensures r.internalCode == internalCode && r.partnerCode == partnerCode
    ensures r.weight.unit == KilogrammeLabel && r.volume.unit == CubicMetreLabel
    ensures r.height.unit == MillimetreLabel && r.width.unit == MillimetreLabel && r.depth.unit == MillimetreLabel
    ensures r.packHeight.unit == MillimetreLabel && r.packWidth.unit == MillimetreLabel && r.packDepth.unit == MillimetreLabel
    ensures r.weight.value.Some? <==> low.weight.value.Some?
    ensures r.volume.value.Some? <==> low.volume.value.Some?
    ensures r.height.value.Some? <==> low.height.value.Some?
    ensures r.width.value.Some? <==> low.width.value.Some?
    ensures r.depth.value.Some? <==> low.depth.value.Some?
    ensures r.packHeight.value.Some? <==> high.height.value.Some?
    ensures r.packWidth.value.Some? <==> high.width.value.Some?
    ensures r.packDepth.value.Some? <==> high.depth.value.Some?
    ensures r.smallestUnit == low.qct && r.smallestQuantity == low.qc
    ensures r.largestUnit == high.qct && r.largestQuantity == high.qc
  {
    OutputRecord(
      internalCode, partnerCode,
      ToKilogramme(low.weight.value, low.weight.unit),
      ToCubicMetre(low.volume.value, low.volume.unit),
      LengthOf(low.height), LengthOf(low.width), LengthOf(low.depth),
      LengthOf(high.height), LengthOf(high.width), LengthOf(high.depth),
      low.qct, low.qc,
      high.qct, high.qc)
  }

  /** The fields of the smallest tier that reach the export. */
  predicate SameSmallestTierFields(a: LogisticsLine, b: LogisticsLine) {
    a.weight == b.weight && a.volume == b.volume && a.height == b.height
    && a.width == b.width && a.depth == b.depth && a.qct == b.qct && a.qc == b.qc
  }

  /** The fields of the largest tier that reach the export: no weight and no volume. */
  predicate SameLargestTierFields(a: LogisticsLine, b: LogisticsLine) {
    a.height == b.height && a.width == b.width && a.depth == b.depth && a.qct == b.qct && a.qc == b.qc
  }

  /**
   * The row depends on nothing but those fields: two inputs that agree on
   * them give the same row, so the largest tier's weight and volume, and
   * either line's partner code, are never read.
   */
  lemma RecordReadsOnlyTierFields(c: string, p: string, low: LogisticsLine, low': LogisticsLine, high: LogisticsLine, high': LogisticsLine)
    requires SameSmallestTierFields(low, low') && SameLargestTierFields(high, high')
    ensures BuildRecord(c, p, low, high) == BuildRecord(c, p, low', high')
  {
  }

  /** Each product measurement is the smallest tier's own value converted by its own unit code. */
  lemma RecordFromSmallestTier(c: string, p: string, low: LogisticsLine, high: LogisticsLine)
    ensures var r := BuildRecord(c, p, low, high);
      && r.weight == ToKilogramme(low.weight.value, low.weight.unit)
      && r.volume == ToCubicMetre(low.volume.value, low.volume.unit)
      && r.height == ToMillimetre(low.height.value, low.height.unit)
      && r.width == ToMillimetre(low.width.value, low.width.unit)
      && r.depth == ToMillimetre(low.depth.value, low.depth.unit)
      && r.packHeight == ToMillimetre(high.height.value, high.height.unit)
      && r.packWidth == ToMillimetre(high.width.value, high.width.unit)
      && r.packDepth == ToMillimetre(high.depth.value, high.depth.unit)
  {
  }

  /** When one line is both tiers, the packaging dimensions repeat the product dimensions. */
  lemma SingleTierRecord(c: string, p: string, line: LogisticsLine)
    ensures var r := BuildRecord(c, p, line, line);
      r.packHeight == r.height && r.packWidth == r.width && r.packDepth == r.depth
      && r.smallestUnit == r.largestUnit && r.smallestQuantity == r.largestQuantity
  {
  }
}
