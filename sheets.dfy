/**
 * Typed rows of the three tables Main.py reads. Cells are parsed at the
 * boundary: a cell that is not a number is None (pandas' NaN from
 * to_numeric(errors='coerce') for QC, a failing float() for measurements),
 * and a missing string cell is "" (the sheets are read with fillna('')).
 */
module Sheets {
  import opened Common

  /** A raw measurement cell and the unit code beside it (HAUT/HAUTU, POIDS/POIDSU, ...). */
  datatype Measure = Measure(value: Option<real>, unit: string)

  /** One row of the code table: partner (FOURNISSEUR), internal code (CODE LIBAUD), partner code (CODE FOURNISSEUR). */
  datatype CodeMapping = CodeMapping(partner: string, internalCode: string, partnerCode: string)

  /** One row of the logistics sheet B02_LOGISTIQUE, keyed by REFCIALE. */
  datatype LogisticsLine = LogisticsLine(
    partnerCode: string,
    qc: Option<real>,
    height: Measure,
    width: Measure,
    depth: Measure,
    weight: Measure,
    volume: Measure,
    qct: string)

  /** One row of the media sheet B03_MEDIA: REFCIALE, MTYP, MURLT. */
  datatype MediaRecord = MediaRecord(partnerCode: string, mediaType: string, url: string)
}
