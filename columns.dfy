/**
 * The column labels of the code table after the rename of Main.py line 36.
 * `row[label]` on a pandas row yields one cell per column carrying that
 * label, so a label must be unique for the lookup to give one code.
 */
module Columns {
  /** The column labels of a table, in order. */
  type Header = seq<string>

  /** The number of columns labelled `name`. */
  function Count(header: Header, name: string): nat
    decreases |header|
  {
    if |header| == 0 then 0
    else (if header[0] == name then 1 else 0) + Count(header[1..], name)
  }

  function RenameLabel(l: string, renames: map<string, string>): string {
    if l in renames then renames[l] else l
  }

  /** DataFrame.rename(columns=renames): each label the map names is replaced, the others are kept. */
  function Rename(header: Header, renames: map<string, string>): (r: Header)
    ensures |r| == |header|
    ensures forall i :: 0 <= i < |header| ==> r[i] == RenameLabel(header[i], renames)
    decreases |header|
  {
    if |header| == 0 then [] else [RenameLabel(header[0], renames)] + Rename(header[1..], renames)
  }

  /** The rename as Main.py writes it. */
  const SourceRenames: map<string, string> := map["CODE LIBAUD" := "LIBAUD", "CODE FOURNISSEUR" := "FOURNISSEUR"]

  /** A rename that moves the partner column out of the way first. */
  const CorrectedRenames: map<string, string> :=
    map["FOURNISSEUR" := "PARTENAIRE", "CODE LIBAUD" := "LIBAUD", "CODE FOURNISSEUR" := "FOURNISSEUR"]

  lemma {:induction false} CountPositive(header: Header, name: string)
    requires name in header
    ensures Count(header, name) >= 1
    decreases |header|
  {
    if header[0] != name {
      assert name in header[1..];
      CountPositive(header[1..], name);
    }
  }

  /** As written, the renamed FOURNISSEUR label covers both the partner column and the partner-code column. */
  lemma {:induction false} AsWrittenPartnerColumns(header: Header)
    ensures forall i :: 0 <= i < |header| ==>
      (Rename(header, SourceRenames)[i] == "FOURNISSEUR" <==> header[i] == "FOURNISSEUR" || header[i] == "CODE FOURNISSEUR")
    ensures Count(Rename(header, SourceRenames), "FOURNISSEUR")
      == Count(header, "FOURNISSEUR") + Count(header, "CODE FOURNISSEUR")
    decreases |header|
  {
    if |header| > 0 {
      AsWrittenPartnerColumns(header[1..]);
      assert Rename(header, SourceRenames)[1..] == Rename(header[1..], SourceRenames);
    }
  }

  /**
   * The table Main.py needs has both a FOURNISSEUR column (line 28) and a
   * CODE FOURNISSEUR column (line 36); after the rename two columns carry
   * the label FOURNISSEUR, so `row['FOURNISSEUR']` is not one partner code.
   */
  lemma AsWrittenDuplicate(header: Header)
    requires "FOURNISSEUR" in header && "CODE FOURNISSEUR" in header
    ensures Count(Rename(header, SourceRenames), "FOURNISSEUR") >= 2
  {
    AsWrittenPartnerColumns(header);
    CountPositive(header, "FOURNISSEUR");
    CountPositive(header, "CODE FOURNISSEUR");
  }

  /** With the corrected rename, the FOURNISSEUR columns are exactly the former CODE FOURNISSEUR columns. */
  lemma {:induction false} CorrectedPartnerColumns(header: Header)
    ensures forall i :: 0 <= i < |header| ==>
      (Rename(header, CorrectedRenames)[i] == "FOURNISSEUR" <==> header[i] == "CODE FOURNISSEUR")
    ensures Count(Rename(header, CorrectedRenames), "FOURNISSEUR") == Count(header, "CODE FOURNISSEUR")
    decreases |header|
  {
    if |header| > 0 {
      CorrectedPartnerColumns(header[1..]);
      assert Rename(header, CorrectedRenames)[1..] == Rename(header[1..], CorrectedRenames);
    }
  }

  /** A table with one partner-code column has, after the corrected rename, one FOURNISSEUR column. */
  lemma CorrectedUnique(header: Header)
    requires Count(header, "CODE FOURNISSEUR") == 1
    ensures Count(Rename(header, CorrectedRenames), "FOURNISSEUR") == 1
  {
    CorrectedPartnerColumns(header);
  }
}
