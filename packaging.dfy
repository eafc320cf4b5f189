/**
 * Choosing the smallest and the largest packaging tier of a product
 * (Main.py, `df_lignes['QC'].idxmin()` and `.idxmax()`). pandas skips
 * missing quantities and returns the first position holding the extreme
 * value; when no quantity is a number it has no answer and the run aborts.
 */
module Packaging {
  import opened Common
  import opened Sheets

  /** The QC column of a group of logistics lines. */
  function Quantities(lines: seq<LogisticsLine>): (s: seq<Option<real>>)
    ensures |s| == |lines|
    ensures forall i :: 0 <= i < |lines| ==> s[i] == lines[i].qc
  {
    seq(|lines|, i requires 0 <= i < |lines| => lines[i].qc)
  }

  predicate HasNumber(s: seq<Option<real>>) {
    exists j :: 0 <= j < |s| && s[j].Some?
  }

  /** i holds the least number of s, and no earlier position holds it (what idxmin returns). */
  predicate IsIdxMin(s: seq<Option<real>>, i: nat) {
    && i < |s| && s[i].Some?
    && (forall j :: 0 <= j < |s| && s[j].Some? ==> s[i].value <= s[j].value)
    && (forall j :: 0 <= j < i && s[j].Some? ==> s[i].value < s[j].value)
  }

  /** i holds the greatest number of s, and no earlier position holds it (what idxmax returns). */
  predicate IsIdxMax(s: seq<Option<real>>, i: nat) {
    && i < |s| && s[i].Some?
    && (forall j :: 0 <= j < |s| && s[j].Some? ==> s[j].value <= s[i].value)
    && (forall j :: 0 <= j < i && s[j].Some? ==> s[j].value < s[i].value)
  }

  /**
   * Series.idxmin() with skipna: a left-to-right scan that replaces the
   * current candidate only on a strictly smaller number.
   */
  function IdxMin(s: seq<Option<real>>): (r: Option<nat>)
    ensures r.Some? <==> HasNumber(s)
    ensures r.Some? ==> IsIdxMin(s, r.value)
    decreases |s|
  {
    if |s| == 0 then None
    else
      var n := |s| - 1;
      var r := IdxMin(s[..n]);
      assert forall j :: 0 <= j < n ==> s[..n][j] == s[j];
      if s[n].None? then r
      else if r.None? || s[n].value < s[r.value].value then Some(n)
      else r
  }

  /** Series.idxmax() with skipna: the same scan with a strictly greater number. */
  function IdxMax(s: seq<Option<real>>): (r: Option<nat>)
    ensures r.Some? <==> HasNumber(s)
    ensures r.Some? ==> IsIdxMax(s, r.value)
    decreases |s|
  {
    if |s| == 0 then None
    else
      var n := |s| - 1;
      var r := IdxMax(s[..n]);
      assert forall j :: 0 <= j < n ==> s[..n][j] == s[j];
      if s[n].None? then r
      else if r.None? || s[n].value > s[r.value].value then Some(n)
      else r
  }

  /** Positions of the smallest (ligne_min) and the largest (ligne_max) tier. */
  datatype Tiers = Tiers(low: nat, high: nat)

  /**
   * Both tiers of one product's lines, or None when no QC is a number (the
   * case in which idxmin raises).
   */
  function SelectTiers(lines: seq<LogisticsLine>): (r: Option<Tiers>)
    ensures r.Some? <==> HasNumber(Quantities(lines))
    ensures r.Some? ==> IsIdxMin(Quantities(lines), r.value.low) && IsIdxMax(Quantities(lines), r.value.high)
  {
    var q := Quantities(lines);
    match (IdxMin(q), IdxMax(q))
    case (Some(lo), Some(hi)) => Some(Tiers(lo, hi))
    case _ => None
  }

  // ---------------------------------------------------------------------
  // Properties of the selection
  // ---------------------------------------------------------------------

  /** At most one position satisfies IsIdxMin: the first-occurrence rule makes the choice unique. */
  lemma IdxMinUnique(s: seq<Option<real>>, i: nat, j: nat)
    requires IsIdxMin(s, i) && IsIdxMin(s, j)
    ensures i == j
  {
  }

  lemma IdxMaxUnique(s: seq<Option<real>>, i: nat, j: nat)
    requires IsIdxMax(s, i) && IsIdxMax(s, j)
    ensures i == j
  {
  }

  /** IdxMin returns exactly the position IsIdxMin describes, and nothing else. */
  lemma IdxMinCharacterised(s: seq<Option<real>>, i: nat)
    ensures IdxMin(s) == Some(i) <==> IsIdxMin(s, i)
  {
    if IsIdxMin(s, i) {
      assert HasNumber(s);
      IdxMinUnique(s, IdxMin(s).value, i);
    }
  }

  lemma IdxMaxCharacterised(s: seq<Option<real>>, i: nat)
    ensures IdxMax(s) == Some(i) <==> IsIdxMax(s, i)
  {
    if IsIdxMax(s, i) {
      assert HasNumber(s);
      IdxMaxUnique(s, IdxMax(s).value, i);
    }
  }

  /** The smallest tier's quantity never exceeds the largest tier's, and both tiers are real lines. */
  lemma TiersOrdered(lines: seq<LogisticsLine>)
    requires SelectTiers(lines).Some?
    ensures var t := SelectTiers(lines).value;
      t.low < |lines| && t.high < |lines|
      && lines[t.low].qc.Some? && lines[t.high].qc.Some?
      && lines[t.low].qc.value <= lines[t.high].qc.value
  {
    var t := SelectTiers(lines).value;
    var q := Quantities(lines);
    assert q[t.low] == lines[t.low].qc && q[t.high] == lines[t.high].qc;
  }

  /** A single line with a numeric QC is both the smallest and the largest tier. */
  lemma SingleLineBothTiers(line: LogisticsLine)
    requires line.qc.Some?
    ensures SelectTiers([line]) == Some(Tiers(0, 0))
  {
    var q := Quantities([line]);
    assert q[0] == line.qc;
    IdxMinCharacterised(q, 0);
    IdxMaxCharacterised(q, 0);
  }

  /** Lines whose QC is not a number give no selection at all. */
  lemma NoNumericQuantity(lines: seq<LogisticsLine>)
    requires forall i :: 0 <= i < |lines| ==> lines[i].qc.None?
    ensures SelectTiers(lines).None?
  {
    var q := Quantities(lines);
    assert !HasNumber(q) by {
      forall j | 0 <= j < |q| ensures q[j].None? {
        assert q[j] == lines[j].qc;
      }
    }
  }

  /**
   * Quantities 5, 2, 8 select the second line as smallest and the third as
   * largest; with 2, missing, 2, 8, 8 the first of each tie wins.
   */
  lemma SelectionExamples()
    ensures IdxMin([Some(5.0), Some(2.0), Some(8.0)]) == Some(1)
    ensures IdxMax([Some(5.0), Some(2.0), Some(8.0)]) == Some(2)
    ensures IdxMin([Some(2.0), None, Some(2.0), Some(8.0), Some(8.0)]) == Some(0)
    ensures IdxMax([Some(2.0), None, Some(2.0), Some(8.0), Some(8.0)]) == Some(3)
  {
    var s := [Some(5.0), Some(2.0), Some(8.0)];
    IdxMinCharacterised(s, 1);
    IdxMaxCharacterised(s, 2);
    var t := [Some(2.0), None, Some(2.0), Some(8.0), Some(8.0)];
    IdxMinCharacterised(t, 0);
    IdxMaxCharacterised(t, 3);
  }
}
