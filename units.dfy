/**
 * The three unit converters of Main.py (convertir_en_mm, convertir_en_kg,
 * convertir_en_m3). Each takes a raw value, already parsed at the boundary
 * (None when Python's float() would raise), and a unit code. The normalised
 * code is looked up in a fixed factor table; an unknown code has factor 0.
 * The product is rounded to a fixed number of decimals and returned with the
 * canonical unit label, which is present even when the value did not parse.
 */
module Units {
  import opened Common
  import opened Rounding
  import opened UnitCodes

  // ---------------------------------------------------------------------
  // Factor tables and the converters
  // ---------------------------------------------------------------------

  /** One converted measurement: the value ('' in the source when None) and its unit label. */
  datatype Converted = Converted(value: Option<real>, unit: string)

  const MillimetreLabel: string := "Millimètre"
  const KilogrammeLabel: string := "Kilogramme"
  const CubicMetreLabel: string := "mètre cube"

  const LengthTable: map<string, real> := map["MMT" := 1.0, "CMT" := 10.0, "DMT" := 100.0, "MTR" := 1000.0]
  const MassTable: map<string, real> := map["GRM" := 0.001, "KGM" := 1.0]
  const VolumeTable: map<string, real> := map["CTQ" := 0.000001, "DMQ" := 0.001, "MTQ" := 1.0]

  /** dict.get(unite.strip().upper(), 0) */
  function Factor(table: map<string, real>, key: string): (f: real)
    ensures key in table ==> f == table[key]
    ensures key !in table ==> f == 0.0
  {
    if key in table then table[key] else 0.0
  }

  /**
   * The shared shape of the three converters: None stays None (the source
   * returns ''), a number becomes value * factor rounded to `digits`
   * decimals, and the label is returned either way.
   */
  function Convert(value: Option<real>, code: string, table: map<string, real>, digits: nat, unitLabel: string): (r: Converted)
    ensures r.unit == unitLabel
    ensures r.value.Some? <==> value.Some?
    ensures value.Some? ==> Abs(r.value.value - value.value * Factor(table, NormalizeCode(code))) <= HalfUnit(digits)
  {
    if value.None? then Converted(None, unitLabel)
    else Converted(Some(ConvertNumber(value.value, code, table, digits)), unitLabel)
  }

  /** round(v * factor, digits) for a number v and the factor of its normalised code. */
  function ConvertNumber(v: real, code: string, table: map<string, real>, digits: nat): (r: real)
    ensures Abs(r - v * Factor(table, NormalizeCode(code))) <= HalfUnit(digits)
  {
    Round(v * Factor(table, NormalizeCode(code)), digits)
  }

  /** convertir_en_mm */
  function ToMillimetre(value: Option<real>, code: string): (r: Converted)
    ensures r.unit == MillimetreLabel
    ensures r.value.Some? <==> value.Some?
    ensures value.Some? ==> Abs(r.value.value - value.value * Factor(LengthTable, NormalizeCode(code))) <= 0.005
  {
    HalfUnits();
    Convert(value, code, LengthTable, 2, MillimetreLabel)
  }

  /** convertir_en_kg */
  function ToKilogramme(value: Option<real>, code: string): (r: Converted)
    ensures r.unit == KilogrammeLabel
    ensures r.value.Some? <==> value.Some?
    ensures value.Some? ==> Abs(r.value.value - value.value * Factor(MassTable, NormalizeCode(code))) <= 0.0005
  {
    HalfUnits();
    Convert(value, code, MassTable, 3, KilogrammeLabel)
  }

  /** convertir_en_m3 */
  function ToCubicMetre(value: Option<real>, code: string): (r: Converted)
    ensures r.unit == CubicMetreLabel
    ensures r.value.Some? <==> value.Some?
    ensures value.Some? ==> Abs(r.value.value - value.value * Factor(VolumeTable, NormalizeCode(code))) <= 0.0000005
  {
    HalfUnits();
    Convert(value, code, VolumeTable, 6, CubicMetreLabel)
  }

  // ---------------------------------------------------------------------
  // Properties of the tables
  // ---------------------------------------------------------------------

  /** The length table: MMT, CMT, DMT, MTR are 1, 10, 100, 1000 mm; anything else is 0. */
  lemma LengthFactors(k: string)
    ensures
      (k == "MMT" ==> Factor(LengthTable, k) == 1.0)
      && (k == "CMT" ==> Factor(LengthTable, k) == 10.0)
      && (k == "DMT" ==> Factor(LengthTable, k) == 100.0)
      && (k == "MTR" ==> Factor(LengthTable, k) == 1000.0)
      && (k != "MMT" && k != "CMT" && k != "DMT" && k != "MTR" ==> Factor(LengthTable, k) == 0.0)
  {
  }

  /** The mass table: GRM is 0.001 kg, KGM is 1 kg; anything else is 0. */
  lemma MassFactors(k: string)
    ensures
      (k == "GRM" ==> Factor(MassTable, k) == 0.001)
      && (k == "KGM" ==> Factor(MassTable, k) == 1.0)
      && (k != "GRM" && k != "KGM" ==> Factor(MassTable, k) == 0.0)
  {
  }

  /** The volume table: CTQ is 1e-6, DMQ 1e-3, MTQ 1 cubic metre; anything else is 0. */
  lemma VolumeFactors(k: string)
    ensures
      (k == "CTQ" ==> Factor(VolumeTable, k) == 0.000001)
      && (k == "DMQ" ==> Factor(VolumeTable, k) == 0.001)
      && (k == "MTQ" ==> Factor(VolumeTable, k) == 1.0)
      && (k != "CTQ" && k != "DMQ" && k != "MTQ" ==> Factor(VolumeTable, k) == 0.0)
  {
  }

  // What each converter makes of a number: the product with the factor of
  // the normalised code, rounded.

  /** A number is multiplied by the factor of its normalised code and rounded. */
  lemma ConvertValue(v: real, code: string, table: map<string, real>, digits: nat, unitLabel: string)
    ensures Convert(Some(v), code, table, digits, unitLabel).value == Some(Round(v * Factor(table, NormalizeCode(code)), digits))
  {
    assert Convert(Some(v), code, table, digits, unitLabel).value == Some(ConvertNumber(v, code, table, digits));
    assert ConvertNumber(v, code, table, digits) == Round(v * Factor(table, NormalizeCode(code)), digits);
  }

  lemma MillimetreValue(v: real, code: string)
    ensures ToMillimetre(Some(v), code).value == Some(Round(v * Factor(LengthTable, NormalizeCode(code)), 2))
  {
    ConvertValue(v, code, LengthTable, 2, MillimetreLabel);
    assert ToMillimetre(Some(v), code) == Convert(Some(v), code, LengthTable, 2, MillimetreLabel);
  }

  lemma KilogrammeValue(v: real, code: string)
    ensures ToKilogramme(Some(v), code).value == Some(Round(v * Factor(MassTable, NormalizeCode(code)), 3))
  {
    ConvertValue(v, code, MassTable, 3, KilogrammeLabel);
    assert ToKilogramme(Some(v), code) == Convert(Some(v), code, MassTable, 3, KilogrammeLabel);
  }

  lemma CubicMetreValue(v: real, code: string)
    ensures ToCubicMetre(Some(v), code).value == Some(Round(v * Factor(VolumeTable, NormalizeCode(code)), 6))
  {
    ConvertValue(v, code, VolumeTable, 6, CubicMetreLabel);
    assert ToCubicMetre(Some(v), code) == Convert(Some(v), code, VolumeTable, 6, CubicMetreLabel);
  }

  /**
   * A length given to at most two decimals is converted exactly: every
   * length factor is a whole number, so no rounding happens.
   */
  lemma ToMillimetreExact(v: real, code: string)
    requires IsInteger(v * 100.0)
    ensures ToMillimetre(Some(v), code).value == Some(v * Factor(LengthTable, NormalizeCode(code)))
  {
    MillimetreValue(v, code);
    LengthExact(v, NormalizeCode(code));
  }

  lemma LengthExact(v: real, key: string)
    requires IsInteger(v * 100.0)
    ensures Round(v * Factor(LengthTable, key), 2) == v * Factor(LengthTable, key)
  {
    LengthFactors(key);
    var k := (v * 100.0).Floor;
    if key == "MMT" {
      assert v * Factor(LengthTable, key) == v * 1.0;
      RoundExact2(v * 1.0, k);
    } else if key == "CMT" {
      assert v * Factor(LengthTable, key) == v * 10.0;
      RoundExact2(v * 10.0, 10 * k);
    } else if key == "DMT" {
      assert v * Factor(LengthTable, key) == v * 100.0;
      RoundExact2(v * 100.0, 100 * k);
    } else if key == "MTR" {
      assert v * Factor(LengthTable, key) == v * 1000.0;
      RoundExact2(v * 1000.0, 1000 * k);
    } else {
      assert v * Factor(LengthTable, key) == 0.0;
      RoundExact2(0.0, 0);
    }
  }

  /** A whole-number mass is converted exactly (grams fit in the three decimals kept). */
  lemma ToKilogrammeExact(v: real, code: string)
    requires IsInteger(v)
    ensures ToKilogramme(Some(v), code).value == Some(v * Factor(MassTable, NormalizeCode(code)))
  {
    KilogrammeValue(v, code);
    MassExact(v, NormalizeCode(code));
  }

  lemma MassExact(v: real, key: string)
    requires IsInteger(v)
    ensures Round(v * Factor(MassTable, key), 3) == v * Factor(MassTable, key)
  {
    MassFactors(key);
    var k := v.Floor;
    if key == "GRM" {
      assert v * Factor(MassTable, key) == v * 0.001;
      RoundExact3(v * 0.001, k);
    } else if key == "KGM" {
      assert v * Factor(MassTable, key) == v * 1.0;
      RoundExact3(v * 1.0, 1000 * k);
    } else {
      assert v * Factor(MassTable, key) == 0.0;
      RoundExact3(0.0, 0);
    }
  }

  /** A whole-number volume is converted exactly (cubic centimetres fit in the six decimals kept). */
  lemma ToCubicMetreExact(v: real, code: string)
    requires IsInteger(v)
    ensures ToCubicMetre(Some(v), code).value == Some(v * Factor(VolumeTable, NormalizeCode(code)))
  {
    CubicMetreValue(v, code);
    VolumeExact(v, NormalizeCode(code));
  }

  lemma VolumeExact(v: real, key: string)
    requires IsInteger(v)
    ensures Round(v * Factor(VolumeTable, key), 6) == v * Factor(VolumeTable, key)
  {
    VolumeFactors(key);
    var k := v.Floor;
    if key == "CTQ" {
      assert v * Factor(VolumeTable, key) == v * 0.000001;
      RoundExact6(v * 0.000001, k);
    } else if key == "DMQ" {
      assert v * Factor(VolumeTable, key) == v * 0.001;
      RoundExact6(v * 0.001, 1000 * k);
    } else if key == "MTQ" {
      assert v * Factor(VolumeTable, key) == v * 1.0;
      RoundExact6(v * 1.0, 1000000 * k);
    } else {
      assert v * Factor(VolumeTable, key) == 0.0;
      RoundExact6(0.0, 0);
    }
  }

  // A converted number keeps no more decimals than round() leaves:
  // 2 for millimetres, 3 for kilogrammes, 6 for cubic metres.

  lemma MillimetreDecimals(v: real, code: string)
    ensures IsInteger(ToMillimetre(Some(v), code).value.value * 100.0)
  {
    MillimetreValue(v, code);
    RoundDecimals2(v * Factor(LengthTable, NormalizeCode(code)));
  }

  lemma KilogrammeDecimals(v: real, code: string)
    ensures IsInteger(ToKilogramme(Some(v), code).value.value * 1000.0)
  {
    KilogrammeValue(v, code);
    RoundDecimals3(v * Factor(MassTable, NormalizeCode(code)));
  }

  lemma CubicMetreDecimals(v: real, code: string)
    ensures IsInteger(ToCubicMetre(Some(v), code).value.value * 1000000.0)
  {
    CubicMetreValue(v, code);
    RoundDecimals6(v * Factor(VolumeTable, NormalizeCode(code)));
  }

  /** A value that is not a number gives an empty value with the unit label still present. */
  lemma NonNumericKeepsLabel(code: string)
    ensures ToMillimetre(None, code) == Converted(None, MillimetreLabel)
    ensures ToKilogramme(None, code) == Converted(None, KilogrammeLabel)
    ensures ToCubicMetre(None, code) == Converted(None, CubicMetreLabel)
  {
  }

  /**
   * A code missing from a converter's own table gives a numeric zero in that
   * converter, not an error, whatever the other two tables hold.
   */
  lemma UnknownCodeGivesZero(v: real, code: string)
    ensures NormalizeCode(code) !in LengthTable ==> ToMillimetre(Some(v), code).value == Some(0.0)
    ensures NormalizeCode(code) !in MassTable ==> ToKilogramme(Some(v), code).value == Some(0.0)
    ensures NormalizeCode(code) !in VolumeTable ==> ToCubicMetre(Some(v), code).value == Some(0.0)
  {
    if NormalizeCode(code) !in LengthTable {
      UnknownLengthCode(v, code);
    }
    if NormalizeCode(code) !in MassTable {
      UnknownMassCode(v, code);
    }
    if NormalizeCode(code) !in VolumeTable {
      UnknownVolumeCode(v, code);
    }
  }

  lemma UnknownLengthCode(v: real, code: string)
    requires NormalizeCode(code) !in LengthTable
    ensures ToMillimetre(Some(v), code).value == Some(0.0)
  {
    MillimetreValue(v, code);
    assert v * Factor(LengthTable, NormalizeCode(code)) == 0.0;
    RoundExact2(0.0, 0);
  }

  lemma UnknownMassCode(v: real, code: string)
    requires NormalizeCode(code) !in MassTable
    ensures ToKilogramme(Some(v), code).value == Some(0.0)
  {
    KilogrammeValue(v, code);
    assert v * Factor(MassTable, NormalizeCode(code)) == 0.0;
    RoundExact3(0.0, 0);
  }

  lemma UnknownVolumeCode(v: real, code: string)
    requires NormalizeCode(code) !in VolumeTable
    ensures ToCubicMetre(Some(v), code).value == Some(0.0)
  {
    CubicMetreValue(v, code);
    assert v * Factor(VolumeTable, NormalizeCode(code)) == 0.0;
    RoundExact6(0.0, 0);
  }

  /** A mass code given as a length: 2 KGM is 0 mm, while it is 2 kg. */
  lemma WrongTableExample()
    ensures ToMillimetre(Some(2.0), "KGM").value == Some(0.0)
    ensures ToKilogramme(Some(2.0), "KGM").value == Some(2.0)
  {
    NormalizeBare("KGM");
    assert Upper("KGM") == "KGM";
    UnknownCodeGivesZero(2.0, "KGM");
    ToKilogrammeExact(2.0, "KGM");
  }

  lemma NormalizeBare(s: string)
    requires s != [] && !IsSpace(s[0]) && !IsSpace(s[|s| - 1])
    ensures NormalizeCode(s) == Upper(s)
  {
    NormalizePadded("", s, "");
    assert "" + s + "" == s;
  }

  /** 5 CMT is 50 mm and 1 MTR is 1000 mm. */
  lemma LengthExamples()
    ensures ToMillimetre(Some(5.0), "CMT") == Converted(Some(50.0), MillimetreLabel)
    ensures ToMillimetre(Some(1.0), "MTR") == Converted(Some(1000.0), MillimetreLabel)
  {
    NormalizeBare("CMT");
    assert Upper("CMT") == "CMT";
    NormalizeBare("MTR");
    assert Upper("MTR") == "MTR";
    ToMillimetreExact(5.0, "CMT");
    ToMillimetreExact(1.0, "MTR");
  }

  /** A lower-case code with blanks around it is accepted: " cmt " is centimetres. */
  lemma PaddedCodeExample()
    ensures ToMillimetre(Some(2.5), " cmt ") == Converted(Some(25.0), MillimetreLabel)
  {
    NormalizePadded(" ", "cmt", " ");
    assert " " + "cmt" + " " == " cmt ";
    assert Upper("cmt") == "CMT";
    ToMillimetreExact(2.5, " cmt ");
  }

  /** 2 GRM is 0.002 kg and 3 KGM is 3 kg. */
  lemma MassExamples()
    ensures ToKilogramme(Some(2.0), "GRM") == Converted(Some(0.002), KilogrammeLabel)
    ensures ToKilogramme(Some(3.0), "KGM") == Converted(Some(3.0), KilogrammeLabel)
  {
    NormalizeBare("GRM");
    assert Upper("GRM") == "GRM";
    NormalizeBare("KGM");
    assert Upper("KGM") == "KGM";
    ToKilogrammeExact(2.0, "GRM");
    ToKilogrammeExact(3.0, "KGM");
  }

  /** 500000 CTQ is 0.5 cubic metre. */
  lemma VolumeExample()
    ensures ToCubicMetre(Some(500000.0), "CTQ") == Converted(Some(0.5), CubicMetreLabel)
  {
    NormalizeBare("CTQ");
    assert Upper("CTQ") == "CTQ";
    ToCubicMetreExact(500000.0, "CTQ");
  }
}
