/** The converter form: the conversion a press of the Convert button performs
    (check the inputs, look the factor up in the current category's table,
    multiply) and the form state it reads and writes. */
module Converter {
  import opened Basics
  import opened UnitTables
  import FixedFormat

  /** The value field: blank (the empty text the input check rejects) or the
      number its text reads as. */
  datatype Entry = Blank | Number(x: real)

  /** The outcome of one conversion: one of the two errors the user is
      alerted to, or the exact converted value. */
  datatype Result = MissingInput | Unavailable | Ok(value: real)

  /** What the read-only result field shows: the initial number, or the
      two-decimal text of the latest successful conversion. */
  datatype Shown = Initial(n: real) | Text(s: string)

  /** The conversion behind the Convert button. Missing input is reported
      first; otherwise the conversion succeeds exactly when both units belong
      to the selected category and differ, and its value is the entered number
      multiplied by the table's factor for that ordered pair. */
  function Convert(c: Category, fromUnit: string, toUnit: string, value: Entry): (r: Result)
    ensures r == MissingInput <==> fromUnit == "" || toUnit == "" || value == Blank
    ensures r == Unavailable <==>
      && fromUnit != "" && toUnit != "" && value != Blank
      && !(fromUnit in UnitSet(c) && toUnit in UnitSet(c) && fromUnit != toUnit)
    ensures r.Ok? ==>
      && fromUnit in Conversions(c) && toUnit in Conversions(c)[fromUnit]
      && r.value == Scale(value.x, Conversions(c)[fromUnit][toUnit])
  {
    if fromUnit == "" || toUnit == "" || value == Blank then MissingInput
    else if Factor(c, fromUnit, toUnit).Some? then Ok(Scale(value.x, Factor(c, fromUnit, toUnit).value))
    else Unavailable
  }

  /** Converting a unit to itself is reported as unavailable, never as the
      value unchanged. */
  lemma SelfConversionUnavailable(c: Category, u: string, x: real)
    requires u != ""
    ensures Convert(c, u, u, Number(x)) == Unavailable
  {
    NoSelfEntry(c, u);
  }

  /** A unit of another category (left selected after the category changed)
      makes the conversion unavailable, in either position. */
  lemma ForeignUnitUnavailable(c: Category, d: Category, u: string, other: string, x: real)
    requires c != d && u in UnitSet(d) && other != ""
    ensures Convert(c, u, other, Number(x)) == Unavailable
    ensures Convert(c, other, u, Number(x)) == Unavailable
  {
    ForeignUnitHasNoFactor(c, d, u, other);
  }

  /** A successful conversion keeps the sign of the value. */
  lemma ConvertKeepsSign(c: Category, fromUnit: string, toUnit: string, x: real)
    requires Convert(c, fromUnit, toUnit, Number(x)).Ok?
    ensures var y := Convert(c, fromUnit, toUnit, Number(x)).value;
      (x > 0.0 ==> y > 0.0) && (x == 0.0 ==> y == 0.0) && (x < 0.0 ==> y < 0.0)
  {
    FactorPositive(c, fromUnit, toUnit);
    ScaleKeepsSign(x, Factor(c, fromUnit, toUnit).value);
  }

  /** Converting from `a` to `b` and back again succeeds and lands within one
      part in a thousand of the starting value, though not exactly on it. */
  lemma RoundTripNear(c: Category, a: string, b: string, x: real)
    requires a in UnitSet(c) && b in UnitSet(c) && a != b
    ensures Convert(c, a, b, Number(x)).Ok?
    ensures Convert(c, b, a, Number(Convert(c, a, b, Number(x)).value)).Ok?
    ensures var z := Convert(c, b, a, Number(Convert(c, a, b, Number(x)).value)).value;
      -0.001 * Abs(x) <= z - x <= 0.001 * Abs(x)
  {
    NearReciprocal(c, a, b);
    assert a != "" && b != "";
    ScaleTwiceNear(x, Factor(c, a, b).value, Factor(c, b, a).value);
  }

  /** 1000 meters are 1 kilometer, shown as "1.00". */
  lemma ExampleMetersToKilometers()
    ensures Convert(Length, "meter", "kilometer", Number(1000.0)) == Ok(1.0)
    ensures FixedFormat.Render(FixedFormat.ToFixed2(1.0)) == "1.00"
  {
    assert FixedFormat.ToFixed2(1.0) == FixedFormat.Fixed(false, 100);
    assert FixedFormat.NatDigits(1) == "1";
  }

  /** 10 kilograms are 22.05 pounds, shown as "22.05". */
  lemma ExampleKilogramsToPounds()
    ensures Convert(Weight, "kilogram", "pound", Number(10.0)) == Ok(22.05)
    ensures FixedFormat.Render(FixedFormat.ToFixed2(22.05)) == "22.05"
  {
    assert Factor(Weight, "kilogram", "pound") == Some(2.205);
    assert FixedFormat.ToFixed2(22.05) == FixedFormat.Fixed(false, 2205);
    assert FixedFormat.NatDigits(22) == "22";
  }

  /** 2 gallons are 7.57 liters, shown as "7.57". */
  lemma ExampleGallonsToLiters()
    ensures Convert(Volume, "gallon", "liter", Number(2.0)) == Ok(7.57)
    ensures FixedFormat.Render(FixedFormat.ToFixed2(7.57)) == "7.57"
  {
    assert Factor(Volume, "gallon", "liter") == Some(3.785);
    assert FixedFormat.ToFixed2(7.57) == FixedFormat.Fixed(false, 757);
    assert FixedFormat.NatDigits(7) == "7";
  }

  /** A missing unit or value is reported before any lookup, and a unit the
      table does not know is reported as unavailable. */
  lemma ExampleErrors()
    ensures Convert(Length, "", "kilometer", Number(5.0)) == MissingInput
    ensures Convert(Length, "meter", "kilometer", Blank) == MissingInput
    ensures Convert(Length, "meter", "nonexistent-unit", Number(5.0)) == Unavailable
  {
  }

  /** The input form: the selected category and units, the value field and
      the result field. */
  class ConverterForm {
    var category: Category
    var fromUnit: string
    var toUnit: string
    var value: Entry
    var convertedValue: Shown

    /** The form as it first appears: length selected, no units, no value,
        and the number 0 in the result field. */
    constructor ()
      ensures category == Length && fromUnit == "" && toUnit == ""
      ensures value == Blank && convertedValue == Initial(0.0)
    {
      category := Length;
      fromUnit := "";
      toUnit := "";
      value := Blank;
      convertedValue := Initial(0.0);
    }

    /** Choosing a category; the unit selections are kept as they are. */
    method SelectCategory(c: Category)
      modifies this`category
      ensures category == c
    {
      category := c;
    }

    /** Choosing a source unit from the selector, which offers the units of
        the current category only. */
    method SelectFromUnit(u: string)
      requires u in UnitSet(category)
      modifies this`fromUnit
      ensures fromUnit == u
    {
      fromUnit := u;
    }

    /** Choosing a target unit from the selector, which offers the units of
        the current category only. */
    method SelectToUnit(u: string)
      requires u in UnitSet(category)
      modifies this`toUnit
      ensures toUnit == u
    {
      toUnit := u;
    }

    /** Typing in the value field. */
    method EnterValue(v: Entry)
      modifies this`value
      ensures value == v
    {
      value := v;
    }

    /** The Convert button: returns the outcome it alerts or displays; on
        success the result field shows the two-decimal text of the exact
        product, on either error it is left as it was. */
    method HandleConvert() returns (r: Result)
      modifies this`convertedValue
      ensures r == Convert(category, fromUnit, toUnit, value)
      ensures r.Ok? ==> convertedValue == Text(FixedFormat.Render(FixedFormat.ToFixed2(r.value)))
      ensures !r.Ok? ==> convertedValue == old(convertedValue)
    {
      if fromUnit == "" || toUnit == "" || value == Blank {
        return MissingInput;
      }
      var rate := Factor(category, fromUnit, toUnit);
      if rate.Some? {
        var result := Scale(value.x, rate.value);
        convertedValue := Text(FixedFormat.Render(FixedFormat.ToFixed2(result)));
        r := Ok(result);
      } else {
        r := Unavailable;
      }
    }
  }

  /** A category switch leaves a stale unit behind: after picking kilogram
      under weight, switching to length and picking meter as the target,
      Convert reports unavailable and the result field keeps its earlier
      content. */
  method StaleUnitScenario()
  {
    var form := new ConverterForm();
    assert Units(Weight)[0] == "kilogram" && Units(Weight)[2] == "pound";
    assert Units(Length)[0] == "meter";
    form.SelectCategory(Weight);
    form.SelectFromUnit("kilogram");
    form.SelectToUnit("pound");
    form.EnterValue(Number(5.0));
    form.SelectCategory(Length);
    form.SelectToUnit("meter");
    ForeignUnitUnavailable(Length, Weight, "kilogram", "meter", 5.0);
    var r := form.HandleConvert();
    assert r == Unavailable && form.convertedValue == Initial(0.0);
  }
}
