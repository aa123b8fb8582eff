/** The static data of the unit converter: the three measurement categories,
    the ordered unit list of each, and the table of pairwise conversion factors,
    together with the lookup the converter performs on that table and the facts
    the table guarantees (coverage, no self-entries, disjoint categories,
    positive and near-reciprocal factors). */
module UnitTables {
  import opened Basics

  /** The closed set of measurement categories. */
  datatype Category = Length | Weight | Volume

  /** The categories in the order the category selector lists them
      (the key order of the unit-list table). */
  function CategoryOrder(): (cs: seq<Category>)
    ensures forall c: Category :: c in cs
    ensures forall i, j :: 0 <= i < j < |cs| ==> cs[i] != cs[j]
  {
    var cs := [Length, Weight, Volume];
    assert forall c: Category :: c in cs by {
      forall c: Category ensures c in cs {
        if c.Length? { assert cs[0] == c; }
        else if c.Weight? { assert cs[1] == c; }
        else { assert cs[2] == c; }
      }
    }
    cs
  }

  /** The units of a category, in the order the unit selectors list them.
      No unit name is empty, so a selected unit never counts as missing. */
  function Units(c: Category): (us: seq<string>)
    ensures |us| >= 2
    ensures forall i :: 0 <= i < |us| ==> us[i] != ""
  {
    match c
    case Length => ["meter", "kilometer", "centimeter", "inch", "foot", "yard", "mile"]
    case Weight => ["kilogram", "gram", "pound", "ounce", "stone"]
    case Volume => ["liter", "milliliter", "gallon", "cup", "pint", "quart"]
  }

  /** The units of a category as a set. */
  function UnitSet(c: Category): set<string>
  {
    set u | u in Units(c)
  }

  /** The conversion table of one category: source unit, then target unit,
      to the factor a value in the source unit is multiplied by. Its rows
      are exactly the units listed for the category. */
  function Conversions(c: Category): (t: map<string, map<string, real>>)
    ensures t.Keys == UnitSet(c)
  {
    match c
    case Length =>
      map[
        "meter" := map["kilometer" := 0.001, "centimeter" := 100.0, "inch" := 39.37, "foot" := 3.281, "yard" := 1.094, "mile" := 0.000621],
        "kilometer" := map["meter" := 1000.0, "centimeter" := 100000.0, "inch" := 39370.0, "foot" := 3281.0, "yard" := 1094.0, "mile" := 0.6214],
        "centimeter" := map["meter" := 0.01, "kilometer" := 0.00001, "inch" := 0.3937, "foot" := 0.03281, "yard" := 0.01094, "mile" := 0.000006214],
        "inch" := map["meter" := 0.0254, "kilometer" := 0.0000254, "centimeter" := 2.54, "foot" := 0.08333, "yard" := 0.02778, "mile" := 0.00001578],
        "foot" := map["meter" := 0.3048, "kilometer" := 0.0003048, "centimeter" := 30.48, "inch" := 12.0, "yard" := 0.3333, "mile" := 0.0001894],
        "yard" := map["meter" := 0.9144, "kilometer" := 0.0009144, "centimeter" := 91.44, "inch" := 36.0, "foot" := 3.0, "mile" := 0.0005682],
        "mile" := map["meter" := 1609.0, "kilometer" := 1.609, "centimeter" := 160934.0, "inch" := 63360.0, "foot" := 5280.0, "yard" := 1760.0]
      ]
    case Weight =>
      map[
        "kilogram" := map["gram" := 1000.0, "pound" := 2.205, "ounce" := 35.274, "stone" := 0.1575],
        "gram" := map["kilogram" := 0.001, "pound" := 0.002205, "ounce" := 0.03527, "stone" := 0.0001575],
        "pound" := map["kilogram" := 0.4536, "gram" := 453.6, "ounce" := 16.0, "stone" := 0.07143],
        "ounce" := map["kilogram" := 0.02835, "gram" := 28.35, "pound" := 0.0625, "stone" := 0.004464],
        "stone" := map["kilogram" := 6.35, "gram" := 6350.0, "pound" := 14.0, "ounce" := 224.0]
      ]
    case Volume =>
      map[
        "liter" := map["milliliter" := 1000.0, "gallon" := 0.2642, "cup" := 4.2268, "pint" := 2.113, "quart" := 1.057],
        "milliliter" := map["liter" := 0.001, "gallon" := 0.0002642, "cup" := 0.004227, "pint" := 0.002113, "quart" := 0.001057],
        "gallon" := map["liter" := 3.785, "milliliter" := 3785.0, "cup" := 16.0, "pint" := 8.0, "quart" := 4.0],
        "cup" := map["liter" := 0.2366, "milliliter" := 236.6, "gallon" := 0.0625, "pint" := 0.5, "quart" := 0.25],
        "pint" := map["liter" := 0.4732, "milliliter" := 473.2, "gallon" := 0.125, "cup" := 2.0, "quart" := 0.5],
        "quart" := map["liter" := 0.9464, "milliliter" := 946.4, "gallon" := 0.25, "cup" := 4.0, "pint" := 2.0]
      ]
  }

  /** The factor for converting from `fromUnit` to `toUnit` within category `c`,
      or None when the category has no row for `fromUnit` or that row has no
      entry for `toUnit`. Given the table's coverage, a factor exists exactly
      for ordered pairs of distinct units of the category. */
  function Factor(c: Category, fromUnit: string, toUnit: string): (r: Option<real>)
    ensures r.Some? <==> fromUnit in UnitSet(c) && toUnit in UnitSet(c) && fromUnit != toUnit
    ensures r.Some? ==>
      && fromUnit in Conversions(c) && toUnit in Conversions(c)[fromUnit]
      && r.value == Conversions(c)[fromUnit][toUnit]
  {
    RowCoversOtherUnits(c, fromUnit);
    if fromUnit in Conversions(c) && toUnit in Conversions(c)[fromUnit]
    then Some(Conversions(c)[fromUnit][toUnit])
    else None
  }

  /** Each row holds an entry for every other unit of its category and none
      for its own unit. */
  lemma RowCoversOtherUnits(c: Category, u: string)
    ensures u in UnitSet(c) ==> u in Conversions(c) && Conversions(c)[u].Keys == UnitSet(c) - {u}
  {
    if u in UnitSet(c) {
      match c
      case Length => LengthRowCoversOtherUnits(u);
      case Weight => WeightRowCoversOtherUnits(u);
      case Volume => VolumeRowCoversOtherUnits(u);
    }
  }

  /** RowCoversOtherUnits for the length table, row by row. */
  lemma LengthRowCoversOtherUnits(u: string)
    requires u in UnitSet(Length)
    ensures u in Conversions(Length)
    ensures Conversions(Length)[u].Keys == UnitSet(Length) - {u}
  {
    if u == "meter" {
    } else if u == "kilometer" {
    } else if u == "centimeter" {
    } else if u == "inch" {
    } else if u == "foot" {
    } else if u == "yard" {
    } else {
      assert u == "mile";
    }
  }

  /** RowCoversOtherUnits for the weight table, row by row. */
  lemma WeightRowCoversOtherUnits(u: string)
    requires u in UnitSet(Weight)
    ensures u in Conversions(Weight)
    ensures Conversions(Weight)[u].Keys == UnitSet(Weight) - {u}
  {
    if u == "kilogram" {
    } else if u == "gram" {
    } else if u == "pound" {
    } else if u == "ounce" {
    } else {
      assert u == "stone";
    }
  }

  /** RowCoversOtherUnits for the volume table, row by row. */
  lemma VolumeRowCoversOtherUnits(u: string)
    requires u in UnitSet(Volume)
    ensures u in Conversions(Volume)
    ensures Conversions(Volume)[u].Keys == UnitSet(Volume) - {u}
  {
    if u == "liter" {
    } else if u == "milliliter" {
    } else if u == "gallon" {
    } else if u == "cup" {
    } else if u == "pint" {
    } else {
      assert u == "quart";
    }
  }

  /** No unit converts to itself: the table has no self-entries. */
  lemma NoSelfEntry(c: Category, u: string)
    ensures Factor(c, u, u) == None
  {
  }

  /** No unit is listed twice within a category. */
  lemma UnitsDistinct(c: Category)
    ensures forall i, j :: 0 <= i < j < |Units(c)| ==> Units(c)[i] != Units(c)[j]
  {
  }

  /** The unit lists of different categories share no unit. */
  lemma UnitSetsDisjoint(c: Category, d: Category)
    requires c != d
    ensures UnitSet(c) !! UnitSet(d)
  {
  }

  /** A unit of another category has neither a row nor an entry in this
      category's table. */
  lemma ForeignUnitHasNoFactor(c: Category, d: Category, u: string, other: string)
    requires c != d && u in UnitSet(d)
    ensures Factor(c, u, other) == None
    ensures Factor(c, other, u) == None
  {
    UnitSetsDisjoint(c, d);
  }

  /** A value multiplied by a conversion factor. */
  function Scale(x: real, factor: real): real
  {
    x * factor
  }

  /** Scaling by a positive factor keeps the sign. */
  lemma ScaleKeepsSign(x: real, factor: real)
    requires factor > 0.0
    ensures x > 0.0 ==> Scale(x, factor) > 0.0
    ensures x == 0.0 ==> Scale(x, factor) == 0.0
    ensures x < 0.0 ==> Scale(x, factor) < 0.0
  {
  }

  /** Scaling twice by factors whose product is within one part in a thousand
      of 1 moves a value by at most a thousandth of its magnitude. */
  lemma ScaleTwiceNear(x: real, f: real, g: real)
    requires -0.001 <= Scale(f, g) - 1.0 <= 0.001
    ensures -0.001 * Abs(x) <= Scale(Scale(x, f), g) - x <= 0.001 * Abs(x)
  {
    var e := Scale(f, g) - 1.0;
    assert Scale(Scale(x, f), g) - x == x * e;
    if x < 0.0 {
      assert x * e <= -0.001 * x;
      assert -0.001 * (-x) <= x * e;
    } else {
      assert x * e <= 0.001 * x;
      assert -0.001 * x <= x * e;
    }
  }

  /** The factor of converting from `a` to `b` and back again. */
  function RoundTripFactor(c: Category, a: string, b: string): real
    requires Factor(c, a, b).Some? && Factor(c, b, a).Some?
  {
    Scale(Factor(c, a, b).value, Factor(c, b, a).value)
  }

  /** Every factor in the table is strictly positive. */
  lemma FactorPositive(c: Category, fromUnit: string, toUnit: string)
    requires Factor(c, fromUnit, toUnit).Some?
    ensures Factor(c, fromUnit, toUnit).value > 0.0
  {
    EntryFactsHold(c, fromUnit, toUnit);
  }

  /** The factors of the two directions of a pair are near-reciprocal: their
      product lies within one part in a thousand of 1 (the factors are
      independently rounded, so the product is not exactly 1). */
  lemma NearReciprocal(c: Category, a: string, b: string)
    requires a in UnitSet(c) && b in UnitSet(c) && a != b
    ensures Factor(c, a, b).Some? && Factor(c, b, a).Some?
    ensures -0.001 <= RoundTripFactor(c, a, b) - 1.0 <= 0.001
  {
    assert Factor(c, a, b).Some? && Factor(c, b, a).Some?;
    EntryFactsHold(c, a, b);
  }

  // Proof scaffolding for FactorPositive and NearReciprocal. EntryFacts
  // gathers what the table guarantees of one entry (a positive factor, a
  // reverse entry, near-reciprocal factors); EntryFactsHold proves it for
  // every entry by dispatching to one lemma per row, because with the source
  // unit fixed the solver can check a row's entries one by one.

  /** What the table guarantees of one entry. */
  ghost predicate EntryFacts(c: Category, a: string, b: string)
  {
    && a in Conversions(c) && b in Conversions(c)[a]
    && Conversions(c)[a][b] > 0.0
    && b in Conversions(c) && a in Conversions(c)[b]
    && -0.001 <= Scale(Conversions(c)[a][b], Conversions(c)[b][a]) - 1.0 <= 0.001
  }

  /** EntryFacts holds of every entry of the table, row by row. */
  lemma EntryFactsHold(c: Category, a: string, b: string)
    requires a in Conversions(c) && b in Conversions(c)[a]
    ensures EntryFacts(c, a, b)
  {
    match c
    case Length =>
      if a == "meter" {
        LengthMeterRow(b);
      } else if a == "kilometer" {
        LengthKilometerRow(b);
      } else if a == "centimeter" {
        LengthCentimeterRow(b);
      } else if a == "inch" {
        LengthInchRow(b);
      } else if a == "foot" {
        LengthFootRow(b);
      } else if a == "yard" {
        LengthYardRow(b);
      } else {
        assert a == "mile";
        LengthMileRow(b);
      }
    case Weight =>
      if a == "kilogram" {
        WeightKilogramRow(b);
      } else if a == "gram" {
        WeightGramRow(b);
      } else if a == "pound" {
        WeightPoundRow(b);
      } else if a == "ounce" {
        WeightOunceRow(b);
      } else {
        assert a == "stone";
        WeightStoneRow(b);
      }
    case Volume =>
      if a == "liter" {
        VolumeLiterRow(b);
      } else if a == "milliliter" {
        VolumeMilliliterRow(b);
      } else if a == "gallon" {
        VolumeGallonRow(b);
      } else if a == "cup" {
        VolumeCupRow(b);
      } else if a == "pint" {
        VolumePintRow(b);
      } else {
        assert a == "quart";
        VolumeQuartRow(b);
      }
  }

  // EntryFacts for each row of the table, one row per lemma.

  lemma LengthMeterRow(b: string)
    requires b in Conversions(Length)["meter"]
    ensures EntryFacts(Length, "meter", b)
  {
  }

  lemma LengthKilometerRow(b: string)
    requires b in Conversions(Length)["kilometer"]
    ensures EntryFacts(Length, "kilometer", b)
  {
  }

  lemma LengthCentimeterRow(b: string)
    requires b in Conversions(Length)["centimeter"]
    ensures EntryFacts(Length, "centimeter", b)
  {
  }

  lemma LengthInchRow(b: string)
    requires b in Conversions(Length)["inch"]
    ensures EntryFacts(Length, "inch", b)
  {
  }

  lemma LengthFootRow(b: string)
    requires b in Conversions(Length)["foot"]
    ensures EntryFacts(Length, "foot", b)
  {
  }

  lemma LengthYardRow(b: string)
    requires b in Conversions(Length)["yard"]
    ensures EntryFacts(Length, "yard", b)
  {
  }

  lemma LengthMileRow(b: string)
    requires b in Conversions(Length)["mile"]
    ensures EntryFacts(Length, "mile", b)
  {
  }

  lemma WeightKilogramRow(b: string)
    requires b in Conversions(Weight)["kilogram"]
    ensures EntryFacts(Weight, "kilogram", b)
  {
  }

  lemma WeightGramRow(b: string)
    requires b in Conversions(Weight)["gram"]
    ensures EntryFacts(Weight, "gram", b)
  {
  }

  lemma WeightPoundRow(b: string)
    requires b in Conversions(Weight)["pound"]
    ensures EntryFacts(Weight, "pound", b)
  {
  }

  lemma WeightOunceRow(b: string)
    requires b in Conversions(Weight)["ounce"]
    ensures EntryFacts(Weight, "ounce", b)
  {
  }

  lemma WeightStoneRow(b: string)
    requires b in Conversions(Weight)["stone"]
    ensures EntryFacts(Weight, "stone", b)
  {
  }

  lemma VolumeLiterRow(b: string)
    requires b in Conversions(Volume)["liter"]
    ensures EntryFacts(Volume, "liter", b)
  {
  }

  lemma VolumeMilliliterRow(b: string)
    requires b in Conversions(Volume)["milliliter"]
    ensures EntryFacts(Volume, "milliliter", b)
  {
  }

  lemma VolumeGallonRow(b: string)
    requires b in Conversions(Volume)["gallon"]
    ensures EntryFacts(Volume, "gallon", b)
  {
  }

  lemma VolumeCupRow(b: string)
    requires b in Conversions(Volume)["cup"]
    ensures EntryFacts(Volume, "cup", b)
  {
  }

  lemma VolumePintRow(b: string)
    requires b in Conversions(Volume)["pint"]
    ensures EntryFacts(Volume, "pint", b)
  {
  }

  lemma VolumeQuartRow(b: string)
    requires b in Conversions(Volume)["quart"]
    ensures EntryFacts(Volume, "quart", b)
  {
  }
}
