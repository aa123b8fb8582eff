# Unit converter: conversion table and Convert handler

This project models the core of a single-page unit converter: a static table of
pairwise conversion factors for three measurement categories (length, weight,
volume), the ordered unit list of each category, and the Convert button's
handler. The handler does three things in order:

- It rejects the press when a unit or the value is missing.
- It looks up the factor for the selected source and target units in the
  current category's table. A missing row or a missing entry means
  "conversion not available".
- It multiplies the value by the factor and shows the product with two
  decimals in the result field.

Modules:

- `Basics` (Basics.dfy): an `Option` type and `Abs` on reals.
- `UnitTables` (UnitTables.dfy): `Category`, `CategoryOrder`, `Units`, the
  conversion table `Conversions` as nested Dafny maps with `real` factors, and
  the lookup `Factor`. It also holds what the table guarantees:
  - Each category's rows are exactly its units.
  - Every row has an entry for every other unit and none for itself.
  - Different categories share no unit.
  - Every factor is positive.
  - The two directions of every pair multiply to within 0.1% of 1.
- `FixedFormat` (FixedFormat.dfy): `toFixed(2)` on exact reals. It covers the
  round-half-up rounding of the magnitude to hundredths, the sign, and the
  rendered text. A reader (`ParseFixed`) recovers the rounded number from that
  text.
- `Converter` (Converter.dfy): the pure conversion `Convert` with its three
  outcomes `MissingInput | Unavailable | Ok(value)`, the facts proved about it,
  and the class `ConverterForm`. Its fields are the form state: category, both
  units, the value, and the result field. Its `HandleConvert` method writes the
  result field only on success.

The value field is modelled as `Blank` (the empty text that `!value` rejects)
or `Number(x)` (the number `parseFloat` reads from the text). Factors and
products are exact reals.

`HandleConvert` writes the result field (app/page.tsx:76), so it is a method
on a class rather than a function.

## Model

| member | source | states |
|---|---|---|
| `UnitTables.CategoryOrder` | app/page.tsx:50-54 | The category list (the key order of the unit-list table) holds every category exactly once. |
| `UnitTables.Units` | app/page.tsx:50-56 | The unit list of each `Category` (length, weight, volume), in selector order: at least two units, none of them the empty name. |
| `UnitTables.Conversions` | app/page.tsx:23-48 | The factor table with the source's literals; for each category, its rows are exactly the units listed for it. |
| `UnitTables.RowCoversOtherUnits` | app/page.tsx:23-54 | The row of each listed unit has an entry for every other unit of its category and none for itself. |
| `UnitTables.Factor` | app/page.tsx:71-72 | The lookup `conversions[category][fromUnit]?.[toUnit]`: a found factor is the table entry for that ordered pair, and a factor is found if and only if both units are listed for the category and differ. |
| `UnitTables.NoSelfEntry` | app/page.tsx:25-46 | No table row contains its own unit, so looking up a unit against itself finds nothing. |
| `UnitTables.UnitsDistinct` | app/page.tsx:51-53 | No unit is listed twice within a category. |
| `UnitTables.UnitSetsDisjoint` | app/page.tsx:51-53 | The unit lists of two different categories share no unit. |
| `UnitTables.ForeignUnitHasNoFactor` | app/page.tsx:71-72 | A unit of another category finds no factor in this category's table, whether it is the source or the target. |
| `UnitTables.FactorPositive` | app/page.tsx:23-48 | Every factor the lookup can return is strictly positive. |
| `UnitTables.NearReciprocal` | app/page.tsx:25-46 | For distinct units a, b of one category, both factors exist and factor(a,b) × factor(b,a) lies within 1/1000 of 1. |
| `UnitTables.Scale` | app/page.tsx:75 | The product `parseFloat(value) * conversionRate`, kept as a named function; its properties are stated by the two rows below. |
| `UnitTables.ScaleKeepsSign` | app/page.tsx:75 | Multiplying by a positive factor keeps the sign of the value (positive, zero, negative). |
| `UnitTables.ScaleTwiceNear` | app/page.tsx:75 | Multiplying by two factors whose product is within 1/1000 of 1 moves a value by at most 1/1000 of its magnitude. |
| `FixedFormat.ToFixed2` | app/page.tsx:76 | The sign is negative exactly for negative input. The hundredths count is the integer nearest to 100 times the magnitude of x, and a tie goes to the larger one. |
| `FixedFormat.ToFixed2Error` | app/page.tsx:76 | The two-decimal value differs from the exact value by at most 0.005. |
| `FixedFormat.ToFixed2Exact` | app/page.tsx:76 | Rounding a number that already has two decimals gives it back unchanged. |
| `FixedFormat.MagnitudeText` | app/page.tsx:76 | The unsigned part of the `toFixed(2)` text: at least one digit, a point third from the end, and every other character a digit. |
| `FixedFormat.Render` | app/page.tsx:76 | The `toFixed(2)` text: it starts with "-" exactly for a negative sign, and ends in a point and two decimals. |
| `FixedFormat.NatDigitsRoundTrip` | app/page.tsx:76 | The decimal digits of the whole part are digits and read back as that number. |
| `FixedFormat.RenderRoundTrip` | app/page.tsx:76 | The text shown (optional "-", whole part, ".", two decimals) reads back as exactly the rounded sign and hundredths. |
| `Converter.Convert` | app/page.tsx:65-80 | Missing input exactly when a unit or the value is blank. Otherwise unavailable exactly when the two units are not distinct units of the selected category. A success holds the value times that category's table factor for the ordered pair. |
| `Converter.SelfConversionUnavailable` | app/page.tsx:71-78 | Converting a unit to itself gives unavailable, never the value unchanged. |
| `Converter.ForeignUnitUnavailable` | app/page.tsx:71-78 | A unit from another category, in either position, gives unavailable. |
| `Converter.ConvertKeepsSign` | app/page.tsx:75 | A successful conversion of a positive, zero or negative value is positive, zero or negative respectively. |
| `Converter.RoundTripNear` | app/page.tsx:23-48 | Converting a to b and back succeeds and lands within 1/1000 of the starting value's magnitude. |
| `Converter.ExampleMetersToKilometers` | app/page.tsx:25 | 1000 meters convert to 1 kilometer, shown as "1.00". |
| `Converter.ExampleKilogramsToPounds` | app/page.tsx:34 | 10 kilograms convert to 22.05 pounds, shown as "22.05". |
| `Converter.ExampleGallonsToLiters` | app/page.tsx:43 | 2 gallons convert to 7.57 liters, shown as "7.57". |
| `Converter.ExampleErrors` | app/page.tsx:66-78 | A blank unit or value gives missing input, and an unknown target unit gives unavailable. |
| `Converter.ConverterForm.constructor` | app/page.tsx:59-63 | The form starts with length, no units, a blank value and the number 0 in the result field. |
| `Converter.ConverterForm.SelectCategory` | app/page.tsx:95 | Choosing a category changes only the category and keeps the unit selections. |
| `Converter.ConverterForm.SelectFromUnit` | app/page.tsx:111-118 | Choosing a source unit, from the units the selector offers for the current category, changes only the source unit. |
| `Converter.ConverterForm.SelectToUnit` | app/page.tsx:126-133 | Choosing a target unit, from the units the selector offers for the current category, changes only the target unit. |
| `Converter.ConverterForm.EnterValue` | app/page.tsx:146 | Typing in the value field changes only the value. |
| `Converter.ConverterForm.HandleConvert` | app/page.tsx:65-80 | Returns `Convert` of the current state. On success the result field shows the two-decimal text of the product. On either error the result field is unchanged, and no other field changes. |

## Left out

- Rendering is left out because it is UI glue: the React component, the
  shadcn `Select`/`Input`/`Button`/`Card` widgets, CSS classes and the
  capitalised category labels (app/page.tsx:82-158).
- The two `alert` calls are browser I/O. They appear only as the
  `MissingInput` and `Unavailable` results that `HandleConvert` returns.
- `parseFloat` is left out because it is IEEE-754 parsing. The value field
  holds the already parsed number or `Blank`. Non-numeric text and the
  resulting "NaN" display are not modelled. The field is a number input,
  whose text is either empty or numeric.
- JavaScript truthiness is modelled only as "the empty string is missing".
  The value state is only ever set from the input's text, so the number-typed
  branch of `!value` cannot occur and is not modelled.
- Converter.Convert: computes the product on exact reals, not on binary
  doubles, so it does not capture floating-point rounding of the factor or
  the product.
- FixedFormat.ToFixed2: does not model the exponential notation `toFixed`
  uses for magnitudes of 10^21 and above. It rounds the exact real rather
  than its binary double approximation, so a value such as 1.005 can round
  differently from a browser.
- UnitTables.Factor and Converter.Convert: inherited `Object.prototype`
  keys (`constructor`, `toString`, ...) are not modelled. In JavaScript the
  lookup finds such a key and the result field shows "NaN" without an
  alert; the model reports `Unavailable`. The selectors only offer unit names
  (app/page.tsx:116-118, 131-133), and `SelectFromUnit`/`SelectToUnit`
  require a unit of the current category, so the form cannot reach that
  case. A category switch can still leave a unit from another category
  selected (see `Converter.StaleUnitScenario`).
