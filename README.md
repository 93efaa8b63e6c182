# Weight with a unit: four designs, modelled in Dafny

The repository shows four successive designs for a person's weight tagged
with a unit, kilograms or pounds, that can be converted:

1. **Untyped** (`src/v1.rs`): a person has a name and a bare 16-bit number.
   Printing gives `Name: <name>, Weight: <n>`, with no unit.
2. **Run-time tag** (`src/v2.rs`): the weight is `Kilogram(v) | Pound(v)`.
   Both conversions can be called on either variant. A conversion to the
   weight's own unit does nothing. A person converts its weight in place.
3. **Type-state** (`src/v3.rs`): the unit is a phantom type parameter of
   `Weight<T>` and `Person<T>`. `to_pounds` exists only for kilograms and
   `to_kilograms` only for pounds. Each conversion consumes its value and
   returns a new value in the other unit.
4. **Type-state through `From`** (`src/v4.rs`): the same data as stage 3.
   Both directions are written as "build the destination from the source"
   conversions.

Module layout:

- `Units` (`units.dfy`) holds the numeric core that stages 2 to 4 share:
  - the 16-bit magnitude type `u16`;
  - the two ratios 2.20462 and 0.453592, as exact fractions;
  - rounding to the nearest integer with ties away from zero;
  - the saturating cast back to 16 bits;
  - the two conversions `KgToLb` and `LbToKg`.
  Each conversion is proved against a reference predicate. `IsNearestHalfUp`
  says the result is the nearest integer. `IsSaturatedRound` adds the cap at
  65535. The module also proves how the two conversions compose:
  - kilograms to pounds and back is the identity up to 29726 kg, and gives
    29726 above that;
  - pounds to kilograms and back lands within one pound, and is lossy
    (1 pound becomes 0).
- `Decimal` (`decimal.dfy`) prints a number as canonical decimal text.
  That is how `{}` formats an unsigned integer. A parser is proved to read the
  text back, and every canonical text is proved to be the text of its value.
- `Display` (`display.dfy`) holds the two formats, `<v><suffix>` and
  `Name: <name>, Weight: <weight>`. `ShowsWeight` and `ShowsPerson` say what
  a text means. `ShowsWeightExactly` and `ShowsPersonExactly` prove that
  exactly one text has that meaning.
- `V1` … `V4` (`v1.dfy` … `v4.dfy`) are one module per source file:
  - stage 1, 3 and 4 values are datatypes;
  - the stage 2 `Weight` is a datatype and its `Person` is a class;
  - in stages 3 and 4 the unit markers `Kilogram` and `Pound` appear only as
    type arguments;
  - each conversion takes only its one legal source type.
- `Stages` (`stages.dfy`) proves that the stages agree. The differences between
  the designs are in what may be called, not in what a legal call computes.

## Model

| member | source | states |
|---|---|---|
| `Units.RoundHalfUp` | src/v2.rs:52 | the result is the integer nearest to num/scale, and a tie goes up. This is `f64::round` on a non-negative value |
| `Units.SaturateToU16` | src/v2.rs:52 | the `as u16` cast of a non-negative value: the same value when it fits in 16 bits, otherwise 65535 |
| `Units.KgToLb` | src/v2.rs:49-53 | the result is the nearest integer to k × 2.20462 when that is below 65535. It is 65535 exactly when that nearest integer is 65535 or more |
| `Units.LbToKg` | src/v2.rs:58-62 | the result is the nearest integer to p × 0.453592. It never exceeds 29726, so the cast never saturates |
| `Units.KgToLbSaturation` | src/v2.rs:51-52 | kilograms to pounds gives 65535 exactly when k ≥ 29726 |
| `Units.KgToLbMonotone` | src/v2.rs:51-52 | a heavier kilogram weight never gives fewer pounds |
| `Units.LbToKgMonotone` | src/v2.rs:60-61 | a heavier pound weight never gives fewer kilograms |
| `Units.KilogramRoundTrip` | src/v2.rs:49-65 | kilograms to pounds and back returns k for every k ≤ 29726, and 29726 for larger k |
| `Units.PoundRoundTrip` | src/v2.rs:49-65 | pounds to kilograms and back returns a value within one pound of p |
| `Units.PoundRoundTripIsLossy` | src/v2.rs:49-65 | 1 pound becomes 0 kg and then 0 pound, so the round trip can lose information |
| `Units.ZeroConvertsToZero` | src/v3.rs:71-81 | a magnitude of 0 converts to 0 in both directions |
| `Units.SherlockMagnitudes` | src/v2.rs:82-89 | 90 kg is 198 pound, and 198 pound is 90 kg |
| `Decimal.DecimalString` | src/v1.rs:22 | the decimal text of a number, as `{}` prints a `u16`: non-empty, all digits, no leading zero, one digit exactly below 10 |
| `Decimal.ParseDecimalString` | src/v1.rs:22 | reading the printed text back gives the number |
| `Decimal.DecimalStringOfParse` | src/v1.rs:22 | every canonical digit text is the printed text of the number it denotes |
| `Decimal.DecimalStringInjective` | src/v1.rs:22 | different numbers print differently |
| `Decimal.LeadingDigitPositive` | src/v1.rs:22 | a canonical text of two or more digits denotes at least 10, and only "0" denotes 0 |
| `Decimal.DecimalNinety` | src/v2.rs:84-86 | 90 prints as "90" and 198 as "198" |
| `Display.WeightText` | src/v2.rs:68-75 | the text shows the magnitude in decimal followed by the unit suffix |
| `Display.PersonText` | src/v2.rs:36-40 | the text is the header `Name: <name>, Weight: ` followed by the weight's text |
| `Display.PersonTextShows` | src/v2.rs:36-40 | a person text built from a weight text shows that person and weight |
| `Display.ShowsWeightExactly` | src/v2.rs:68-75 | only one text shows a given magnitude and unit: the one `WeightText` builds |
| `Display.ShowsPersonExactly` | src/v2.rs:36-40 | only one text shows a given name, magnitude and unit: the one `PersonText` builds |
| `Display.ShowsWeightInjective` | src/v2.rs:68-75 | a text shows at most one magnitude for a given unit |
| `Display.UnitsAreDistinct` | src/v2.rs:70-73 | no kilogram text equals a pound text, whatever the magnitudes |
| `V1.New` | src/v1.rs:12-17 | the person has the given name and the given weight, both unchanged |
| `V1.Render` | src/v1.rs:20-24 | the text is `Name: <name>, Weight: ` then the weight in decimal with no suffix, and it ends in a digit |
| `V1.RenderInjective` | src/v1.rs:20-24 | two people with the same name print alike only if they are equal |
| `V1.SherlockDisplay` | src/v1.rs:30-34 | Sherlock weighing 90 prints as "Name: Sherlock, Weight: 90" |
| `V2.Weight.ToPounds` | src/v2.rs:49-56 | the result is a Pound. A Pound is returned unchanged. A Kilogram k gives the nearest integer to k × 2.20462, capped at 65535 |
| `V2.Weight.ToKilograms` | src/v2.rs:58-65 | the result is a Kilogram. A Kilogram is returned unchanged. A Pound p gives the nearest integer to p × 0.453592 |
| `V2.Weight.Render` | src/v2.rs:68-75 | a Kilogram prints as `<v> kg` and a Pound as `<v> pound` |
| `V2.ToPoundsIdempotent` | src/v2.rs:49-56 | converting to pounds twice is the same as converting once |
| `V2.ToKilogramsIdempotent` | src/v2.rs:58-65 | converting to kilograms twice is the same as converting once |
| `V2.KilogramRoundTrip` | src/v2.rs:49-65 | Kilogram(k) to pounds and back is Kilogram(k) for every k ≤ 29726, and Kilogram(29726) for larger k |
| `V2.RenderInjective` | src/v2.rs:68-75 | two weights print alike only if they have the same unit and the same magnitude |
| `V2.Person.constructor` | src/v2.rs:20-25 | the person has the given name and the given tagged weight |
| `V2.Person.RepresentInKilograms` | src/v2.rs:27-29 | the weight becomes the old weight converted to kilograms, so it is a Kilogram. The name does not change |
| `V2.Person.RepresentInPounds` | src/v2.rs:31-33 | the weight becomes the old weight converted to pounds, so it is a Pound. The name does not change |
| `V2.Person.Render` | src/v2.rs:36-40 | the text shows the name and the weight, with ` kg` or ` pound` as the weight's tag says |
| `V2.SherlockScenario` | src/v2.rs:82-89 | 90 kg prints as "… 90 kg". After conversion to pounds it prints "… 198 pound". After conversion back it prints "… 90 kg" |
| `V3.NewWeight` | src/v3.rs:61-67 | the weight has the given magnitude, whatever unit is chosen |
| `V3.NewPerson` | src/v3.rs:16-23 | the person has the given name and magnitude, whatever unit is chosen |
| `V3.ToKilograms` | src/v3.rs:70-75 | takes only a pound weight and returns a kilogram weight. The magnitude is the nearest integer to v × 0.453592 |
| `V3.ToPounds` | src/v3.rs:77-82 | takes only a kilogram weight and returns a pound weight. The magnitude is the nearest integer to v × 2.20462, capped at 65535 |
| `V3.RepresentInKilograms` | src/v3.rs:25-32 | takes only a pound person. The name is kept and the weight goes through `ToKilograms` |
| `V3.RepresentInPounds` | src/v3.rs:34-41 | takes only a kilogram person. The name is kept and the weight goes through `ToPounds` |
| `V3.RenderKilograms` | src/v3.rs:84-88 | a kilogram weight prints as `<v> kg` |
| `V3.RenderPounds` | src/v3.rs:90-94 | a pound weight prints as `<v> pound` |
| `V3.RenderPersonKilograms` | src/v3.rs:43-50 | the text is `Name: <name>, Weight: <v> kg` |
| `V3.RenderPersonPounds` | src/v3.rs:43-50 | the text is `Name: <name>, Weight: <v> pound` |
| `V3.ZeroConvertsToZero` | src/v3.rs:71-81 | a weight of 0 converts to 0 in both directions |
| `V3.PersonRoundTrip` | src/v3.rs:25-41 | a kilogram person of at most 29726 kg, converted to pounds and back, is the same person |
| `V3.SherlockScenario` | src/v3.rs:100-108 | 90 kg, then 198 pound, then 90 kg again, each printed as the test expects |
| `V4.NewWeight` | src/v4.rs:61-67 | the weight has the given magnitude, whatever unit is chosen |
| `V4.NewPerson` | src/v4.rs:16-23 | the person has the given name and magnitude, whatever unit is chosen |
| `V4.FromPoundWeight` | src/v4.rs:70-75 | builds a kilogram weight from a pound weight only. The magnitude is the nearest integer to v × 0.453592 |
| `V4.FromKilogramWeight` | src/v4.rs:77-82 | builds a pound weight from a kilogram weight only. The magnitude is the nearest integer to v × 2.20462, capped at 65535 |
| `V4.FromPoundPerson` | src/v4.rs:25-32 | builds a kilogram person from a pound person only. The name is kept and the weight goes through `FromPoundWeight` |
| `V4.FromKilogramPerson` | src/v4.rs:34-41 | builds a pound person from a kilogram person only. The name is kept and the weight goes through `FromKilogramWeight` |
| `V4.RenderKilograms` | src/v4.rs:84-88 | a kilogram weight prints as `<v> kg` |
| `V4.RenderPounds` | src/v4.rs:90-94 | a pound weight prints as `<v> pound` |
| `V4.RenderPersonKilograms` | src/v4.rs:43-50 | the text is `Name: <name>, Weight: <v> kg` |
| `V4.RenderPersonPounds` | src/v4.rs:43-50 | the text is `Name: <name>, Weight: <v> pound` |
| `V4.PersonRoundTrip` | src/v4.rs:25-41 | a kilogram person of at most 29726 kg, converted to pounds and back, is the same person |
| `V4.SherlockScenario` | src/v4.rs:100-108 | 90 kg, then 198 pound, then 90 kg again, each printed as the test expects |
| `Stages.TaggedAgreesWithTyped` | src/v2.rs:49-65 | stage 2 conversions give the same magnitudes as stage 3's `to_pounds` and `to_kilograms` |
| `Stages.FromAgreesWithNamedConversions` | src/v4.rs:70-82 | stage 4 conversions give the same magnitudes as stage 3's `to_pounds` and `to_kilograms` |
| `Stages.TypedStagesPrintAlike` | src/v4.rs:43-50 | stages 3 and 4 print a person the same way, before conversion and after either conversion |
| `Stages.TaggedPrintsAsTyped` | src/v2.rs:31-40 | a stage 2 person converted in place to pounds prints what stage 3 prints for the same person |
| `Stages.UntypedOmitsTheUnit` | src/v1.rs:20-24 | the stage 1 text plus ` kg` is the stage 3 kilogram text |

## Left out

- Floating point. The source multiplies an `f64` by a float ratio, rounds
  it, and casts it. The model replaces this with exact fixed-point
  arithmetic in the fractions 220462/100000 and 453592/1000000.
- `Units.KgToLb`, `V2.Weight.ToPounds`, `V3.ToPounds` and
  `V4.FromKilogramWeight` differ from the float code at exact ties only. An
  exact tie is a k for which k × 2.20462 ends in exactly .5. The only such
  16-bit k is 25000, since 25000 × 2.20462 = 55115.5. The f64 product lands
  just below 55115.5, so the source gives 55115 where the model gives 55116.
  Pounds to kilograms has one exact tie, p = 62500 (28349.5). There the f64
  product is exactly 28349.5 and both give 28350.
- The `as u16` cast also maps NaN and negative values to 0. Every value
  the source casts here is finite and non-negative, so `SaturateToU16` takes
  a natural number.
- The `Display`/`Formatter`/`write!` machinery is modelled as building the
  text. Formatter flags (width, fill) are not modelled, since the source
  uses none.
- The rejection of a wrong-unit conversion in stages 3 and 4 happens at
  compile time. The model states it only through the parameter types
  (`ToPounds` accepts only `Weight<Kilogram>`, and so on). It cannot be
  written as a provable proposition.
- Rust language mechanics are not modelled:
  - `PhantomData<fn() -> T>`: the unit is an unused type parameter of the
    datatype;
  - the `Clone`, `Copy` and `Debug` derives;
  - `impl Into<String>`: the name is a `string`;
  - move semantics: a stage 3 or stage 4 conversion returns a new value,
    and nothing stops the caller from reusing the old one.
- The generic `From`/`Into` contract of stage 4 is modelled as four
  functions, named after their source type. Dafny has no overloading on the
  destination type, and the model defines no interface.
- The `#[cfg(test)]` test modules are restated as the `Sherlock…` lemmas
  and methods.
