/**
 * The text formats every stage prints: a weight is its magnitude in decimal
 * followed by a unit suffix (no suffix in the untyped stage), and a person is
 * "Name: <name>, Weight: <weight>". ShowsWeight and ShowsPerson say what a
 * text means; WeightText and PersonText build it.
 */
module Display {
  import opened Decimal

  const NameLabel: string := "Name: "
  const WeightLabel: string := ", Weight: "
  const KilogramSuffix: string := " kg"
  const PoundSuffix: string := " pound"
  const NoSuffix: string := ""

  /** t is a canonical decimal numeral denoting v, followed by unit. */
  predicate ShowsWeight(t: string, v: nat, unit: string)
  {
    && |t| > |unit|
    && t[|t| - |unit|..] == unit
    && IsCanonicalDecimal(t[..|t| - |unit|])
    && ParseDecimal(t[..|t| - |unit|]) == v
  }

  function Header(name: string): string
  {
    NameLabel + name + WeightLabel
  }

  /** s is the header for name followed by a text showing weight v in unit. */
  predicate ShowsPerson(s: string, name: string, v: nat, unit: string)
  {
    var header := Header(name);
    |s| >= |header| && s[..|header|] == header && ShowsWeight(s[|header|..], v, unit)
  }

  /** The text of a weight of magnitude v in the unit whose suffix is unit. */
  function WeightText(v: nat, unit: string): (t: string)
    ensures ShowsWeight(t, v, unit)
  {
    var digits := DecimalString(v);
    ParseDecimalString(v);
    assert (digits + unit)[..|digits|] == digits;
    digits + unit
  }

  /** The text of a person, around the already rendered weight text. */
  function PersonText(name: string, weightText: string): (s: string)
    ensures |s| == |Header(name)| + |weightText|
    ensures s[..|Header(name)|] == Header(name)
    ensures s[|Header(name)|..] == weightText
  {
    Header(name) + weightText
  }

  /** A person text built from a weight text shows that weight. */
  lemma PersonTextShows(name: string, t: string, v: nat, unit: string)
    requires ShowsWeight(t, v, unit)
    ensures ShowsPerson(PersonText(name, t), name, v, unit)
  {
  }

  /** Only one text shows a given weight: ShowsWeight pins down WeightText. */
  lemma ShowsWeightExactly(t: string, v: nat, unit: string)
    requires ShowsWeight(t, v, unit)
    ensures t == WeightText(v, unit)
  {
    var digits := t[..|t| - |unit|];
    DecimalStringOfParse(digits);
    assert t == digits + unit;
  }

  /** Only one text shows a given person: ShowsPerson pins down PersonText. */
  lemma ShowsPersonExactly(s: string, name: string, v: nat, unit: string)
    requires ShowsPerson(s, name, v, unit)
    ensures s == PersonText(name, WeightText(v, unit))
  {
    var header := Header(name);
    ShowsWeightExactly(s[|header|..], v, unit);
    assert s == header + s[|header|..];
  }

  /** A text shows at most one magnitude for a given unit. */
  lemma ShowsWeightInjective(t: string, v: nat, w: nat, unit: string)
    requires ShowsWeight(t, v, unit) && ShowsWeight(t, w, unit)
    ensures v == w
  {
  }

  /** A kilogram text is never a pound text, whatever the two magnitudes. */
  lemma UnitsAreDistinct(v: nat, w: nat)
    ensures WeightText(v, KilogramSuffix) != WeightText(w, PoundSuffix)
  {
    var kg, lb := WeightText(v, KilogramSuffix), WeightText(w, PoundSuffix);
    assert kg[|kg| - 1] == 'g';
    assert lb[|lb| - 1] == 'd';
  }
}
