/**
 * Stage 3: the unit is a phantom type parameter. Weight<T> and Person<T> hold
 * only a magnitude (and a name); T is Kilogram or Pound and exists only in the
 * types. Each conversion accepts only its one legal source unit and returns a
 * new value of the other unit; there is no same-unit conversion at all.
 */
module V3 {
  import opened Units
  import opened Display

  /** The unit markers: they carry no data and appear only as type arguments. */
  datatype Kilogram = Kilogram
  datatype Pound = Pound

  datatype Weight<T> = Weight(value: u16)

  datatype Person<T> = Person(name: string, weight: Weight<T>)

  /** A weight of the given magnitude in whatever unit the caller chooses. */
  function NewWeight<T>(value: u16): (w: Weight<T>)
    ensures w.value == value
  {
    Weight(value)
  }

  /** A person of the given name and magnitude, in whatever unit the caller chooses. */
  function NewPerson<T>(name: string, weight: u16): (p: Person<T>)
    ensures p.name == name
    ensures p.weight.value == weight
  {
    Person(name, NewWeight(weight))
  }

  /** A pound weight in kilograms; there is no such function on kilogram weights. */
  function ToKilograms(w: Weight<Pound>): (r: Weight<Kilogram>)
    ensures IsNearestHalfUp(w.value * LbToKgNumerator, LbToKgScale, r.value)
  {
    NewWeight(LbToKg(w.value))
  }

  /** A kilogram weight in pounds; there is no such function on pound weights. */
  function ToPounds(w: Weight<Kilogram>): (r: Weight<Pound>)
    ensures IsSaturatedRound(w.value * KgToLbNumerator, KgToLbScale, r.value)
  {
    NewWeight(KgToLb(w.value))
  }

  /** The same person with the weight converted to kilograms. */
  function RepresentInKilograms(p: Person<Pound>): (r: Person<Kilogram>)
    ensures r.name == p.name
    ensures r.weight == ToKilograms(p.weight)
    ensures IsNearestHalfUp(p.weight.value * LbToKgNumerator, LbToKgScale, r.weight.value)
  {
    Person(p.name, ToKilograms(p.weight))
  }

  /** The same person with the weight converted to pounds. */
  function RepresentInPounds(p: Person<Kilogram>): (r: Person<Pound>)
    ensures r.name == p.name
    ensures r.weight == ToPounds(p.weight)
    ensures IsSaturatedRound(p.weight.value * KgToLbNumerator, KgToLbScale, r.weight.value)
  {
    Person(p.name, ToPounds(p.weight))
  }

  /** "<v> kg". */
  function RenderKilograms(w: Weight<Kilogram>): (s: string)
    ensures ShowsWeight(s, w.value, KilogramSuffix)
  {
    WeightText(w.value, KilogramSuffix)
  }

  /** "<v> pound". */
  function RenderPounds(w: Weight<Pound>): (s: string)
    ensures ShowsWeight(s, w.value, PoundSuffix)
  {
    WeightText(w.value, PoundSuffix)
  }

  /** "Name: <name>, Weight: <v> kg". */
  function RenderPersonKilograms(p: Person<Kilogram>): (s: string)
    ensures ShowsPerson(s, p.name, p.weight.value, KilogramSuffix)
  {
    var t := RenderKilograms(p.weight);
    PersonTextShows(p.name, t, p.weight.value, KilogramSuffix);
    PersonText(p.name, t)
  }

  /** "Name: <name>, Weight: <v> pound". */
  function RenderPersonPounds(p: Person<Pound>): (s: string)
    ensures ShowsPerson(s, p.name, p.weight.value, PoundSuffix)
  {
    var t := RenderPounds(p.weight);
    PersonTextShows(p.name, t, p.weight.value, PoundSuffix);
    PersonText(p.name, t)
  }

  /** A magnitude of 0 converts to 0 in both directions. */
  lemma ZeroConvertsToZero()
    ensures ToPounds(Weight(0)).value == 0
    ensures ToKilograms(Weight(0)).value == 0
  {
    Units.ZeroConvertsToZero();
  }

  /** A person converted to pounds and back is unchanged below the 16-bit pound cap. */
  lemma PersonRoundTrip(p: Person<Kilogram>)
    requires p.weight.value <= LargestConvertibleKilograms
    ensures RepresentInKilograms(RepresentInPounds(p)) == p
  {
    Units.KilogramRoundTrip(p.weight.value);
  }

  /** The regression scenario: 90 kg, then 198 pound, then 90 kg, as printed. */
  lemma SherlockScenario()
    ensures var sherlock: Person<Kilogram> := NewPerson("Sherlock", 90);
            && RenderPersonKilograms(sherlock) == "Name: Sherlock, Weight: 90 kg"
            && RenderPersonPounds(RepresentInPounds(sherlock)) == "Name: Sherlock, Weight: 198 pound"
            && RenderPersonKilograms(RepresentInKilograms(RepresentInPounds(sherlock)))
               == "Name: Sherlock, Weight: 90 kg"
  {
    Decimal.DecimalNinety();
    Units.SherlockMagnitudes();
    var sherlock: Person<Kilogram> := NewPerson("Sherlock", 90);
    assert WeightText(90, KilogramSuffix) == "90 kg";
    assert WeightText(198, PoundSuffix) == "198 pound";
    assert RepresentInPounds(sherlock).weight.value == 198;
    assert RepresentInKilograms(RepresentInPounds(sherlock)) == sherlock;
  }
}
