/**
 * Stage 2: the unit is a run-time tag. A Weight is either kilograms or pounds;
 * both conversions can be asked of either kind and do nothing when the weight
 * is already in the target unit. A Person owns a Weight and converts it in
 * place.
 */
module V2 {
  import opened Units
  import opened Display

  datatype Weight = Kilogram(value: u16) | Pound(value: u16) {

    /** The same weight in pounds; a weight already in pounds is returned as is. */
    function ToPounds(): (r: Weight)
      ensures r.Pound?
      ensures Pound? ==> r == this
      ensures Kilogram? ==> IsSaturatedRound(value * KgToLbNumerator, KgToLbScale, r.value)
    {
      match this
      case Kilogram(k) => Pound(KgToLb(k))
      case Pound(_) => this
    }

    /** The same weight in kilograms; a weight already in kilograms is returned as is. */
    function ToKilograms(): (r: Weight)
      ensures r.Kilogram?
      ensures Kilogram? ==> r == this
      ensures Pound? ==> IsNearestHalfUp(value * LbToKgNumerator, LbToKgScale, r.value)
    {
      match this
      case Pound(p) => Kilogram(LbToKg(p))
      case Kilogram(_) => this
    }

    function Suffix(): string
    {
      if Kilogram? then KilogramSuffix else PoundSuffix
    }

    /** "<v> kg" or "<v> pound". */
    function Render(): (s: string)
      ensures Kilogram? ==> ShowsWeight(s, value, KilogramSuffix)
      ensures Pound? ==> ShowsWeight(s, value, PoundSuffix)
    {
      WeightText(value, Suffix())
    }
  }

  /** Converting to pounds twice is converting once. */
  lemma ToPoundsIdempotent(w: Weight)
    ensures w.ToPounds().ToPounds() == w.ToPounds()
  {
  }

  /** Converting to kilograms twice is converting once. */
  lemma ToKilogramsIdempotent(w: Weight)
    ensures w.ToKilograms().ToKilograms() == w.ToKilograms()
  {
  }

  /** Kilograms to pounds and back loses nothing below the 16-bit pound cap. */
  lemma KilogramRoundTrip(k: u16)
    ensures Kilogram(k).ToPounds().ToKilograms()
         == Kilogram(if k <= LargestConvertibleKilograms then k else LargestConvertibleKilograms)
  {
    Units.KilogramRoundTrip(k);
  }

  /** Different weights print differently: the text tells both unit and magnitude. */
  lemma RenderInjective(a: Weight, b: Weight)
    requires a.Render() == b.Render()
    ensures a == b
  {
    if a.Kilogram? && b.Pound? {
      UnitsAreDistinct(a.value, b.value);
    } else if a.Pound? && b.Kilogram? {
      UnitsAreDistinct(b.value, a.value);
    } else {
      ShowsWeightInjective(a.Render(), a.value, b.value, a.Suffix());
    }
  }

  class Person {
    var name: string
    var weight: Weight

    /** Builds a person from a name and an explicitly tagged weight. */
    constructor (name: string, weight: Weight)
      ensures this.name == name && this.weight == weight
    {
      this.name := name;
      this.weight := weight;
    }

    /** Replaces the weight by the same weight in kilograms. */
    method RepresentInKilograms()
      modifies this`weight
      ensures weight == old(weight).ToKilograms()
      ensures weight.Kilogram?
      ensures name == old(name)
    {
      weight := weight.ToKilograms();
    }

    /** Replaces the weight by the same weight in pounds. */
    method RepresentInPounds()
      modifies this`weight
      ensures weight == old(weight).ToPounds()
      ensures weight.Pound?
      ensures name == old(name)
    {
      weight := weight.ToPounds();
    }

    /** "Name: <name>, Weight: <weight>". */
    function Render(): (s: string)
      reads this
      ensures weight.Kilogram? ==> ShowsPerson(s, name, weight.value, KilogramSuffix)
      ensures weight.Pound? ==> ShowsPerson(s, name, weight.value, PoundSuffix)
    {
      var t := weight.Render();
      PersonTextShows(name, t, weight.value, weight.Suffix());
      PersonText(name, t)
    }
  }

  /**
   * The regression scenario: Sherlock at 90 kg, then in pounds, then back in
   * kilograms, and the three texts printed along the way.
   */
  method SherlockScenario() returns (atStart: string, inPounds: string, backInKilograms: string)
    ensures atStart == "Name: Sherlock, Weight: 90 kg"
    ensures inPounds == "Name: Sherlock, Weight: 198 pound"
    ensures backInKilograms == "Name: Sherlock, Weight: 90 kg"
  {
    Decimal.DecimalNinety();
    Units.SherlockMagnitudes();
    var sherlock := new Person("Sherlock", Kilogram(90));
    atStart := sherlock.Render();
    sherlock.RepresentInPounds();
    assert sherlock.weight == Pound(198);
    inPounds := sherlock.Render();
    sherlock.RepresentInKilograms();
    assert sherlock.weight == Kilogram(90);
    backInKilograms := sherlock.Render();
  }
}
