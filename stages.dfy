/**
 * The stages compared: the four designs differ in what a caller may write,
 * not in what a legal call computes.
 */
module Stages {
  import opened Units
  import V1
  import V2
  import V3
  import V4
  import Display

  /** The run-time tagged conversions compute what the phantom-typed ones do. */
  lemma TaggedAgreesWithTyped(v: u16)
    ensures V2.Kilogram(v).ToPounds() == V2.Pound(V3.ToPounds(V3.Weight(v)).value)
    ensures V2.Pound(v).ToKilograms() == V2.Kilogram(V3.ToKilograms(V3.Weight(v)).value)
  {
  }

  /** The conversions of stage 4 compute the same magnitudes as those of stage 3. */
  lemma FromAgreesWithNamedConversions(v: u16)
    ensures V4.FromKilogramWeight(V4.Weight(v)).value == V3.ToPounds(V3.Weight(v)).value
    ensures V4.FromPoundWeight(V4.Weight(v)).value == V3.ToKilograms(V3.Weight(v)).value
  {
  }

  /** Stages 3 and 4 print a person identically, before and after conversion. */
  lemma TypedStagesPrintAlike(name: string, v: u16)
    ensures V4.RenderPersonKilograms(V4.NewPerson(name, v))
         == V3.RenderPersonKilograms(V3.NewPerson(name, v))
    ensures V4.RenderPersonPounds(V4.FromKilogramPerson(V4.NewPerson(name, v)))
         == V3.RenderPersonPounds(V3.RepresentInPounds(V3.NewPerson(name, v)))
    ensures V4.RenderPersonKilograms(V4.FromPoundPerson(V4.NewPerson(name, v)))
         == V3.RenderPersonKilograms(V3.RepresentInKilograms(V3.NewPerson(name, v)))
  {
  }

  /** Stage 2 prints a converted person as stage 3 does. */
  method TaggedPrintsAsTyped(name: string, v: u16) returns (tagged: string, typed: string)
    ensures tagged == typed
    ensures Display.ShowsPerson(tagged, name, KgToLb(v), Display.PoundSuffix)
  {
    var person := new V2.Person(name, V2.Kilogram(v));
    person.RepresentInPounds();
    tagged := person.Render();
    typed := V3.RenderPersonPounds(V3.RepresentInPounds(V3.NewPerson(name, v)));
  }

  /** The untyped stage prints what the typed stages print, without the unit suffix. */
  lemma UntypedOmitsTheUnit(name: string, v: u16)
    ensures V1.Render(V1.New(name, v)) + Display.KilogramSuffix
         == V3.RenderPersonKilograms(V3.NewPerson(name, v))
  {
  }
}
