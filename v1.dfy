/**
 * Stage 1: a person whose weight is a bare 16-bit number with no unit. It can
 * be built and printed, and nothing else; the printed weight has no suffix.
 */
module V1 {
  import opened Units
  import opened Decimal
  import opened Display

  datatype Person = Person(name: string, weight: u16)

  /** Builds a person from a name and a unit-less magnitude. */
  function New(name: string, weight: u16): (p: Person)
    ensures p.name == name
    ensures p.weight == weight
  {
    Person(name, weight)
  }

  /** "Name: <name>, Weight: <weight>", the weight in decimal and unit-less. */
  function Render(p: Person): (s: string)
    ensures ShowsPerson(s, p.name, p.weight, NoSuffix)
    ensures IsDigit(s[|s| - 1])
  {
    var t := WeightText(p.weight, NoSuffix);
    PersonTextShows(p.name, t, p.weight, NoSuffix);
    PersonText(p.name, t)
  }

  /** Two people with the same name print alike only if they weigh the same. */
  lemma RenderInjective(p: Person, q: Person)
    requires p.name == q.name
    requires Render(p) == Render(q)
    ensures p == q
  {
    var s, header := Render(p), Header(p.name);
    ShowsWeightInjective(s[|header|..], p.weight, q.weight, NoSuffix);
  }

  /** The regression scenario: Sherlock weighing 90. */
  lemma SherlockDisplay()
    ensures Render(New("Sherlock", 90)) == "Name: Sherlock, Weight: 90"
  {
    DecimalNinety();
  }
}
