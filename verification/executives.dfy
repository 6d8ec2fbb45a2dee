/** The closed sets of identities the pipeline talks about: the ten executive
    titles of the suite and the two agent types of the response integrator. */
module Executives {
  import opened Basics

  /** The `Executive` union of titles. */
  datatype Executive =
    | ChiefExecutive
    | ChiefMarketing
    | ChiefFinancial
    | ChiefTechnology
    | ChiefOperations
    | ChiefHumanResources
    | ChiefCompliance
    | ChiefSales
    | ChiefExpansion
    | ChiefDevelopment

  /** The wire spelling of each title. */
  function Title(e: Executive): string {
    match e
    case ChiefExecutive => "Chief Executive Officer"
    case ChiefMarketing => "Chief Marketing Officer"
    case ChiefFinancial => "Chief Financial Officer"
    case ChiefTechnology => "Chief Technology Officer"
    case ChiefOperations => "Chief Operations Officer"
    case ChiefHumanResources => "Chief Human Resources Officer"
    case ChiefCompliance => "Chief Compliance Officer"
    case ChiefSales => "Chief Sales Officer"
    case ChiefExpansion => "Chief Expansion Officer"
    case ChiefDevelopment => "Chief Development Officer"
  }

  /** Reads a title back; any other string names no executive. */
  function FromTitle(s: string): (r: Option<Executive>)
    ensures r.Some? ==> Title(r.value) == s
  {
    if s == "Chief Executive Officer" then Some(ChiefExecutive)
    else if s == "Chief Marketing Officer" then Some(ChiefMarketing)
    else if s == "Chief Financial Officer" then Some(ChiefFinancial)
    else if s == "Chief Technology Officer" then Some(ChiefTechnology)
    else if s == "Chief Operations Officer" then Some(ChiefOperations)
    else if s == "Chief Human Resources Officer" then Some(ChiefHumanResources)
    else if s == "Chief Compliance Officer" then Some(ChiefCompliance)
    else if s == "Chief Sales Officer" then Some(ChiefSales)
    else if s == "Chief Expansion Officer" then Some(ChiefExpansion)
    else if s == "Chief Development Officer" then Some(ChiefDevelopment)
    else None
  }

  /** Every title reads back as its executive, so titles are pairwise distinct. */
  lemma TitleRoundTrip(e: Executive)
    ensures FromTitle(Title(e)) == Some(e)
  {
  }

  lemma TitleInjective(e1: Executive, e2: Executive)
    ensures Title(e1) == Title(e2) ==> e1 == e2
  {
    TitleRoundTrip(e1);
    TitleRoundTrip(e2);
  }

  /** The title the pipeline treats as the primary advisor. */
  const CeoTitle: string := Title(ChiefExecutive)

  /** The `AgentType` enumeration of the integrator. */
  datatype AgentType = Strategy | Marketing
}
