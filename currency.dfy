/** The currency of an account and its resolver from an abbreviation. */
module Currencies {

  /** Only US dollars are known; `Unknown` is what an unrecognised
      abbreviation resolves to. */
  datatype Currency = USDollar | Unknown

  /** `Currency::from(&str)`: an exact, case-sensitive match on "USD";
      every other string falls back to `Unknown`, so the resolver is total. */
  function FromAbbrev(abbrev: string): (c: Currency)
    ensures c == USDollar <==> abbrev == "USD"
    ensures c == Unknown <==> abbrev != "USD"
  {
    match abbrev
    case "USD" => USDollar
    case _ => Unknown
  }

  /** The cases the crate's tests and documentation exercise, plus the
      ones that show the match is exact. */
  lemma FromAbbrevExamples()
    ensures FromAbbrev("USD") == USDollar
    ensures FromAbbrev("EUR") == Unknown
    ensures FromAbbrev("") == Unknown
    ensures FromAbbrev("usd") == Unknown
    ensures FromAbbrev("USD ") == Unknown
  {
  }
}
