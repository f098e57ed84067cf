/** `determine_jurisdiction`: picks the legal framework a contract follows from the
    country the candidate works in, by case-insensitive keyword matching. */
module Jurisdiction {
  import opened Text

  const UaeKeywords: seq<string> := ["uae", "dubai", "united arab emirates", "abudhabi", "difc"]
  const UkKeywords: seq<string> := ["uk", "britain", "united kingdom", "england", "london"]
  const GermanyKeywords: seq<string> := ["germany", "deutschland", "berlin", "munich"]

  // The labels are spelled word by word so that proofs can take them apart at their
  // spaces; each is the plain string, e.g. "German Civil Code (BGB)".
  const UaeLabel: string := "DIFC" + " " + "Employment" + " " + "Law" + " " + "(UAE)"
  const UkLabel: string := "Employment" + " " + "Rights" + " " + "Act" + " " + "1996" + " " + "(UK)"
  const GermanyLabel: string := "German" + " " + "Civil" + " " + "Code" + " " + "(BGB)"
  const GeneralLabel: string := "General" + " " + "International" + " " + "Contractor" + " " + "Agreement"

  /** The four labels the classifier can return. */
  predicate IsLabel(s: string) {
    s == UaeLabel || s == UkLabel || s == GermanyLabel || s == GeneralLabel
  }

  /** The framework for `country`: the first keyword group, in the order UAE, UK,
      Germany, one of whose keywords the lower-cased name contains; the general
      contractor agreement when none does or the name is empty. */
  function DetermineJurisdiction(country: string): (framework: string)
    ensures IsLabel(framework)
  {
    if country == "" then GeneralLabel
    else
      var lowered := Lower(country);
      if AnyContains(lowered, UaeKeywords) then UaeLabel
      else if AnyContains(lowered, UkKeywords) then UkLabel
      else if AnyContains(lowered, GermanyKeywords) then GermanyLabel
      else GeneralLabel
  }

  /** The name contains, in any case, one of the keywords of a group. */
  predicate Mentions(country: string, keywords: seq<string>) {
    exists k :: k in keywords && Contains(Lower(country), k)
  }

  lemma LabelsDistinct()
    ensures UaeLabel != UkLabel && UaeLabel != GermanyLabel && UaeLabel != GeneralLabel
    ensures UkLabel != GermanyLabel && UkLabel != GeneralLabel && GermanyLabel != GeneralLabel
  {
    assert UaeLabel[0] != UkLabel[0] && UaeLabel[0] != GermanyLabel[0] && UaeLabel[0] != GeneralLabel[0];
    assert UkLabel[0] != GermanyLabel[0] && UkLabel[0] != GeneralLabel[0];
    assert GermanyLabel[2] != GeneralLabel[2];
  }

  /** Each label is returned exactly when its group is the first one mentioned. */
  lemma DetermineIff(country: string)
    ensures DetermineJurisdiction(country) == UaeLabel <==> Mentions(country, UaeKeywords)
    ensures DetermineJurisdiction(country) == UkLabel <==>
      !Mentions(country, UaeKeywords) && Mentions(country, UkKeywords)
    ensures DetermineJurisdiction(country) == GermanyLabel <==>
      !Mentions(country, UaeKeywords) && !Mentions(country, UkKeywords) && Mentions(country, GermanyKeywords)
    ensures DetermineJurisdiction(country) == GeneralLabel <==>
      !Mentions(country, UaeKeywords) && !Mentions(country, UkKeywords) && !Mentions(country, GermanyKeywords)
  {
    LabelsDistinct();
    if country == "" {
      NothingInEmpty(UaeKeywords);
      NothingInEmpty(UkKeywords);
      NothingInEmpty(GermanyKeywords);
    }
  }

  /** No keyword occurs in the empty name. */
  lemma NothingInEmpty(keywords: seq<string>)
    requires forall k :: k in keywords ==> k != ""
    ensures !Mentions("", keywords)
  {
    forall k | k in keywords
      ensures !Contains(Lower(""), k)
    {
      assert forall i :: !OccursAt(Lower(""), k, i);
    }
  }

  /** The classifier does not see case. */
  lemma DetermineIgnoresCase(country: string)
    ensures DetermineJurisdiction(Lower(country)) == DetermineJurisdiction(country)
  {
    LowerUnchanged(Lower(country));
  }

  /** A bare "uk" inside a longer name is enough: Ukraine gets the British label. */
  lemma UkraineIsUk()
    ensures DetermineJurisdiction("Ukraine") == UkLabel
  {
    assert Lower("Ukraine") == "ukraine";
    UkraineNotUae();
    assert Contains("ukraine", "uk");
  }

  lemma UkraineNotUae()
    ensures !AnyContains("ukraine", UaeKeywords)
  {
    var s := "ukraine";
    assert !Contains(s, "uae") && !Contains(s, "dubai") && !Contains(s, "united arab emirates");
    assert !Contains(s, "abudhabi") && !Contains(s, "difc");
    NoKeyword(s, UaeKeywords);
  }

  /** A name that mentions both a UAE and a UK keyword gets the UAE label. */
  lemma UaeBeforeUk(country: string)
    requires Mentions(country, UaeKeywords) && Mentions(country, UkKeywords)
    ensures DetermineJurisdiction(country) == UaeLabel
  {
    DetermineIff(country);
  }

  lemma DubaiExample()
    ensures DetermineJurisdiction("Dubai") == UaeLabel
  {
    assert Lower("Dubai") == "dubai";
    assert OccursAt("dubai", "dubai", 0);
  }

  lemma LondonExample()
    ensures DetermineJurisdiction("London") == UkLabel
  {
    assert Lower("London") == "london";
    LondonNotUae();
    assert Contains("london", "london");
  }

  lemma BerlinExample()
    ensures DetermineJurisdiction("Berlin") == GermanyLabel
  {
    assert Lower("Berlin") == "berlin";
    BerlinNotUae();
    BerlinNotUk();
    assert Contains("berlin", "berlin");
  }

  lemma LondonNotUae()
    ensures !AnyContains("london", UaeKeywords)
  {
    var s := "london";
    assert !Contains(s, "uae") && !Contains(s, "dubai") && !Contains(s, "united arab emirates");
    assert !Contains(s, "abudhabi") && !Contains(s, "difc");
    NoKeyword(s, UaeKeywords);
  }

  lemma BerlinNotUae()
    ensures !AnyContains("berlin", UaeKeywords)
  {
    var s := "berlin";
    assert !Contains(s, "uae") && !Contains(s, "dubai") && !Contains(s, "united arab emirates");
    assert !Contains(s, "abudhabi") && !Contains(s, "difc");
    NoKeyword(s, UaeKeywords);
  }

  lemma BerlinNotUk()
    ensures !AnyContains("berlin", UkKeywords)
  {
    var s := "berlin";
    assert !Contains(s, "uk") && !Contains(s, "britain") && !Contains(s, "united kingdom");
    assert !Contains(s, "england") && !Contains(s, "london");
    NoKeyword(s, UkKeywords);
  }

  lemma UnknownPlaceExample()
    ensures DetermineJurisdiction("Unknown Place") == GeneralLabel
  {
    assert Lower("Unknown Place") == "unknown place";
    UnknownPlaceNotUae();
    UnknownPlaceNotUk();
    UnknownPlaceNotGermany();
  }

  lemma UnknownPlaceNotUae()
    ensures !AnyContains("unknown place", UaeKeywords)
  {
    UnknownPlaceNotUaeAbbreviation();
    var s := "unknown place";
    MissingChar(s, "dubai", 0);
    MissingChar(s, "united arab emirates", 3);
    MissingChar(s, "abudhabi", 1);
    MissingChar(s, "difc", 0);
    NoKeyword(s, UaeKeywords);
  }

  lemma UnknownPlaceNotUaeAbbreviation()
    ensures !Contains("unknown place", "uae")
  {
    assert "unknown" + [' '] + "place" == "unknown place";
    MissingAround("unknown", ' ', "place", "uae", 1, 0);
  }

  lemma UnknownPlaceNotUk()
    ensures !AnyContains("unknown place", UkKeywords)
  {
    UnknownPlaceNotUkAbbreviation();
    var s := "unknown place";
    MissingChar(s, "britain", 0);
    MissingChar(s, "united kingdom", 3);
    MissingChar(s, "england", 2);
    MissingChar(s, "london", 3);
    NoKeyword(s, UkKeywords);
  }

  lemma UnknownPlaceNotUkAbbreviation()
    ensures !Contains("unknown place", "uk")
  {
    assert "unknown" + [' '] + "place" == "unknown place";
    SplitAt("unknown", ' ', "place", "uk");
    assert !Contains("unknown", "uk");
    MissingChar("place", "uk", 0);
  }

  lemma UnknownPlaceNotGermany()
    ensures !AnyContains("unknown place", GermanyKeywords)
  {
    var s := "unknown place";
    MissingChar(s, "germany", 0);
    MissingChar(s, "deutschland", 0);
    MissingChar(s, "berlin", 0);
    MissingChar(s, "munich", 0);
    NoKeyword(s, GermanyKeywords);
  }
}
