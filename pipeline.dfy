/** How the onboarding handler wires the two classifiers together: the candidate's
    country is classified into a framework label, and that label, not the country, is
    what the template selector receives. */
module Pipeline {
  import opened Text
  import opened Jurisdiction
  import opened Templates

  /** The template meant for each framework label. */
  function TemplateOf(framework: string): Template {
    if framework == UaeLabel then UaeLabor
    else if framework == UkLabel then UkEmployment
    else if framework == GermanyLabel then GermanEmployment
    else ContractorAgreement
  }

  /** The template the handler loads for a candidate's country, as wired. Whatever the
      country, it is never the German template. */
  function ContractTemplate(country: string): (t: Template)
    ensures t != GermanEmployment
  {
    NoLabelSelectsGerman(DetermineJurisdiction(country));
    SelectTemplateFile(DetermineJurisdiction(country))
  }

  /** The same, with the corrected selector. */
  function ContractTemplateCorrected(country: string): Template {
    SelectTemplateFileCorrected(DetermineJurisdiction(country))
  }

  /** Given the country itself, the selector agrees with the classifier everywhere: the
      keyword groups are the same sets in the same priority, and stripping cannot
      change whether a trimmed keyword occurs. */
  lemma SelectorAgreesWithClassifier(country: string)
    ensures SelectTemplateFile(country) == TemplateOf(DetermineJurisdiction(country))
  {
    LabelsDistinct();
    if country != "" {
      var lowered := Lower(country);
      KeywordsTrimmed();
      AnyContainsStrip(lowered, UaeTemplateKeywords);
      AnyContainsStrip(lowered, UkTemplateKeywords);
      AnyContainsStrip(lowered, GermanyTemplateKeywords);
      AnyContainsSameKeys(lowered, UaeKeywords, UaeTemplateKeywords);
      AnyContainsSameKeys(lowered, UkKeywords, UkTemplateKeywords);
    }
  }

  /** As wired, a candidate gets the UAE or UK template exactly when the label says so,
      and the contractor template otherwise; the German template is never loaded, so the
      result is the intended one exactly when the label is not the German one. */
  lemma ContractTemplateCases(country: string)
    ensures ContractTemplate(country) ==
      if DetermineJurisdiction(country) == UaeLabel then UaeLabor
      else if DetermineJurisdiction(country) == UkLabel then UkEmployment
      else ContractorAgreement
    ensures ContractTemplate(country) != GermanEmployment
    ensures ContractTemplate(country) == TemplateOf(DetermineJurisdiction(country)) <==>
      DetermineJurisdiction(country) != GermanyLabel
  {
    LabelsDistinct();
    UaeLabelSelected();
    UkLabelSelected();
    GermanLabelSelected();
    GeneralLabelSelected();
  }

  /** The test city Berlin is classified as German, yet its contract comes from the
      contractor template. */
  lemma BerlinGetsContractorTemplate()
    ensures DetermineJurisdiction("Berlin") == GermanyLabel
    ensures TemplateOf(DetermineJurisdiction("Berlin")) == GermanEmployment
    ensures ContractTemplate("Berlin") == ContractorAgreement
  {
    BerlinExample();
    LabelsDistinct();
    ContractTemplateCases("Berlin");
  }

  /** With "german" among the selector's Germany keywords, every country gets the
      template meant for its label. */
  lemma CorrectedPipelineIntended(country: string)
    ensures ContractTemplateCorrected(country) == TemplateOf(DetermineJurisdiction(country))
  {
    LabelsDistinct();
    UaeLabelSelected();
    UkLabelSelected();
    GermanLabelSelected();
    GeneralLabelSelected();
  }

  // ---------------------------------------------------------------------------
  // The selector on the four labels
  // ---------------------------------------------------------------------------

  /** None of the classifier's labels selects the German template. */
  lemma NoLabelSelectsGerman(framework: string)
    requires IsLabel(framework)
    ensures SelectTemplateFile(framework) != GermanEmployment
  {
    UaeLabelSelected();
    UkLabelSelected();
    GermanLabelSelected();
    GeneralLabelSelected();
  }

  lemma UaeLabelSelected()
    ensures SelectTemplateFile(UaeLabel) == UaeLabor
    ensures SelectTemplateFileCorrected(UaeLabel) == UaeLabor
  {
    var l := UaeLabelLowered();
    CleanedLabel(UaeLabel, l);
    UaeLabelCitesUae();
    SomeKeyword(l, UaeTemplateKeywords, "uae");
  }

  lemma UkLabelSelected()
    ensures SelectTemplateFile(UkLabel) == UkEmployment
    ensures SelectTemplateFileCorrected(UkLabel) == UkEmployment
  {
    var l := UkLabelLowered();
    CleanedLabel(UkLabel, l);
    UkLabelNotUae();
    UkLabelCitesUk();
    SomeKeyword(l, UkTemplateKeywords, "uk");
  }

  lemma GermanLabelSelected()
    ensures SelectTemplateFile(GermanyLabel) == ContractorAgreement
    ensures SelectTemplateFileCorrected(GermanyLabel) == GermanEmployment
  {
    var l := GermanLabelLowered();
    CleanedLabel(GermanyLabel, l);
    GermanLabelNotUae();
    GermanLabelNotUk();
    GermanLabelNotGermany();
    GermanLabelCitesGerman();
    CorrectedGroup(l);
  }

  lemma GeneralLabelSelected()
    ensures SelectTemplateFile(GeneralLabel) == ContractorAgreement
    ensures SelectTemplateFileCorrected(GeneralLabel) == ContractorAgreement
  {
    var l := GeneralLabelLowered();
    CleanedLabel(GeneralLabel, l);
    GeneralLabelNotUae();
    GeneralLabelNotUk();
    GeneralLabelNotGermany();
    GeneralLabelNotGerman();
    CorrectedGroup(l);
  }

  /** The selector sees a label's lower-case form; stripping it changes no keyword match. */
  lemma CleanedLabel(name: string, lowered: string)
    requires name != "" && Lower(name) == lowered
    ensures SelectTemplateFile(name) == SelectOnCleaned(lowered, GermanyTemplateKeywords)
    ensures SelectTemplateFileCorrected(name) == SelectOnCleaned(lowered, CorrectedGermanyKeywords)
  {
    KeywordsTrimmed();
    AnyContainsStrip(lowered, UaeTemplateKeywords);
    AnyContainsStrip(lowered, UkTemplateKeywords);
    AnyContainsStrip(lowered, GermanyTemplateKeywords);
    AnyContainsStrip(lowered, CorrectedGermanyKeywords);
  }

  // The lower-case labels, word by word.

  lemma UaeLabelLowered() returns (l: string)
    ensures l == "difc" + " " + "employment" + " " + "law" + " " + "(uae)"
    ensures Lower(UaeLabel) == l
  {
    l := "difc" + " " + "employment" + " " + "law" + " " + "(uae)";
    LowerAppend("DIFC" + " " + "Employment" + " " + "Law" + " ", "(UAE)");
    LowerAppend("DIFC" + " " + "Employment" + " " + "Law", " ");
    LowerAppend("DIFC" + " " + "Employment" + " ", "Law");
    LowerAppend("DIFC" + " " + "Employment", " ");
    LowerAppend("DIFC" + " ", "Employment");
    LowerAppend("DIFC", " ");
    assert Lower("DIFC") == "difc" && Lower("Employment") == "employment";
    assert Lower("Law") == "law" && Lower("(UAE)") == "(uae)" && Lower(" ") == " ";
  }

  lemma UkLabelLowered() returns (l: string)
    ensures l == "employment" + " " + "rights" + " " + "act" + " " + "1996" + " " + "(uk)"
    ensures Lower(UkLabel) == l
  {
    l := "employment" + " " + "rights" + " " + "act" + " " + "1996" + " " + "(uk)";
    LowerAppend("Employment" + " " + "Rights" + " " + "Act" + " " + "1996" + " ", "(UK)");
    LowerAppend("Employment" + " " + "Rights" + " " + "Act" + " " + "1996", " ");
    LowerAppend("Employment" + " " + "Rights" + " " + "Act" + " ", "1996");
    LowerAppend("Employment" + " " + "Rights" + " " + "Act", " ");
    LowerAppend("Employment" + " " + "Rights" + " ", "Act");
    LowerAppend("Employment" + " " + "Rights", " ");
    LowerAppend("Employment" + " ", "Rights");
    LowerAppend("Employment", " ");
    assert Lower("Employment") == "employment" && Lower("Rights") == "rights" && Lower("Act") == "act";
    assert Lower("1996") == "1996" && Lower("(UK)") == "(uk)" && Lower(" ") == " ";
  }

  lemma GermanLabelLowered() returns (l: string)
    ensures l == "german" + " " + "civil" + " " + "code" + " " + "(bgb)"
    ensures Lower(GermanyLabel) == l
  {
    l := "german" + " " + "civil" + " " + "code" + " " + "(bgb)";
    LowerAppend("German" + " " + "Civil" + " " + "Code" + " ", "(BGB)");
    LowerAppend("German" + " " + "Civil" + " " + "Code", " ");
    LowerAppend("German" + " " + "Civil" + " ", "Code");
    LowerAppend("German" + " " + "Civil", " ");
    LowerAppend("German" + " ", "Civil");
    LowerAppend("German", " ");
    assert Lower("German") == "german" && Lower("Civil") == "civil";
    assert Lower("Code") == "code" && Lower("(BGB)") == "(bgb)" && Lower(" ") == " ";
  }

  lemma GeneralLabelLowered() returns (l: string)
    ensures l == "general" + " " + "international" + " " + "contractor" + " " + "agreement"
    ensures Lower(GeneralLabel) == l
  {
    l := "general" + " " + "international" + " " + "contractor" + " " + "agreement";
    LowerAppend("General" + " " + "International" + " " + "Contractor" + " ", "Agreement");
    LowerAppend("General" + " " + "International" + " " + "Contractor", " ");
    LowerAppend("General" + " " + "International" + " ", "Contractor");
    LowerAppend("General" + " " + "International", " ");
    LowerAppend("General" + " ", "International");
    LowerAppend("General", " ");
    assert Lower("General") == "general" && Lower("International") == "international";
    assert Lower("Contractor") == "contractor" && Lower("Agreement") == "agreement" && Lower(" ") == " ";
  }

  // Which keywords the lower-case labels contain.

  lemma UkLabelNotUae()
    ensures !AnyContains("employment" + " " + "rights" + " " + "act" + " " + "1996" + " " + "(uk)", UaeTemplateKeywords)
  {
    var s := "employment" + " " + "rights" + " " + "act" + " " + "1996" + " " + "(uk)";
    UkLabelNotUaeAbbreviation();
    MissingChar(s, "united arab emirates", 5);
    MissingChar(s, "dubai", 0);
    MissingChar(s, "abudhabi", 1);
    MissingChar(s, "difc", 0);
    NoKeyword(s, UaeTemplateKeywords);
  }

  /** The u of "(uk)" is the only u of the UK label, and no a appears after it. */
  lemma UkLabelNotUaeAbbreviation()
    ensures !Contains("employment" + " " + "rights" + " " + "act" + " " + "1996" + " " + "(uk)", "uae")
  {
    MissingAround("employment" + " " + "rights" + " " + "act" + " " + "1996", ' ', "(uk)", "uae", 0, 1);
  }

  lemma UaeLabelCitesUae()
    ensures Contains("difc" + " " + "employment" + " " + "law" + " " + "(uae)", "uae")
  {
    assert Contains("(uae)", "uae");
    ContainsRight("difc" + " " + "employment" + " " + "law" + " ", "(uae)", "uae");
  }

  lemma UkLabelCitesUk()
    ensures Contains("employment" + " " + "rights" + " " + "act" + " " + "1996" + " " + "(uk)", "uk")
  {
    assert Contains("(uk)", "uk");
    ContainsRight("employment" + " " + "rights" + " " + "act" + " " + "1996" + " ", "(uk)", "uk");
  }

  lemma GermanLabelNotUae()
    ensures !AnyContains("german" + " " + "civil" + " " + "code" + " " + "(bgb)", UaeTemplateKeywords)
  {
    var s := "german" + " " + "civil" + " " + "code" + " " + "(bgb)";
    MissingChar(s, "united arab emirates", 0);
    MissingChar(s, "uae", 0);
    MissingChar(s, "dubai", 1);
    MissingChar(s, "abudhabi", 2);
    MissingChar(s, "difc", 2);
    NoKeyword(s, UaeTemplateKeywords);
  }

  lemma GermanLabelNotUk()
    ensures !AnyContains("german" + " " + "civil" + " " + "code" + " " + "(bgb)", UkTemplateKeywords)
  {
    var s := "german" + " " + "civil" + " " + "code" + " " + "(bgb)";
    MissingChar(s, "united kingdom", 0);
    MissingChar(s, "uk", 0);
    MissingChar(s, "britain", 3);
    NotInGermanLabelWords("england");
    NotInGermanLabelWords("london");
    NoKeyword(s, UkTemplateKeywords);
  }

  lemma GermanLabelNotGermany()
    ensures !AnyContains("german" + " " + "civil" + " " + "code" + " " + "(bgb)", GermanyTemplateKeywords)
  {
    var s := "german" + " " + "civil" + " " + "code" + " " + "(bgb)";
    MissingChar(s, "germany", 6);
    MissingChar(s, "deutschland", 2);
    NotInGermanLabelWords("berlin");
    MissingChar(s, "munich", 1);
    NoKeyword(s, GermanyTemplateKeywords);
  }

  /** A keyword without spaces that occurs in none of the words of the German label. */
  lemma NotInGermanLabelWords(k: string)
    requires ' ' !in k
    requires !Contains("german", k) && !Contains("civil", k) && !Contains("code", k) && !Contains("(bgb)", k)
    ensures !Contains("german" + " " + "civil" + " " + "code" + " " + "(bgb)", k)
  {
    SplitAt("german" + " " + "civil" + " " + "code", ' ', "(bgb)", k);
    SplitAt("german" + " " + "civil", ' ', "code", k);
    SplitAt("german", ' ', "civil", k);
  }

  lemma GermanLabelCitesGerman()
    ensures Contains("german" + " " + "civil" + " " + "code" + " " + "(bgb)", "german")
  {
    assert Contains("german", "german");
    ContainsLeft("german", " ", "german");
    ContainsLeft("german" + " ", "civil", "german");
    ContainsLeft("german" + " " + "civil", " ", "german");
    ContainsLeft("german" + " " + "civil" + " ", "code", "german");
    ContainsLeft("german" + " " + "civil" + " " + "code", " ", "german");
    ContainsLeft("german" + " " + "civil" + " " + "code" + " ", "(bgb)", "german");
  }

  lemma GeneralLabelNotUae()
    ensures !AnyContains("general" + " " + "international" + " " + "contractor" + " " + "agreement", UaeTemplateKeywords)
  {
    var s := "general" + " " + "international" + " " + "contractor" + " " + "agreement";
    MissingChar(s, "united arab emirates", 0);
    MissingChar(s, "uae", 0);
    MissingChar(s, "dubai", 0);
    MissingChar(s, "abudhabi", 1);
    MissingChar(s, "difc", 0);
    NoKeyword(s, UaeTemplateKeywords);
  }

  lemma GeneralLabelNotUk()
    ensures !AnyContains("general" + " " + "international" + " " + "contractor" + " " + "agreement", UkTemplateKeywords)
  {
    var s := "general" + " " + "international" + " " + "contractor" + " " + "agreement";
    MissingChar(s, "united kingdom", 0);
    MissingChar(s, "uk", 0);
    MissingChar(s, "britain", 0);
    MissingChar(s, "england", 6);
    MissingChar(s, "london", 3);
    NoKeyword(s, UkTemplateKeywords);
  }

  lemma GeneralLabelNotGermany()
    ensures !AnyContains("general" + " " + "international" + " " + "contractor" + " " + "agreement", GermanyTemplateKeywords)
  {
    var s := "general" + " " + "international" + " " + "contractor" + " " + "agreement";
    MissingChar(s, "germany", 6);
    MissingChar(s, "deutschland", 0);
    MissingChar(s, "berlin", 0);
    MissingChar(s, "munich", 1);
    NoKeyword(s, GermanyTemplateKeywords);
  }

  /** "german" occurs in none of the four words of the general label. */
  lemma GeneralLabelNotGerman()
    ensures !Contains("general" + " " + "international" + " " + "contractor" + " " + "agreement", "german")
  {
    SplitAt("general" + " " + "international" + " " + "contractor", ' ', "agreement", "german");
    SplitAt("general" + " " + "international", ' ', "contractor", "german");
    SplitAt("general", ' ', "international", "german");
    assert !Contains("general", "german");
    assert !Contains("international", "german");
    MissingChar("contractor", "german", 0);
    assert !Contains("agreement", "german");
  }
}
