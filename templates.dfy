/** `_select_template_file`: picks the contract template for a legal-framework label
    by case-insensitive keyword matching on the stripped label. */
module Templates {
  import opened Text

  const UaeTemplateKeywords: seq<string> := ["united arab emirates", "uae", "dubai", "abudhabi", "difc"]
  const UkTemplateKeywords: seq<string> := ["united kingdom", "uk", "britain", "england", "london"]
  const GermanyTemplateKeywords: seq<string> := ["germany", "deutschland", "berlin", "munich"]
  /** The Germany group with "german" added, so that the German label is recognised. */
  const CorrectedGermanyKeywords: seq<string> := ["germany", "deutschland", "berlin", "munich", "german"]

  /** The four template files under the template directory. */
  datatype Template = UaeLabor | UkEmployment | GermanEmployment | ContractorAgreement

  /** The file name of each template. */
  function FileName(t: Template): string {
    match t
    case UaeLabor => "uae_labor.md"
    case UkEmployment => "uk_employment.md"
    case GermanEmployment => "german_employment.md"
    case ContractorAgreement => "contractor_agreement.md"
  }

  /** The selection rule, with the Germany keyword group as a parameter so that the
      selector and its corrected form share one definition. */
  function SelectWith(jurisdiction: string, germanyKeywords: seq<string>): Template {
    if jurisdiction == "" then ContractorAgreement
    else SelectOnCleaned(LowerStrip(jurisdiction), germanyKeywords)
  }

  /** The keyword chain of the selector, applied to the lower-cased, stripped label. */
  function SelectOnCleaned(cleaned: string, germanyKeywords: seq<string>): Template {
    if AnyContains(cleaned, UaeTemplateKeywords) then UaeLabor
    else if AnyContains(cleaned, UkTemplateKeywords) then UkEmployment
    else if AnyContains(cleaned, germanyKeywords) then GermanEmployment
    else ContractorAgreement
  }

  /** `_select_template_file` as written. */
  function SelectTemplateFile(jurisdiction: string): (t: Template)
    ensures jurisdiction == "" ==> t == ContractorAgreement
    ensures t == UaeLabor ==> Cites(jurisdiction, UaeTemplateKeywords)
    ensures t == UkEmployment ==> Cites(jurisdiction, UkTemplateKeywords)
    ensures t == GermanEmployment ==> Cites(jurisdiction, GermanyTemplateKeywords)
  {
    SelectWith(jurisdiction, GermanyTemplateKeywords)
  }

  /** `_select_template_file` with "german" among the Germany keywords. */
  function SelectTemplateFileCorrected(jurisdiction: string): Template {
    SelectWith(jurisdiction, CorrectedGermanyKeywords)
  }

  /** The stripped, lower-cased label contains one of the keywords of a group. */
  predicate Cites(jurisdiction: string, keywords: seq<string>) {
    exists k :: k in keywords && Contains(LowerStrip(jurisdiction), k)
  }

  /** Different templates are different files. */
  lemma FileNamesDistinct(t: Template, u: Template)
    ensures FileName(t) == FileName(u) <==> t == u
  {
    if t != u {
      var n, m := FileName(t), FileName(u);
      assert n[0] != m[0] || n[1] != m[1];
    }
  }

  /** Each template is chosen exactly when its group is the first one the cleaned label
      cites; the empty label cites nothing. */
  lemma SelectIff(jurisdiction: string)
    ensures SelectTemplateFile(jurisdiction) == UaeLabor <==> Cites(jurisdiction, UaeTemplateKeywords)
    ensures SelectTemplateFile(jurisdiction) == UkEmployment <==>
      !Cites(jurisdiction, UaeTemplateKeywords) && Cites(jurisdiction, UkTemplateKeywords)
    ensures SelectTemplateFile(jurisdiction) == GermanEmployment <==>
      !Cites(jurisdiction, UaeTemplateKeywords) && !Cites(jurisdiction, UkTemplateKeywords) &&
      Cites(jurisdiction, GermanyTemplateKeywords)
    ensures SelectTemplateFile(jurisdiction) == ContractorAgreement <==>
      !Cites(jurisdiction, UaeTemplateKeywords) && !Cites(jurisdiction, UkTemplateKeywords) &&
      !Cites(jurisdiction, GermanyTemplateKeywords)
  {
    if jurisdiction == "" {
      assert LowerStrip(jurisdiction) == "";
      NothingCited(UaeTemplateKeywords);
      NothingCited(UkTemplateKeywords);
      NothingCited(GermanyTemplateKeywords);
    }
  }

  /** No keyword occurs in the empty label. */
  lemma NothingCited(keywords: seq<string>)
    requires forall k :: k in keywords ==> k != ""
    ensures !Cites("", keywords)
  {
    assert LowerStrip("") == "";
    NothingInEmptyText(keywords);
  }

  lemma NothingInEmptyText(keywords: seq<string>)
    requires forall k :: k in keywords ==> k != ""
    ensures !AnyContains("", keywords)
  {
    forall k | k in keywords
      ensures !Contains("", k)
    {
      assert forall i :: !OccursAt("", k, i);
    }
  }

  /** Cleaning the label first changes nothing: the selector already ignores case and
      surrounding whitespace, and a label that cleans to nothing gets the contractor
      template like the empty one. */
  lemma SelectIgnoresCleaning(jurisdiction: string)
    ensures SelectTemplateFile(LowerStrip(jurisdiction)) == SelectTemplateFile(jurisdiction)
  {
    var cleaned := LowerStrip(jurisdiction);
    if jurisdiction == "" {
      assert cleaned == "";
    } else if cleaned == "" {
      SelectCleansToNothing(jurisdiction);
    } else {
      LowerStripIdempotent(jurisdiction);
      SelectSameCleaning(cleaned, jurisdiction);
    }
  }

  lemma SelectCleansToNothing(jurisdiction: string)
    requires LowerStrip(jurisdiction) == ""
    ensures SelectTemplateFile(jurisdiction) == ContractorAgreement
  {
    NothingInEmptyText(UaeTemplateKeywords);
    NothingInEmptyText(UkTemplateKeywords);
    NothingInEmptyText(GermanyTemplateKeywords);
  }

  lemma SelectSameCleaning(j: string, k: string)
    requires j != "" && k != "" && LowerStrip(j) == LowerStrip(k)
    ensures SelectTemplateFile(j) == SelectTemplateFile(k)
  {
  }

  /** The corrected selector differs from the selector only by sending a label that
      cites "german", and no earlier group, to the German template. */
  lemma CorrectedOnlyAddsGerman(jurisdiction: string)
    ensures SelectTemplateFileCorrected(jurisdiction) != SelectTemplateFile(jurisdiction) <==>
      SelectTemplateFile(jurisdiction) == ContractorAgreement && jurisdiction != "" &&
      Contains(LowerStrip(jurisdiction), "german")
    ensures SelectTemplateFileCorrected(jurisdiction) != SelectTemplateFile(jurisdiction) ==>
      SelectTemplateFileCorrected(jurisdiction) == GermanEmployment
  {
    if jurisdiction != "" {
      CorrectedOnCleaned(LowerStrip(jurisdiction));
    }
  }

  lemma CorrectedOnCleaned(cleaned: string)
    ensures SelectOnCleaned(cleaned, CorrectedGermanyKeywords) != SelectOnCleaned(cleaned, GermanyTemplateKeywords) <==>
      SelectOnCleaned(cleaned, GermanyTemplateKeywords) == ContractorAgreement && Contains(cleaned, "german")
    ensures SelectOnCleaned(cleaned, CorrectedGermanyKeywords) != SelectOnCleaned(cleaned, GermanyTemplateKeywords) ==>
      SelectOnCleaned(cleaned, CorrectedGermanyKeywords) == GermanEmployment
  {
    CorrectedGroup(cleaned);
  }

  lemma CorrectedGroup(s: string)
    ensures AnyContains(s, CorrectedGermanyKeywords) <==>
      AnyContains(s, GermanyTemplateKeywords) || Contains(s, "german")
  {
    assert forall k :: k in CorrectedGermanyKeywords <==> k in GermanyTemplateKeywords || k == "german";
  }

  /** Every keyword of the selector starts and ends with a visible character. */
  lemma KeywordsTrimmed()
    ensures forall k :: k in UaeTemplateKeywords ==> Trimmed(k)
    ensures forall k :: k in UkTemplateKeywords ==> Trimmed(k)
    ensures forall k :: k in GermanyTemplateKeywords ==> Trimmed(k)
    ensures forall k :: k in CorrectedGermanyKeywords ==> Trimmed(k)
  {
  }
}
