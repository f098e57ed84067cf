/** The engine's documented examples, worked through on its own tables for every
    reading of the clock. */
module ComplianceExamples {
  import opened Wrappers
  import opened Text
  import opened Calendar
  import opened Schemas
  import opened Compliance
  import opened ComplianceFacts

  const Uk: string := "United Kingdom"
  const Uae: string := "United Arab Emirates"

  /** The two full country names the examples use normalise to their canonical keys. */
  lemma FullNames()
    ensures NormalizeCountry(Standard, Some(Uk)) == "united kingdom"
    ensures NormalizeCountry(Standard, Some(Uae)) == "united arab emirates"
  {
    FullUk();
    FullUae();
  }

  lemma FullUk()
    ensures NormalizeCountry(Standard, Some(Uk)) == "united kingdom"
  {
    LowerUk();
    CleanUk();
    CanonicalNotAliases();
    Unaliased(Uk, "united kingdom");
  }

  lemma FullUae()
    ensures NormalizeCountry(Standard, Some(Uae)) == "united arab emirates"
  {
    LowerUae();
    CleanUae();
    CanonicalNotAliases();
    Unaliased(Uae, "united arab emirates");
  }

  lemma LowerUk()
    ensures Lower(Uk) == Lower("united kingdom")
  {
  }

  lemma LowerUae()
    ensures Lower(Uae) == Lower("united arab emirates")
  {
  }

  /** A British citizen hired in the Emirates needs sponsorship; with no start date that
      is the only visa alert. */
  lemma VisaRequiredExample(now: Clock)
    requires ValidClock(now)
    ensures var c := DefaultProfile.(citizenship := Some(Uk), locationCountry := Uae);
      VisaAlerts(Standard, c, now) == Ok([Alert(WorkflowTrigger, High, SponsorshipRequired(Uk, Uae))])
  {
    var c := DefaultProfile.(citizenship := Some(Uk), locationCountry := Uae);
    FullNames();
    UnreadStartDate(Standard, c, "united kingdom", "united arab emirates", now);
  }

  /** An Emirati hired in the Emirates gets no visa alert. */
  lemma LocalHireExample(now: Clock)
    requires ValidClock(now)
    ensures VisaAlerts(Standard, DefaultProfile.(citizenship := Some(Uae), locationCountry := Uae), now) == Ok([])
  {
    FullNames();
  }

  /** 4000 AED in the Emirates is below the 5000 minimum. */
  lemma MinimumWageFailExample()
    ensures var c := DefaultProfile.(salary := Some(4000.0), currency := Some("AED"), locationCountry := Uae);
      WageAlerts(Standard, c) == [Alert(ComplianceRisk, High, LowSalary(4000.0, "united arab emirates", 5000))]
  {
    FullNames();
  }

  /** 6000 AED in the Emirates passes. */
  lemma MinimumWagePassExample()
    ensures WageAlerts(Standard, DefaultProfile.(salary := Some(6000.0), currency := Some("AED"), locationCountry := Uae)) == []
  {
    FullNames();
  }

  /** A start date that reads as ten days ago is reported as a data error. */
  lemma StartDateInPastExample(now: Clock, text: string)
    requires ValidClock(now) && now.day > 10
    ensures var c := DefaultProfile.(startDate := Some(text), locationCountry := Uae, citizenship := Some(Uk));
      VisaAlertsFrom(Standard, c, Some(now.day - 10), now) ==
        Ok([Alert(WorkflowTrigger, High, SponsorshipRequired(Uk, Uae)), Alert(DataError, High, StartDateInPast(text))])
  {
    var c := DefaultProfile.(startDate := Some(text), locationCountry := Uae, citizenship := Some(Uk));
    FullNames();
    PastStartDate(Standard, c, "united kingdom", "united arab emirates", now.day - 10, now);
  }

  /** The date ten days ago, written as the engine writes dates, is such a text. */
  lemma StartDateInPastFormatted(now: Clock)
    requires ValidClock(now) && now.day > 10
    ensures var c := DefaultProfile.(startDate := Some(Format(now.day - 10)), locationCountry := Uae, citizenship := Some(Uk));
      VisaAlerts(Standard, c, now) ==
        Ok([Alert(WorkflowTrigger, High, SponsorshipRequired(Uk, Uae)), Alert(DataError, High, StartDateInPast(Format(now.day - 10)))])
  {
    ParseFormat(now.day - 10);
    StartDateInPastExample(now, Format(now.day - 10));
  }

  /** A British citizen to be hired in the Emirates at 4000 AED, whose start date is `text`. */
  function UkHireInUae(text: string): CandidateProfile {
    DefaultProfile.(citizenship := Some(Uk), locationCountry := Uae, salary := Some(4000.0),
                    currency := Some("AED"), startDate := Some(text))
  }

  lemma UkHireInUaeVisa(now: Clock, text: string)
    requires ValidClock(now) && now.day + 10 + ProbationDays <= MaxOrdinal
    ensures var days := if now.micros == 0 then 10 else 9;
      VisaAlertsFrom(Standard, UkHireInUae(text), Some(now.day + 10), now) ==
        Ok([Alert(WorkflowTrigger, High, SponsorshipRequired(Uk, Uae)),
            Alert(ComplianceRisk, Critical, StartDateTooSoon(days, Uae, 21, now.day + 21 + StartBuffer))])
  {
    UkHireInUaeKeys(text, Some(now.day + 10), now);
    UkHireInUaeLeadTime(now, text);
  }

  /** That candidate's countries normalise to the British and Emirati keys. */
  lemma UkHireInUaeKeys(text: string, start: Option<int>, now: Clock)
    requires ValidClock(now) && ReadsFrom(UkHireInUae(text), start)
    ensures VisaAlertsFrom(Standard, UkHireInUae(text), start, now) ==
      VisaAlertsFor(Standard, UkHireInUae(text), "united kingdom", "united arab emirates", start, now)
  {
    FullNames();
  }

  lemma UkHireInUaeLeadTime(now: Clock, text: string)
    requires ValidClock(now) && now.day + 10 + ProbationDays <= MaxOrdinal
    ensures var days := if now.micros == 0 then 10 else 9;
      VisaAlertsFor(Standard, UkHireInUae(text), "united kingdom", "united arab emirates", Some(now.day + 10), now) ==
        Ok([Alert(WorkflowTrigger, High, SponsorshipRequired(Uk, Uae)),
            Alert(ComplianceRisk, Critical, StartDateTooSoon(days, Uae, 21, now.day + 21 + StartBuffer))])
  {
    StandardLeadTimes("united arab emirates");
    if now.micros == 0 {
      assert DaysUntil(now.day + 10, now) == 10;
    } else {
      assert DaysUntil(now.day + 10, now) == 9;
    }
    StartTooSoon(Standard, UkHireInUae(text), "united kingdom", "united arab emirates", now.day + 10, now);
  }

  lemma UkHireInUaeWage(text: string)
    ensures WageAlerts(Standard, UkHireInUae(text)) == [Alert(ComplianceRisk, High, LowSalary(4000.0, "united arab emirates", 5000))]
  {
    FullNames();
  }

  /** A British citizen starting in the Emirates ten days from now at 4000 AED:
      sponsorship, then a start-date risk suggesting today plus 21 + 7 days, then the low
      salary, in that order; the day count is one lower unless it is exactly midnight. */
  lemma UkHireInUaeReport(now: Clock, text: string)
    requires ValidClock(now) && now.day + 10 + ProbationDays <= MaxOrdinal
    ensures var days := if now.micros == 0 then 10 else 9;
      EvaluateFrom(Standard, UkHireInUae(text), Some(now.day + 10), now) ==
        Ok(Report([Alert(WorkflowTrigger, High, SponsorshipRequired(Uk, Uae)),
                   Alert(ComplianceRisk, Critical, StartDateTooSoon(days, Uae, 21, now.day + 21 + StartBuffer)),
                   Alert(ComplianceRisk, High, LowSalary(4000.0, "united arab emirates", 5000))],
                  map[ProbationEnd := Format(now.day + 10 + ProbationDays)]))
  {
    var days := if now.micros == 0 then 10 else 9;
    UkHireInUaeVisa(now, text);
    UkHireInUaeWage(text);
    ProbationProjection(now.day + 10);
    EvaluateOfThree(Standard, UkHireInUae(text), Some(now.day + 10), now,
                    Alert(WorkflowTrigger, High, SponsorshipRequired(Uk, Uae)),
                    Alert(ComplianceRisk, Critical, StartDateTooSoon(days, Uae, 21, now.day + 21 + StartBuffer)),
                    Alert(ComplianceRisk, High, LowSalary(4000.0, "united arab emirates", 5000)),
                    map[ProbationEnd := Format(now.day + 10 + ProbationDays)]);
  }

  /** The same, with the start date written as the engine writes dates. */
  lemma UkHireInUaeFormatted(now: Clock)
    requires ValidClock(now) && now.day + 10 + ProbationDays <= MaxOrdinal
    ensures var days := if now.micros == 0 then 10 else 9;
      Evaluate(Standard, UkHireInUae(Format(now.day + 10)), now) ==
        Ok(Report([Alert(WorkflowTrigger, High, SponsorshipRequired(Uk, Uae)),
                   Alert(ComplianceRisk, Critical, StartDateTooSoon(days, Uae, 21, now.day + 21 + StartBuffer)),
                   Alert(ComplianceRisk, High, LowSalary(4000.0, "united arab emirates", 5000))],
                  map[ProbationEnd := Format(now.day + 10 + ProbationDays)]))
  {
    ParseFormat(now.day + 10);
    UkHireInUaeReport(now, Format(now.day + 10));
  }
}
