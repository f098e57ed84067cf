/** Properties of the compliance engine: how names normalise, when each check stays
    silent, what it reports otherwise, and the examples the engine is documented by. */
module ComplianceFacts {
  import opened Wrappers
  import opened Text
  import opened Calendar
  import opened Schemas
  import opened Compliance

  // ---------------------------------------------------------------------------
  // Normalisation
  // ---------------------------------------------------------------------------

  /** The spellings of the examples, once lower-cased and stripped. */
  lemma CleanedUaeCaps()
    ensures LowerStrip("UAE") == "uae"
  {
    assert Lower("UAE") == "uae";
    LowerStripTo("UAE", "uae");
  }

  lemma CleanedDubai()
    ensures LowerStrip("Dubai") == "dubai"
  {
    assert Lower("Dubai") == "dubai";
    LowerStripTo("Dubai", "dubai");
  }

  lemma CleanedDotted()
    ensures LowerStrip("U.A.E.") == "u.a.e."
  {
    assert Lower("U.A.E.") == "u.a.e.";
    LowerStripTo("U.A.E.", "u.a.e.");
  }

  lemma CleanedDe()
    ensures LowerStrip("DE") == "de"
  {
    assert Lower("DE") == "de";
    LowerStripTo("DE", "de");
  }

  lemma CleanedPadded()
    ensures LowerStrip(" abu dhabi ") == "abu dhabi"
  {
    var s := " abu dhabi ";
    LowerUnchanged(s);
    assert LeadingSpace(s[1..]) == 0;
    assert LeadingSpace(s) == 1;
    assert TrailingEnd(s[..10], 1) == 10;
  }

  /** An alias-table lookup of a name that cleans to a key of the table. */
  lemma AliasOf(s: string, cleaned: string)
    requires s != "" && LowerStrip(s) == cleaned && cleaned in Standard.countryAliases
    ensures NormalizeCountry(Standard, Some(s)) == Standard.countryAliases[cleaned]
  {
  }

  /** The spellings the alias table exists for. */
  lemma AliasExamples()
    ensures NormalizeCountry(Standard, Some("UAE")) == "united arab emirates"
    ensures NormalizeCountry(Standard, Some("Dubai")) == "united arab emirates"
    ensures NormalizeCountry(Standard, Some("U.A.E.")) == "united arab emirates"
    ensures NormalizeCountry(Standard, Some(" abu dhabi ")) == "united arab emirates"
    ensures NormalizeCountry(Standard, Some("DE")) == "germany"
  {
    AliasUaeCaps();
    AliasDubai();
    AliasDotted();
    AliasPadded();
    AliasDe();
  }

  lemma AliasUaeCaps()
    ensures NormalizeCountry(Standard, Some("UAE")) == "united arab emirates"
  {
    CleanedUaeCaps();
    AliasOf("UAE", "uae");
  }

  lemma AliasDubai()
    ensures NormalizeCountry(Standard, Some("Dubai")) == "united arab emirates"
  {
    CleanedDubai();
    AliasOf("Dubai", "dubai");
  }

  lemma AliasDotted()
    ensures NormalizeCountry(Standard, Some("U.A.E.")) == "united arab emirates"
  {
    CleanedDotted();
    AliasOf("U.A.E.", "u.a.e.");
  }

  lemma AliasPadded()
    ensures NormalizeCountry(Standard, Some(" abu dhabi ")) == "united arab emirates"
  {
    CleanedPadded();
    AliasOf(" abu dhabi ", "abu dhabi");
  }

  lemma AliasDe()
    ensures NormalizeCountry(Standard, Some("DE")) == "germany"
  {
    CleanedDe();
    AliasOf("DE", "de");
  }

  /** Case and surrounding whitespace never matter: only the cleaned name is looked up. */
  lemma NormalizeSeesOnlyCleanedName(e: Engine, s: string, t: string)
    requires s != "" && t != "" && LowerStrip(s) == LowerStrip(t)
    ensures NormalizeCountry(e, Some(s)) == NormalizeCountry(e, Some(t))
  {
  }

  /** A name made only of whitespace is not missing: it normalises to the empty key,
      not to `Unknown`, unless the table has an alias for the empty string. */
  lemma BlankNameIsNotUnknown(e: Engine, s: string)
    requires s != "" && forall i :: 0 <= i < |s| ==> IsSpace(s[i])
    requires "" !in e.countryAliases
    ensures NormalizeCountry(e, Some(s)) == ""
  {
    LowerAllSpace(s);
    StripAllSpace(Lower(s));
  }

  /** The profile's default location "Unknown" normalises to the sentinel. */
  lemma UnknownLiteral(e: Engine)
    requires Unknown !in e.countryAliases
    ensures NormalizeCountry(e, Some("Unknown")) == Unknown
  {
    assert Lower("Unknown") == Unknown;
    LowerUnchanged(Unknown);
    CleanName(Unknown);
  }

  /** Tables whose aliases all lead to clean canonical names that are not aliases
      themselves, and that do not reuse the sentinel as an alias. */
  predicate WellFormed(e: Engine) {
    Unknown !in e.countryAliases &&
    forall k :: k in e.countryAliases ==> CanonicalValue(e, e.countryAliases[k])
  }

  /** With well-formed tables, normalising a non-empty key again gives the same key. The
      empty key, which a blank name normalises to, normalises to `Unknown` instead. */
  lemma NormalizeIdempotent(e: Engine, name: Option<string>)
    requires WellFormed(e)
    requires NormalizeCountry(e, name) != ""
    ensures NormalizeCountry(e, Some(NormalizeCountry(e, name))) == NormalizeCountry(e, name)
  {
    var key := NormalizeCountry(e, name);
    if name == None || name.value == "" {
      CleanName(Unknown);
    } else {
      var cleaned := LowerStrip(name.value);
      if cleaned !in e.countryAliases {
        LowerStripIdempotent(name.value);
      }
    }
  }

  /** Every alias of the engine's tables leads to one of the three canonical names. */
  lemma StandardTargets()
    ensures Standard.countryAliases.Values <= {"united arab emirates", "united kingdom", "germany"}
  {
  }

  /** None of the canonical names, and not the sentinel, is itself an alias. */
  lemma CanonicalNotAliases()
    ensures "united arab emirates" !in Standard.countryAliases
    ensures "united kingdom" !in Standard.countryAliases
    ensures "germany" !in Standard.countryAliases
    ensures Unknown !in Standard.countryAliases
  {
  }

  /** The three canonical names are clean. */
  lemma CanonicalClean()
    ensures LowerStrip("united arab emirates") == "united arab emirates"
    ensures LowerStrip("united kingdom") == "united kingdom"
    ensures LowerStrip("germany") == "germany"
  {
    CleanUae();
    CleanUk();
    CleanGermany();
  }

  lemma CleanUae()
    ensures LowerStrip("united arab emirates") == "united arab emirates"
  {
    CleanName("united arab emirates");
  }

  lemma CleanUk()
    ensures LowerStrip("united kingdom") == "united kingdom"
  {
    CleanName("united kingdom");
  }

  lemma CleanGermany()
    ensures LowerStrip("germany") == "germany"
  {
    CleanName("germany");
  }

  /** What a well-formed table asks of the value an alias leads to. */
  predicate CanonicalValue(e: Engine, v: string) {
    v != "" && v !in e.countryAliases && LowerStrip(v) == v
  }

  lemma StandardCanonical(v: string)
    requires v in {"united arab emirates", "united kingdom", "germany"}
    ensures CanonicalValue(Standard, v)
  {
    CanonicalNotAliases();
    CanonicalClean();
  }

  /** The engine's own tables are well formed. */
  lemma StandardWellFormed()
    ensures WellFormed(Standard)
  {
    StandardTargets();
    CanonicalNotAliases();
    var aliases := Standard.countryAliases;
    forall k | k in aliases
      ensures CanonicalValue(Standard, aliases[k])
    {
      assert aliases[k] in aliases.Values;
      StandardCanonical(aliases[k]);
    }
  }

  /** A lower-case name with visible characters at both ends is its own cleaned form. */
  lemma CleanName(s: string)
    requires s != [] && !IsSpace(s[0]) && !IsSpace(s[|s| - 1])
    requires forall i :: 0 <= i < |s| ==> !IsUpper(s[i])
    ensures LowerStrip(s) == s
  {
    LowerUnchanged(s);
    LowerStripTo(s, s);
  }

  /** A name that cleans to something the alias table does not list normalises to its
      cleaned form. */
  lemma Unaliased(s: string, cleaned: string)
    requires s != "" && LowerStrip(s) == cleaned && cleaned !in Standard.countryAliases
    ensures NormalizeCountry(Standard, Some(s)) == cleaned
  {
  }

  /** The canonical names are fixed points of the normaliser. */
  lemma CanonicalFixedPoints()
    ensures NormalizeCountry(Standard, Some("germany")) == "germany"
    ensures NormalizeCountry(Standard, Some("united kingdom")) == "united kingdom"
    ensures NormalizeCountry(Standard, Some("united arab emirates")) == "united arab emirates"
  {
    CanonicalNotAliases();
    CleanGermany();
    Unaliased("germany", "germany");
    CleanUk();
    Unaliased("united kingdom", "united kingdom");
    CleanUae();
    Unaliased("united arab emirates", "united arab emirates");
  }

  // ---------------------------------------------------------------------------
  // The visa check
  // ---------------------------------------------------------------------------
  //
  // The facts below hold whatever day `start` the start date reads as; `VisaAlerts`
  // and `Evaluate` are these checks on the day `Parse` reads.

  /** The visa check is silent exactly when a country is unknown or the hire is local;
      otherwise it reports, or it raises. */
  lemma VisaSilentIff(e: Engine, c: CandidateProfile, start: Option<int>, now: Clock)
    requires ValidClock(now) && ReadsFrom(c, start)
    ensures VisaAlertsFrom(e, c, start, now) == Ok([]) <==> !NeedsSponsorship(e, c)
  {
  }

  /** A local hire gets no visa alert whatever the start date says. */
  lemma LocalHireAnyStartDate(e: Engine, c: CandidateProfile, start: Option<int>, now: Clock)
    requires ValidClock(now) && ReadsFrom(c, start)
    requires NormalizeCountry(e, c.citizenship) == NormalizeCountry(e, Some(c.locationCountry))
    ensures VisaAlertsFrom(e, c, start, now) == Ok([])
  {
  }

  /** When a visa is needed the sponsorship alert comes first, quotes the names as given,
      and at most one date alert follows it. */
  lemma VisaAlertsShape(e: Engine, c: CandidateProfile, start: Option<int>, now: Clock)
    requires ValidClock(now) && ReadsFrom(c, start)
    requires NeedsSponsorship(e, c) && VisaAlertsFrom(e, c, start, now).Ok?
    ensures var alerts := VisaAlertsFrom(e, c, start, now).value;
      1 <= |alerts| <= 2 &&
      alerts[0] == Alert(WorkflowTrigger, High, SponsorshipRequired(c.citizenship.value, c.locationCountry)) &&
      (|alerts| == 2 ==> alerts[1].kind in {DataError, ComplianceRisk})
  {
  }

  /** The visa check stays within two alerts whatever the candidate. */
  lemma VisaAtMostTwo(e: Engine, c: CandidateProfile, start: Option<int>, now: Clock)
    requires ValidClock(now) && ReadsFrom(c, start)
    ensures VisaAlertsFrom(e, c, start, now).Ok? ==> |VisaAlertsFrom(e, c, start, now).value| <= 2
  {
    if NeedsSponsorship(e, c) && VisaAlertsFrom(e, c, start, now).Ok? {
      VisaAlertsShape(e, c, start, now);
    }
  }

  /** When a visa is needed, the visa alerts are the sponsorship alert followed by the
      date alerts, and an overflow in the date alerts escapes. */
  lemma VisaWithDates(e: Engine, c: CandidateProfile, citizenship: string, location: string, start: Option<int>, now: Clock)
    requires ValidClock(now) && ReadsFrom(c, start) && CitizenshipKey(c, citizenship)
    requires Foreign(citizenship, location)
    ensures var dates := StartDateAlerts(e, c, start, location, now);
      VisaAlertsFor(e, c, citizenship, location, start, now) ==
        if dates.Err? then Err(dates.error) else Ok([Sponsorship(c)] + dates.value)
  {
  }

  lemma DatesPast(e: Engine, c: CandidateProfile, day: int, location: string, now: Clock)
    requires ValidClock(now) && ReadsFrom(c, Some(day))
    requires DaysUntil(day, now) < 0
    ensures StartDateAlerts(e, c, Some(day), location, now) == Ok([Alert(DataError, High, StartDateInPast(c.startDate.value))])
  {
  }

  lemma DatesSoon(e: Engine, c: CandidateProfile, day: int, location: string, now: Clock)
    requires ValidClock(now) && ReadsFrom(c, Some(day))
    requires 0 <= DaysUntil(day, now) < NeededDays(e, location)
    ensures var needed := NeededDays(e, location);
      StartDateAlerts(e, c, Some(day), location, now) ==
        if now.day + needed + StartBuffer > MaxOrdinal then Err(OverflowError)
        else Ok([Alert(ComplianceRisk, Critical, StartDateTooSoon(DaysUntil(day, now), c.locationCountry, needed,
                                                                   now.day + needed + StartBuffer))])
  {
    var needed := NeededDays(e, location);
    if now.day + needed + StartBuffer > MaxOrdinal {
      assert AddDays(now.day, needed + StartBuffer) == Err(OverflowError);
    } else {
      assert AddDays(now.day, needed + StartBuffer) == Ok(now.day + needed + StartBuffer);
    }
  }

  lemma DatesFar(e: Engine, c: CandidateProfile, day: int, location: string, now: Clock)
    requires ValidClock(now) && ReadsFrom(c, Some(day))
    requires DaysUntil(day, now) >= 0 && DaysUntil(day, now) >= NeededDays(e, location)
    ensures StartDateAlerts(e, c, Some(day), location, now) == Ok([])
  {
  }

  /** The visa alerts once the date alerts are known to be `[]` or one alert. */
  lemma ThenNone(visa: Result<seq<Alert>, Error>, first: Alert, dates: Result<seq<Alert>, Error>)
    requires visa == (if dates.Err? then Err(dates.error) else Ok([first] + dates.value))
    requires dates == Ok([])
    ensures visa == Ok([first])
  {
    assert [first] + [] == [first];
  }

  lemma ThenOne(visa: Result<seq<Alert>, Error>, first: Alert, dates: Result<seq<Alert>, Error>, second: Alert)
    requires visa == (if dates.Err? then Err(dates.error) else Ok([first] + dates.value))
    requires dates == Ok([second])
    ensures visa == Ok([first, second])
  {
    assert [first] + [second] == [first, second];
  }

  // The facts below fix the normalised countries as `citizenship` and `location` of a
  // hire that needs a visa; `VisaAlertsFrom` is the check on the keys `NormalizeCountry`
  // gives.

  /** A start date that is missing or cannot be read suppresses every date alert. */
  lemma UnreadStartDate(e: Engine, c: CandidateProfile, citizenship: string, location: string, now: Clock)
    requires ValidClock(now) && CitizenshipKey(c, citizenship)
    requires Foreign(citizenship, location)
    ensures VisaAlertsFor(e, c, citizenship, location, None, now) == Ok([Sponsorship(c)])
  {
    VisaWithDates(e, c, citizenship, location, None, now);
    ThenNone(VisaAlertsFor(e, c, citizenship, location, None, now), Sponsorship(c), StartDateAlerts(e, c, None, location, now));
  }

  /** A start date in the past gives exactly one data error and no compliance risk. */
  lemma PastStartDate(e: Engine, c: CandidateProfile, citizenship: string, location: string, day: int, now: Clock)
    requires ValidClock(now) && ReadsFrom(c, Some(day)) && CitizenshipKey(c, citizenship)
    requires Foreign(citizenship, location) && DaysUntil(day, now) < 0
    ensures VisaAlertsFor(e, c, citizenship, location, Some(day), now) ==
      Ok([Sponsorship(c), Alert(DataError, High, StartDateInPast(c.startDate.value))])
    ensures forall a :: a in VisaAlertsFor(e, c, citizenship, location, Some(day), now).value ==> a.kind != ComplianceRisk
  {
    DatesPast(e, c, day, location, now);
    VisaWithDates(e, c, citizenship, location, Some(day), now);
    var past := Alert(DataError, High, StartDateInPast(c.startDate.value));
    ThenOne(VisaAlertsFor(e, c, citizenship, location, Some(day), now), Sponsorship(c),
            StartDateAlerts(e, c, Some(day), location, now), past);
  }

  /** A start date closer than the lead time is a critical risk, with a suggested start
      the lead time plus a week after today; that suggestion overflows past the last day. */
  lemma StartTooSoon(e: Engine, c: CandidateProfile, citizenship: string, location: string, day: int, now: Clock)
    requires ValidClock(now) && ReadsFrom(c, Some(day)) && CitizenshipKey(c, citizenship)
    requires Foreign(citizenship, location)
    requires 0 <= DaysUntil(day, now) < NeededDays(e, location)
    ensures var needed := NeededDays(e, location);
      VisaAlertsFor(e, c, citizenship, location, Some(day), now) ==
        if now.day + needed + StartBuffer > MaxOrdinal then Err(OverflowError)
        else Ok([Sponsorship(c),
          Alert(ComplianceRisk, Critical, StartDateTooSoon(DaysUntil(day, now), c.locationCountry, needed,
                                                           now.day + needed + StartBuffer))])
  {
    var needed := NeededDays(e, location);
    DatesSoon(e, c, day, location, now);
    VisaWithDates(e, c, citizenship, location, Some(day), now);
    if now.day + needed + StartBuffer <= MaxOrdinal {
      var soon := Alert(ComplianceRisk, Critical, StartDateTooSoon(DaysUntil(day, now), c.locationCountry, needed,
                                                                   now.day + needed + StartBuffer));
      ThenOne(VisaAlertsFor(e, c, citizenship, location, Some(day), now), Sponsorship(c),
              StartDateAlerts(e, c, Some(day), location, now), soon);
    }
  }

  /** A start date at least the lead time ahead needs no date alert. */
  lemma StartFarEnough(e: Engine, c: CandidateProfile, citizenship: string, location: string, day: int, now: Clock)
    requires ValidClock(now) && ReadsFrom(c, Some(day)) && CitizenshipKey(c, citizenship)
    requires Foreign(citizenship, location) && DaysUntil(day, now) >= 0
    requires DaysUntil(day, now) >= NeededDays(e, location)
    ensures VisaAlertsFor(e, c, citizenship, location, Some(day), now) == Ok([Sponsorship(c)])
  {
    DatesFar(e, c, day, location, now);
    VisaWithDates(e, c, citizenship, location, Some(day), now);
    ThenNone(VisaAlertsFor(e, c, citizenship, location, Some(day), now), Sponsorship(c),
             StartDateAlerts(e, c, Some(day), location, now));
  }

  /** Starting today counts as starting in the past unless it is exactly midnight. At
      midnight it is zero days away: enough for no lead time, too soon for any other. */
  lemma StartingToday(e: Engine, c: CandidateProfile, citizenship: string, location: string, now: Clock)
    requires ValidClock(now) && c.startDate.Some? && CitizenshipKey(c, citizenship)
    requires Foreign(citizenship, location)
    ensures now.micros != 0 ==>
      VisaAlertsFor(e, c, citizenship, location, Some(now.day), now) ==
        Ok([Sponsorship(c), Alert(DataError, High, StartDateInPast(c.startDate.value))])
    ensures now.micros == 0 && NeededDays(e, location) <= 0 ==>
      VisaAlertsFor(e, c, citizenship, location, Some(now.day), now) == Ok([Sponsorship(c)])
    ensures var needed := NeededDays(e, location);
      now.micros == 0 && needed >= 1 ==>
      VisaAlertsFor(e, c, citizenship, location, Some(now.day), now) ==
        if now.day + needed + StartBuffer > MaxOrdinal then Err(OverflowError)
        else Ok([Sponsorship(c),
          Alert(ComplianceRisk, Critical, StartDateTooSoon(0, c.locationCountry, needed, now.day + needed + StartBuffer))])
  {
    if now.micros != 0 {
      PastStartDate(e, c, citizenship, location, now.day, now);
    } else if NeededDays(e, location) <= 0 {
      StartFarEnough(e, c, citizenship, location, now.day, now);
    } else {
      assert DaysUntil(now.day, now) == 0;
      StartTooSoon(e, c, citizenship, location, now.day, now);
    }
  }

  /** A start date exactly the lead time away is enough only at midnight; any later in
      the day it counts one day short and becomes a risk. */
  lemma LeadTimeBoundary(e: Engine, c: CandidateProfile, citizenship: string, location: string, now: Clock)
    requires ValidClock(now) && c.startDate.Some? && CitizenshipKey(c, citizenship)
    requires Foreign(citizenship, location)
    requires NeededDays(e, location) >= 1 && now.day + NeededDays(e, location) + StartBuffer <= MaxOrdinal
    ensures var needed := NeededDays(e, location);
      now.micros == 0 ==> VisaAlertsFor(e, c, citizenship, location, Some(now.day + needed), now) == Ok([Sponsorship(c)])
    ensures var needed := NeededDays(e, location);
      now.micros != 0 ==>
        VisaAlertsFor(e, c, citizenship, location, Some(now.day + needed), now) == Ok([Sponsorship(c),
          Alert(ComplianceRisk, Critical, StartDateTooSoon(needed - 1, c.locationCountry, needed, now.day + needed + StartBuffer))])
  {
    var needed := NeededDays(e, location);
    if now.micros == 0 {
      assert DaysUntil(now.day + needed, now) == needed;
      StartFarEnough(e, c, citizenship, location, now.day + needed, now);
    } else {
      assert DaysUntil(now.day + needed, now) == needed - 1;
      StartTooSoon(e, c, citizenship, location, now.day + needed, now);
    }
  }

  /** The lead times of the engine's table, and the default for any other key. */
  lemma StandardLeadTimes(location: string)
    ensures NeededDays(Standard, "united arab emirates") == 21
    ensures NeededDays(Standard, "germany") == 60
    ensures NeededDays(Standard, "united kingdom") == 45
    ensures location !in {"united arab emirates", "germany", "united kingdom"} ==>
      NeededDays(Standard, location) == DefaultVisaDays
  {
  }

  /** The engine's minimum wages. They are keyed by canonical name only, so a location
      given by an alias finds its minimum only once it is normalised. */
  lemma StandardMinimumWages(location: string)
    ensures Standard.minimumWages["germany"] == WageRule(40000, "EUR")
    ensures Standard.minimumWages["united kingdom"] == WageRule(25000, "GBP")
    ensures Standard.minimumWages["united arab emirates"] == WageRule(5000, "AED")
    ensures location in Standard.minimumWages <==> location in {"germany", "united kingdom", "united arab emirates"}
    ensures location in Standard.countryAliases ==> location !in Standard.minimumWages
  {
  }

  // ---------------------------------------------------------------------------
  // The wage check
  // ---------------------------------------------------------------------------

  /** At most one wage alert, raised exactly when a nonzero salary is strictly below the
      minimum of a location that has one; it names the normalised location. */
  lemma WageAlertIff(e: Engine, c: CandidateProfile)
    ensures |WageAlerts(e, c)| <= 1
    ensures var location := NormalizeCountry(e, Some(c.locationCountry));
      WageAlerts(e, c) != [] <==>
        c.salary.Some? && c.salary.value != 0.0 && location in e.minimumWages &&
        c.salary.value < e.minimumWages[location].amount as real
    ensures var location := NormalizeCountry(e, Some(c.locationCountry));
      WageAlerts(e, c) != [] ==>
        WageAlerts(e, c)[0] == Alert(ComplianceRisk, High, LowSalary(c.salary.value, location, e.minimumWages[location].amount))
  {
  }

  /** No salary, or a zero one, is never checked. */
  lemma NoSalaryNoWageAlert(e: Engine, c: CandidateProfile)
    requires c.salary == None || c.salary == Some(0.0)
    ensures WageAlerts(e, c) == []
  {
  }

  /** A salary equal to the minimum passes: the comparison is strict. */
  lemma SalaryAtMinimum(e: Engine, c: CandidateProfile)
    requires var location := NormalizeCountry(e, Some(c.locationCountry));
      location in e.minimumWages && c.salary == Some(e.minimumWages[location].amount as real)
    ensures WageAlerts(e, c) == []
  {
  }

  /** The date alerts read only the start date and the location as given. */
  lemma DatesReadOnly(e: Engine, c: CandidateProfile, d: CandidateProfile, start: Option<int>, location: string, now: Clock)
    requires ValidClock(now) && ReadsFrom(c, start)
    requires c.startDate == d.startDate && c.locationCountry == d.locationCountry
    ensures StartDateAlerts(e, c, start, location, now) == StartDateAlerts(e, d, start, location, now)
  {
  }

  /** The visa check reads only the citizenship, the location and the start date. */
  lemma VisaReadsOnly(e: Engine, c: CandidateProfile, d: CandidateProfile, start: Option<int>, now: Clock)
    requires ValidClock(now) && ReadsFrom(c, start)
    requires c.citizenship == d.citizenship && c.locationCountry == d.locationCountry && c.startDate == d.startDate
    ensures VisaAlertsFrom(e, c, start, now) == VisaAlertsFrom(e, d, start, now)
  {
    var citizenship, location := NormalizeCountry(e, c.citizenship), NormalizeCountry(e, Some(c.locationCountry));
    if Foreign(citizenship, location) {
      DatesReadOnly(e, c, d, start, location, now);
      VisaWithDates(e, c, citizenship, location, start, now);
      VisaWithDates(e, d, citizenship, location, start, now);
    }
  }

  /** The wage check reads only the salary and the location: the currency the candidate
      is paid in is never consulted, nor is the amount converted. */
  lemma WageReadsOnly(e: Engine, c: CandidateProfile, d: CandidateProfile)
    requires c.salary == d.salary && c.locationCountry == d.locationCountry
    ensures WageAlerts(e, c) == WageAlerts(e, d)
  {
  }

  /** The analysis in terms of its three parts. */
  lemma EvaluateParts(e: Engine, c: CandidateProfile, start: Option<int>, now: Clock)
    requires ValidClock(now) && ReadsFrom(c, start)
    ensures var visa, dates := VisaAlertsFrom(e, c, start, now), KeyDatesFrom(start);
      EvaluateFrom(e, c, start, now) ==
        if visa.Err? then Err(visa.error)
        else if dates.Err? then Err(dates.error)
        else Ok(Report(visa.value + WageAlerts(e, c), dates.value))
  {
  }

  /** The report once the visa alerts and the projected dates are known. */
  lemma EvaluateOf(e: Engine, c: CandidateProfile, start: Option<int>, now: Clock,
                   visa: seq<Alert>, dates: map<string, string>)
    requires ValidClock(now) && ReadsFrom(c, start)
    requires VisaAlertsFrom(e, c, start, now) == Ok(visa) && KeyDatesFrom(start) == Ok(dates)
    ensures EvaluateFrom(e, c, start, now) == Ok(Report(visa + WageAlerts(e, c), dates))
  {
  }

  /** The report of two visa alerts and one wage alert. */
  lemma EvaluateOfThree(e: Engine, c: CandidateProfile, start: Option<int>, now: Clock,
                        first: Alert, second: Alert, wage: Alert, dates: map<string, string>)
    requires ValidClock(now) && ReadsFrom(c, start)
    requires VisaAlertsFrom(e, c, start, now) == Ok([first, second]) && KeyDatesFrom(start) == Ok(dates)
    requires WageAlerts(e, c) == [wage]
    ensures EvaluateFrom(e, c, start, now) == Ok(Report([first, second, wage], dates))
  {
    EvaluateOf(e, c, start, now, [first, second], dates);
    assert [first, second] + [wage] == [first, second, wage];
  }

  /** Name, role, email, currency and equity do not change what the engine reports. */
  lemma UnreadFields(e: Engine, c: CandidateProfile, start: Option<int>, now: Clock,
                     name: string, role: string, email: Option<string>, currency: Option<string>, equity: bool)
    requires ValidClock(now) && ReadsFrom(c, start)
    ensures var d := c.(name := name, role := role, email := email, currency := currency, equityGrant := equity);
      EvaluateFrom(e, d, start, now) == EvaluateFrom(e, c, start, now)
  {
    var d := c.(name := name, role := role, email := email, currency := currency, equityGrant := equity);
    VisaReadsOnly(e, c, d, start, now);
    WageReadsOnly(e, c, d);
    EvaluateParts(e, c, start, now);
    EvaluateParts(e, d, start, now);
  }

  // ---------------------------------------------------------------------------
  // The whole analysis
  // ---------------------------------------------------------------------------

  /** The report lists the visa alerts, then the wage alerts, at most three in all; it
      projects the end of probation 180 days after a start date that can be read, and
      nothing else. */
  lemma ReportShape(e: Engine, c: CandidateProfile, start: Option<int>, now: Clock)
    requires ValidClock(now) && ReadsFrom(c, start)
    requires EvaluateFrom(e, c, start, now).Ok?
    ensures var r := EvaluateFrom(e, c, start, now).value;
      VisaAlertsFrom(e, c, start, now).Ok? && r.alerts == VisaAlertsFrom(e, c, start, now).value + WageAlerts(e, c) &&
      |r.alerts| <= 3 &&
      r.projectedDates.Keys <= {ProbationEnd} &&
      (ProbationEnd in r.projectedDates <==> start.Some?) &&
      (ProbationEnd in r.projectedDates ==> r.projectedDates[ProbationEnd] == Format(start.value + ProbationDays))
  {
    EvaluateParts(e, c, start, now);
    ReportAlerts(e, c, start, now);
    ReportDates(start);
  }

  lemma ReportAlerts(e: Engine, c: CandidateProfile, start: Option<int>, now: Clock)
    requires ValidClock(now) && ReadsFrom(c, start)
    requires VisaAlertsFrom(e, c, start, now).Ok?
    ensures |VisaAlertsFrom(e, c, start, now).value + WageAlerts(e, c)| <= 3
  {
    VisaAtMostTwo(e, c, start, now);
    WageAlertIff(e, c);
  }

  lemma ReportDates(start: Option<int>)
    requires start.Some? ==> ValidOrdinal(start.value)
    requires KeyDatesFrom(start).Ok?
    ensures var dates := KeyDatesFrom(start).value;
      dates.Keys <= {ProbationEnd} &&
      (ProbationEnd in dates <==> start.Some?) &&
      (ProbationEnd in dates ==> dates[ProbationEnd] == Format(start.value + ProbationDays))
  {
    if start.Some? {
      ProbationProjection(start.value);
    }
  }

  /** The analysis raises exactly when the visa check raises or when the end of
      probation falls after 9999-12-31. */
  lemma ReportErrIff(e: Engine, c: CandidateProfile, start: Option<int>, now: Clock)
    requires ValidClock(now) && ReadsFrom(c, start)
    ensures EvaluateFrom(e, c, start, now).Err? <==>
      VisaAlertsFrom(e, c, start, now).Err? || (start.Some? && start.value + ProbationDays > MaxOrdinal)
  {
  }

  /** A start date that can be read projects the end of probation 180 days later, and
      raises when that day would fall after 9999-12-31. */
  lemma ProbationProjection(start: int)
    requires ValidOrdinal(start)
    ensures KeyDatesFrom(Some(start)) ==
      if start + ProbationDays <= MaxOrdinal then Ok(map[ProbationEnd := Format(start + ProbationDays)])
      else Err(OverflowError)
  {
  }

  /** The end of probation is projected even when the visa check says nothing. */
  lemma ProbationWithoutVisa(e: Engine, c: CandidateProfile, start: int, now: Clock)
    requires ValidClock(now) && ReadsFrom(c, Some(start))
    requires VisaAlertsFrom(e, c, Some(start), now) == Ok([]) && start + ProbationDays <= MaxOrdinal
    ensures EvaluateFrom(e, c, Some(start), now) ==
      Ok(Report(WageAlerts(e, c), map[ProbationEnd := Format(start + ProbationDays)]))
  {
    ProbationProjection(start);
    EvaluateOf(e, c, Some(start), now, [], map[ProbationEnd := Format(start + ProbationDays)]);
    assert [] + WageAlerts(e, c) == WageAlerts(e, c);
  }

  /** A profile left entirely at its defaults reports nothing and projects nothing. */
  lemma DefaultProfileQuiet(e: Engine, now: Clock)
    requires ValidClock(now)
    requires Unknown !in e.countryAliases
    ensures Evaluate(e, DefaultProfile, now) == Ok(Report([], map[]))
  {
    UnknownLiteral(e);
    assert Parse(DefaultProfile.startDate) == None;
    assert VisaAlertsFrom(e, DefaultProfile, None, now) == Ok([]);
    assert WageAlerts(e, DefaultProfile) == [];
    assert KeyDatesFrom(None) == Ok(map[]);
    EvaluateParts(e, DefaultProfile, None, now);
    var none: seq<Alert> := [];
    assert none + none == none;
  }
}
