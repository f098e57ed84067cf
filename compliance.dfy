/** The compliance engine: it normalises free-text country names to jurisdiction keys,
    checks whether a hire needs a visa and can start in time, checks the salary against
    a minimum wage, and projects the end of the probation period. */
module Compliance {
  import opened Wrappers
  import opened Text
  import opened Calendar
  import opened Schemas

  /** The key a missing country name normalises to. */
  const Unknown: string := "unknown"
  /** Visa lead time, in days, for a location with no entry in the table. */
  const DefaultVisaDays: int := 30
  /** Days added after the visa lead time when suggesting a new start date. */
  const StartBuffer: int := 7
  /** Length of the probation period, in days. */
  const ProbationDays: int := 180
  /** The one key of the projected dates. */
  const ProbationEnd: string := "probation_end"

  datatype WageRule = WageRule(amount: int, currency: string)

  /** The engine's three read-only tables, all keyed by jurisdiction key or alias. */
  datatype Engine = Engine(
    minimumWages: map<string, WageRule>,
    visaProcessingTimes: map<string, int>,
    countryAliases: map<string, string>)

  /** The tables `ComplianceEngine()` sets up. */
  const Standard: Engine := Engine(
    minimumWages := map[
      "germany" := WageRule(40000, "EUR"),
      "united kingdom" := WageRule(25000, "GBP"),
      "united arab emirates" := WageRule(5000, "AED")],
    visaProcessingTimes := map[
      "united arab emirates" := 21,
      "germany" := 60,
      "united kingdom" := 45],
    countryAliases := map[
      "uae" := "united arab emirates",
      "dubai" := "united arab emirates",
      "abudhabi" := "united arab emirates",
      "u.a.e." := "united arab emirates",
      "abu dhabi" := "united arab emirates",
      "uk" := "united kingdom",
      "britain" := "united kingdom",
      "great britain" := "united kingdom",
      "london" := "united kingdom",
      "england" := "united kingdom",
      "de" := "germany",
      "deutschland" := "germany",
      "berlin" := "germany",
      "munich" := "germany"])

  datatype Kind = WorkflowTrigger | DataError | ComplianceRisk

  datatype Severity = High | Critical

  /** What an alert reports; its message text is rendered from these values, the
      suggested start written as `Format(suggestedStart)`. */
  datatype Detail =
    | SponsorshipRequired(citizenship: string, location: string)
    | StartDateInPast(startDate: string)
    | StartDateTooSoon(daysUntilStart: int, location: string, neededDays: int, suggestedStart: int)
    | LowSalary(salary: real, jurisdiction: string, minimum: int)

  datatype Alert = Alert(kind: Kind, severity: Severity, detail: Detail)

  /** The result of `analyze`: the alerts, and the projected dates by name. */
  datatype Report = Report(alerts: seq<Alert>, projectedDates: map<string, string>)

  // ---------------------------------------------------------------------------
  // Normalisation and table lookups
  // ---------------------------------------------------------------------------

  /** `_normalize_country`: a missing or empty name is `Unknown`; any other name is
      lower-cased and stripped, then replaced by its alias if it has one. */
  function NormalizeCountry(e: Engine, name: Option<string>): (key: string)
    ensures name == None || name == Some("") ==> key == Unknown
  {
    if name == None || name.value == "" then Unknown
    else
      var cleaned := LowerStrip(name.value);
      if cleaned in e.countryAliases then e.countryAliases[cleaned] else cleaned
  }

  /** `visa_processing_times.get(location, 30)`. */
  function NeededDays(e: Engine, location: string): (d: int)
    ensures d in e.visaProcessingTimes.Values || (location !in e.visaProcessingTimes && d == DefaultVisaDays)
  {
    if location in e.visaProcessingTimes then e.visaProcessingTimes[location] else DefaultVisaDays
  }

  // ---------------------------------------------------------------------------
  // The checks, as functions of the candidate
  // ---------------------------------------------------------------------------

  /** `start` can be what `_parse_date` made of the profile's start date: a day that
      exists, and nothing at all from a missing start date. */
  predicate ReadsFrom(c: CandidateProfile, start: Option<int>) {
    start.Some? ==> c.startDate.Some? && ValidOrdinal(start.value)
  }

  /** The alert about the start date that follows a sponsorship alert, given the day
      `start` read from it: none when the start date is missing or unreadable or far
      enough ahead; a data error when it has passed; a risk with a suggested start when
      it leaves less than the lead time. */
  function StartDateAlerts(e: Engine, c: CandidateProfile, start: Option<int>, location: string, now: Clock): (r: Result<seq<Alert>, Error>)
    requires ValidClock(now) && ReadsFrom(c, start)
    ensures r.Ok? ==> |r.value| <= 1
    ensures r == Ok([]) <==>
      start.None? || (DaysUntil(start.value, now) >= 0 && DaysUntil(start.value, now) >= NeededDays(e, location))
    ensures r.Err? ==> start.Some? && 0 <= DaysUntil(start.value, now) < NeededDays(e, location)
  {
    match start
    case None => Ok([])
    case Some(day) =>
      var days := DaysUntil(day, now);
      var needed := NeededDays(e, location);
      if days < 0 then
        Ok([Alert(DataError, High, StartDateInPast(c.startDate.value))])
      else if days < needed then
        match AddDays(now.day, needed + StartBuffer)
        case Err(err) => Err(err)
        case Ok(suggested) =>
          Ok([Alert(ComplianceRisk, Critical, StartDateTooSoon(days, c.locationCountry, needed, suggested))])
      else
        Ok([])
  }

  /** Both country keys are known and they differ, so the hire needs a visa. */
  predicate Foreign(citizenship: string, location: string) {
    citizenship != Unknown && location != Unknown && citizenship != location
  }

  /** The candidate's normalised countries differ and are both known. */
  predicate NeedsSponsorship(e: Engine, c: CandidateProfile) {
    Foreign(NormalizeCountry(e, c.citizenship), NormalizeCountry(e, Some(c.locationCountry)))
  }

  /** `citizenship` can be the normalised citizenship of `c`: a missing one is `Unknown`. */
  predicate CitizenshipKey(c: CandidateProfile, citizenship: string) {
    c.citizenship == None ==> citizenship == Unknown
  }

  /** The first alert of a hire that needs a visa; it quotes both names as given. */
  function Sponsorship(c: CandidateProfile): Alert
    requires c.citizenship.Some?
  {
    Alert(WorkflowTrigger, High, SponsorshipRequired(c.citizenship.value, c.locationCountry))
  }

  /** The alerts `check_visa_requirements` returns, or the error it raises, once it has
      normalised the countries to `citizenship` and `location` and read the day `start`
      from the start date. */
  function VisaAlertsFor(e: Engine, c: CandidateProfile, citizenship: string, location: string,
                         start: Option<int>, now: Clock): (r: Result<seq<Alert>, Error>)
    requires ValidClock(now) && ReadsFrom(c, start) && CitizenshipKey(c, citizenship)
    ensures r.Ok? ==> |r.value| <= 2
    ensures !Foreign(citizenship, location) ==> r == Ok([])
    ensures Foreign(citizenship, location) && r.Ok? ==> r.value != [] && r.value[0] == Sponsorship(c)
  {
    if !Foreign(citizenship, location) then Ok([])
    else
      match StartDateAlerts(e, c, start, location, now)
      case Err(err) => Err(err)
      case Ok(dateAlerts) => Ok([Sponsorship(c)] + dateAlerts)
  }

  /** The alerts `check_visa_requirements` returns, or the error it raises, once it has
      read the day `start` from the start date. */
  function VisaAlertsFrom(e: Engine, c: CandidateProfile, start: Option<int>, now: Clock): (r: Result<seq<Alert>, Error>)
    requires ValidClock(now) && ReadsFrom(c, start)
    ensures r.Ok? ==> |r.value| <= 2
    ensures !NeedsSponsorship(e, c) ==> r == Ok([])
    ensures NeedsSponsorship(e, c) && r.Ok? ==> r.value != [] && r.value[0] == Sponsorship(c)
  {
    VisaAlertsFor(e, c, NormalizeCountry(e, c.citizenship), NormalizeCountry(e, Some(c.locationCountry)), start, now)
  }

  /** The alerts `check_visa_requirements` returns, or the error it raises. */
  function VisaAlerts(e: Engine, c: CandidateProfile, now: Clock): (r: Result<seq<Alert>, Error>)
    requires ValidClock(now)
    ensures r.Ok? ==> |r.value| <= 2
    ensures !NeedsSponsorship(e, c) ==> r == Ok([])
    ensures NeedsSponsorship(e, c) && r.Ok? ==> r.value != [] && r.value[0] == Sponsorship(c)
  {
    VisaAlertsFrom(e, c, Parse(c.startDate), now)
  }

  /** The alerts `check_wage_compliance` returns. */
  function WageAlerts(e: Engine, c: CandidateProfile): (r: seq<Alert>)
    ensures |r| <= 1
    ensures r != [] ==>
      var location := NormalizeCountry(e, Some(c.locationCountry));
      c.salary.Some? && c.salary.value != 0.0 && location in e.minimumWages &&
      c.salary.value < e.minimumWages[location].amount as real
  {
    if c.salary == None || c.salary == Some(0.0) then []
    else
      var location := NormalizeCountry(e, Some(c.locationCountry));
      if location !in e.minimumWages then []
      else
        var rule := e.minimumWages[location];
        if c.salary.value < rule.amount as real then
          [Alert(ComplianceRisk, High, LowSalary(c.salary.value, location, rule.amount))]
        else
          []
  }

  /** The projected dates of `analyze` for the day `start` read from the start date, or
      the error raised when the probation end falls after the last representable day. */
  function KeyDatesFrom(start: Option<int>): (r: Result<map<string, string>, Error>)
    requires start.Some? ==> ValidOrdinal(start.value)
    ensures r.Ok? ==> r.value.Keys == if start.Some? then {ProbationEnd} else {}
    ensures r.Err? <==> start.Some? && start.value + ProbationDays > MaxOrdinal
  {
    match start
    case None => Ok(map[])
    case Some(day) =>
      match AddDays(day, ProbationDays)
      case Err(err) => Err(err)
      case Ok(end) => Ok(map[ProbationEnd := Format(end)])
  }

  /** What `analyze` returns, or the error it raises, once the start date reads as `start`. */
  function EvaluateFrom(e: Engine, c: CandidateProfile, start: Option<int>, now: Clock): (r: Result<Report, Error>)
    requires ValidClock(now) && ReadsFrom(c, start)
    ensures r.Ok? ==> |r.value.alerts| <= 3
    ensures r.Ok? ==> r.value.projectedDates.Keys == if start.Some? then {ProbationEnd} else {}
  {
    match VisaAlertsFrom(e, c, start, now)
    case Err(err) => Err(err)
    case Ok(visa) =>
      match KeyDatesFrom(start)
      case Err(err) => Err(err)
      case Ok(dates) => Ok(Report(visa + WageAlerts(e, c), dates))
  }

  /** What `analyze` returns, or the error it raises. */
  function Evaluate(e: Engine, c: CandidateProfile, now: Clock): (r: Result<Report, Error>)
    requires ValidClock(now)
    ensures r.Ok? ==> |r.value.alerts| <= 3
    ensures r.Ok? ==> r.value.projectedDates.Keys == if Parse(c.startDate).Some? then {ProbationEnd} else {}
  {
    EvaluateFrom(e, c, Parse(c.startDate), now)
  }

  // ---------------------------------------------------------------------------
  // The checks as the engine runs them, building their lists step by step
  // ---------------------------------------------------------------------------

  /** `check_visa_requirements`. */
  method CheckVisaRequirements(e: Engine, c: CandidateProfile, now: Clock) returns (r: Result<seq<Alert>, Error>)
    requires ValidClock(now)
    ensures r == VisaAlerts(e, c, now)
  {
    var alerts: seq<Alert> := [];
    var citizenship := NormalizeCountry(e, c.citizenship);
    var location := NormalizeCountry(e, Some(c.locationCountry));
    if citizenship == Unknown || location == Unknown {
      return Ok(alerts);
    }
    if citizenship == location {
      return Ok([]);
    }
    var sponsorship := Sponsorship(c);
    alerts := alerts + [sponsorship];
    assert alerts == [sponsorship];
    var startDate := Parse(c.startDate);
    if startDate.Some? {
      var days := DaysUntil(startDate.value, now);
      var needed := NeededDays(e, location);
      if days < 0 {
        var past := Alert(DataError, High, StartDateInPast(c.startDate.value));
        assert StartDateAlerts(e, c, startDate, location, now) == Ok([past]);
        alerts := alerts + [past];
      } else if days < needed {
        var suggested := AddDays(now.day, needed + StartBuffer);
        if suggested.Err? {
          assert StartDateAlerts(e, c, startDate, location, now) == Err(suggested.error);
          return Err(suggested.error);
        }
        var soon := Alert(ComplianceRisk, Critical,
                          StartDateTooSoon(days, c.locationCountry, needed, suggested.value));
        assert StartDateAlerts(e, c, startDate, location, now) == Ok([soon]);
        alerts := alerts + [soon];
      } else {
        assert StartDateAlerts(e, c, startDate, location, now) == Ok([]);
        assert alerts == alerts + [];
      }
    } else {
      assert StartDateAlerts(e, c, startDate, location, now) == Ok([]);
      assert alerts == alerts + [];
    }
    return Ok(alerts);
  }

  /** `check_wage_compliance`. */
  method CheckWageCompliance(e: Engine, c: CandidateProfile) returns (alerts: seq<Alert>)
    ensures alerts == WageAlerts(e, c)
  {
    alerts := [];
    if c.salary == None || c.salary == Some(0.0) {
      return;
    }
    var location := NormalizeCountry(e, Some(c.locationCountry));
    if location in e.minimumWages {
      var rule := e.minimumWages[location];
      if c.salary.value < rule.amount as real {
        alerts := alerts + [Alert(ComplianceRisk, High, LowSalary(c.salary.value, location, rule.amount))];
      }
    }
  }

  /** `analyze`: visa alerts, then wage alerts, then the projected dates. */
  method Analyze(e: Engine, c: CandidateProfile, now: Clock) returns (r: Result<Report, Error>)
    requires ValidClock(now)
    ensures r == Evaluate(e, c, now)
  {
    var allAlerts: seq<Alert> := [];
    var visa := CheckVisaRequirements(e, c, now);
    if visa.Err? {
      return Err(visa.error);
    }
    allAlerts := allAlerts + visa.value;
    assert allAlerts == visa.value;
    var wage := CheckWageCompliance(e, c);
    allAlerts := allAlerts + wage;
    var startDate := Parse(c.startDate);
    var keyDates: map<string, string> := map[];
    if startDate.Some? {
      var end := AddDays(startDate.value, ProbationDays);
      if end.Err? {
        assert KeyDatesFrom(startDate) == Err(end.error);
        return Err(end.error);
      }
      keyDates := keyDates[ProbationEnd := Format(end.value)];
      assert KeyDatesFrom(startDate) == Ok(keyDates);
    } else {
      assert KeyDatesFrom(startDate) == Ok(keyDates);
    }
    return Ok(Report(allAlerts, keyDates));
  }
}
