# Invisible Onboarding Engine — a verified model of its compliance core

The onboarding engine takes the notes an HR manager pastes in and turns them into a
candidate profile. It then decides which legal framework the contract follows, picks a
contract template, and runs a compliance engine over the profile. This project models
and proves properties of the deterministic part of that pipeline:

- **The compliance engine** (`ComplianceEngine`), with its three read-only tables:
  minimum wages, visa lead times and country aliases.
  - It normalises free-text country names to jurisdiction keys.
  - It decides whether a hire needs visa sponsorship and whether the start date leaves
    enough time for the visa.
  - It checks the salary against the location's minimum wage.
  - `analyze` runs both checks and projects the end of the 180-day probation.
- **The candidate profile** (`CandidateProfile`) and its defaults.
- **The jurisdiction classifier** (`determine_jurisdiction`). It maps a country to one of
  four framework labels by case-insensitive keyword search.
- **The template selector** (`_select_template_file`). It maps a framework label to a
  template file by the same kind of search.
- **The handler's wiring of the last two.** The selector receives the classifier's label,
  not the country.

Layout, one module per file:

| file | module | models |
|---|---|---|
| `wrappers.dfy` | `Wrappers` | `Option` (Python's `None`) and `Result` (an exception escaping) |
| `text.dfy` | `Text` | `str.lower`, `str.strip` and `k in s` on ASCII text |
| `calendar.dfy` | `Calendar` | proleptic Gregorian ordinals, `strptime`/`strftime` for `%Y-%m-%d`, `timedelta` overflow, `datetime.now()` as a clock value |
| `schemas.dfy` | `Schemas` | `CandidateProfile` and its default record |
| `compliance.dfy` | `Compliance` | the engine's tables; the checks as specification functions; `check_visa_requirements`, `check_wage_compliance` and `analyze` as methods proved equal to them |
| `compliance_facts.dfy` | `ComplianceFacts` | properties of normalisation, of both checks and of the whole analysis |
| `compliance_examples.dfy` | `ComplianceExamples` | the engine's test scenarios, for every reading of the clock |
| `jurisdiction.dfy` | `Jurisdiction` | `determine_jurisdiction` and its properties |
| `templates.dfy` | `Templates` | `_select_template_file`, its corrected form and their properties |
| `pipeline.dfy` | `Pipeline` | the classifier feeding the selector, and the mismatch between them |

Design decisions:

- **The engine's tables are a value.** `Compliance.Engine` holds the three tables. The
  engine never changes them after `__init__`, so they are not modelled as object state.
  `Compliance.Standard` is the table set `__init__` builds. The general facts hold for
  any tables. The concrete examples use `Standard`.
- **The checks exist twice.** First as specification functions:
  - `VisaAlertsFor` takes the normalised keys and the day the start date was read as.
  - `VisaAlertsFrom` takes only the day read.
  - `VisaAlerts`, `WageAlerts` and `Evaluate` take just the profile.

  Then as methods that build their lists step by step, as the source does. Each method's
  `ensures` ties its result to its specification function. The clock is a parameter,
  `Clock(day, micros)`: today's ordinal and the microseconds since midnight.
- **An escaping `OverflowError` is `Err(OverflowError)`.** The source raises it in two
  places, both when a date would fall after 9999-12-31:
  - the suggested start date, today plus the lead time plus 7 days;
  - the probation end, the start plus 180 days.
- **The Dafny names this README uses:**
  - `MaxOrdinal` is the ordinal of 9999-12-31. `ValidOrdinal(n)` says `1 <= n <= MaxOrdinal`.
  - `StartBuffer` is the 7 buffer days and `ProbationDays` the 180 probation days.
  - `ReadsFrom(c, start)` says `start` can be what `_parse_date` made of `c.start_date`.
  - `Foreign(citizenship, location)` says both keys are known and they differ.
  - `CitizenshipKey(c, k)` says a missing citizenship has the key `"unknown"`.
  - `NeedsSponsorship` is `Foreign` of a profile's normalised citizenship and location.
  - `Mentions`, `Cites` and `AnyContains` are "one keyword of the group occurs in the
    lower-cased name", "… in the lower-cased and stripped label" and "… in the text".
  - A label names the framework the classifier returns. Among the templates,
    `ContractorAgreement` is `contractor_agreement.md` and `GermanEmployment` is
    `german_employment.md`.

## Model

| member | source | states |
|---|---|---|
| Compliance.NormalizeCountry | backend/services/compliance.py:44-52 | A missing or empty name normalises to `"unknown"`. The function lower-cases and strips any other name, then replaces it by its alias when the table has one. That part is carried by lemmas rather than by this contract: NormalizeSeesOnlyCleanedName, CanonicalFixedPoints, AliasExamples and BlankNameIsNotUnknown. On the engine's own tables, ComplianceFacts.AliasOf and ComplianceFacts.Unaliased give the key of any name: its alias's target when its cleaned form is an alias, and otherwise the cleaned form. |
| Compliance.NeededDays | backend/services/compliance.py:88 | The lead time of a location is a value of the visa table, or the default of 30 days for a location the table lacks. |
| ComplianceFacts.AliasExamples | backend/services/compliance.py:44-52 | The doc-string spellings and two further aliases normalise to their canonical keys. The doc string's "UAE", "Dubai" and "U.A.E." give "united arab emirates"; " abu dhabi " gives "united arab emirates" and "DE" gives "germany". |
| ComplianceFacts.NormalizeSeesOnlyCleanedName | backend/services/compliance.py:51-52 | Two non-empty names with the same lower-cased, stripped form normalise to the same key. |
| ComplianceFacts.BlankNameIsNotUnknown | backend/services/compliance.py:48-52 | A name made only of whitespace is not treated as missing. It normalises to the empty key, not to `"unknown"`, unless the empty string is an alias. |
| ComplianceFacts.UnknownLiteral | backend/models/schemas.py:16 | The profile's default location "Unknown" normalises to the `"unknown"` sentinel, so a profile left at its defaults skips the visa check. |
| ComplianceFacts.NormalizeIdempotent | backend/services/compliance.py:44-52 | On well-formed tables, normalising a key again gives the same key, for every non-empty key. The empty key is the exception: a blank name such as "  " normalises to "", and "" then normalises to `"unknown"`, because the falsy check at line 48 comes first. |
| ComplianceFacts.StandardWellFormed | backend/services/compliance.py:22-42 | The engine's own alias table is well formed. Every alias leads to a clean, non-empty canonical name that is not itself an alias, and `"unknown"` is not an alias. |
| ComplianceFacts.StandardTargets | backend/services/compliance.py:22-42 | Every alias leads to "united arab emirates", "united kingdom" or "germany". |
| ComplianceFacts.CanonicalNotAliases | backend/services/compliance.py:8-42 | None of the three canonical keys of the wage and visa tables is an alias, and neither is `"unknown"`. |
| ComplianceFacts.CanonicalClean | backend/services/compliance.py:8-18 | The three canonical keys are already lower-case and stripped. |
| ComplianceFacts.CanonicalFixedPoints | backend/services/compliance.py:44-52 | Each canonical key normalises to itself. |
| Compliance.StartDateAlerts | backend/services/compliance.py:83-103 | The start-date check gives at most one alert. It is silent exactly when no day was read, or the day is not before today and at least the lead time ahead. It can raise only for a day that is not before today yet less than the lead time ahead, the case that computes a suggested start. |
| Compliance.VisaAlertsFor | backend/services/compliance.py:64-105 | Given the normalised keys, the visa check gives at most two alerts. It is silent unless the keys are both known and differ, and then the first alert is the sponsorship trigger. |
| Compliance.VisaAlertsFrom | backend/services/compliance.py:60-105 | Given the day read from the start date, the visa check gives at most two alerts. It is silent for a hire that needs no sponsorship, and otherwise it leads with the sponsorship trigger. |
| Compliance.VisaAlerts | backend/services/compliance.py:60-105 | `check_visa_requirements` gives at most two alerts. It is silent for a hire that needs no sponsorship, and otherwise it leads with the sponsorship trigger. |
| ComplianceFacts.VisaSilentIff | backend/services/compliance.py:64-80 | The visa check returns no alert exactly when a normalised country is `"unknown"` or both are equal. Otherwise it reports or raises. |
| ComplianceFacts.LocalHireAnyStartDate | backend/services/compliance.py:71-73 | Equal normalised countries give no visa alert, whatever the start date. |
| ComplianceFacts.VisaAlertsShape | backend/services/compliance.py:76-103 | When a visa is needed, the first alert is the sponsorship trigger quoting both names as given. At most one more alert follows it, a data error or a compliance risk. |
| ComplianceFacts.VisaAtMostTwo | backend/services/compliance.py:60-105 | The visa check never returns more than two alerts. |
| ComplianceFacts.DatesPast | backend/services/compliance.py:91-96 | A start date that counts as before today gives exactly the data error quoting the start date as given. |
| ComplianceFacts.DatesSoon | backend/services/compliance.py:97-103 | A start date fewer than the lead time away gives the critical risk with the day count, the lead time and the suggested start of today plus lead time plus 7. It raises when that suggested start is past 9999-12-31. |
| ComplianceFacts.DatesFar | backend/services/compliance.py:97 | A start date at least the lead time away gives no start-date alert. |
| ComplianceFacts.UnreadStartDate | backend/services/compliance.py:83-84 | For foreign keys, a start date that is missing or unreadable leaves exactly the sponsorship alert. |
| ComplianceFacts.PastStartDate | backend/services/compliance.py:91-96 | For foreign keys, a start date in the past gives the sponsorship alert and the data error. No compliance risk is raised. |
| ComplianceFacts.StartTooSoon | backend/services/compliance.py:97-103 | For foreign keys, a start date closer than the lead time gives the sponsorship alert and the critical risk with the suggestion. It raises on overflow. |
| ComplianceFacts.StartFarEnough | backend/services/compliance.py:97 | For foreign keys, a start date at least the lead time ahead gives only the sponsorship alert. |
| ComplianceFacts.StartingToday | backend/services/compliance.py:85-91 | A start date of today is "in the past" unless it is exactly midnight, because the day count rounds down. At midnight it is zero days away. With a lead time of at least one day that gives the critical risk with 0 days and the suggested start of today plus lead time plus 7, or raises when that start is past 9999-12-31. With no lead time only the sponsorship alert remains. |
| ComplianceFacts.LeadTimeBoundary | backend/services/compliance.py:85-97 | A start date exactly the lead time away passes only at midnight. At any later time of day it counts as one day short and raises the risk. |
| ComplianceFacts.StandardLeadTimes | backend/services/compliance.py:14-18 | The lead times are 21, 60 and 45 days, and any other key gets the default of 30. |
| ComplianceFacts.StandardMinimumWages | backend/services/compliance.py:8-12 | The minimum wages are 40000 EUR, 25000 GBP and 5000 AED for the three canonical keys. No other key has one, so no alias does either: a location finds its minimum only once it is normalised. |
| Compliance.WageAlerts | backend/services/compliance.py:107-125 | `check_wage_compliance` gives at most one alert. There is one only for a present, nonzero salary strictly below the minimum of the normalised location, and only when that location has a minimum. |
| ComplianceFacts.WageAlertIff | backend/services/compliance.py:107-125 | At most one wage alert. It is raised exactly when a present, nonzero salary is strictly below the minimum of a location that has one, and it names the normalised location and that minimum. |
| ComplianceFacts.NoSalaryNoWageAlert | backend/services/compliance.py:109-110 | A missing or zero salary is never checked. |
| ComplianceFacts.SalaryAtMinimum | backend/services/compliance.py:118 | A salary equal to the minimum passes, because the comparison is strict. |
| Compliance.KeyDatesFrom | backend/services/compliance.py:136-139 | The projected dates hold `probation_end` exactly when a day was read, and nothing otherwise. Computing them raises exactly when that day plus 180 is past 9999-12-31. |
| Compliance.EvaluateFrom | backend/services/compliance.py:127-144 | Given the day read from the start date, a report holds at most three alerts. It holds `probation_end`, and no other date, exactly when a day was read. |
| Compliance.Evaluate | backend/services/compliance.py:127-144 | `analyze` reports at most three alerts. Its projected dates hold `probation_end`, and no other date, exactly when the start date reads as a day. |
| ComplianceFacts.DatesReadOnly | backend/services/compliance.py:83-103 | The start-date alerts read only the start date and the location as given. |
| ComplianceFacts.VisaReadsOnly | backend/services/compliance.py:60-105 | The visa check reads only the citizenship, the location and the start date. |
| ComplianceFacts.WageReadsOnly | backend/services/compliance.py:107-125 | The wage check reads only the salary and the location. The currency is never consulted and no conversion is made. |
| ComplianceFacts.EvaluateOf | backend/services/compliance.py:131-144 | Once the visa alerts and the dates are computed, the report lists the visa alerts, then the wage alerts, together with those dates. |
| ComplianceFacts.UnreadFields | backend/services/compliance.py:127-144 | Name, role, email, currency and equity grant do not change what the analysis reports. |
| ComplianceFacts.ReportShape | backend/services/compliance.py:131-144 | A successful report lists the visa alerts, then the wage alerts, at most three in all. Its only possible projected date is `probation_end`. That date is present exactly when the start date was read, and it is the start plus 180 days. |
| ComplianceFacts.ReportErrIff | backend/services/compliance.py:131-139 | The analysis raises exactly when the visa check raises or when start plus 180 days falls past 9999-12-31. |
| ComplianceFacts.ProbationProjection | backend/services/compliance.py:136-139 | A readable start date projects `probation_end` 180 days later, written `%Y-%m-%d`. It raises when that day is past 9999-12-31. |
| ComplianceFacts.ProbationWithoutVisa | backend/services/compliance.py:131-139 | The probation end is projected even when the visa check is silent. |
| ComplianceFacts.DefaultProfileQuiet | backend/models/schemas.py:9-18 | A profile left entirely at its defaults reports no alert and projects no date. |
| Compliance.CheckVisaRequirements | backend/services/compliance.py:60-105 | The alerts the method appends, or the error it raises, are those of the visa specification `VisaAlerts`. |
| Compliance.CheckWageCompliance | backend/services/compliance.py:107-125 | The alerts the method appends are those of `WageAlerts`. |
| Compliance.Analyze | backend/services/compliance.py:127-144 | The report, or the error raised, is that of `Evaluate`. |
| ComplianceExamples.FullNames | tests/test_compliance.py:10-25 | "United Kingdom" and "United Arab Emirates" normalise to their own lower-case keys. |
| ComplianceExamples.VisaRequiredExample | tests/test_compliance.py:10-17 | A British citizen hired in the Emirates, with no start date, gets exactly the sponsorship trigger. |
| ComplianceExamples.LocalHireExample | tests/test_compliance.py:19-25 | An Emirati hired in the Emirates gets no visa alert. |
| ComplianceExamples.MinimumWageFailExample | tests/test_compliance.py:27-36 | 4000 in the Emirates gets exactly one low-salary risk against the 5000 minimum. |
| ComplianceExamples.MinimumWagePassExample | tests/test_compliance.py:38-45 | 6000 in the Emirates gets no wage alert. |
| ComplianceExamples.StartDateInPastExample | tests/test_compliance.py:47-55 | A start date read as ten days ago gives the sponsorship trigger and then the data error quoting the date as given. |
| ComplianceExamples.StartDateInPastFormatted | tests/test_compliance.py:47-55 | The same, for the start date written `%Y-%m-%d` ten days before today, for every time of day. |
| ComplianceExamples.UkHireInUaeVisa | backend/services/compliance.py:60-105 | A British citizen starting in the Emirates ten days from now gets the sponsorship trigger and then the risk. The risk gives 10 days at midnight and 9 otherwise, and suggests today plus 28 days. |
| ComplianceExamples.UkHireInUaeReport | backend/services/compliance.py:127-144 | At 4000 AED, that candidate's report lists sponsorship, the start-date risk, and the low salary, in that order. It projects the probation end 190 days from today. |
| ComplianceExamples.UkHireInUaeFormatted | backend/services/compliance.py:127-144 | The same report, for the start date written `%Y-%m-%d`. |
| Calendar.ToOrdinal | backend/services/compliance.py:85 | The ordinal of a valid date is a valid ordinal, and it falls within its year. |
| Calendar.FromOrdinal | backend/services/compliance.py:139 | A valid ordinal gives a valid date whose ordinal it is. |
| Calendar.OrdinalRoundTrip | backend/services/compliance.py:139 | Every valid date is recovered from its ordinal, so dates and ordinals correspond one to one. |
| Calendar.AddDays | backend/services/compliance.py:139 | Adding days succeeds exactly when the result is between 0001-01-01 and 9999-12-31, and then it gives that day. Otherwise it raises `OverflowError`. |
| Calendar.DaysUntil | backend/services/compliance.py:85 | `(start - now).days` for the midnight of `start` is the difference of the days. It is one less unless the clock reads exactly midnight. |
| Calendar.Parse | backend/services/compliance.py:54-58 | `_parse_date` gives `None` for a missing text. Otherwise it gives a valid ordinal or `None`. ParseFields states which day each accepted spelling reads as. ParseOnlySpellings states that no other text reads as a day. |
| Calendar.ParseFormat | backend/services/compliance.py:56 | Reading back the `%Y-%m-%d` text of any day gives that day. |
| Calendar.ParsePadded | backend/services/compliance.py:56 | The zero-padded four-digit-year text of a valid date reads back as that date's ordinal. |
| Calendar.ParseFields | backend/services/compliance.py:54-58 | Every spelling of the month and day that `%m` and `%d` accept reads as the date those fields name. When that date does not exist, it reads as nothing. |
| Calendar.ParseOnlySpellings | backend/services/compliance.py:54-58 | Only full matches read as a day. The text must be a four-digit year, a dash, an accepted month field, a dash and an accepted day field, with nothing before or after, because `strptime` raises on anything else and the bare `except` returns `None`. |
| Calendar.ParseRejectsImpossible | backend/services/compliance.py:54-58 | Well-formed fields that name no real day read as nothing. Examples are February 29 of a common year, day 31 of a 30-day month, and year 0. |
| Calendar.ParseShortFields | backend/services/compliance.py:56 | A month or day below 10 may be written with one digit, and the day also after a space. "2024-1-5", "2024-01-5" and "2024-1- 5" read as "2024-01-05" does. |
| Calendar.Format | backend/services/compliance.py:139 | `strftime("%Y-%m-%d")` writes ten characters, with dashes at positions 4 and 7 and the day's year as the four-digit field before the first dash. ParseFormat reads it back. |
| Calendar.FormatPadded | backend/services/compliance.py:139 | Writing a valid date's ordinal gives its zero-padded text. |
| Calendar.Pad4 | backend/services/compliance.py:139 | A four-digit year field written out reads back as that year. |
| Calendar.Pad2 | backend/services/compliance.py:139 | A two-digit field is two decimal digits whose value is the number written. |
| Text.Lower | backend/services/compliance.py:51 | Lower-casing keeps the length. Each of 'A'..'Z' becomes the letter 32 code points later, 'a'..'z', and every other character stays as it is. |
| Text.LowerStrip | backend/services/compliance.py:51 | `name.lower().strip()` is Strip of Lower. It holds no upper-case letter and starts and ends with a visible character. |
| Text.Strip | backend/services/pdf_service.py:31 | The stripped text is a slice of the text that drops only whitespace from the front and the back, and it has no whitespace left at either end. |
| Text.LowerStripIdempotent | backend/services/compliance.py:51 | Cleaning a cleaned name changes nothing. |
| Text.StripKeepsContainment | backend/services/pdf_service.py:31-45 | Stripping whitespace never changes whether a keyword with visible ends occurs. |
| Text.Contains | backend/services/ai_service.py:91 | `k in s` holds exactly when `k` occurs at some position of `s`. |
| Text.AnyContains | backend/services/ai_service.py:91 | `any(x in s for x in keys)` holds exactly when some keyword of the group occurs. |
| Jurisdiction.DetermineJurisdiction | backend/services/ai_service.py:81-103 | The classifier always returns one of its four labels. |
| Jurisdiction.DetermineIff | backend/services/ai_service.py:85-103 | Each label is returned exactly when its group is the first, in the order UAE, UK, Germany, that the lower-cased country mentions. An empty country mentions nothing and gets the general agreement. |
| Jurisdiction.LabelsDistinct | backend/services/ai_service.py:92-103 | The four labels are pairwise different. |
| Jurisdiction.DetermineIgnoresCase | backend/services/ai_service.py:88 | Lower-casing the country first changes nothing. |
| Jurisdiction.UaeBeforeUk | backend/services/ai_service.py:91-96 | A country that mentions keywords of both the UAE and the UK groups gets the UAE label. |
| Jurisdiction.UkraineIsUk | backend/services/ai_service.py:95-96 | The bare substring "uk" is enough, so "Ukraine" gets the British label. |
| Jurisdiction.DubaiExample | tests/test_ai_service.py:14 | "Dubai" gets "DIFC Employment Law (UAE)". |
| Jurisdiction.LondonExample | tests/test_ai_service.py:15 | "London" gets "Employment Rights Act 1996 (UK)". |
| Jurisdiction.BerlinExample | tests/test_ai_service.py:16 | "Berlin" gets "German Civil Code (BGB)". |
| Jurisdiction.UnknownPlaceExample | tests/test_ai_service.py:17 | "Unknown Place" gets "General International Contractor Agreement". |
| Templates.SelectTemplateFile | backend/services/pdf_service.py:22-50 | An empty label gets the contractor agreement. Each of the other three templates is chosen only for a label whose lower-cased, stripped form cites its keyword group. |
| Templates.FileNamesDistinct | backend/services/pdf_service.py:28-50 | Different templates have different file names. |
| Templates.SelectIff | backend/services/pdf_service.py:27-50 | Each template is chosen exactly when its group is the first, in the order UAE, UK, Germany, that the lower-cased, stripped label cites. The empty label, and any label that cites nothing, gets the contractor agreement. |
| Templates.SelectIgnoresCleaning | backend/services/pdf_service.py:27-31 | Lower-casing and stripping the label first changes nothing. A label that cleans to nothing is handled like the empty label. |
| Templates.CorrectedOnlyAddsGerman | backend/services/pdf_service.py:44-50 | Adding "german" to the Germany keywords changes the selection only for a label that cites "german" and no earlier group, and it sends that label to the German template. |
| Templates.KeywordsTrimmed | backend/services/pdf_service.py:36-44 | Every keyword of the selector starts and ends with a visible character. |
| Pipeline.ContractTemplate | backend/main.py:23-27 | The handler passes the classifier's label to the selector. Whatever the country, the template loaded is never the German one. |
| Pipeline.SelectorAgreesWithClassifier | backend/services/pdf_service.py:22-50 | Given the country itself, the selector picks the template meant for the classifier's label, for every country. |
| Pipeline.ContractTemplateCases | backend/main.py:23-27 | As wired, the UAE and UK labels get their templates and every other label gets the contractor agreement. The German template is never loaded. The result is the intended one exactly when the label is not the German one. |
| Pipeline.BerlinGetsContractorTemplate | backend/main.py:23-27 | "Berlin" is classified as German, yet its contract comes from the contractor template. |
| Pipeline.CorrectedPipelineIntended | backend/main.py:23-27 | With the corrected selector, every country gets the template meant for its label. |
| Pipeline.UaeLabelSelected | backend/services/pdf_service.py:36-37 | The UAE label selects the UAE template, with both selectors. |
| Pipeline.UkLabelSelected | backend/services/pdf_service.py:40-41 | The UK label selects the UK template, with both selectors. |
| Pipeline.GermanLabelSelected | backend/services/pdf_service.py:44-50 | The German label cites no keyword of the selector and falls back to the contractor agreement. The corrected selector sends it to the German template. |
| Pipeline.GeneralLabelSelected | backend/services/pdf_service.py:47-50 | The general label selects the contractor agreement, with both selectors. |

## Left out

- Extracting the profile from free text with a language model is left out. So are the
  fallback mock profile and the mock response. These are foreign calls whose output
  cannot be predicted.
- Filling the template, rendering the PDF and reading template files are left out. They
  are file I/O. Template files are modelled as the `Templates.Template` datatype, and
  `FileName` gives each file name.
- The HTTP layer, the front end and every `print` are left out. The alerts are modelled
  as values (kind, severity and the quoted facts). The message texts, their emoji and
  `title()` are not modelled. Nor is the handler's mapping of alerts to their messages.
- The clock is a parameter. `check_visa_requirements` reads `datetime.now()` twice; the
  model reads it once, so both reads see the same instant.
- Both methods read the start date with `Parse`, as the source does. The facts take the
  day that was read as a parameter, through `VisaAlertsFrom` and `EvaluateFrom`.
  `VisaAlerts` and `Evaluate` apply these to what `Parse` reads.
- The suggested start date is kept as a day. The message would print it as
  `Calendar.Format` of that day.
- Text.Lower and Text.Strip cover ASCII only. Non-ASCII case mapping and Unicode
  whitespace are not modelled, and neither are Unicode digits, which `strptime`'s `\d`
  accepts.
- Calendar.Format always writes four year digits. On platforms whose `strftime` does not
  pad years below 1000, the written text differs.
- The salary is a real number. Floating-point rounding, NaN and infinities are not
  modelled. Nor is the coercion of an integer salary to a float.
- Passing `None` to `determine_jurisdiction` or `_select_template_file` is not modelled.
  Their parameters are strings. An empty string is handled as the source handles it.
- The day count rounds down (backend/services/compliance.py:85). So a start date exactly
  the lead time away is silent only at midnight; at any other time of day it counts as
  one day short. Calendar.DaysUntil and ComplianceFacts.LeadTimeBoundary state this.
- The tests build and read a `job_family` field (tests/conftest.py:16 and
  tests/test_ai_service.py:28). `CandidateProfile` (backend/models/schemas.py:9-18)
  declares no such field, so the model has none either.

## Findings

| source | as written | input that shows it | evidently intended | confidence | as-written member | corrected member |
|---|---|---|---|---|---|---|
| backend/services/pdf_service.py:44 with backend/main.py:23-27 | `_select_template_file` receives the label `determine_jurisdiction` returns. None of the Germany keywords ("germany", "deutschland", "berlin", "munich") occurs in the German label "German Civil Code (BGB)", so German hires get `contractor_agreement.md`. | location "Berlin" | The German label selects `german_employment.md`, as the UAE and UK labels select their templates. Adding "german" to the Germany keywords does this. | not executed | Pipeline.BerlinGetsContractorTemplate | Pipeline.CorrectedPipelineIntended |
