/** `generate_flexible_travel_plan`: the interface path that turns a free
    description, a destination and a loose date text into a preference
    record, refines it and asks for an itinerary. What `dateutil` reads
    out of the date text is a parameter, and so is the service's answer. */
module Flexible {
  import opened Strings
  import opened Values
  import opened Calendar
  import opened Preferences
  import opened Prompt

  /** `'next' in dates.lower() or 'summer' in dates.lower()` */
  predicate MentionsSummer(dates: string) {
    Contains(Lower(dates), "next") || Contains(Lower(dates), "summer")
  }

  /** `datetime.now().replace(month=7, day=1)` */
  function SummerStart(now: Date): (r: Date)
    requires ValidDate(now)
    ensures ValidDate(r)
  {
    Date(now.year, 7, 1)
  }

  /** The record before any date: the description and the destination. */
  function BaseRequest(description: string, destination: string): Record {
    map["interest_description" := Text(description), "destination" := Text(destination)]
  }

  /** The request with a start date stored and, when there is one, an end
      date: no other field changes. */
  function Dated(request: Record, start: string, end: Option<string>): (r: Record)
    ensures r.Keys - {"start_date", "end_date"} == request.Keys - {"start_date", "end_date"}
    ensures forall k | k in request && k != "start_date" && k != "end_date" :: k in r && r[k] == request[k]
    ensures "start_date" in r && r["start_date"] == Text(start)
    ensures "end_date" in r <==> "end_date" in request || end.Some?
    ensures end.Some? ==> r["end_date"] == Text(end.value)
    ensures end.None? && "end_date" in request ==> r["end_date"] == request["end_date"]
  {
    var started := request["start_date" := Text(start)];
    match end
    case None => started
    case Some(e) => started["end_date" := Text(e)]
  }

  /** The dates the date text adds to a request. `parsed` is what
      `parse(dates, fuzzy=True)` returns, None where it raises. A parsed
      date less than a week before the end of the calendar sets the start
      date and then raises on the end date; the bare `except` keeps the
      start. Only the two dates can change. */
  function WithDates(request: Record, dates: string, now: Date, parsed: Option<Date>): (r: Record)
    requires ValidDate(now)
    requires parsed.Some? ==> ValidDate(parsed.value)
    ensures r.Keys - {"start_date", "end_date"} == request.Keys - {"start_date", "end_date"}
    ensures forall k | k in request && k != "start_date" && k != "end_date" :: k in r && r[k] == request[k]
    ensures "start_date" in r <==>
      "start_date" in request || (dates != [] && (MentionsSummer(dates) || parsed.Some?))
    ensures "end_date" in r <==> "end_date" in request || DatesGiven(dates, parsed)
  {
    if dates == [] then request
    else if MentionsSummer(dates) then
      var start := SummerStart(now);
      TenDaysAfterJulyFirst(now.year);
      Dated(request, FormatDate(start), Some(FormatDate(AddDays(start, 10).value)))
    else match parsed
      case None => request
      case Some(d) =>
        var end := AddDays(d, 7);
        Dated(request, FormatDate(d), if end.Some? then Some(FormatDate(end.value)) else None)
  }

  /** The record the flexible path hands to refinement. */
  function FlexibleRequest(description: string, destination: string, dates: string, now: Date,
                           parsed: Option<Date>): Record
    requires ValidDate(now)
    requires parsed.Some? ==> ValidDate(parsed.value)
  {
    WithDates(BaseRequest(description, destination), dates, now, parsed)
  }

  /** Whether the date text gives the record both dates. */
  predicate DatesGiven(dates: string, parsed: Option<Date>)
    requires parsed.Some? ==> ValidDate(parsed.value)
  {
    dates != [] && (MentionsSummer(dates) || (parsed.Some? && AddDays(parsed.value, 7).Some?))
  }

  /** Adding dates touches no other field, and gives both dates exactly
      when the date text does. */
  lemma WithDatesFields(request: Record, dates: string, now: Date, parsed: Option<Date>)
    requires ValidDate(now)
    requires parsed.Some? ==> ValidDate(parsed.value)
    requires "start_date" !in request && "end_date" !in request
    ensures var r := WithDates(request, dates, now, parsed);
      && r.Keys - {"start_date", "end_date"} == request.Keys
      && (forall k | k in request :: r[k] == request[k])
      && (!NeedsDates(r) <==> DatesGiven(dates, parsed))
  {
    var r := WithDates(request, dates, now, parsed);
    if DatesGiven(dates, parsed) {
      assert "start_date" in r && r["start_date"].Text? && r["start_date"].s != [];
      assert "end_date" in r && r["end_date"].Text? && r["end_date"].s != [];
    } else {
      assert "end_date" !in r;
    }
  }

  /** The request holds the description and the destination, both dates
      exactly when the date text gives them, and no interests, budget or
      other preference. */
  lemma RequestFields(description: string, destination: string, dates: string, now: Date, parsed: Option<Date>)
    requires ValidDate(now)
    requires parsed.Some? ==> ValidDate(parsed.value)
    ensures var r := FlexibleRequest(description, destination, dates, now, parsed);
      && Get(r, "destination") == Text(destination)
      && InterestInput(r) == Text(description)
      && (!NeedsDates(r) <==> DatesGiven(dates, parsed))
      && NeedsBudget(r) && NeedsInterests(r)
      && r.Keys <= {"interest_description", "destination", "start_date", "end_date"}
  {
    WithDatesFields(BaseRequest(description, destination), dates, now, parsed);
  }

  /** A date text that mentions "next" or "summer" asks for July 1 to
      July 11 of the current year. */
  lemma SummerDates(description: string, destination: string, dates: string, now: Date, parsed: Option<Date>)
    requires ValidDate(now)
    requires parsed.Some? ==> ValidDate(parsed.value)
    requires dates != [] && MentionsSummer(dates)
    ensures var r := FlexibleRequest(description, destination, dates, now, parsed);
      && "start_date" in r && r["start_date"].Text? && ParseDate(r["start_date"].s) == Some(Date(now.year, 7, 1))
      && "end_date" in r && r["end_date"].Text? && ParseDate(r["end_date"].s) == Some(Date(now.year, 7, 11))
  {
    TenDaysAfterJulyFirst(now.year);
    FormatDateRoundTrip(SummerStart(now));
    FormatDateRoundTrip(Date(now.year, 7, 11));
  }

  /** Any other date text that parses asks for a week from the parsed
      date. */
  lemma ParsedDates(description: string, destination: string, dates: string, now: Date, d: Date, e: Date)
    requires ValidDate(now) && ValidDate(d)
    requires dates != [] && !MentionsSummer(dates)
    requires AddDays(d, 7) == Some(e)
    ensures var r := FlexibleRequest(description, destination, dates, now, Some(d));
      && "start_date" in r && r["start_date"].Text? && ParseDate(r["start_date"].s) == Some(d)
      && "end_date" in r && r["end_date"].Text? && ParseDate(r["end_date"].s) == Some(e)
  {
    FormatDateRoundTrip(d);
    FormatDateRoundTrip(e);
  }

  /** A parsed date whose week runs past the calendar leaves only a start
      date, which refinement then replaces along with the end. */
  lemma OverflowingWeek(description: string, destination: string, dates: string, now: Date, d: Date)
    requires ValidDate(now) && ValidDate(d)
    requires dates != [] && !MentionsSummer(dates)
    requires AddDays(d, 7).None?
    ensures var r := FlexibleRequest(description, destination, dates, now, Some(d));
      && "start_date" in r && "end_date" !in r && NeedsDates(r)
  {
  }

  /** Refinement of a record with a destination text, no interests and an
      interest description text: what it raises, and otherwise a record
      a prompt can be built from. */
  lemma RequestOutcome(raw: Record, now: Date, floatRepr: real -> string, destination: string)
    requires ValidDate(now)
    requires Get(raw, "destination") == Text(destination)
    requires NeedsInterests(raw) && InterestInput(raw).Text?
    ensures destination == [] ==> Refined(raw, now, floatRepr) == Failure(MissingDestination)
    ensures destination != [] && NeedsDates(raw) && now.year == MaxYear && now.month == 12 ==>
      Refined(raw, now, floatRepr) == Failure(DateOverflow)
    ensures destination != [] && (!NeedsDates(raw) || now.year < MaxYear || now.month < 12) ==>
      && Refined(raw, now, floatRepr).Success?
      && BuildPrompt(Refined(raw, now, floatRepr).value, floatRepr).Success?
  {
    RefineErrors(raw, now, floatRepr);
    if Refined(raw, now, floatRepr).Success? {
      RefinedPrompts(raw, now, floatRepr);
    }
  }

  /** The reply to the `ValueError` of refinement. */
  function Clarification(e: Error): string {
    "Input Clarification Needed: " + Message(e)
  }

  /** The reply to any other error on the way to an itinerary. */
  function Reported(e: Error): string {
    "Error generating travel plan: " + Message(e)
  }

  /** What refinement makes of a flexible request. */
  lemma PlanOutcome(description: string, destination: string, dates: string, now: Date,
                    parsed: Option<Date>, floatRepr: real -> string)
    requires ValidDate(now)
    requires parsed.Some? ==> ValidDate(parsed.value)
    ensures var refined := Refined(FlexibleRequest(description, destination, dates, now, parsed), now, floatRepr);
      && (destination == [] ==> refined == Failure(MissingDestination))
      && (destination != [] && !DatesGiven(dates, parsed) && now.year == MaxYear && now.month == 12 ==>
            refined == Failure(DateOverflow))
      && (destination != [] && (DatesGiven(dates, parsed) || now.year < MaxYear || now.month < 12) ==>
            refined.Success? && BuildPrompt(refined.value, floatRepr).Success?)
  {
    var request := FlexibleRequest(description, destination, dates, now, parsed);
    RequestFields(description, destination, dates, now, parsed);
    RequestOutcome(request, now, floatRepr, destination);
  }

  /** `generate_flexible_travel_plan(description, destination, dates)`
      with `now` for `datetime.now()`, `parsed` for what `dateutil` reads
      and `generated` for the service's answer: the `ValueError` of a
      missing destination asks for clarification, any other error is
      reported as such. */
  method FlexiblePlan(description: string, destination: string, dates: string, now: Date,
                      parsed: Option<Date>, floatRepr: real -> string, generated: string)
    returns (reply: string)
    requires ValidDate(now)
    requires parsed.Some? ==> ValidDate(parsed.value)
    ensures destination == [] ==> reply == Clarification(MissingDestination)
    ensures destination != [] && !DatesGiven(dates, parsed) && now.year == MaxYear && now.month == 12 ==>
      reply == Reported(DateOverflow)
    ensures destination != [] && (DatesGiven(dates, parsed) || now.year < MaxYear || now.month < 12) ==>
      var refined := Refined(FlexibleRequest(description, destination, dates, now, parsed), now, floatRepr);
      && refined.Success?
      && BuildPrompt(refined.value, floatRepr).Success?
      && reply == CleanResponse(generated, BuildPrompt(refined.value, floatRepr).value)
  {
    var request := FlexibleRequest(description, destination, dates, now, parsed);
    PlanOutcome(description, destination, dates, now, parsed, floatRepr);
    var refined := ValidateAndRefine(request, now, floatRepr);
    if refined.Failure? {
      if refined.error == MissingDestination {
        reply := Clarification(refined.error);
      } else {
        reply := Reported(refined.error);
      }
      return;
    }
    reply := Itinerary(refined.value, floatRepr, generated);
  }

  /** A refinement of a record without interests always yields a prompt:
      both interest fields are then lists. */
  lemma RefinedPrompts(raw: Record, now: Date, floatRepr: real -> string)
    requires ValidDate(now) && Refined(raw, now, floatRepr).Success?
    requires NeedsInterests(raw)
    ensures BuildPrompt(Refined(raw, now, floatRepr).value, floatRepr).Success?
  {
    RefinedInterestsInterpreted(raw, now, floatRepr);
  }
}
