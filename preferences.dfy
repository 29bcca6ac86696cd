/** `TravelPlannerPromptSystem.validate_and_refine_preferences`: a loose
    preference record becomes a complete one. The record is a value, so
    the copy the source takes before updating is implicit: the caller's
    record cannot change.

    Each update block appears in three forms, each for one proof:
    - `Refined` states the result key by key, through `RefinedField`; the
      `Refined*` properties are read off that form.
    - `BudgetStage`, `InterestStage` and `DateStage` are the blocks as the
      source runs them, each on the record the previous block left;
      `Staged` chains them and `StagedIsRefined` proves the chain equal to
      `Refined`.
    - `RefineBudget`, `RefineInterests` and `RefineDates` are the
      statement-level methods `ValidateAndRefine` runs, each proved equal
      to its stage.
    `BudgetUpdated`, `InterestsUpdated` and `DatesUpdated` are the stages
    with the derived values fixed in advance. They split the proof that
    the stages agree with the key-by-key form into steps small enough for
    the verifier. In the same way, each `Fields*` lemma states a property
    for any derived values, and its `Refined*` partner instantiates it
    with `Derive`. */
module Preferences {
  import opened Strings
  import opened Values
  import opened Budget
  import opened Interests
  import opened Calendar

  /** The exceptions refinement can raise: the `ValueError` for a missing
      destination, the `AttributeError` of calling `.lower()` on an
      interest description that is not a string, and the `OverflowError`
      of a default date past year 9999. */
  datatype Error =
    | MissingDestination
    | NotText(found: Value)
    | DateOverflow

  const DefaultBudgetDescription: string := "moderate budget"
  const DefaultInterestDescription: string := "mix of culture and adventure"

  /** The Python type name of a value that is not a string. */
  function TypeName(v: Value): string {
    match v
    case Null => "NoneType"
    case Text(_) => "str"
    case Int(_) => "int"
    case Float(_) => "float"
    case Infinity => "float"
    case List(_) => "list"
  }

  /** `str(e)` for each error. */
  function Message(e: Error): string {
    match e
    case MissingDestination => "Please specify a destination. For example: 'Tokyo, Japan' or 'European trip'"
    case NotText(v) => "'" + TypeName(v) + "' object has no attribute 'lower'"
    case DateOverflow => "date value out of range"
  }

  /** `d.setdefault(k, v)`: only a missing key is filled in. */
  function SetDefault(d: Record, k: string, v: Value): (r: Record)
    ensures r.Keys == d.Keys + {k}
    ensures r[k] == (if k in d then d[k] else v)
    ensures forall j | j in d && j != k :: r[j] == d[j]
  {
    if k in d then d else d[k := v]
  }

  predicate NeedsBudget(raw: Record) {
    !Truthy(Get(raw, "budget"))
  }

  predicate NeedsInterests(raw: Record) {
    !Truthy(Get(raw, "main_interests"))
  }

  /** `not all(preferences.get(date) for date in ['start_date', 'end_date'])` */
  predicate NeedsDates(raw: Record) {
    !(Truthy(Get(raw, "start_date")) && Truthy(Get(raw, "end_date")))
  }

  function BudgetInput(raw: Record, floatRepr: real -> string): string {
    Str(GetOr(raw, "budget_description", Text(DefaultBudgetDescription)), floatRepr)
  }

  function InterestInput(raw: Record): Value {
    GetOr(raw, "interest_description", Text(DefaultInterestDescription))
  }

  /** The first error refinement meets, in the order the source checks. */
  function RefineError(raw: Record, now: Date): Option<Error>
    requires ValidDate(now)
  {
    if !Truthy(Get(raw, "destination")) then Some(MissingDestination)
    else if NeedsInterests(raw) && !InterestInput(raw).Text? then Some(NotText(InterestInput(raw)))
    else if NeedsDates(raw) && FirstOfNextMonth(now).None? then Some(DateOverflow)
    else None
  }

  /** The keys of the refined record. */
  function RefinedKeys(raw: Record): set<string> {
    raw.Keys
      + {"budget", "main_interests", "start_date", "end_date"}
      + {"dietary_preferences", "mobility_level", "accommodation_type"}
      + (if NeedsInterests(raw) then {"detailed_interests"} else {})
  }

  /** The default start date: the first of the month after now. */
  function DefaultStart(now: Date): Date
    requires ValidDate(now) && FirstOfNextMonth(now).Some?
  {
    FirstOfNextMonth(now).value
  }

  /** The default end date: the seventh of that month. */
  function DefaultEnd(now: Date): Date
    requires ValidDate(now) && FirstOfNextMonth(now).Some?
  {
    Date(DefaultStart(now).year, DefaultStart(now).month, 7)
  }

  /** The values refinement would store in the fields it overwrites;
      `Null` where computing one raises, which refinement then reports. */
  datatype Derived = Derived(
    budget: Value, mainInterests: Value, detailedInterests: Value, startDate: Value, endDate: Value)

  function Derive(raw: Record, now: Date, floatRepr: real -> string): Derived
    requires ValidDate(now)
  {
    var interests := InterestInput(raw);
    var dated := FirstOfNextMonth(now).Some?;
    Derived(
      InterpretBudget(BudgetInput(raw, floatRepr)),
      if interests.Text? then List(Categories(InterestsOf(interests.s))) else Null,
      if interests.Text? then List(AllSubcategories(InterestsOf(interests.s))) else Null,
      if dated then Text(FormatDate(DefaultStart(now))) else Null,
      if dated then Text(FormatDate(DefaultEnd(now))) else Null)
  }

  /** Whether refinement replaces the caller's value under k. */
  predicate Overwritten(raw: Record, k: string) {
    || (k == "budget" && NeedsBudget(raw))
    || ((k == "main_interests" || k == "detailed_interests") && NeedsInterests(raw))
    || ((k == "start_date" || k == "end_date") && NeedsDates(raw))
  }

  /** The value of key k in the refined record, field by field: derived
      where the source derives it, the caller's value where there is one,
      the `setdefault` default otherwise. */
  function RefinedField(raw: Record, k: string, dv: Derived): Value {
    if k == "budget" && NeedsBudget(raw) then dv.budget
    else if k == "main_interests" && NeedsInterests(raw) then dv.mainInterests
    else if k == "detailed_interests" && NeedsInterests(raw) then dv.detailedInterests
    else if k == "start_date" && NeedsDates(raw) then dv.startDate
    else if k == "end_date" && NeedsDates(raw) then dv.endDate
    else if k in raw then raw[k]
    else if k == "dietary_preferences" then Text("No Restrictions")
    else if k == "mobility_level" then Text("Full Mobility")
    else Text("Mid-Range")
  }

  /** The record with the refined keys and the refined field under each. */
  function RefinedFields(raw: Record, dv: Derived): Record {
    map k | k in RefinedKeys(raw) :: RefinedField(raw, k, dv)
  }

  /** What `validate_and_refine_preferences(raw)` returns or raises, with
      `datetime.now()` given as now. A missing or falsy destination is
      the first error; a refined record keeps every key of the caller's,
      and the caller's destination under its own. */
  function Refined(raw: Record, now: Date, floatRepr: real -> string): (r: Result<Record, Error>)
    requires ValidDate(now)
    ensures !Truthy(Get(raw, "destination")) ==> r == Failure(MissingDestination)
    ensures r.Success? ==> raw.Keys <= r.value.Keys && Get(r.value, "destination") == Get(raw, "destination")
    ensures r.Success? ==> Truthy(Get(r.value, "destination"))
  {
    var err := RefineError(raw, now);
    if err.Some? then Failure(err.value)
    else
      var dv := Derive(raw, now, floatRepr);
      FieldsOther(raw, dv, "destination");
      FieldsKeys(raw, dv);
      Success(RefinedFields(raw, dv))
  }

  /** The budget update: only a falsy budget is replaced. */
  function BudgetUpdated(raw: Record, dv: Derived): Record {
    if NeedsBudget(raw) then raw["budget" := dv.budget] else raw
  }

  /** The interest update applied to d: both interest fields are replaced
      when the caller's main interests are falsy. */
  function InterestsUpdated(raw: Record, dv: Derived, d: Record): Record {
    if NeedsInterests(raw)
    then d["main_interests" := dv.mainInterests]["detailed_interests" := dv.detailedInterests]
    else d
  }

  /** The date update applied to d: both dates are replaced unless both of
      the caller's dates are truthy. */
  function DatesUpdated(raw: Record, dv: Derived, d: Record): Record {
    if NeedsDates(raw) then d["start_date" := dv.startDate]["end_date" := dv.endDate] else d
  }

  /** The caller's record after the budget, interest and date updates. */
  function Updated(raw: Record, dv: Derived): Record {
    DatesUpdated(raw, dv, InterestsUpdated(raw, dv, BudgetUpdated(raw, dv)))
  }

  /** The three `setdefault` calls, in the source's order. */
  function WithDefaults(d: Record): Record {
    SetDefault(SetDefault(SetDefault(d, "dietary_preferences", Text("No Restrictions")),
      "mobility_level", Text("Full Mobility")), "accommodation_type", Text("Mid-Range"))
  }

  lemma WithDefaultsFacts(d: Record)
    ensures WithDefaults(d).Keys == d.Keys + {"dietary_preferences", "mobility_level", "accommodation_type"}
    ensures forall k | k in d :: WithDefaults(d)[k] == d[k]
    ensures "dietary_preferences" !in d ==> WithDefaults(d)["dietary_preferences"] == Text("No Restrictions")
    ensures "mobility_level" !in d ==> WithDefaults(d)["mobility_level"] == Text("Full Mobility")
    ensures "accommodation_type" !in d ==> WithDefaults(d)["accommodation_type"] == Text("Mid-Range")
  {
  }

  lemma UpdatedKeys(raw: Record, dv: Derived)
    ensures Updated(raw, dv).Keys == raw.Keys + {"budget", "main_interests", "start_date", "end_date"}
      + (if NeedsInterests(raw) then {"detailed_interests"} else {})
  {
  }

  lemma UpdatedField(raw: Record, dv: Derived, k: string)
    requires k in Updated(raw, dv)
    ensures Updated(raw, dv)[k] == RefinedField(raw, k, dv)
  {
  }

  lemma StagedKeys(raw: Record, dv: Derived)
    ensures WithDefaults(Updated(raw, dv)).Keys == RefinedKeys(raw)
  {
    UpdatedKeys(raw, dv);
    WithDefaultsFacts(Updated(raw, dv));
  }

  lemma DefaultedField(raw: Record, dv: Derived, k: string)
    requires k !in Updated(raw, dv)
    requires k in {"dietary_preferences", "mobility_level", "accommodation_type"}
    ensures WithDefaults(Updated(raw, dv))[k] == RefinedField(raw, k, dv)
  {
    WithDefaultsFacts(Updated(raw, dv));
    UpdatedKeys(raw, dv);
  }

  lemma StagedField(raw: Record, dv: Derived, k: string)
    requires k in WithDefaults(Updated(raw, dv))
    ensures WithDefaults(Updated(raw, dv))[k] == RefinedField(raw, k, dv)
  {
    var d := Updated(raw, dv);
    WithDefaultsFacts(d);
    if k in d {
      UpdatedField(raw, dv, k);
    } else {
      DefaultedField(raw, dv, k);
    }
  }

  /** The refined record is what the source's sequence of updates makes of
      the caller's record: the budget, then the interests, then the dates,
      each overwritten only when falsy, then the three `setdefault`s. */
  lemma RefinedInStages(raw: Record, dv: Derived)
    ensures RefinedFields(raw, dv) == WithDefaults(Updated(raw, dv))
  {
    var p := WithDefaults(Updated(raw, dv));
    var q := RefinedFields(raw, dv);
    StagedKeys(raw, dv);
    forall k | k in p ensures p[k] == q[k] {
      StagedField(raw, dv, k);
    }
  }

  /** Only the derived values of the fields refinement overwrites matter. */
  predicate DerivedAgree(raw: Record, dv: Derived, dv': Derived) {
    && (NeedsBudget(raw) ==> dv.budget == dv'.budget)
    && (NeedsInterests(raw) ==> dv.mainInterests == dv'.mainInterests && dv.detailedInterests == dv'.detailedInterests)
    && (NeedsDates(raw) ==> dv.startDate == dv'.startDate && dv.endDate == dv'.endDate)
  }

  lemma RefinedFieldsAgree(raw: Record, dv: Derived, dv': Derived)
    requires DerivedAgree(raw, dv, dv')
    ensures RefinedFields(raw, dv) == RefinedFields(raw, dv')
  {
    var p := RefinedFields(raw, dv);
    var q := RefinedFields(raw, dv');
    assert p.Keys == q.Keys;
    forall k | k in p ensures p[k] == q[k] {
    }
  }

  /** A record built by the staged updates from values that agree with the
      derived ones, where they are used, is the refined record. */
  lemma RefinedFromStages(raw: Record, now: Date, floatRepr: real -> string, dv: Derived)
    requires ValidDate(now) && RefineError(raw, now).None?
    requires DerivedAgree(raw, dv, Derive(raw, now, floatRepr))
    ensures Refined(raw, now, floatRepr) == Success(WithDefaults(Updated(raw, dv)))
  {
    RefinedFieldsAgree(raw, dv, Derive(raw, now, floatRepr));
    RefinedInStages(raw, dv);
  }

  /** The budget block applied to d: a falsy budget, 0 included, is
      replaced by the interpretation of the budget description. */
  function BudgetStage(d: Record, floatRepr: real -> string): Record {
    if NeedsBudget(d) then d["budget" := InterpretBudget(BudgetInput(d, floatRepr))] else d
  }

  /** The interest block applied to d: falsy main interests are replaced by
      the categories interpreted from the interest description, and the
      detailed interests by all their subcategories; a description that is
      not text raises. */
  function InterestStage(d: Record): Result<Record, Error> {
    if !NeedsInterests(d) then Success(d)
    else if !InterestInput(d).Text? then Failure(NotText(InterestInput(d)))
    else
      var found := InterestsOf(InterestInput(d).s);
      Success(d["main_interests" := List(Categories(found))]["detailed_interests" := List(AllSubcategories(found))])
  }

  /** The date block applied to d: unless both dates are truthy, both become
      the first and the seventh of the month after now. */
  function DateStage(d: Record, now: Date): Result<Record, Error>
    requires ValidDate(now)
  {
    if !NeedsDates(d) then Success(d)
    else if FirstOfNextMonth(now).None? then Failure(DateOverflow)
    else Success(d["start_date" := Text(FormatDate(DefaultStart(now)))]["end_date" := Text(FormatDate(DefaultEnd(now)))])
  }

  /** The blocks of the source one after another. */
  function Staged(raw: Record, now: Date, floatRepr: real -> string): Result<Record, Error>
    requires ValidDate(now)
  {
    if !Truthy(Get(raw, "destination")) then Failure(MissingDestination)
    else match InterestStage(BudgetStage(raw, floatRepr))
      case Failure(e) => Failure(e)
      case Success(i) =>
        match DateStage(i, now)
        case Failure(e) => Failure(e)
        case Success(d) => Success(WithDefaults(d))
  }

  /** The budget block on the caller's record is the budget update. */
  lemma BudgetStageIs(raw: Record, floatRepr: real -> string, dv: Derived)
    requires NeedsBudget(raw) ==> dv.budget == InterpretBudget(BudgetInput(raw, floatRepr))
    ensures BudgetStage(raw, floatRepr) == BudgetUpdated(raw, dv)
  {
  }

  /** The budget block leaves what the later blocks read as it was. */
  lemma BudgetStageKeeps(raw: Record, floatRepr: real -> string)
    ensures var b := BudgetStage(raw, floatRepr);
      NeedsInterests(b) == NeedsInterests(raw) && InterestInput(b) == InterestInput(raw)
      && NeedsDates(b) == NeedsDates(raw)
  {
  }

  /** The interest block on any record reading like the caller's is the
      interest update, or the error of a description that is not text. */
  lemma InterestStageIs(raw: Record, dv: Derived, b: Record)
    requires NeedsInterests(b) == NeedsInterests(raw) && InterestInput(b) == InterestInput(raw)
    requires NeedsInterests(raw) && InterestInput(raw).Text? ==>
      var found := InterestsOf(InterestInput(raw).s);
      dv.mainInterests == List(Categories(found)) && dv.detailedInterests == List(AllSubcategories(found))
    ensures InterestStage(b) == if NeedsInterests(raw) && !InterestInput(raw).Text?
      then Failure(NotText(InterestInput(raw)))
      else Success(InterestsUpdated(raw, dv, b))
  {
  }

  /** The interest block leaves the dates as they were. */
  lemma InterestStageKeeps(raw: Record, dv: Derived, b: Record)
    requires NeedsDates(b) == NeedsDates(raw)
    ensures NeedsDates(InterestsUpdated(raw, dv, b)) == NeedsDates(raw)
  {
  }

  /** The date block on any record reading like the caller's is the date
      update, or the overflow of a default date past year 9999. */
  lemma DateStageIs(raw: Record, now: Date, dv: Derived, i: Record)
    requires ValidDate(now) && NeedsDates(i) == NeedsDates(raw)
    requires NeedsDates(raw) && FirstOfNextMonth(now).Some? ==>
      dv.startDate == Text(FormatDate(DefaultStart(now))) && dv.endDate == Text(FormatDate(DefaultEnd(now)))
    ensures DateStage(i, now) == if NeedsDates(raw) && FirstOfNextMonth(now).None?
      then Failure(DateOverflow)
      else Success(DatesUpdated(raw, dv, i))
  {
  }

  /** Running the blocks one after another gives the refined record, or
      the first error. */
  lemma StagedIsRefined(raw: Record, now: Date, floatRepr: real -> string)
    requires ValidDate(now)
    ensures Staged(raw, now, floatRepr) == Refined(raw, now, floatRepr)
  {
    if Truthy(Get(raw, "destination")) {
      var dv := Derive(raw, now, floatRepr);
      var b := BudgetStage(raw, floatRepr);
      BudgetStageIs(raw, floatRepr, dv);
      BudgetStageKeeps(raw, floatRepr);
      InterestStageIs(raw, dv, b);
      var i := InterestsUpdated(raw, dv, b);
      InterestStageKeeps(raw, dv, b);
      DateStageIs(raw, now, dv, i);
      if RefineError(raw, now).None? {
        RefinedFromStages(raw, now, floatRepr, dv);
      }
    }
  }

  /** Refinement fails on a missing or falsy destination and on nothing
      else that comes before it; it fails on a description that is not
      text only when the interests need interpreting, and on the dates
      only when they need defaults in December of year 9999. */
  lemma RefineErrors(raw: Record, now: Date, floatRepr: real -> string)
    requires ValidDate(now)
    ensures Refined(raw, now, floatRepr) == Failure(MissingDestination) <==> !Truthy(Get(raw, "destination"))
    ensures (Refined(raw, now, floatRepr).Failure? && Refined(raw, now, floatRepr).error.NotText?) <==>
      Truthy(Get(raw, "destination")) && NeedsInterests(raw) && !InterestInput(raw).Text?
    ensures Refined(raw, now, floatRepr) == Failure(DateOverflow) <==>
      && Truthy(Get(raw, "destination"))
      && !(NeedsInterests(raw) && !InterestInput(raw).Text?)
      && NeedsDates(raw) && now.year == MaxYear && now.month == 12
  {
    FirstOfNextMonthIs(now);
  }

  lemma FieldsKeys(raw: Record, dv: Derived)
    ensures RefinedFields(raw, dv).Keys == raw.Keys
      + {"budget", "main_interests", "start_date", "end_date"}
      + {"dietary_preferences", "mobility_level", "accommodation_type"}
      + (if NeedsInterests(raw) then {"detailed_interests"} else {})
  {
  }

  lemma FieldsAt(raw: Record, dv: Derived, k: string)
    requires k in RefinedKeys(raw)
    ensures k in RefinedFields(raw, dv) && RefinedFields(raw, dv)[k] == RefinedField(raw, k, dv)
  {
  }

  /** The keys of a refined record: the caller's, the four refinement
      always sets, the three defaults, and the detailed interests when the
      main interests were interpreted. */
  lemma RefinedKeysAre(raw: Record, now: Date, floatRepr: real -> string)
    requires ValidDate(now) && Refined(raw, now, floatRepr).Success?
    ensures Refined(raw, now, floatRepr).value.Keys == raw.Keys
      + {"budget", "main_interests", "start_date", "end_date"}
      + {"dietary_preferences", "mobility_level", "accommodation_type"}
      + (if NeedsInterests(raw) then {"detailed_interests"} else {})
  {
    FieldsKeys(raw, Derive(raw, now, floatRepr));
  }

  lemma FieldsBudget(raw: Record, dv: Derived)
    requires dv.budget == Infinity || dv.budget == Int(DefaultBudget) || (dv.budget.Float? && dv.budget.x >= 0.0)
    ensures var p := RefinedFields(raw, dv);
      && "budget" in p
      && p["budget"] == (if NeedsBudget(raw) then dv.budget else raw["budget"])
      && (Truthy(p["budget"]) || p["budget"] == Float(0.0))
  {
    FieldsAt(raw, dv, "budget");
  }

  /** A falsy budget, 0 included, is replaced by the interpretation of the
      budget description; the result is truthy unless that reads as zero. */
  lemma RefinedBudget(raw: Record, now: Date, floatRepr: real -> string)
    requires ValidDate(now) && Refined(raw, now, floatRepr).Success?
    ensures var p := Refined(raw, now, floatRepr).value;
      && "budget" in p
      && p["budget"] == (if NeedsBudget(raw) then InterpretBudget(BudgetInput(raw, floatRepr)) else raw["budget"])
      && (Truthy(p["budget"]) || p["budget"] == Float(0.0))
  {
    var dv := Derive(raw, now, floatRepr);
    FieldsBudget(raw, dv);
  }

  lemma FieldsInterpreted(raw: Record, dv: Derived)
    requires NeedsInterests(raw)
    ensures var p := RefinedFields(raw, dv);
      && "main_interests" in p && "detailed_interests" in p
      && p["main_interests"] == dv.mainInterests && p["detailed_interests"] == dv.detailedInterests
  {
    FieldsAt(raw, dv, "main_interests");
    FieldsAt(raw, dv, "detailed_interests");
  }

  lemma FieldsKept(raw: Record, dv: Derived)
    requires !NeedsInterests(raw)
    ensures var p := RefinedFields(raw, dv);
      && "main_interests" in p && p["main_interests"] == raw["main_interests"]
      && ("detailed_interests" in p <==> "detailed_interests" in raw)
      && ("detailed_interests" in raw ==> p["detailed_interests"] == raw["detailed_interests"])
  {
    FieldsAt(raw, dv, "main_interests");
    FieldsKeys(raw, dv);
    if "detailed_interests" in raw {
      FieldsAt(raw, dv, "detailed_interests");
    }
  }

  /** Falsy main interests are replaced by the categories interpreted from
      the interest description, never an empty list, and the detailed
      interests by all their subcategories. */
  lemma RefinedInterestsInterpreted(raw: Record, now: Date, floatRepr: real -> string)
    requires ValidDate(now) && Refined(raw, now, floatRepr).Success?
    requires NeedsInterests(raw)
    ensures var p := Refined(raw, now, floatRepr).value;
      && InterestInput(raw).Text?
      && "main_interests" in p && "detailed_interests" in p
      && p["main_interests"] == List(Categories(InterestsOf(InterestInput(raw).s)))
      && p["detailed_interests"] == List(AllSubcategories(InterestsOf(InterestInput(raw).s)))
      && Truthy(p["main_interests"])
  {
    FieldsInterpreted(raw, Derive(raw, now, floatRepr));
  }

  /** Truthy main interests leave both interest fields as they were: the
      detailed interests are neither computed nor added. */
  lemma RefinedInterestsKept(raw: Record, now: Date, floatRepr: real -> string)
    requires ValidDate(now) && Refined(raw, now, floatRepr).Success?
    requires !NeedsInterests(raw)
    ensures var p := Refined(raw, now, floatRepr).value;
      && "main_interests" in p && p["main_interests"] == raw["main_interests"]
      && Truthy(p["main_interests"])
      && ("detailed_interests" in p <==> "detailed_interests" in raw)
      && ("detailed_interests" in raw ==> p["detailed_interests"] == raw["detailed_interests"])
  {
    FieldsKept(raw, Derive(raw, now, floatRepr));
  }

  lemma FieldsDated(raw: Record, dv: Derived)
    requires NeedsDates(raw)
    ensures var p := RefinedFields(raw, dv);
      && "start_date" in p && "end_date" in p
      && p["start_date"] == dv.startDate && p["end_date"] == dv.endDate
  {
    FieldsAt(raw, dv, "start_date");
    FieldsAt(raw, dv, "end_date");
  }

  lemma FieldsUndated(raw: Record, dv: Derived)
    requires !NeedsDates(raw)
    ensures var p := RefinedFields(raw, dv);
      && "start_date" in p && "end_date" in p
      && p["start_date"] == raw["start_date"] && p["end_date"] == raw["end_date"]
  {
    FieldsAt(raw, dv, "start_date");
    FieldsAt(raw, dv, "end_date");
  }

  lemma DefaultDates(now: Date)
    requires ValidDate(now) && FirstOfNextMonth(now).Some?
    ensures var (ny, nm) := NextMonth(now.year, now.month);
      && |FormatDate(DefaultStart(now))| == 10 && |FormatDate(DefaultEnd(now))| == 10
      && ParseDate(FormatDate(DefaultStart(now))) == Some(Date(ny, nm, 1))
      && ParseDate(FormatDate(DefaultEnd(now))) == Some(Date(ny, nm, 7))
  {
    FirstOfNextMonthIs(now);
    FormatDateRoundTrip(DefaultStart(now));
    FormatDateRoundTrip(DefaultEnd(now));
  }

  /** Unless both dates are truthy, both are replaced: the start by the
      first of the month after now, the end by the seventh of that month,
      each as a ten-character `YYYY-MM-DD` text. December rolls over into
      January of the next year. */
  lemma RefinedDatesDefaulted(raw: Record, now: Date, floatRepr: real -> string)
    requires ValidDate(now) && Refined(raw, now, floatRepr).Success?
    requires NeedsDates(raw)
    ensures var p := Refined(raw, now, floatRepr).value;
      var (ny, nm) := NextMonth(now.year, now.month);
      && "start_date" in p && p["start_date"].Text? && |p["start_date"].s| == 10
      && "end_date" in p && p["end_date"].Text? && |p["end_date"].s| == 10
      && ParseDate(p["start_date"].s) == Some(Date(ny, nm, 1))
      && ParseDate(p["end_date"].s) == Some(Date(ny, nm, 7))
  {
    FieldsDated(raw, Derive(raw, now, floatRepr));
    DefaultDates(now);
  }

  /** Two truthy dates are kept as they are. */
  lemma RefinedDatesKept(raw: Record, now: Date, floatRepr: real -> string)
    requires ValidDate(now) && Refined(raw, now, floatRepr).Success?
    requires !NeedsDates(raw)
    ensures var p := Refined(raw, now, floatRepr).value;
      && "start_date" in p && p["start_date"] == raw["start_date"] && Truthy(p["start_date"])
      && "end_date" in p && p["end_date"] == raw["end_date"] && Truthy(p["end_date"])
  {
    FieldsUndated(raw, Derive(raw, now, floatRepr));
  }

  lemma FieldsOther(raw: Record, dv: Derived, k: string)
    requires k in raw && !Overwritten(raw, k)
    ensures k in RefinedFields(raw, dv) && RefinedFields(raw, dv)[k] == raw[k]
  {
    FieldsAt(raw, dv, k);
  }

  lemma FieldsDefault(raw: Record, dv: Derived)
    ensures var p := RefinedFields(raw, dv);
      && "dietary_preferences" in p && "mobility_level" in p && "accommodation_type" in p
      && ("dietary_preferences" !in raw ==> p["dietary_preferences"] == Text("No Restrictions"))
      && ("mobility_level" !in raw ==> p["mobility_level"] == Text("Full Mobility"))
      && ("accommodation_type" !in raw ==> p["accommodation_type"] == Text("Mid-Range"))
  {
    FieldsAt(raw, dv, "dietary_preferences");
    FieldsAt(raw, dv, "mobility_level");
    FieldsAt(raw, dv, "accommodation_type");
  }

  /** Every other field of the caller's record comes through unchanged:
      the destination, the descriptions, a truthy budget, and the three
      `setdefault` keys when present, even when they hold `None` or an
      empty text. */
  lemma RefinedKeeps(raw: Record, now: Date, floatRepr: real -> string, k: string)
    requires ValidDate(now) && Refined(raw, now, floatRepr).Success?
    requires k in raw && !Overwritten(raw, k)
    ensures k in Refined(raw, now, floatRepr).value && Refined(raw, now, floatRepr).value[k] == raw[k]
  {
    FieldsOther(raw, Derive(raw, now, floatRepr), k);
  }

  /** A missing dietary preference, mobility level or accommodation type
      gets its default. */
  lemma RefinedDefaults(raw: Record, now: Date, floatRepr: real -> string)
    requires ValidDate(now) && Refined(raw, now, floatRepr).Success?
    ensures var p := Refined(raw, now, floatRepr).value;
      && "dietary_preferences" in p && "mobility_level" in p && "accommodation_type" in p
      && ("dietary_preferences" !in raw ==> p["dietary_preferences"] == Text("No Restrictions"))
      && ("mobility_level" !in raw ==> p["mobility_level"] == Text("Full Mobility"))
      && ("accommodation_type" !in raw ==> p["accommodation_type"] == Text("Mid-Range"))
  {
    FieldsDefault(raw, Derive(raw, now, floatRepr));
  }

  /** A record that already has every refined key, truthy interests and
      dates, and under a falsy budget the value a re-interpretation gives,
      is its own refinement. */
  lemma FieldsFixed(p: Record, dv: Derived)
    requires "budget" in p && "main_interests" in p && "start_date" in p && "end_date" in p
    requires "dietary_preferences" in p && "mobility_level" in p && "accommodation_type" in p
    requires !NeedsInterests(p) && !NeedsDates(p)
    requires NeedsBudget(p) ==> dv.budget == p["budget"]
    ensures RefinedFields(p, dv) == p
  {
    FieldsKeys(p, dv);
    forall k | k in p ensures RefinedFields(p, dv)[k] == p[k] {
      FieldsAt(p, dv, k);
    }
  }

  lemma FieldsDescription(raw: Record, dv: Derived)
    ensures var p := RefinedFields(raw, dv);
      GetOr(p, "budget_description", Text(DefaultBudgetDescription))
        == GetOr(raw, "budget_description", Text(DefaultBudgetDescription))
  {
    FieldsKeys(raw, dv);
    if "budget_description" in raw {
      FieldsOther(raw, dv, "budget_description");
    }
  }

  lemma FieldsReadBack(raw: Record, dv: Derived, floatRepr: real -> string)
    requires Truthy(Get(raw, "destination"))
    requires NeedsBudget(raw) ==> dv.budget == InterpretBudget(BudgetInput(raw, floatRepr))
    ensures var p := RefinedFields(raw, dv);
      && Truthy(Get(p, "destination"))
      && (NeedsBudget(p) ==> p["budget"] == InterpretBudget(BudgetInput(p, floatRepr)))
  {
    var p := RefinedFields(raw, dv);
    FieldsOther(raw, dv, "destination");
    FieldsDescription(raw, dv);
    assert BudgetInput(p, floatRepr) == BudgetInput(raw, floatRepr);
    FieldsAt(raw, dv, "budget");
  }

  /** What the refined record reads where refinement would look again:
      the destination, and under a falsy budget the value the unchanged
      budget description gives. */
  lemma RefinedReadsBack(raw: Record, now: Date, floatRepr: real -> string)
    requires ValidDate(now) && Refined(raw, now, floatRepr).Success?
    ensures var p := Refined(raw, now, floatRepr).value;
      && Truthy(Get(p, "destination"))
      && (NeedsBudget(p) ==> p["budget"] == InterpretBudget(BudgetInput(p, floatRepr)))
  {
    FieldsReadBack(raw, Derive(raw, now, floatRepr), floatRepr);
  }

  /** A record with a destination, every key refinement sets, truthy
      interests and dates, and under a falsy budget the value its budget
      description gives. */
  predicate Settled(p: Record, floatRepr: real -> string) {
    && Truthy(Get(p, "destination"))
    && "budget" in p && "main_interests" in p && "start_date" in p && "end_date" in p
    && "dietary_preferences" in p && "mobility_level" in p && "accommodation_type" in p
    && !NeedsInterests(p) && !NeedsDates(p)
    && (NeedsBudget(p) ==> p["budget"] == InterpretBudget(BudgetInput(p, floatRepr)))
  }

  /** A settled record is left as it is. */
  lemma RefineFixed(p: Record, now: Date, floatRepr: real -> string)
    requires ValidDate(now) && Settled(p, floatRepr)
    ensures Refined(p, now, floatRepr) == Success(p)
  {
    FieldsFixed(p, Derive(p, now, floatRepr));
  }

  lemma FieldsSettled(raw: Record, dv: Derived, floatRepr: real -> string)
    requires Truthy(Get(raw, "destination"))
    requires NeedsBudget(raw) ==> dv.budget == InterpretBudget(BudgetInput(raw, floatRepr))
    requires NeedsInterests(raw) ==> Truthy(dv.mainInterests)
    requires NeedsDates(raw) ==> Truthy(dv.startDate) && Truthy(dv.endDate)
    ensures Settled(RefinedFields(raw, dv), floatRepr)
  {
    FieldsReadBack(raw, dv, floatRepr);
    FieldsKeys(raw, dv);
    FieldsAt(raw, dv, "main_interests");
    FieldsAt(raw, dv, "start_date");
    FieldsAt(raw, dv, "end_date");
  }

  /** A refined record is settled. */
  lemma RefinedSettled(raw: Record, now: Date, floatRepr: real -> string)
    requires ValidDate(now) && Refined(raw, now, floatRepr).Success?
    ensures Settled(Refined(raw, now, floatRepr).value, floatRepr)
  {
    var dv := Derive(raw, now, floatRepr);
    if NeedsDates(raw) {
      DefaultDates(now);
    }
    FieldsSettled(raw, dv, floatRepr);
  }

  /** Refining a refined record changes nothing: every field refinement
      fills in is already filled in, and a budget that reads as zero is
      read as zero again from the unchanged budget description. */
  lemma RefineIdempotent(raw: Record, now: Date, floatRepr: real -> string, p: Record)
    requires ValidDate(now) && Refined(raw, now, floatRepr) == Success(p)
    ensures Refined(p, now, floatRepr) == Success(p)
  {
    RefinedSettled(raw, now, floatRepr);
    RefineFixed(p, now, floatRepr);
  }

  lemma HistoryAdventureLists(m: seq<Entry>)
    requires m == [
      Entry("History", ["Museums", "Cultural Performances"]),
      Entry("Adventure", ["Extreme Sports", "Outdoor Activities"])]
    ensures Categories(m) == ["History", "Adventure"]
    ensures AllSubcategories(m) == ["Museums", "Cultural Performances", "Extreme Sports", "Outdoor Activities"]
  {
    var ls := SubcategoryLists(m);
    assert ls == [["Museums", "Cultural Performances"], ["Extreme Sports", "Outdoor Activities"]];
    assert ls[1..][1..] == [];
    assert Flatten(ls[1..]) == ["Extreme Sports", "Outdoor Activities"];
  }

  lemma DefaultInterestLists()
    ensures var found := InterestsOf(DefaultInterestDescription);
      && Categories(found) == ["History", "Adventure"]
      && AllSubcategories(found) == ["Museums", "Cultural Performances", "Extreme Sports", "Outdoor Activities"]
  {
    DefaultDescriptionExample();
    HistoryAdventureLists(InterestsOf(DefaultInterestDescription));
  }

  /** A record that gives a destination and neither a budget nor interests
      nor their descriptions gets the budget 2000.0 of "moderate budget",
      the interests History and Adventure of "mix of culture and
      adventure", and their four subcategories. */
  lemma DestinationOnlyExample(raw: Record, now: Date, floatRepr: real -> string, p: Record)
    requires ValidDate(now) && Refined(raw, now, floatRepr) == Success(p)
    requires "budget" !in raw && "budget_description" !in raw
    requires "main_interests" !in raw && "interest_description" !in raw
    ensures Get(p, "budget") == Float(2000.0)
    ensures Get(p, "main_interests") == List(["History", "Adventure"])
    ensures Get(p, "detailed_interests") == List(["Museums", "Cultural Performances", "Extreme Sports", "Outdoor Activities"])
  {
    RefinedBudget(raw, now, floatRepr);
    ModerateBudgetExample();
    RefinedInterestsInterpreted(raw, now, floatRepr);
    DefaultInterestLists();
  }

  method RefineBudget(preferences: Record, floatRepr: real -> string) returns (refined: Record)
    ensures refined == BudgetStage(preferences, floatRepr)
  {
    refined := preferences;
    if !Truthy(Get(refined, "budget")) {
      var budgetInput := GetOr(refined, "budget_description", Text(DefaultBudgetDescription));
      refined := refined["budget" := InterpretBudget(Str(budgetInput, floatRepr))];
    }
  }

  method RefineInterests(preferences: Record) returns (refined: Result<Record, Error>)
    ensures refined == InterestStage(preferences)
  {
    refined := Success(preferences);
    if !Truthy(Get(preferences, "main_interests")) {
      var interestInput := GetOr(preferences, "interest_description", Text(DefaultInterestDescription));
      if !interestInput.Text? {
        return Failure(NotText(interestInput));
      }
      var interpreted := InterpretInterests(interestInput.s);
      var updated := preferences["main_interests" := List(Categories(interpreted))];
      updated := updated["detailed_interests" := List(AllSubcategories(interpreted))];
      refined := Success(updated);
    }
  }

  method RefineDates(preferences: Record, now: Date) returns (refined: Result<Record, Error>)
    requires ValidDate(now)
    ensures refined == DateStage(preferences, now)
  {
    refined := Success(preferences);
    if !(Truthy(Get(preferences, "start_date")) && Truthy(Get(preferences, "end_date"))) {
      var nextMonth := AddDays(Date(now.year, now.month, 1), 32);
      if nextMonth.None? {
        return Failure(DateOverflow);
      }
      var first := Date(nextMonth.value.year, nextMonth.value.month, 1);
      SixDaysAfterFirst(first);
      var last := AddDays(first, 6).value;
      var updated := preferences["start_date" := Text(FormatDate(first))];
      updated := updated["end_date" := Text(FormatDate(last))];
      refined := Success(updated);
    }
  }

  /** `validate_and_refine_preferences(raw)`: copies the record, fails on a
      missing destination, then fills in the budget, the interests and the
      dates when they are falsy and the three `setdefault` keys when they
      are missing, one update after another. */
  method ValidateAndRefine(raw: Record, now: Date, floatRepr: real -> string)
    returns (result: Result<Record, Error>)
    requires ValidDate(now)
    ensures result == Refined(raw, now, floatRepr)
  {
    StagedIsRefined(raw, now, floatRepr);
    var preferences := raw;
    if !Truthy(Get(preferences, "destination")) {
      return Failure(MissingDestination);
    }
    preferences := RefineBudget(preferences, floatRepr);
    var withInterests := RefineInterests(preferences);
    if withInterests.Failure? {
      return Failure(withInterests.error);
    }
    var withDates := RefineDates(withInterests.value, now);
    if withDates.Failure? {
      return Failure(withDates.error);
    }
    preferences := withDates.value;
    preferences := SetDefault(preferences, "dietary_preferences", Text("No Restrictions"));
    preferences := SetDefault(preferences, "mobility_level", Text("Full Mobility"));
    preferences := SetDefault(preferences, "accommodation_type", Text("Mid-Range"));
    result := Success(preferences);
  }
}
