# Travel planner preference normalisation, in Dafny

This project models the deterministic core of `TravelPlannerPromptSystem`
in `app.py`, a travel planner. The planner turns loose user input into a
complete preference record and renders that record as a prompt for a
text-generation service. The model covers:

- the fixed tables: budget ranges, the interest keyword table, the
  subcategory table and the three `setdefault` defaults;
- `interpret_budget`: a free-text budget becomes a number (module `Budget`);
- `interpret_interests`: ordered keyword matching that groups
  subcategories by category (module `Interests`);
- `update_detailed_interests`: the drop-down narrowing rule (module
  `Interests`);
- `validate_and_refine_preferences`: record completion with its one
  validation error (module `Preferences`), with the calendar arithmetic
  behind the default dates (module `Calendar`);
- `generate_ai_travel_prompt`, and the answer clean-up
  `generated_text.replace(prompt, '').strip()` of `generate_ai_itinerary`
  (module `Prompt`);
- `generate_flexible_travel_plan`: builds a record from a description, a
  destination and a date text, refines it and reports errors (module
  `Flexible`).

Python values stored in a record are `Values.Value`: `None`, `str`, `int`,
a finite `float`, `float('inf')` and a list of strings. Their truthiness,
`d.get(k)`, `d.get(k, default)` and `str()` follow Python. A record is a
`map`, so the copy `validate_and_refine_preferences` takes before updating
is implicit: the caller's record is a value and cannot change.

`interpret_budget` is a pure function. The same holds for the prompt, the
clean-up and the request the flexible path builds.

The source changes things step by step in three places, and each is a
`method` proved equal to a specification function:

- the `setdefault(...).extend(...)` loop of `interpret_interests`
  becomes `InterpretInterests`, equal to `InterestsOf`;
- the sequence of key updates in `validate_and_refine_preferences`
  becomes `ValidateAndRefine`, equal to `Refined`;
- the `extend` loop of `update_detailed_interests` becomes
  `NarrowChoices`, equal to `DetailedChoices`.

The properties are then proved about those functions.

Where the written behaviour and the obvious intent differ, the model
follows the code:

- The budget clean-up `[^\w\s]` keeps the underscore as well as letters,
  digits and whitespace.
- The open-ended luxury range has an infinite midpoint, `float('inf')`,
  and no finite substitute.
- Range names are matched as substrings, so "allow" selects the low range.
- "4.5k" reads as 45.
- The answer clean-up removes every occurrence of the prompt, not only a
  leading echo.

## Model

| member | source | states |
|---|---|---|
| Budget.Midpoint | app.py:102 | the midpoint of a range: infinite exactly for the open-ended range, otherwise a float equally far from both bounds and between them |
| Budget.KeepWordAndSpace | app.py:97 | only word characters and whitespace survive, and a text made only of them is unchanged |
| Budget.KeepWordAndSpaceAppend | app.py:97 | the filter works character by character: filtering a concatenation is concatenating the filtered parts |
| Budget.KeepWordAndSpaceChar | app.py:97 | a single character is kept exactly when it is a word character or whitespace, and dropped otherwise |
| Budget.CleanBudgetText | app.py:97 | the cleaned text is no longer than the input, and holds only word characters and whitespace, none of them upper-case |
| Budget.CleanBudgetTextAppend | app.py:97 | the clean-up works character by character: cleaning a concatenation is concatenating the cleaned parts |
| Budget.CleanBudgetTextChar | app.py:97 | a word character or whitespace is kept and lower-cased, not dropped; any other character is dropped |
| Budget.FirstRangeFrom | app.py:100-102 | the chosen range's name occurs in the text and no earlier range's name does; no range is chosen only when none occurs |
| Budget.FirstDigitRun | app.py:105-107 | the bounds of the first maximal digit run: no digit before it, digits inside, a non-digit or the end after it; none exactly when the text has no digit |
| Budget.InterpretBudget | app.py:92-110 | the result is the infinite luxury midpoint, the integer 2000, or a non-negative float |
| Budget.InterpretBudgetNamedRange | app.py:85-102 | the range names are tried as substrings in the order low, moderate, high, luxury; the first found gives 500.0, 2000.0, 6500.0 or infinity |
| Budget.InterpretBudgetDigits | app.py:104-110 | without a range name, the result is the float value of the first maximal digit run; it is the integer 2000 exactly when the text has no digit |
| Budget.PlainText | app.py:97 | lower-case letters, digits and spaces pass the clean-up unchanged |
| Budget.ModerateBudgetExample | app.py:87-102 | "moderate budget" gives 2000.0 |
| Budget.SubstringExample | app.py:86-102 | "allow" gives 500.0, because "low" occurs in it |
| Budget.CurrencyExample | app.py:97-107 | "$4,500" gives 4500.0 |
| Budget.DecimalPointExample | app.py:97-107 | "4.5k" gives 45.0 |
| Budget.UpperCaseExample | app.py:97-102 | "LOW" is lower-cased before range names are looked for, and gives 500.0 |
| Budget.NoNumbersExample | app.py:104-110 | "no numbers here" gives the integer 2000 |
| Budget.LuxuryExample | app.py:89-102 | "luxury" gives the infinite midpoint |
| Interests.SetDefaultExtend | app.py:135 | `setdefault(k, []).extend(vs)`: a new key is added last and an existing one keeps its place; k's list grows by vs and every other list is unchanged |
| Interests.InterestsOf | app.py:112-145 | the interpreted dictionary is never empty and has no repeated category |
| Interests.GroupedExtend | app.py:133-135 | one more matching keyword changes the grouped dictionary exactly as `setdefault(...).extend(...)` does |
| Interests.InterpretInterests | app.py:112-145 | the loop builds exactly InterestsOf(input) |
| Interests.MatchingMembers | app.py:133-134 | a keyword rule matches exactly when it is in the table and its keyword occurs in the text |
| Interests.GroupedLookup | app.py:132-135 | a category is a key exactly when a matched rule names it, and its list is the in-order concatenation of those rules' subcategories, duplicates kept |
| Interests.InterestsFallback | app.py:137-143 | the result is the balanced mix exactly when no keyword occurs in the lower-cased text |
| Interests.InterestsCategories | app.py:116-135 | when some keyword occurs, a category is found exactly when one of its keywords occurs, and holds a subcategory exactly when such a keyword's rule lists it |
| Interests.HistoryCultureExample | app.py:117-135 | "History Culture" gives History: [Museums, Historical Landmarks, Museums, Cultural Performances] |
| Interests.DefaultDescriptionExample | app.py:120-135 | "mix of culture and adventure" gives History: [Museums, Cultural Performances], then Adventure: [Extreme Sports, Outdoor Activities] |
| Interests.EmptyInterestsExample | app.py:137-143 | an empty text gives exactly the balanced mix |
| Interests.DetailedChoices | app.py:296-300 | every subcategory a selected category lists is offered, and nothing else is |
| Interests.DetailedChoicesMembers | app.py:296-300 | a choice is offered exactly when one of the selected categories lists it; unknown categories contribute nothing |
| Interests.NarrowChoices | app.py:296-300 | the loop builds the concatenation of the selected categories' lists, in selection order |
| Calendar.NextDay | app.py:178-182 | the next day is a valid date, and there is none exactly after 9999-12-31 |
| Calendar.AddDays | app.py:178-182 | adding days gives a valid date or the overflow |
| Calendar.AddDaysSplit | app.py:178-182 | adding a + b days is adding a days and then b |
| Calendar.FirstOfNextMonthIs | app.py:178-179 | the first of the month after now, with December rolling over into January; overflow only in December 9999 |
| Calendar.SixDaysAfterFirst | app.py:182 | six days after the first of a month is the seventh |
| Calendar.TenDaysAfterJulyFirst | app.py:396-398 | ten days after July 1 is July 11 |
| Calendar.FormatDateRoundTrip | app.py:181-182 | `%Y-%m-%d` gives ten characters that read back as the same date |
| Preferences.SetDefault | app.py:185-187 | only a missing key is filled in, and nothing else changes |
| Preferences.RefineBudget | app.py:158-161 | a falsy budget is replaced by the interpretation of `str()` of the budget description, or of "moderate budget" when there is none; nothing else changes |
| Preferences.RefineInterests | app.py:163-174 | falsy main interests are replaced by the interpreted categories and the detailed interests by their subcategories; a description that is not text raises |
| Preferences.RefineDates | app.py:176-182 | unless both dates are truthy, both are replaced by the first and the seventh of next month; the overflow raises |
| Preferences.Refined | app.py:147-189 | a missing or falsy destination gives the destination error; a refined record keeps all the caller's keys and the caller's destination, which is truthy |
| Preferences.ValidateAndRefine | app.py:147-189 | the step-by-step updates give exactly Refined(raw, now) |
| Preferences.RefineErrors | app.py:154-182 | fails with the destination error exactly when the destination is missing or falsy; fails with a non-text error exactly when interests are needed and the description is not text; fails with the date error exactly when dates are needed in December 9999 |
| Preferences.RefinedKeysAre | app.py:147-189 | the refined keys are the caller's keys, plus budget, main interests, both dates and the three defaults; detailed interests are added only when the interests were interpreted |
| Preferences.RefinedBudget | app.py:158-161 | a falsy budget, 0 included, becomes the interpretation of the budget description, or "moderate budget" when there is none; a truthy budget is kept |
| Preferences.RefinedInterestsInterpreted | app.py:163-174 | falsy main interests become the interpreted categories, never empty; detailed interests become all their subcategories in order |
| Preferences.RefinedInterestsKept | app.py:163-164 | truthy main interests leave both interest fields as they were |
| Preferences.RefinedDatesDefaulted | app.py:176-182 | unless both dates are truthy, they become the 1st and the 7th of the month after now, as ten-character `YYYY-MM-DD` texts |
| Preferences.RefinedDatesKept | app.py:176-177 | two truthy dates are kept |
| Preferences.RefinedKeeps | app.py:151-187 | every field refinement does not overwrite keeps the caller's value, including a present but empty dietary, mobility or accommodation entry |
| Preferences.RefinedDefaults | app.py:184-187 | missing dietary, mobility and accommodation entries become No Restrictions, Full Mobility and Mid-Range |
| Preferences.RefinedReadsBack | app.py:155-161 | the refined record has a destination, and under a falsy budget it holds what its unchanged budget description gives |
| Preferences.RefineFixed | app.py:147-189 | a settled record is its own refinement |
| Preferences.RefinedSettled | app.py:147-189 | every refined record is settled |
| Preferences.RefineIdempotent | app.py:147-189 | refining a refined record changes nothing |
| Preferences.DefaultInterestLists | app.py:165-174 | the default description gives main interests [History, Adventure] and four detailed interests |
| Preferences.DestinationOnlyExample | app.py:158-174 | a record with only a destination gets budget 2000.0, main interests [History, Adventure], and detailed interests [Museums, Cultural Performances, Extreme Sports, Outdoor Activities] |
| Prompt.JoinCharacters | app.py:200-201 | a non-empty string joins as its characters separated by ", ": 3n - 2 characters long, with character i at position 3i |
| Prompt.StringJoinExample | app.py:200-201 | the string "abc" as interests joins to "a, b, c" |
| Prompt.JoinValue | app.py:200-201 | `', '.join` succeeds exactly on a list or a string and otherwise raises "can only join an iterable"; a list joins its items with ", ", and a string the single-character strings of its characters |
| Prompt.BuildPrompt | app.py:191-214 | the prompt fails exactly when either interest field cannot be joined |
| Prompt.PromptOpening | app.py:195-199 | the prompt opens with the introduction and the destination, dates and budget lines |
| Prompt.PromptClosing | app.py:205-214 | the prompt ends with the instructions |
| Prompt.PromptNamesInterests | app.py:200 | the prompt contains every main interest of a list |
| Prompt.PromptMainInterests | app.py:200 | the prompt contains the "Main Interests: " line with the joined main interests, whether they are a list or a string |
| Prompt.PromptDetailsAndTail | app.py:201-204 | the prompt contains the "Detailed Interests: " line with the joined detailed interests, and the dietary, mobility and accommodation lines |
| Prompt.UnjoinableItinerary | app.py:220-259 | when either interest field is neither a list nor a string, the itinerary is "Error generating itinerary: can only join an iterable", whatever the service answers |
| Prompt.EchoedItinerary | app.py:220-253 | when the service echoes the prompt before its answer, the itinerary is the answer alone, trimmed |
| Prompt.CleanResponse | app.py:252 | the cleaned answer neither starts nor ends with whitespace and trimming it again changes nothing; an answer that does not contain the prompt is only trimmed |
| Prompt.EchoRemoved | app.py:252 | an answer that echoes the prompt first loses the echo and is trimmed |
| Prompt.InnerEchoRemoved | app.py:252 | an occurrence of the prompt inside the answer is removed too, not only a leading one: the text on both sides is joined and trimmed |
| Strings.RemoveAllMiddle | app.py:252 | `replace(p, '')` removes an occurrence of p in place, keeping the text before it as it is |
| Strings.StripSlice | app.py:252 | `strip()` keeps one contiguous slice: everything cut off is whitespace, and the slice neither starts nor ends with whitespace |
| Strings.NatToDecimalRoundTrip | app.py:199 | `str()` of a non-negative integer, as the budget line prints it, is a run of digits with no leading zero that reads back as the integer |
| Flexible.SummerStart | app.py:396 | July 1 of the current year is a valid date |
| Flexible.WithDates | app.py:393-408 | the date text changes only the two dates; a start date is present exactly when one was or the text is non-empty and mentions "next" or "summer" or parses; an end date exactly when one was or the text gives both dates |
| Flexible.RequestFields | app.py:386-408 | the request holds the destination and the description, and both dates exactly when the date text gives them; it holds no budget and no interests |
| Flexible.SummerDates | app.py:393-398 | a date text with "next" or "summer" in any case asks for July 1 to July 11 of the current year |
| Flexible.ParsedDates | app.py:399-405 | another date text that parses asks for the parsed date and the date a week later |
| Flexible.OverflowingWeek | app.py:401-408 | a parsed date whose week overflows leaves only a start date, so refinement replaces both dates |
| Flexible.RefinedPrompts | app.py:164-201 | a record refined from no interests always yields a prompt |
| Flexible.PlanOutcome | app.py:410-419 | what refinement makes of a flexible request: the destination error for an empty destination; the date error when dates are needed in December 9999; otherwise a record with a prompt |
| Flexible.FlexiblePlan | app.py:384-419 | an empty destination gets the clarification reply; the date overflow gets the error reply; otherwise the reply is the cleaned answer to the refined record's prompt |

## Left out

- The Gradio interface (app.py:261-434) is not modelled, other than `update_detailed_interests` (app.py:296-300) and `generate_flexible_travel_plan` (app.py:384-421). That includes the detailed-form handler `generate_travel_plan`, which passes its record to the itinerary without refining it.
- The API key lookup and the fallback credential (app.py:11-20) are configuration, not behaviour.
- The HTTP exchange of `generate_ai_itinerary` is network I/O: headers, payload, status codes and the JSON decoding. The service's answer text is a parameter.
- Prompt.Itinerary: models only a successful reply. It leaves out the message for a status other than 200 and the messages for transport or decoding errors.
- `datetime.now()` is a parameter `now`. Its time of day plays no part in any result.
- `dateutil.parser.parse(dates, fuzzy=True)` is a foreign library. Its outcome is a parameter: a date, or nothing when it raises.
- Text is ASCII only: `str.lower`, `\w` and `isspace` do not cover non-ASCII letters or spaces.
- Values: only `None`, `str`, `int`, `float`, `float('inf')` and lists of strings are modelled. Booleans, nested lists and lists holding non-strings are not.
- `str()` of a finite float is the parameter `floatRepr`, because Python's shortest-repr float printing is not modelled.
- Budget.InterpretBudget: reads a digit run as an exact number. Python's `float()` rounds long runs and gives infinity past about 1.8e308.
- Values.Str: renders list items in single quotes without Python's escaping of quotes and backslashes.
- Calendar.FormatDate: always pads the year to four digits. Some platforms' `strftime('%Y')` print years below 1000 without padding.
- Preferences.Refined: a record is unordered. Key order cannot be observed in anything the planner computes from a record.
- Flexible.FlexiblePlan: states no reply for an interest description that is not text, since the flexible path always passes one.
