/** `TravelPlannerPromptSystem.generate_ai_travel_prompt`, the text sent to
    the language model for a preference record, and the clean-up of the
    model's answer in `generate_ai_itinerary`. */
module Prompt {
  import opened Strings
  import opened Values

  /** The text before the specification lines. */
  const Intro: string :=
    "You are an expert travel planner. Create a detailed travel itinerary with the following specifications:\n\n"

  /** The text after the specification lines. */
  const Instructions: string :=
    "\nProvide a comprehensive travel plan that includes:\n"
    + "1. Detailed daily activities tailored to interests\n"
    + "2. Considerations for dietary and mobility requirements\n"
    + "3. Estimated costs for activities and accommodations\n"
    + "4. Local experiences and hidden gems\n"
    + "5. Practical travel tips specific to the destination\n\n"
    + "Respond with a structured, easy-to-read itinerary that maximizes the traveler's experience"
    + " while respecting preferences and budget constraints.\n"

  /** What `str.join` raises for an argument it cannot iterate over. */
  const NotIterable: string := "can only join an iterable"

  /** Whether `', '.join(v)` succeeds: a list of strings, or a string,
      whose characters are then joined. */
  predicate Joinable(v: Value) {
    v.List? || v.Text?
  }

  /** The characters of s, each as a string of its own. */
  function Characters(s: string): (r: seq<string>)
    ensures |r| == |s|
    ensures forall i :: 0 <= i < |s| ==> r[i] == [s[i]]
  {
    seq(|s|, i requires 0 <= i < |s| => [s[i]])
  }

  /** `', '.join(v)` */
  function JoinValue(v: Value): (r: Result<string, string>)
    ensures r.Success? <==> Joinable(v)
    ensures r.Failure? ==> r.error == NotIterable
    ensures v.List? ==> r == Success(Join(v.items, ", "))
    ensures v.Text? ==> r == Success(Join(Characters(v.s), ", "))
  {
    match v
    case List(items) => Success(Join(items, ", "))
    case Text(s) => Success(Join(Characters(s), ", "))
    case _ => Failure(NotIterable)
  }

  /** A non-empty string joins as its characters with ", " between them:
      character i lands at position 3 * i. */
  lemma {:induction false} JoinCharacters(s: string)
    requires s != []
    ensures |Join(Characters(s), ", ")| == 3 * |s| - 2
    ensures forall i :: 0 <= i < |s| ==> Join(Characters(s), ", ")[3 * i] == s[i]
    ensures forall i :: 0 <= i < |s| - 1 ==>
      Join(Characters(s), ", ")[3 * i + 1] == ',' && Join(Characters(s), ", ")[3 * i + 2] == ' '
  {
    var j := Join(Characters(s), ", ");
    if |s| == 1 {
      assert Characters(s) == [[s[0]]];
    } else {
      var t := s[1..];
      assert Characters(s)[1..] == Characters(t);
      JoinCharacters(t);
      var j' := Join(Characters(t), ", ");
      assert j == [s[0]] + ", " + j';
      forall i | 1 <= i < |s| ensures j[3 * i] == s[i] {
        assert j[3 * i] == j'[3 * (i - 1)];
      }
      forall i | 1 <= i < |s| - 1 ensures j[3 * i + 1] == ',' && j[3 * i + 2] == ' ' {
        assert j[3 * i + 1] == j'[3 * (i - 1) + 1];
        assert j[3 * i + 2] == j'[3 * (i - 1) + 2];
      }
    }
  }

  /** A string of interests is joined character by character. */
  lemma StringJoinExample(s: string)
    requires s == "abc"
    ensures JoinValue(Text(s)) == Success("a, b, c")
  {
    JoinCharacters(s);
    var j := Join(Characters(s), ", ");
    assert s[0] == 'a' && s[1] == 'b' && s[2] == 'c';
    assert j[0] == 'a' && j[3] == 'b' && j[6] == 'c';
    assert j[1] == ',' && j[2] == ' ' && j[4] == ',' && j[5] == ' ';
    assert j == "a, b, c";
  }

  /** `', '.join(preferences.get(k, []))` */
  function JoinField(p: Record, k: string): Result<string, string> {
    JoinValue(GetOr(p, k, List([])))
  }

  /** `str(preferences.get(k, default))` */
  function Field(p: Record, k: string, default: string, floatRepr: real -> string): string {
    Str(GetOr(p, k, Text(default)), floatRepr)
  }

  /** The lines before the interests. */
  function HeadLines(p: Record, floatRepr: real -> string): string {
    "Destination: " + Field(p, "destination", "Not specified", floatRepr) + "\n"
    + "Travel Dates: " + Field(p, "start_date", "Not specified", floatRepr)
    + " to " + Field(p, "end_date", "Not specified", floatRepr) + "\n"
    + "Total Budget: $" + Field(p, "budget", "Not specified", floatRepr) + "\n"
  }

  /** The lines after the interests. */
  function TailLines(p: Record, floatRepr: real -> string): string {
    "Dietary Preferences: " + Field(p, "dietary_preferences", "None", floatRepr) + "\n"
    + "Mobility Level: " + Field(p, "mobility_level", "Full Mobility", floatRepr) + "\n"
    + "Accommodation Type: " + Field(p, "accommodation_type", "Not specified", floatRepr) + "\n"
  }

  /** The prompt up to the joined main interests. */
  function BeforeMain(intro: string, head: string): string {
    intro + head + "Main Interests: "
  }

  /** The prompt after the joined main interests. */
  function AfterMain(detailed: string, tail: string, instructions: string): string {
    "\n" + "Detailed Interests: " + detailed + "\n" + tail + instructions
  }

  /** The prompt around its two interest lines. */
  function Assemble(intro: string, head: string, main: string, detailed: string, tail: string, instructions: string): string {
    BeforeMain(intro, head) + main + AfterMain(detailed, tail, instructions)
  }

  /** `generate_ai_travel_prompt(preferences)`; the `TypeError` of joining
      interests that are neither a list nor a string is a failure. */
  function BuildPrompt(p: Record, floatRepr: real -> string): (r: Result<string, string>)
    ensures r.Failure? <==>
      !Joinable(GetOr(p, "main_interests", List([]))) || !Joinable(GetOr(p, "detailed_interests", List([])))
    ensures r.Failure? ==> r.error == NotIterable
  {
    var main :- JoinField(p, "main_interests");
    var detailed :- JoinField(p, "detailed_interests");
    Success(Assemble(Intro, HeadLines(p, floatRepr), main, detailed, TailLines(p, floatRepr), Instructions))
  }

  /** The assembled prompt starts with the introduction and the head lines. */
  lemma AssembleOpening(intro: string, head: string, main: string, detailed: string, tail: string,
                        instructions: string)
    ensures StartsWith(Assemble(intro, head, main, detailed, tail, instructions), intro + head)
  {
    var rest := "Main Interests: " + main + AfterMain(detailed, tail, instructions);
    assert Assemble(intro, head, main, detailed, tail, instructions) == (intro + head) + rest;
  }

  /** The assembled prompt ends with the instructions. */
  lemma AssembleClosing(intro: string, head: string, main: string, detailed: string, tail: string,
                        instructions: string)
    ensures EndsWith(Assemble(intro, head, main, detailed, tail, instructions), instructions)
  {
    var front := BeforeMain(intro, head) + main + "\n" + "Detailed Interests: " + detailed + "\n" + tail;
    assert Assemble(intro, head, main, detailed, tail, instructions) == front + instructions;
  }

  /** The assembled prompt holds every joined main interest. */
  lemma AssembleNames(intro: string, head: string, items: seq<string>, detailed: string, tail: string,
                      instructions: string)
    ensures forall i | 0 <= i < |items| ::
      Contains(Assemble(intro, head, Join(items, ", "), detailed, tail, instructions), items[i])
  {
    forall i | 0 <= i < |items|
      ensures Contains(Assemble(intro, head, Join(items, ", "), detailed, tail, instructions), items[i])
    {
      var k := JoinOffset(items, ", ", i);
      ContainsInside(BeforeMain(intro, head), Join(items, ", "), AfterMain(detailed, tail, instructions), items[i], k);
    }
  }

  /** The assembled prompt holds the labelled main interests. */
  lemma AssembleMain(intro: string, head: string, main: string, detailed: string, tail: string,
                     instructions: string)
    ensures Contains(Assemble(intro, head, main, detailed, tail, instructions), "Main Interests: " + main)
  {
    var labelled := "Main Interests: " + main;
    assert Assemble(intro, head, main, detailed, tail, instructions)
      == (intro + head) + labelled + AfterMain(detailed, tail, instructions);
    ContainsInside(intro + head, labelled, AfterMain(detailed, tail, instructions), labelled, 0);
  }

  /** The assembled prompt holds the labelled detailed interests and the
      tail lines. */
  lemma AssembleTail(intro: string, head: string, main: string, detailed: string, tail: string,
                     instructions: string)
    ensures Contains(Assemble(intro, head, main, detailed, tail, instructions), "Detailed Interests: " + detailed)
    ensures Contains(Assemble(intro, head, main, detailed, tail, instructions), tail)
  {
    var front := BeforeMain(intro, head) + main + "\n";
    var labelled := "Detailed Interests: " + detailed;
    var middle := labelled + "\n" + tail;
    assert Assemble(intro, head, main, detailed, tail, instructions) == front + middle + instructions;
    ContainsInside(front, middle, instructions, labelled, 0);
    ContainsInside(front, middle, instructions, tail, |labelled| + 1);
  }

  /** A built prompt is the template filled with the record's fields. */
  lemma PromptIs(p: Record, floatRepr: real -> string, prompt: string)
    requires BuildPrompt(p, floatRepr) == Success(prompt)
    ensures JoinField(p, "main_interests").Success? && JoinField(p, "detailed_interests").Success?
    ensures prompt == Assemble(Intro, HeadLines(p, floatRepr), JoinField(p, "main_interests").value,
      JoinField(p, "detailed_interests").value, TailLines(p, floatRepr), Instructions)
  {
  }

  /** The prompt opens with the introduction and then the destination,
      dates and budget lines. */
  lemma PromptOpening(p: Record, floatRepr: real -> string, prompt: string)
    requires BuildPrompt(p, floatRepr) == Success(prompt)
    ensures StartsWith(prompt, Intro + HeadLines(p, floatRepr))
  {
    PromptIs(p, floatRepr, prompt);
    AssembleOpening(Intro, HeadLines(p, floatRepr), JoinField(p, "main_interests").value,
      JoinField(p, "detailed_interests").value, TailLines(p, floatRepr), Instructions);
  }

  /** The prompt closes with the instructions. */
  lemma PromptClosing(p: Record, floatRepr: real -> string, prompt: string)
    requires BuildPrompt(p, floatRepr) == Success(prompt)
    ensures EndsWith(prompt, Instructions)
  {
    PromptIs(p, floatRepr, prompt);
    AssembleClosing(Intro, HeadLines(p, floatRepr), JoinField(p, "main_interests").value,
      JoinField(p, "detailed_interests").value, TailLines(p, floatRepr), Instructions);
  }

  /** When the main interests are a list, the prompt names every one. */
  lemma PromptNamesInterests(p: Record, floatRepr: real -> string, prompt: string, items: seq<string>)
    requires BuildPrompt(p, floatRepr) == Success(prompt)
    requires GetOr(p, "main_interests", List([])) == List(items)
    ensures forall i | 0 <= i < |items| :: Contains(prompt, items[i])
  {
    PromptIs(p, floatRepr, prompt);
    AssembleNames(Intro, HeadLines(p, floatRepr), items, JoinField(p, "detailed_interests").value,
      TailLines(p, floatRepr), Instructions);
  }

  /** The prompt carries the joined main interests, a list or a string, on
      their labelled line. */
  lemma PromptMainInterests(p: Record, floatRepr: real -> string, prompt: string)
    requires BuildPrompt(p, floatRepr) == Success(prompt)
    ensures JoinField(p, "main_interests").Success?
    ensures Contains(prompt, "Main Interests: " + JoinField(p, "main_interests").value)
  {
    PromptIs(p, floatRepr, prompt);
    AssembleMain(Intro, HeadLines(p, floatRepr), JoinField(p, "main_interests").value,
      JoinField(p, "detailed_interests").value, TailLines(p, floatRepr), Instructions);
  }

  /** The prompt carries the joined detailed interests on their labelled
      line, and the dietary, mobility and accommodation lines. */
  lemma PromptDetailsAndTail(p: Record, floatRepr: real -> string, prompt: string)
    requires BuildPrompt(p, floatRepr) == Success(prompt)
    ensures JoinField(p, "detailed_interests").Success?
    ensures Contains(prompt, "Detailed Interests: " + JoinField(p, "detailed_interests").value)
    ensures Contains(prompt, TailLines(p, floatRepr))
  {
    PromptIs(p, floatRepr, prompt);
    AssembleTail(Intro, HeadLines(p, floatRepr), JoinField(p, "main_interests").value,
      JoinField(p, "detailed_interests").value, TailLines(p, floatRepr), Instructions);
  }

  /** `generate_ai_itinerary(preferences)` when the service answers with
      `generated`: the cleaned answer, or the message of the prompt's
      `TypeError`. */
  function Itinerary(p: Record, floatRepr: real -> string, generated: string): (r: string)
    ensures BuildPrompt(p, floatRepr).Success? ==> r == CleanResponse(generated, BuildPrompt(p, floatRepr).value)
    ensures BuildPrompt(p, floatRepr).Failure? ==> r == "Error generating itinerary: " + NotIterable
  {
    match BuildPrompt(p, floatRepr)
    case Success(prompt) => CleanResponse(generated, prompt)
    case Failure(e) => "Error generating itinerary: " + e
  }

  /** `generated_text.replace(prompt, '').strip()`: every occurrence of the
      prompt is removed, wherever it is, then surrounding whitespace. What
      is left neither starts nor ends with whitespace, and an answer that
      does not contain the prompt is only trimmed. */
  function CleanResponse(generated: string, prompt: string): (r: string)
    ensures r == [] || (!IsSpace(r[0]) && !IsSpace(r[|r| - 1]))
    ensures Strip(r) == r
    ensures !Contains(generated, prompt) ==> r == Strip(generated)
  {
    var removed := RemoveAll(generated, prompt);
    assert !Contains(generated, prompt) ==> removed == generated by {
      if !Contains(generated, prompt) {
        RemoveAllAbsent(generated, prompt);
      }
    }
    StripIdempotent(removed);
    Strip(removed)
  }

  /** Interests that are neither a list nor a string make the itinerary
      the message of the `TypeError`, whatever the service would answer. */
  lemma UnjoinableItinerary(p: Record, floatRepr: real -> string, generated: string)
    requires !Joinable(GetOr(p, "main_interests", List([]))) || !Joinable(GetOr(p, "detailed_interests", List([])))
    ensures Itinerary(p, floatRepr, generated) == "Error generating itinerary: can only join an iterable"
  {
  }

  /** A model that echoes the prompt before its answer has the echo removed
      and the answer trimmed. */
  lemma EchoRemoved(prompt: string, answer: string)
    requires prompt != [] && !Contains(answer, prompt)
    ensures CleanResponse(prompt + answer, prompt) == Strip(answer)
  {
    RemoveAllLeading(prompt, answer);
    RemoveAllAbsent(answer, prompt);
  }

  /** An occurrence of the prompt inside the answer is removed too, not
      only a leading echo: the text around it is joined and trimmed. */
  lemma InnerEchoRemoved(before: string, prompt: string, after: string)
    requires prompt != [] && !Contains(before + prompt[..|prompt| - 1], prompt)
    requires !Contains(after, prompt)
    ensures CleanResponse(before + prompt + after, prompt) == Strip(before + after)
  {
    RemoveAllMiddle(before, prompt, after);
    RemoveAllAbsent(after, prompt);
  }

  /** A service that echoes the prompt before its answer yields the
      answer alone, trimmed. */
  lemma EchoedItinerary(p: Record, floatRepr: real -> string, prompt: string, answer: string)
    requires BuildPrompt(p, floatRepr) == Success(prompt)
    requires !Contains(answer, prompt)
    ensures Itinerary(p, floatRepr, prompt + answer) == Strip(answer)
  {
    PromptClosing(p, floatRepr, prompt);
    EchoRemoved(prompt, answer);
  }

}
