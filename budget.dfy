/** `TravelPlannerPromptSystem.interpret_budget` and the budget ranges it
    consults: a free-text budget becomes a number. */
module Budget {
  import opened Strings
  import opened Values

  datatype Bound = Finite(n: int) | Unbounded

  /** A named budget range `(min, max)`. */
  datatype BudgetRange = BudgetRange(name: string, low: int, high: Bound)

  /** The budget ranges, in the order the dictionary lists them. */
  const Ranges: seq<BudgetRange> := [
    BudgetRange("low", 0, Finite(1000)),
    BudgetRange("moderate", 1000, Finite(3000)),
    BudgetRange("high", 3000, Finite(10000)),
    BudgetRange("luxury", 10000, Unbounded)
  ]

  /** The integer returned when the text names no range and has no digits. */
  const DefaultBudget: int := 2000

  /** `(min + max) / 2`, a float; infinite for the open-ended range. */
  function Midpoint(r: BudgetRange): (v: Value)
    ensures v == Infinity <==> r.high.Unbounded?
    ensures r.high.Finite? ==> v.Float? && v.x - r.low as real == r.high.n as real - v.x
    ensures r.high.Finite? && r.low <= r.high.n ==> r.low as real <= v.x <= r.high.n as real
  {
    match r.high
    case Finite(h) => Float((r.low + h) as real / 2.0)
    case Unbounded => Infinity
  }

  /** `re.sub(r'[^\w\s]', '', s)`: drops every character that is neither a
      word character nor whitespace. */
  function KeepWordAndSpace(s: string): (r: string)
    ensures |r| <= |s|
    ensures forall i :: 0 <= i < |r| ==> IsWordChar(r[i]) || IsSpace(r[i])
    ensures (forall i :: 0 <= i < |s| ==> IsWordChar(s[i]) || IsSpace(s[i])) ==> r == s
  {
    if s == [] then []
    else if IsWordChar(s[0]) || IsSpace(s[0]) then [s[0]] + KeepWordAndSpace(s[1..])
    else KeepWordAndSpace(s[1..])
  }

  /** The filter keeps what it keeps of each part of a text. */
  lemma {:induction false} KeepWordAndSpaceAppend(a: string, b: string)
    ensures KeepWordAndSpace(a + b) == KeepWordAndSpace(a) + KeepWordAndSpace(b)
  {
    if a != [] {
      assert (a + b)[1..] == a[1..] + b;
      KeepWordAndSpaceAppend(a[1..], b);
    } else {
      assert a + b == b;
    }
  }

  /** A single character is kept exactly when it is a word character or
      whitespace. */
  lemma KeepWordAndSpaceChar(c: char)
    ensures KeepWordAndSpace([c]) == if IsWordChar(c) || IsSpace(c) then [c] else []
  {
  }

  /** The text the ranges and digits are looked for in: `re.sub(r'[^\w\s]',
      '', s).lower()`. */
  function CleanBudgetText(s: string): (r: string)
    ensures |r| <= |s|
    ensures forall i :: 0 <= i < |r| ==> (IsWordChar(r[i]) || IsSpace(r[i])) && !('A' <= r[i] <= 'Z')
  {
    Lower(KeepWordAndSpace(s))
  }

  /** The clean-up works character by character. */
  lemma CleanBudgetTextAppend(a: string, b: string)
    ensures CleanBudgetText(a + b) == CleanBudgetText(a) + CleanBudgetText(b)
  {
    KeepWordAndSpaceAppend(a, b);
    LowerAppend(KeepWordAndSpace(a), KeepWordAndSpace(b));
  }

  /** A word character or whitespace is kept and lower-cased; anything
      else is dropped. */
  lemma CleanBudgetTextChar(c: char)
    ensures CleanBudgetText([c]) == if IsWordChar(c) || IsSpace(c) then [LowerChar(c)] else []
  {
    KeepWordAndSpaceChar(c);
  }

  /** Index of the first range, from `k` on, whose name occurs in `text`;
      `|Ranges|` when none does. */
  function FirstRangeFrom(text: string, k: nat): (i: nat)
    requires k <= |Ranges|
    ensures k <= i <= |Ranges|
    ensures i < |Ranges| ==> Contains(text, Ranges[i].name)
    ensures forall j :: k <= j < i ==> !Contains(text, Ranges[j].name)
    decreases |Ranges| - k
  {
    if k == |Ranges| then k
    else if Contains(text, Ranges[k].name) then k
    else FirstRangeFrom(text, k + 1)
  }

  /** End of the maximal run of digits that starts at `i`. */
  function DigitRunEnd(s: string, i: nat): (j: nat)
    requires i <= |s|
    ensures i <= j <= |s|
    ensures forall k :: i <= k < j ==> IsDigit(s[k])
    ensures j == |s| || !IsDigit(s[j])
    decreases |s| - i
  {
    if i < |s| && IsDigit(s[i]) then DigitRunEnd(s, i + 1) else i
  }

  /** `s[i..j]` is the first maximal run of digits in s. */
  ghost predicate IsFirstDigitRun(s: string, i: int, j: int) {
    && 0 <= i < j <= |s|
    && (forall k :: 0 <= k < i ==> !IsDigit(s[k]))
    && (forall k :: i <= k < j ==> IsDigit(s[k]))
    && (j == |s| || !IsDigit(s[j]))
  }

  /** Bounds of `re.findall(r'\d+', s)[0]` searched from `i`: the first
      digit at or after i and the end of its run; None when no digit follows. */
  function FirstDigitRun(s: string, i: nat): (r: Option<(nat, nat)>)
    requires i <= |s|
    ensures r.None? <==> forall k :: i <= k < |s| ==> !IsDigit(s[k])
    ensures r.Some? ==>
      && i <= r.value.0 < r.value.1 <= |s|
      && (forall k :: i <= k < r.value.0 ==> !IsDigit(s[k]))
      && (forall k :: r.value.0 <= k < r.value.1 ==> IsDigit(s[k]))
      && (r.value.1 == |s| || !IsDigit(s[r.value.1]))
    decreases |s| - i
  {
    if i == |s| then None
    else if IsDigit(s[i]) then Some((i, DigitRunEnd(s, i)))
    else FirstDigitRun(s, i + 1)
  }

  /** `interpret_budget(budget_input)`, for the string `str(budget_input)`. */
  function InterpretBudget(input: string): (v: Value)
    ensures v == Infinity || v == Int(DefaultBudget) || (v.Float? && v.x >= 0.0)
  {
    var text := CleanBudgetText(input);
    var k := FirstRangeFrom(text, 0);
    if k < |Ranges| then Midpoint(Ranges[k])
    else match FirstDigitRun(text, 0)
      case Some((i, j)) => Float(DecimalValue(text[i..j]) as real)
      case None => Int(DefaultBudget)
  }

  /** The range names are tried in the order low, moderate, high, luxury,
      each as a substring of the cleaned text, and the first one found
      decides the result: its midpoint. */
  lemma InterpretBudgetNamedRange(input: string)
    ensures var text := CleanBudgetText(input); var v := InterpretBudget(input);
      && (Contains(text, "low") ==> v == Float(500.0))
      && (!Contains(text, "low") && Contains(text, "moderate") ==> v == Float(2000.0))
      && (!Contains(text, "low") && !Contains(text, "moderate") && Contains(text, "high")
          ==> v == Float(6500.0))
      && ((!Contains(text, "low") && !Contains(text, "moderate") && !Contains(text, "high")
           && Contains(text, "luxury")) ==> v == Infinity)
  {
  }

  /** Without a range name the value of the first maximal digit run of the
      cleaned text is taken, as a float; without any digit the integer 2000. */
  lemma InterpretBudgetDigits(input: string)
    requires forall r | r in Ranges :: !Contains(CleanBudgetText(input), r.name)
    ensures var text := CleanBudgetText(input); var v := InterpretBudget(input);
      && (v == Int(DefaultBudget) <==> forall k :: 0 <= k < |text| ==> !IsDigit(text[k]))
      && (forall i, j :: IsFirstDigitRun(text, i, j) ==>
            AllDigits(text[i..j]) && v == Float(DecimalValue(text[i..j]) as real))
  {
    var text := CleanBudgetText(input);
    assert FirstRangeFrom(text, 0) == |Ranges|;
    forall i, j | IsFirstDigitRun(text, i, j)
      ensures AllDigits(text[i..j]) && InterpretBudget(input) == Float(DecimalValue(text[i..j]) as real)
    {
      var r := FirstDigitRun(text, 0);
      assert IsDigit(text[i]);
      assert r.Some?;
      var (i', j') := r.value;
      assert IsDigit(text[i']);
      assert i' == i;
      assert j' < |text| ==> !IsDigit(text[j']);
      assert j < |text| ==> !IsDigit(text[j]);
      assert j' == j;
    }
  }

  /** No range name occurs in a text that lacks one letter of each name. */
  lemma NoRangeName(text: string)
    requires 'l' !in text && 'd' !in text && 'g' !in text
    ensures FirstRangeFrom(text, 0) == |Ranges|
  {
    NotContainsChar(text, "low", 'l');
    NotContainsChar(text, "moderate", 'd');
    NotContainsChar(text, "high", 'g');
    NotContainsChar(text, "luxury", 'l');
  }

  /** Lower-case words, digits and spaces are left as they are by the clean-up. */
  lemma PlainText(s: string)
    requires forall i | 0 <= i < |s| :: ('a' <= s[i] <= 'z' || IsDigit(s[i]) || IsSpace(s[i]))
    ensures CleanBudgetText(s) == s
  {
    assert KeepWordAndSpace(s) == s;
  }

  lemma DecimalValue4500()
    ensures DecimalValue("4500") == 4500
  {
    assert "4500"[..3] == "450" && "450"[..2] == "45" && "45"[..1] == "4";
  }

  lemma SecondRangeNamed(text: string)
    requires !Contains(text, "low") && Contains(text, "moderate")
    ensures FirstRangeFrom(text, 0) == 1
  {
    assert Ranges[0].name == "low" && Ranges[1].name == "moderate";
  }

  lemma ModerateBudgetText(s: string)
    requires s == "moderate budget"
    ensures FirstRangeFrom(s, 0) == 1
  {
    NotContainsChar(s, "low", 'l');
    ContainsAt(s, "moderate", 0);
    SecondRangeNamed(s);
  }

  /** "moderate budget", the description used when none is given, is 2000. */
  lemma ModerateBudgetExample()
    ensures InterpretBudget("moderate budget") == Float(2000.0)
  {
    PlainText("moderate budget");
    ModerateBudgetText("moderate budget");
  }

  lemma AllowText(s: string)
    requires s == "allow"
    ensures CleanBudgetText(s) == s && FirstRangeFrom(s, 0) == 0
  {
    PlainText(s);
    assert s[2..5] == "low";
    ContainsAt(s, "low", 2);
  }

  lemma UpperLowText(s: string)
    requires s == "LOW"
    ensures CleanBudgetText(s) == "low"
  {
    assert KeepWordAndSpace(s) == s;
    assert LowerChar('L') == 'l' && LowerChar('O') == 'o' && LowerChar('W') == 'w';
  }

  lemma LowText(t: string)
    requires t == "low"
    ensures FirstRangeFrom(t, 0) == 0
  {
    ContainsAt(t, "low", 0);
  }

  /** Names are matched after lower-casing: "LOW" selects the low range. */
  lemma UpperCaseExample()
    ensures InterpretBudget("LOW") == Float(500.0)
  {
    UpperLowText("LOW");
    LowText("low");
  }

  /** Names are matched as substrings: "allow" selects the low range. */
  lemma SubstringExample()
    ensures InterpretBudget("allow") == Float(500.0)
  {
    AllowText("allow");
  }

  lemma CurrencyText(s: string)
    requires s == "$4,500"
    ensures CleanBudgetText(s) == "4500"
  {
    assert KeepWordAndSpace(s[2..]) == KeepWordAndSpace(s[3..]);
    assert KeepWordAndSpace(s[1..]) == "4" + KeepWordAndSpace(s[2..]);
    PlainText("500");
    assert s[3..] == "500";
  }

  lemma CurrencyDigits(t: string)
    requires t == "4500"
    ensures FirstRangeFrom(t, 0) == |Ranges|
    ensures FirstDigitRun(t, 0) == Some((0, 4)) && t[0..4] == t
  {
    NoRangeName(t);
    assert DigitRunEnd(t, 0) == 4;
  }

  /** Punctuation goes before digits are read: "$4,500" is 4500. */
  lemma CurrencyExample()
    ensures InterpretBudget("$4,500") == Float(4500.0)
  {
    CurrencyText("$4,500");
    CurrencyDigits("4500");
    DecimalValue4500();
  }

  lemma DecimalPointText(s: string)
    requires s == "4.5k"
    ensures CleanBudgetText(s) == "45k"
  {
    assert KeepWordAndSpace(s[1..]) == KeepWordAndSpace(s[2..]);
    PlainText("5k");
  }

  lemma DecimalPointDigits(t: string)
    requires t == "45k"
    ensures FirstRangeFrom(t, 0) == |Ranges|
    ensures FirstDigitRun(t, 0) == Some((0, 2)) && t[0..2] == "45"
  {
    NoRangeName(t);
    assert DigitRunEnd(t, 2) == 2;
    assert DigitRunEnd(t, 0) == 2;
  }

  /** The decimal point goes too: "4.5k" is 45, not 4500. */
  lemma DecimalPointExample()
    ensures InterpretBudget("4.5k") == Float(45.0)
  {
    DecimalPointText("4.5k");
    DecimalPointDigits("45k");
    assert "45"[..1] == "4";
    assert DecimalValue("45") == 45;
  }

  lemma NoNumbersText()
    ensures FirstRangeFrom("no numbers here", 0) == |Ranges|
  {
    NoRangeName("no numbers here");
  }

  lemma NoNumbersDigits(s: string)
    requires s == "no numbers here"
    ensures FirstDigitRun(s, 0) == None
  {
    assert forall k | 0 <= k < |s| :: !IsDigit(s[k]);
  }

  /** A description with neither a range name nor a digit gives the integer 2000. */
  lemma NoNumbersExample()
    ensures InterpretBudget("no numbers here") == Int(DefaultBudget)
  {
    PlainText("no numbers here");
    NoNumbersText();
    NoNumbersDigits("no numbers here");
  }

  lemma LuxuryMisses(s: string)
    requires s == "luxury"
    ensures !Contains(s, "low") && !Contains(s, "moderate") && !Contains(s, "high")
  {
    NotContainsChar(s, "low", 'o');
    NotContainsChar(s, "moderate", 'm');
    NotContainsChar(s, "high", 'h');
  }

  lemma OnlyLuxuryNamed(text: string)
    requires !Contains(text, "low") && !Contains(text, "moderate") && !Contains(text, "high")
    requires Contains(text, "luxury")
    ensures FirstRangeFrom(text, 0) == 3
  {
    assert Ranges[0].name == "low" && Ranges[1].name == "moderate";
    assert Ranges[2].name == "high" && Ranges[3].name == "luxury";
  }

  lemma LuxuryClean(s: string)
    requires s == "luxury"
    ensures CleanBudgetText(s) == s
  {
    PlainText(s);
  }

  lemma LuxuryText(s: string)
    requires s == "luxury"
    ensures FirstRangeFrom(s, 0) == 3
  {
    LuxuryMisses(s);
    ContainsAt(s, "luxury", 0);
    OnlyLuxuryNamed(s);
  }

  /** "luxury" names the open-ended range, whose midpoint is infinite. */
  lemma LuxuryExample()
    ensures InterpretBudget("luxury") == Infinity
  {
    LuxuryClean("luxury");
    LuxuryText("luxury");
  }
}
