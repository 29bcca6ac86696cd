/** Interest interpretation: the subcategory table, the keyword table,
    `TravelPlannerPromptSystem.interpret_interests` and the narrowing of the
    detailed-interest choices to the selected categories. Python's
    insertion-ordered dictionaries are sequences of entries here. */
module Interests {
  import opened Strings

  /** One `category: [subcategories]` entry of an ordered dictionary. */
  datatype Entry = Entry(category: string, subcategories: seq<string>)

  /** The subcategories offered for each main interest, in table order. */
  const SubcategoryTable: seq<Entry> := [
    Entry("History", ["Ancient Ruins", "Museums", "Historical Landmarks", "Archaeological Sites"]),
    Entry("Food", ["Street Food", "Fine Dining", "Local Cuisine", "Cooking Classes", "Food Tours"]),
    Entry("Nature", ["Hiking", "Wildlife Watching", "National Parks", "Beaches", "Scenic Landscapes"]),
    Entry("Adventure", ["Extreme Sports", "Outdoor Activities", "Water Sports", "Mountain Activities"]),
    Entry("Art", ["Art Galleries", "Street Art", "Cultural Performances", "Local Crafts"])
  ]

  /** `keyword: (category, subcategories)` */
  datatype KeywordRule = KeywordRule(keyword: string, category: string, subcategories: seq<string>)

  /** The keyword table of `interpret_interests`, in table order. */
  const KeywordRules: seq<KeywordRule> := [
    KeywordRule("history", "History", ["Museums", "Historical Landmarks"]),
    KeywordRule("culture", "History", ["Museums", "Cultural Performances"]),
    KeywordRule("nature", "Nature", ["National Parks", "Hiking", "Scenic Landscapes"]),
    KeywordRule("food", "Food", ["Local Cuisine", "Street Food", "Food Tours"]),
    KeywordRule("adventure", "Adventure", ["Extreme Sports", "Outdoor Activities"]),
    KeywordRule("art", "Art", ["Art Galleries", "Street Art"]),
    KeywordRule("relax", "Nature", ["Beaches", "Scenic Landscapes"]),
    KeywordRule("explore", "Adventure", ["Hiking", "Wildlife Watching"])
  ]

  /** The balanced mix returned when no keyword occurs. */
  const BalancedMix: seq<Entry> := [
    Entry("History", ["Museums"]),
    Entry("Nature", ["National Parks"]),
    Entry("Food", ["Local Cuisine"])
  ]

  /** `list(d.keys())` */
  function Categories(m: seq<Entry>): seq<string> {
    seq(|m|, i requires 0 <= i < |m| => m[i].category)
  }

  function SubcategoryLists(m: seq<Entry>): seq<seq<string>> {
    seq(|m|, i requires 0 <= i < |m| => m[i].subcategories)
  }

  /** `[s for v in d.values() for s in v]` */
  function AllSubcategories(m: seq<Entry>): seq<string> {
    Flatten(SubcategoryLists(m))
  }

  /** Position of the first k in keys; `|keys|` when k is absent. */
  function IndexOf(keys: seq<string>, k: string): (i: nat)
    ensures i <= |keys|
    ensures i < |keys| <==> k in keys
    ensures i < |keys| ==> keys[i] == k
    ensures forall j :: 0 <= j < i ==> keys[j] != k
  {
    if keys == [] then 0
    else if keys[0] == k then 0
    else 1 + IndexOf(keys[1..], k)
  }

  /** Appending a key does not move the keys already there. */
  lemma IndexOfAppend(keys: seq<string>, x: string, c: string)
    requires c in keys || c != x
    ensures IndexOf(keys + [x], c) == if c in keys then IndexOf(keys, c) else |keys| + 1
  {
    if keys != [] && keys[0] != c {
      assert (keys + [x])[1..] == keys[1..] + [x];
      assert c in keys ==> c in keys[1..];
      IndexOfAppend(keys[1..], x, c);
    }
  }

  /** `d.get(k, [])` */
  function Lookup(m: seq<Entry>, k: string): (r: seq<string>)
    ensures k !in Categories(m) ==> r == []
  {
    var i := IndexOf(Categories(m), k);
    if i < |m| then m[i].subcategories else []
  }

  /** `d.setdefault(k, []).extend(vs)`: k keeps its place, or is added at
      the end, and vs is appended to its list; no other entry changes. */
  function SetDefaultExtend(m: seq<Entry>, k: string, vs: seq<string>): (r: seq<Entry>)
    ensures Categories(r) == if k in Categories(m) then Categories(m) else Categories(m) + [k]
    ensures Lookup(r, k) == Lookup(m, k) + vs
    ensures forall c :: c != k ==> Lookup(r, c) == Lookup(m, c)
  {
    var i := IndexOf(Categories(m), k);
    if i < |m| then
      var r := m[i := Entry(k, m[i].subcategories + vs)];
      assert Categories(r) == Categories(m);
      r
    else
      var r := m + [Entry(k, vs)];
      assert Categories(r) == Categories(m) + [k];
      forall c | c != k ensures Lookup(r, c) == Lookup(m, c) {
        IndexOfAppend(Categories(m), k, c);
      }
      r
  }

  /** The rules whose keyword occurs in text, in table order. */
  function Matching(rules: seq<KeywordRule>, text: string): seq<KeywordRule> {
    if rules == [] then []
    else
      var last := rules[|rules| - 1];
      Matching(rules[..|rules| - 1], text) + (if Contains(text, last.keyword) then [last] else [])
  }

  function RuleCategories(ms: seq<KeywordRule>): seq<string> {
    seq(|ms|, i requires 0 <= i < |ms| => ms[i].category)
  }

  /** s without repetitions, each element where it first occurs. */
  function FirstOccurrences(s: seq<string>): (r: seq<string>)
    ensures forall x :: x in r <==> x in s
    ensures forall i, j :: 0 <= i < j < |r| ==> r[i] != r[j]
  {
    if s == [] then []
    else
      var d := FirstOccurrences(s[..|s| - 1]);
      if s[|s| - 1] in d then d else d + [s[|s| - 1]]
  }

  /** The subcategories the rules in ms give to category c, concatenated
      in order, repetitions included. */
  function Gathered(ms: seq<KeywordRule>, c: string): seq<string> {
    if ms == [] then []
    else
      var last := ms[|ms| - 1];
      Gathered(ms[..|ms| - 1], c) + (if last.category == c then last.subcategories else [])
  }

  /** The dictionary the matched rules describe: one entry per category,
      in order of the first rule naming it, holding everything the rules
      give that category. */
  function Grouped(ms: seq<KeywordRule>): seq<Entry> {
    var ks := FirstOccurrences(RuleCategories(ms));
    seq(|ks|, i requires 0 <= i < |ks| => Entry(ks[i], Gathered(ms, ks[i])))
  }

  /** What `interpret_interests(text)` returns. */
  function InterestsOf(text: string): (r: seq<Entry>)
    ensures r != []
    ensures forall i, j :: 0 <= i < j < |r| ==> r[i].category != r[j].category
  {
    var ms := Matching(KeywordRules, Lower(text));
    if ms == [] then BalancedMix
    else
      assert RuleCategories(ms)[0] == ms[0].category;
      Grouped(ms)
  }

  lemma GatheredAbsent(ms: seq<KeywordRule>, c: string)
    requires c !in RuleCategories(ms)
    ensures Gathered(ms, c) == []
  {
    if ms != [] {
      var init := ms[..|ms| - 1];
      assert RuleCategories(ms) == RuleCategories(init) + [ms[|ms| - 1].category];
      GatheredAbsent(init, c);
    }
  }

  /** A dictionary is fixed by its keys, in order, and what each key
      looks up. */
  lemma EntriesDetermined(a: seq<Entry>, b: seq<Entry>)
    requires Categories(a) == Categories(b)
    requires forall i, j :: 0 <= i < j < |a| ==> Categories(a)[i] != Categories(a)[j]
    requires forall c :: Lookup(a, c) == Lookup(b, c)
    ensures a == b
  {
    assert |a| == |Categories(a)| == |Categories(b)| == |b|;
    forall j | 0 <= j < |a| ensures a[j] == b[j] {
      var k := Categories(a)[j];
      assert IndexOf(Categories(a), k) == j;
      assert Lookup(a, k) == a[j].subcategories;
      assert Lookup(b, k) == b[j].subcategories;
    }
  }

  /** One more matching rule does to the grouped dictionary exactly what
      `setdefault(category, []).extend(subcategories)` does. */
  lemma {:induction false} GroupedExtend(ms: seq<KeywordRule>, rule: KeywordRule)
    ensures Grouped(ms + [rule]) == SetDefaultExtend(Grouped(ms), rule.category, rule.subcategories)
  {
    var ms' := ms + [rule];
    var c := rule.category;
    assert ms'[..|ms'| - 1] == ms;
    assert RuleCategories(ms') == RuleCategories(ms) + [c];
    var cats := RuleCategories(ms);
    assert RuleCategories(ms')[..|ms'| - 1] == cats;
    var ks := FirstOccurrences(cats);
    var ks' := FirstOccurrences(RuleCategories(ms'));
    assert ks' == if c in ks then ks else ks + [c];
    var g := Grouped(ms);
    assert Categories(g) == ks;
    assert Categories(Grouped(ms')) == ks';
    var r := SetDefaultExtend(g, c, rule.subcategories);
    forall k ensures Lookup(Grouped(ms'), k) == Lookup(r, k) {
      GroupedLookup(ms', k);
      GroupedLookup(ms, k);
    }
    EntriesDetermined(Grouped(ms'), r);
  }

  /** `interpret_interests(interest_input)`: lower-cases the text, runs
      through the keyword table and extends the list of each matching
      rule's category; falls back to the balanced mix. */
  method InterpretInterests(input: string) returns (found: seq<Entry>)
    ensures found == InterestsOf(input)
  {
    var text := Lower(input);
    found := [];
    for i := 0 to |KeywordRules|
      invariant found == Grouped(Matching(KeywordRules[..i], text))
    {
      var rule := KeywordRules[i];
      assert KeywordRules[..i + 1][..i] == KeywordRules[..i];
      assert Matching(KeywordRules[..i + 1], text)
        == Matching(KeywordRules[..i], text) + (if Contains(text, rule.keyword) then [rule] else []);
      ghost var before := Matching(KeywordRules[..i], text);
      if Contains(text, rule.keyword) {
        assert Matching(KeywordRules[..i + 1], text) == before + [rule];
        GroupedExtend(Matching(KeywordRules[..i], text), rule);
        found := SetDefaultExtend(found, rule.category, rule.subcategories);
      } else {
        assert Matching(KeywordRules[..i + 1], text) == before;
      }
    }
    assert KeywordRules[..|KeywordRules|] == KeywordRules;
    ghost var ms := Matching(KeywordRules, text);
    if ms != [] {
      assert RuleCategories(ms)[0] == ms[0].category;
    }
    if found == [] {
      found := BalancedMix;
    }
  }

  /** A rule is matched exactly when it is in the table and its keyword
      occurs in the text. */
  lemma {:induction false} MatchingMembers(rules: seq<KeywordRule>, text: string, r: KeywordRule)
    ensures r in Matching(rules, text) <==> r in rules && Contains(text, r.keyword)
  {
    if rules != [] {
      var init := rules[..|rules| - 1];
      assert rules == init + [rules[|rules| - 1]];
      MatchingMembers(init, text, r);
    }
  }

  /** A category the matched rules name gathers at least what one rule gives. */
  lemma {:induction false} GatheredHasRule(ms: seq<KeywordRule>, c: string, k: nat)
    requires k < |ms| && ms[k].category == c
    ensures |Gathered(ms, c)| >= |ms[k].subcategories|
    ensures forall x :: x in ms[k].subcategories ==> x in Gathered(ms, c)
  {
    if k < |ms| - 1 {
      GatheredHasRule(ms[..|ms| - 1], c, k);
    }
  }

  /** What a category gathers comes from rules of that category. */
  lemma {:induction false} GatheredFrom(ms: seq<KeywordRule>, c: string, x: string)
    requires x in Gathered(ms, c)
    ensures exists k :: 0 <= k < |ms| && ms[k].category == c && x in ms[k].subcategories
  {
    var init := ms[..|ms| - 1];
    if x in Gathered(init, c) {
      GatheredFrom(init, c, x);
      var k :| 0 <= k < |init| && init[k].category == c && x in init[k].subcategories;
      assert ms[k] == init[k];
    } else {
      assert ms[|ms| - 1].category == c;
    }
  }

  /** Looking a category up in the grouped dictionary gives what the
      matched rules gather for it, and nothing for any other category. */
  lemma GroupedLookup(ms: seq<KeywordRule>, c: string)
    ensures c in Categories(Grouped(ms)) <==> c in RuleCategories(ms)
    ensures Lookup(Grouped(ms), c) == Gathered(ms, c)
  {
    var ks := FirstOccurrences(RuleCategories(ms));
    assert Categories(Grouped(ms)) == ks;
    if c !in ks {
      GatheredAbsent(ms, c);
    }
  }

  /** The balanced mix is the answer exactly when no keyword occurs in the
      lower-cased text. */
  lemma InterestsFallback(text: string)
    ensures InterestsOf(text) == BalancedMix <==>
      forall r | r in KeywordRules :: !Contains(Lower(text), r.keyword)
  {
    var ms := Matching(KeywordRules, Lower(text));
    if ms != [] {
      MatchingMembers(KeywordRules, Lower(text), ms[0]);
      var g := Grouped(ms);
      var c := ms[0].category;
      GroupedLookup(ms, c);
      assert RuleCategories(ms)[0] == c;
      GatheredHasRule(ms, c, 0);
      assert |ms[0].subcategories| >= 2;
      assert |Lookup(g, c)| >= 2;
      if g == BalancedMix {
        assert false;
      }
    } else {
      forall r | r in KeywordRules ensures !Contains(Lower(text), r.keyword) {
        MatchingMembers(KeywordRules, Lower(text), r);
      }
    }
  }

  lemma MatchedCategory(t: string, c: string)
    ensures c in RuleCategories(Matching(KeywordRules, t)) <==>
      exists r | r in KeywordRules :: r.category == c && Contains(t, r.keyword)
  {
    var ms := Matching(KeywordRules, t);
    if c in RuleCategories(ms) {
      var k :| 0 <= k < |ms| && RuleCategories(ms)[k] == c;
      MatchingMembers(KeywordRules, t, ms[k]);
    }
    if exists r | r in KeywordRules :: r.category == c && Contains(t, r.keyword) {
      var r :| r in KeywordRules && r.category == c && Contains(t, r.keyword);
      MatchingMembers(KeywordRules, t, r);
      var k :| 0 <= k < |ms| && ms[k] == r;
      assert RuleCategories(ms)[k] == c;
    }
  }

  lemma MatchedSubcategory(t: string, c: string, x: string)
    ensures x in Gathered(Matching(KeywordRules, t), c) <==>
      exists r | r in KeywordRules :: r.category == c && Contains(t, r.keyword) && x in r.subcategories
  {
    var ms := Matching(KeywordRules, t);
    if x in Gathered(ms, c) {
      GatheredFrom(ms, c, x);
      var k :| 0 <= k < |ms| && ms[k].category == c && x in ms[k].subcategories;
      MatchingMembers(KeywordRules, t, ms[k]);
    }
    if exists r | r in KeywordRules :: r.category == c && Contains(t, r.keyword) && x in r.subcategories {
      var r :| r in KeywordRules && r.category == c && Contains(t, r.keyword) && x in r.subcategories;
      MatchingMembers(KeywordRules, t, r);
      var k :| 0 <= k < |ms| && ms[k] == r;
      GatheredHasRule(ms, c, k);
    }
  }

  /** When some keyword occurs, a category is found exactly when a rule
      of that category has its keyword in the text, and its subcategories
      are exactly those such rules give. */
  lemma InterestsCategories(text: string, c: string, x: string)
    requires exists r | r in KeywordRules :: Contains(Lower(text), r.keyword)
    ensures c in Categories(InterestsOf(text)) <==>
      exists r | r in KeywordRules :: r.category == c && Contains(Lower(text), r.keyword)
    ensures x in Lookup(InterestsOf(text), c) <==>
      exists r | r in KeywordRules :: r.category == c && Contains(Lower(text), r.keyword) && x in r.subcategories
  {
    var t := Lower(text);
    var ms := Matching(KeywordRules, t);
    var r0 :| r0 in KeywordRules && Contains(t, r0.keyword);
    MatchingMembers(KeywordRules, t, r0);
    assert ms != [];
    GroupedLookup(ms, c);
    MatchedCategory(t, c);
    MatchedSubcategory(t, c, x);
  }


  /** Rules past k that do not match leave the matched rules as they are. */
  lemma {:induction false} MatchingDrop(rules: seq<KeywordRule>, text: string, k: nat)
    requires k <= |rules|
    requires forall j | k <= j < |rules| :: !Contains(text, rules[j].keyword)
    ensures Matching(rules, text) == Matching(rules[..k], text)
  {
    if k < |rules| {
      var init := rules[..|rules| - 1];
      assert init[..k] == rules[..k];
      MatchingDrop(init, text, k);
    } else {
      assert rules[..k] == rules;
    }
  }

  lemma HistoryCultureHits(text: string)
    requires text == "history culture"
    ensures Contains(text, "history") && Contains(text, "culture")
  {
    assert text[0..7] == "history";
    ContainsAt(text, "history", 0);
    assert text[8..15] == "culture";
    ContainsAt(text, "culture", 8);
  }

  lemma HistoryCultureMisses(text: string)
    requires text == "history culture"
    ensures !Contains(text, "nature") && !Contains(text, "food") && !Contains(text, "adventure")
    ensures !Contains(text, "art") && !Contains(text, "relax") && !Contains(text, "explore")
  {
    assert 'n' !in text && 'f' !in text && 'a' !in text && 'x' !in text;
    NotContainsChar(text, "nature", 'n');
    NotContainsChar(text, "food", 'f');
    NotContainsChar(text, "adventure", 'a');
    NotContainsChar(text, "art", 'a');
    NotContainsChar(text, "relax", 'a');
    NotContainsChar(text, "explore", 'x');
  }

  /** A text in which "history" and "culture" are the only keywords matches
      the first two rules. */
  lemma HistoryCultureMatches(text: string)
    requires Contains(text, "history") && Contains(text, "culture")
    requires !Contains(text, "nature") && !Contains(text, "food") && !Contains(text, "adventure")
    requires !Contains(text, "art") && !Contains(text, "relax") && !Contains(text, "explore")
    ensures Matching(KeywordRules, text) == KeywordRules[..2]
  {
    MatchingDrop(KeywordRules, text, 2);
    var two := KeywordRules[..2];
    assert two[1] == KeywordRules[1] && two[1].keyword == "culture";
    assert two[..1] == KeywordRules[..1];
    assert KeywordRules[..1][0].keyword == "history";
    assert KeywordRules[..1][..0] == [];
    assert Matching(KeywordRules[..1], text) == KeywordRules[..1];
  }

  lemma HistoryCultureGrouped(ms: seq<KeywordRule>)
    requires ms == KeywordRules[..2]
    ensures Grouped(ms) == [Entry("History", ["Museums", "Historical Landmarks", "Museums", "Cultural Performances"])]
  {
    assert RuleCategories(ms) == ["History", "History"];
    assert ["History", "History"][..1] == ["History"];
    assert FirstOccurrences(["History"]) == ["History"];
    assert FirstOccurrences(["History", "History"]) == ["History"];
    assert ms[..1][..0] == [];
    assert Gathered(ms[..1], "History") == ["Museums", "Historical Landmarks"];
    assert Gathered(ms, "History") == ["Museums", "Historical Landmarks", "Museums", "Cultural Performances"];
  }

  /** Two keywords of one category: a single entry whose list holds both
      rules' subcategories, "Museums" twice. */
  lemma HistoryCultureExample()
    ensures InterestsOf("History Culture") == [
      Entry("History", ["Museums", "Historical Landmarks", "Museums", "Cultural Performances"])]
  {
    assert Lower("History Culture") == "history culture";
    HistoryCultureHits("history culture");
    HistoryCultureMisses("history culture");
    HistoryCultureMatches("history culture");
    HistoryCultureGrouped(KeywordRules[..2]);
  }

  lemma DefaultDescriptionHits(text: string)
    requires text == "mix of culture and adventure"
    ensures Contains(text, "culture") && Contains(text, "adventure")
  {
    assert text[7..14] == "culture";
    ContainsAt(text, "culture", 7);
    assert text[19..28] == "adventure";
    ContainsAt(text, "adventure", 19);
  }

  lemma DefaultDescriptionLacks(text: string, p: string, j: nat)
    requires text == "mix of culture and adventure"
    requires ((p == "nature" || p == "food" || p == "art") && j == 0) || (p == "relax" && j == 2)
    ensures !Contains(text, p)
  {
    NotContainsPair(text, p, j);
  }

  lemma DefaultDescriptionMisses(text: string)
    requires text == "mix of culture and adventure"
    ensures !Contains(text, "history") && !Contains(text, "nature") && !Contains(text, "food")
    ensures !Contains(text, "art") && !Contains(text, "relax") && !Contains(text, "explore")
  {
    assert 'h' !in text && 'p' !in text;
    NotContainsChar(text, "history", 'h');
    NotContainsChar(text, "explore", 'p');
    DefaultDescriptionLacks(text, "nature", 0);
    DefaultDescriptionLacks(text, "food", 0);
    DefaultDescriptionLacks(text, "art", 0);
    DefaultDescriptionLacks(text, "relax", 2);
  }

  lemma CulturePrefixMatches(text: string)
    requires Contains(text, "culture") && !Contains(text, "history") && !Contains(text, "nature")
    ensures Matching(KeywordRules[..3], text) == [KeywordRules[1]]
  {
    var one := KeywordRules[..1];
    assert one[..0] == [] && one[0].keyword == "history";
    assert Matching(one, text) == [];
    var two := KeywordRules[..2];
    assert two[..1] == one && two[1].keyword == "culture";
    assert Matching(two, text) == [KeywordRules[1]];
    var three := KeywordRules[..3];
    assert three[..2] == two && three[2].keyword == "nature";
  }

  /** A text in which "culture" and "adventure" are the only keywords
      matches the second and the fifth rule. */
  lemma CultureAdventureMatches(text: string)
    requires Contains(text, "culture") && Contains(text, "adventure")
    requires !Contains(text, "history") && !Contains(text, "nature") && !Contains(text, "food")
    requires !Contains(text, "art") && !Contains(text, "relax") && !Contains(text, "explore")
    ensures Matching(KeywordRules, text) == [KeywordRules[1], KeywordRules[4]]
  {
    LastRulesMiss(text);
    CulturePrefixMatches(text);
    var four := KeywordRules[..4];
    assert four[..3] == KeywordRules[..3] && four[3].keyword == "food";
    assert Matching(four, text) == [KeywordRules[1]];
    var five := KeywordRules[..5];
    assert five[..4] == four && five[4].keyword == "adventure";
  }

  lemma LastRulesMiss(text: string)
    requires !Contains(text, "art") && !Contains(text, "relax") && !Contains(text, "explore")
    ensures Matching(KeywordRules, text) == Matching(KeywordRules[..5], text)
  {
    assert KeywordRules[5].keyword == "art" && KeywordRules[6].keyword == "relax";
    assert KeywordRules[7].keyword == "explore";
    MatchingDrop(KeywordRules, text, 5);
  }

  lemma CultureAdventureGrouped(ms: seq<KeywordRule>)
    requires ms == [KeywordRules[1], KeywordRules[4]]
    ensures Grouped(ms) == [
      Entry("History", ["Museums", "Cultural Performances"]),
      Entry("Adventure", ["Extreme Sports", "Outdoor Activities"])]
  {
    assert RuleCategories(ms) == ["History", "Adventure"];
    assert ["History", "Adventure"][..1] == ["History"];
    assert FirstOccurrences(["History"]) == ["History"];
    assert FirstOccurrences(["History", "Adventure"]) == ["History", "Adventure"];
    assert ms[..1] == [KeywordRules[1]] && [KeywordRules[1]][..0] == [];
    assert Gathered(ms[..1], "History") == ["Museums", "Cultural Performances"];
    assert Gathered(ms[..1], "Adventure") == [];
    assert Gathered(ms, "History") == ["Museums", "Cultural Performances"];
    assert Gathered(ms, "Adventure") == ["Extreme Sports", "Outdoor Activities"];
  }

  lemma DefaultDescriptionLower()
    ensures Lower("mix of culture and adventure") == "mix of culture and adventure"
  {
  }

  /** The description used when none is given, "mix of culture and
      adventure", gives History and Adventure. */
  lemma DefaultDescriptionExample()
    ensures InterestsOf("mix of culture and adventure") == [
      Entry("History", ["Museums", "Cultural Performances"]),
      Entry("Adventure", ["Extreme Sports", "Outdoor Activities"])]
  {
    DefaultDescriptionLower();
    DefaultDescriptionHits("mix of culture and adventure");
    DefaultDescriptionMisses("mix of culture and adventure");
    CultureAdventureMatches("mix of culture and adventure");
    CultureAdventureGrouped([KeywordRules[1], KeywordRules[4]]);
  }

  /** An empty description gets the balanced mix. */
  lemma EmptyInterestsExample()
    ensures InterestsOf("") == BalancedMix
  {
    assert Lower("") == "";
    forall j | 0 <= j < |KeywordRules| ensures !Contains("", KeywordRules[j].keyword) {
      assert KeywordRules[j].keyword != [];
    }
    MatchingDrop(KeywordRules, "", 0);
  }

  /** The subcategory lists of the selected categories, concatenated in
      order; an unknown category adds nothing. */
  function DetailedChoices(m: seq<Entry>, selected: seq<string>): (r: seq<string>)
    ensures forall i, x | 0 <= i < |selected| && x in Lookup(m, selected[i]) :: x in r
    ensures forall x | x in r :: exists i | 0 <= i < |selected| :: x in Lookup(m, selected[i])
  {
    var lists := seq(|selected|, i requires 0 <= i < |selected| => Lookup(m, selected[i]));
    assert forall i | 0 <= i < |selected| :: lists[i] == Lookup(m, selected[i]);
    FlattenAll(lists);
    Flatten(lists)
  }

  /** A choice is offered exactly when some selected category lists it. */
  lemma DetailedChoicesMembers(m: seq<Entry>, selected: seq<string>, x: string)
    ensures x in DetailedChoices(m, selected) <==>
      exists i :: 0 <= i < |selected| && x in Lookup(m, selected[i])
  {
    var lists := seq(|selected|, i requires 0 <= i < |selected| => Lookup(m, selected[i]));
    FlattenMembers(lists, x);
    if exists i :: 0 <= i < |selected| && x in Lookup(m, selected[i]) {
      var i :| 0 <= i < |selected| && x in Lookup(m, selected[i]);
      assert x in lists[i];
    }
  }

  lemma FlattenStep(lists: seq<seq<string>>, i: nat)
    requires i < |lists|
    ensures Flatten(lists[..i + 1]) == Flatten(lists[..i]) + lists[i]
  {
    assert lists[..i + 1] == lists[..i] + [lists[i]];
    FlattenAppend(lists[..i], [lists[i]]);
  }

  /** `update_detailed_interests(main_interests)`: extends the list of
      choices by the subcategories of each selected main interest. */
  method NarrowChoices(selected: seq<string>) returns (choices: seq<string>)
    ensures choices == DetailedChoices(SubcategoryTable, selected)
  {
    ghost var lists := seq(|selected|, i requires 0 <= i < |selected| => Lookup(SubcategoryTable, selected[i]));
    choices := [];
    for i := 0 to |selected|
      invariant choices == Flatten(lists[..i])
    {
      FlattenStep(lists, i);
      choices := choices + Lookup(SubcategoryTable, selected[i]);
    }
    assert lists[..|selected|] == lists;
  }
}
