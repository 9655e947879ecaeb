/**
 * The assignment-creation form: the keyword-based category suggester, the
 * grouping of the catalog by handler type, applying a suggestion, the effect
 * that keeps the topic inside the chosen group, and the submit check.
 */
module CreateAssignment {
  import opened Wrappers
  import Text
  import Seqs
  import opened CategoryKeywords

  /** The team a catalog category is routed to. */
  datatype HandlerType = CompSciHelpers | ExternalStemTeam | AiMisc
  {
    /** The wire name, which is also the group key. */
    function Name(): string
    {
      match this
      case CompSciHelpers => "comp_sci_helpers"
      case ExternalStemTeam => "external_stem_team"
      case AiMisc => "ai_misc"
    }
  }

  /** A catalog entry (`CategoryData`). */
  datatype Category = Category(name: string, description: string, handlerType: HandlerType)

  /** The group a category belongs to. */
  function Key(c: Category): string
  {
    c.handlerType.Name()
  }

  // ---------------------------------------------------------------------------
  // Catalog lookup

  /** A catalog entry matches a candidate name when both agree after lower-casing. */
  predicate NameMatches(c: Category, candidate: string)
  {
    Text.ToLower(c.name) == Text.ToLower(candidate)
  }

  /** `allCategories.find(...)` by case-insensitive name: the index of the first match. */
  function FindCategory(catalog: seq<Category>, candidate: string): (r: Option<nat>)
    ensures r.Some? ==>
      r.value < |catalog| && NameMatches(catalog[r.value], candidate) &&
      forall j :: 0 <= j < r.value ==> !NameMatches(catalog[j], candidate)
    ensures r.None? ==> forall j :: 0 <= j < |catalog| ==> !NameMatches(catalog[j], candidate)
  {
    if catalog == [] then None
    else
      var n := |catalog| - 1;
      var f := FindCategory(catalog[..n], candidate);
      if f.Some? then Some(f.value)
      else if NameMatches(catalog[n], candidate) then Some(n)
      else None
  }

  /** The catalog's own spelling of a candidate, if the catalog has it. */
  function Resolve(catalog: seq<Category>, candidate: string): (r: Option<string>)
    ensures r.Some? ==> exists c :: c in catalog && c.name == r.value && NameMatches(c, candidate)
    ensures r.None? ==> forall c :: c in catalog ==> !NameMatches(c, candidate)
  {
    match FindCategory(catalog, candidate)
    case Some(i) => assert catalog[i] in catalog; Some(catalog[i].name)
    case None => None
  }

  /** The catalog spelling of the first candidate the catalog has. */
  function FirstCatalogued(candidates: seq<string>, catalog: seq<Category>): (r: Option<string>)
    ensures r.Some? ==>
      exists i :: 0 <= i < |candidates| && Resolve(catalog, candidates[i]) == r &&
        forall j :: 0 <= j < i ==> Resolve(catalog, candidates[j]).None?
    ensures r.None? ==> forall j :: 0 <= j < |candidates| ==> Resolve(catalog, candidates[j]).None?
  {
    if candidates == [] then None
    else
      var n := |candidates| - 1;
      var f := FirstCatalogued(candidates[..n], catalog);
      if f.Some? then
        assert forall j :: 0 <= j < n ==> candidates[..n][j] == candidates[j];
        f
      else
        assert forall j :: 0 <= j < n ==> candidates[..n][j] == candidates[j];
        Resolve(catalog, candidates[n])
  }

  // ---------------------------------------------------------------------------
  // The suggester

  /** The running state of the scan: `highestScore` and `bestMatch`. */
  datatype Best = Best(score: nat, name: Option<string>)

  /** The inner loop over one keyword's candidates, scored by the keyword's length. */
  function ScanCandidates(b: Best, score: nat, candidates: seq<string>, catalog: seq<Category>): Best
  {
    if candidates == [] then b
    else
      var n := |candidates| - 1;
      var prev := ScanCandidates(b, score, candidates[..n], catalog);
      var m := Resolve(catalog, candidates[n]);
      if m.Some? && score > prev.score then Best(score, m) else prev
  }

  /** The outer loop over the keyword table. */
  function ScanKeywords(lower: string, table: seq<Keyword>, catalog: seq<Category>): Best
  {
    if table == [] then Best(0, None)
    else
      var n := |table| - 1;
      var prev := ScanKeywords(lower, table[..n], catalog);
      if Text.Contains(lower, table[n].word) then
        ScanCandidates(prev, |table[n].word|, table[n].candidates, catalog)
      else prev
  }

  /** `suggestCategory(description, allCategories)`. */
  function Suggest(description: string, catalog: seq<Category>): Option<string>
  {
    ScanKeywords(Text.ToLower(description), KeywordTable, catalog).name
  }

  /** A keyword takes part: it occurs in the description and one of its candidates is catalogued. */
  predicate Eligible(lower: string, k: Keyword, catalog: seq<Category>)
  {
    Text.Contains(lower, k.word) && FirstCatalogued(k.candidates, catalog).Some?
  }

  /**
   * Keyword `i` wins: it takes part, it is strictly longer than every earlier
   * participant and no shorter than any later one.
   */
  predicate Winner(lower: string, table: seq<Keyword>, catalog: seq<Category>, i: int)
  {
    0 <= i < |table| && Eligible(lower, table[i], catalog) &&
    (forall j :: 0 <= j < i && Eligible(lower, table[j], catalog) ==>
      |table[j].word| < |table[i].word|) &&
    (forall j :: i < j < |table| && Eligible(lower, table[j], catalog) ==>
      |table[j].word| <= |table[i].word|)
  }

  /** Within one keyword only its first catalogued candidate can win, and only if it beats the score. */
  lemma {:induction false} ScanCandidatesFirst(b: Best, score: nat, candidates: seq<string>, catalog: seq<Category>)
    ensures ScanCandidates(b, score, candidates, catalog) ==
      if score > b.score && FirstCatalogued(candidates, catalog).Some?
      then Best(score, FirstCatalogued(candidates, catalog))
      else b
  {
    if candidates != [] {
      ScanCandidatesFirst(b, score, candidates[..|candidates| - 1], catalog);
    }
  }

  /** What the scan of `table` has found: the invariant of the outer loop. */
  ghost predicate Describes(lower: string, table: seq<Keyword>, catalog: seq<Category>, b: Best)
  {
    (b.name.None? <==> forall j :: 0 <= j < |table| ==> !Eligible(lower, table[j], catalog)) &&
    (b.name.None? ==> b.score == 0) &&
    (forall j :: 0 <= j < |table| && Eligible(lower, table[j], catalog) ==> |table[j].word| <= b.score) &&
    (b.name.Some? ==> exists i :: (Winner(lower, table, catalog, i) &&
      b.score == |table[i].word| && b.name == FirstCatalogued(table[i].candidates, catalog)))
  }

  /** A winner stays the winner when a keyword that cannot beat it is appended. */
  lemma WinnerExtends(lower: string, pre: seq<Keyword>, k: Keyword, catalog: seq<Category>, i: int)
    requires Winner(lower, pre, catalog, i)
    requires Eligible(lower, k, catalog) ==> |k.word| <= |pre[i].word|
    ensures Winner(lower, pre + [k], catalog, i)
  {
    var table := pre + [k];
    assert forall j :: 0 <= j < |pre| ==> table[j] == pre[j];
  }

  /** An appended keyword longer than every earlier participant is the new winner. */
  lemma WinnerNew(lower: string, pre: seq<Keyword>, k: Keyword, catalog: seq<Category>)
    requires Eligible(lower, k, catalog)
    requires forall j :: 0 <= j < |pre| && Eligible(lower, pre[j], catalog) ==> |pre[j].word| < |k.word|
    ensures Winner(lower, pre + [k], catalog, |pre|)
  {
    var table := pre + [k];
    assert forall j :: 0 <= j < |pre| ==> table[j] == pre[j];
  }

  /** A keyword that does not take part leaves the scan as it was. */
  lemma StepIneligible(lower: string, pre: seq<Keyword>, k: Keyword, catalog: seq<Category>, prev: Best)
    requires Describes(lower, pre, catalog, prev)
    requires !Eligible(lower, k, catalog)
    ensures Describes(lower, pre + [k], catalog, prev)
  {
    var table := pre + [k];
    assert forall j :: 0 <= j < |pre| ==> table[j] == pre[j];
    assert table[|pre|] == k;
    assert prev.name.None? <==> forall j :: 0 <= j < |table| ==> !Eligible(lower, table[j], catalog);
    if prev.name.Some? {
      var i :| Winner(lower, pre, catalog, i) &&
        prev.score == |pre[i].word| && prev.name == FirstCatalogued(pre[i].candidates, catalog);
      WinnerExtends(lower, pre, k, catalog, i);
    }
  }

  /** A participating keyword no longer than the best so far leaves the scan as it was. */
  lemma StepShorter(lower: string, pre: seq<Keyword>, k: Keyword, catalog: seq<Category>, prev: Best)
    requires k.word != ""
    requires Describes(lower, pre, catalog, prev)
    requires Eligible(lower, k, catalog) && |k.word| <= prev.score
    ensures Describes(lower, pre + [k], catalog, prev)
  {
    var table := pre + [k];
    assert forall j :: 0 <= j < |pre| ==> table[j] == pre[j];
    var i :| Winner(lower, pre, catalog, i) &&
      prev.score == |pre[i].word| && prev.name == FirstCatalogued(pre[i].candidates, catalog);
    WinnerExtends(lower, pre, k, catalog, i);
  }

  /** A participating keyword longer than the best so far takes over. */
  lemma StepLonger(lower: string, pre: seq<Keyword>, k: Keyword, catalog: seq<Category>, prev: Best)
    requires Describes(lower, pre, catalog, prev)
    requires Eligible(lower, k, catalog) && |k.word| > prev.score
    ensures Describes(lower, pre + [k], catalog, Best(|k.word|, FirstCatalogued(k.candidates, catalog)))
  {
    var table := pre + [k];
    assert forall j :: 0 <= j < |pre| ==> table[j] == pre[j];
    WinnerNew(lower, pre, k, catalog);
  }

  /** One step of the outer loop keeps the invariant. */
  lemma DescribesStep(lower: string, pre: seq<Keyword>, k: Keyword, catalog: seq<Category>, prev: Best)
    requires k.word != ""
    requires Describes(lower, pre, catalog, prev)
    ensures Describes(lower, pre + [k], catalog,
      if Text.Contains(lower, k.word) then ScanCandidates(prev, |k.word|, k.candidates, catalog) else prev)
  {
    ScanCandidatesFirst(prev, |k.word|, k.candidates, catalog);
    if !Eligible(lower, k, catalog) {
      StepIneligible(lower, pre, k, catalog, prev);
    } else if |k.word| > prev.score {
      StepLonger(lower, pre, k, catalog, prev);
    } else {
      StepShorter(lower, pre, k, catalog, prev);
    }
  }

  /** The longest participating keyword wins, the first of them on a tie; with none the result is null. */
  lemma {:induction false} ScanKeywordsWinner(lower: string, table: seq<Keyword>, catalog: seq<Category>)
    requires forall k :: 0 <= k < |table| ==> table[k].word != ""
    ensures Describes(lower, table, catalog, ScanKeywords(lower, table, catalog))
  {
    if table != [] {
      var n := |table| - 1;
      assert table == table[..n] + [table[n]];
      ScanKeywordsWinner(lower, table[..n], catalog);
      DescribesStep(lower, table[..n], table[n], catalog, ScanKeywords(lower, table[..n], catalog));
    }
  }

  /** At most one keyword wins, so the tie-break by table order is total. */
  lemma WinnerUnique(lower: string, table: seq<Keyword>, catalog: seq<Category>, i: int, i': int)
    requires Winner(lower, table, catalog, i) && Winner(lower, table, catalog, i')
    ensures i == i'
  {
  }

  /** The suggestion is null exactly when no table keyword takes part. */
  lemma SuggestNoneIff(description: string, catalog: seq<Category>)
    ensures Suggest(description, catalog).None? <==>
      forall j :: 0 <= j < |KeywordTable| ==>
        !Eligible(Text.ToLower(description), KeywordTable[j], catalog)
  {
    KeywordsNonEmpty();
    ScanKeywordsWinner(Text.ToLower(description), KeywordTable, catalog);
  }

  /** A suggestion is the first catalogued candidate of the winning keyword. */
  lemma SuggestWinner(description: string, catalog: seq<Category>)
    ensures Suggest(description, catalog).Some? ==>
      exists i :: Winner(Text.ToLower(description), KeywordTable, catalog, i) &&
        Suggest(description, catalog) == FirstCatalogued(KeywordTable[i].candidates, catalog)
  {
    KeywordsNonEmpty();
    ScanKeywordsWinner(Text.ToLower(description), KeywordTable, catalog);
  }

  /** A suggestion is spelled exactly as a catalog entry's name. */
  lemma {:induction false} ScanKeywordsFromCatalog(lower: string, table: seq<Keyword>, catalog: seq<Category>)
    ensures var b := ScanKeywords(lower, table, catalog);
      b.name.Some? ==> exists c :: c in catalog && c.name == b.name.value
  {
    if table != [] {
      var n := |table| - 1;
      ScanKeywordsFromCatalog(lower, table[..n], catalog);
      var prev := ScanKeywords(lower, table[..n], catalog);
      ScanCandidatesFirst(prev, |table[n].word|, table[n].candidates, catalog);
    }
  }

  lemma SuggestFromCatalog(description: string, catalog: seq<Category>)
    ensures Suggest(description, catalog).Some? ==>
      exists c :: c in catalog && c.name == Suggest(description, catalog).value
  {
    ScanKeywordsFromCatalog(Text.ToLower(description), KeywordTable, catalog);
  }

  /** The nested loops of `suggestCategory`, over a keyword table in enumeration order. */
  method ScanTable(lowerDescription: string, table: seq<Keyword>, allCategories: seq<Category>)
    returns (highestScore: nat, bestMatch: Option<string>)
    ensures Best(highestScore, bestMatch) == ScanKeywords(lowerDescription, table, allCategories)
  {
    bestMatch := None;
    highestScore := 0;
    var i := 0;
    while i < |table|
      invariant 0 <= i <= |table|
      invariant Best(highestScore, bestMatch) == ScanKeywords(lowerDescription, table[..i], allCategories)
    {
      var keyword := table[i];
      assert table[..i + 1][..i] == table[..i];
      if Text.Contains(lowerDescription, keyword.word) {
        ghost var before := Best(highestScore, bestMatch);
        var j := 0;
        while j < |keyword.candidates|
          invariant 0 <= j <= |keyword.candidates|
          invariant Best(highestScore, bestMatch) ==
            ScanCandidates(before, |keyword.word|, keyword.candidates[..j], allCategories)
        {
          assert keyword.candidates[..j + 1][..j] == keyword.candidates[..j];
          var matchingCategory := Resolve(allCategories, keyword.candidates[j]);
          if matchingCategory.Some? {
            var score := |keyword.word|;
            if score > highestScore {
              highestScore := score;
              bestMatch := matchingCategory;
            }
          }
          j := j + 1;
        }
        assert keyword.candidates[..j] == keyword.candidates;
      }
      i := i + 1;
    }
    assert table[..i] == table;
  }

  /** `suggestCategory(description, allCategories)`: the scan of the fixed table over the lower-cased text. */
  method SuggestCategory(description: string, allCategories: seq<Category>) returns (bestMatch: Option<string>)
    ensures bestMatch == Suggest(description, allCategories)
  {
    var lowerDescription := Text.ToLower(description);
    var highestScore;
    highestScore, bestMatch := ScanTable(lowerDescription, KeywordTable, allCategories);
  }

  /** `handleDescriptionChange`: suggestions start only past ten characters. */
  function SuggestionFor(description: string, catalog: seq<Category>): (r: Option<string>)
    ensures |description| <= 10 ==> r.None?
    ensures |description| > 10 ==> r == Suggest(description, catalog)
  {
    if |description| > 10 then Suggest(description, catalog) else None
  }

  // ---------------------------------------------------------------------------
  // Grouping by handler type

  /** Membership test of the group keyed `h`. */
  function InGroup(h: string): Category -> bool
  {
    (c: Category) => Key(c) == h
  }

  /** The `reduce` that pushes every category onto the array of its handler type. */
  function Grouped(cats: seq<Category>): map<string, seq<Category>>
  {
    if cats == [] then map[]
    else
      var n := |cats| - 1;
      var m := Grouped(cats[..n]);
      var k := Key(cats[n]);
      m[k := (if k in m then m[k] else []) + [cats[n]]]
  }

  /** The keys of the grouped object in insertion order (`Object.keys`). */
  function GroupKeys(cats: seq<Category>): seq<string>
  {
    if cats == [] then []
    else
      var n := |cats| - 1;
      var ks := GroupKeys(cats[..n]);
      var k := Key(cats[n]);
      if k in Grouped(cats[..n]) then ks else ks + [k]
  }

  /** A group exists exactly for the handler types that occur, and the key list names the same groups. */
  lemma {:induction false} GroupedMembers(cats: seq<Category>)
    ensures forall h :: h in Grouped(cats) <==> exists c :: c in cats && Key(c) == h
    ensures forall h :: h in GroupKeys(cats) <==> h in Grouped(cats)
  {
    if cats != [] {
      var n := |cats| - 1;
      var pre := cats[..n];
      var last := cats[n];
      assert cats == pre + [last];
      GroupedMembers(pre);
      forall h
        ensures h in Grouped(cats) <==> exists c :: c in cats && Key(c) == h
      {
        if h in Grouped(pre) {
          var c :| c in pre && Key(c) == h;
          assert c in cats;
        }
        assert last in cats;
      }
    }
  }

  /** Each group holds the categories of its handler type, in catalog order. */
  lemma {:induction false} GroupedEntries(cats: seq<Category>)
    ensures forall h :: h in Grouped(cats) ==> Grouped(cats)[h] == Seqs.Filter(cats, InGroup(h))
  {
    if cats != [] {
      var n := |cats| - 1;
      var pre := cats[..n];
      var last := cats[n];
      assert cats == pre + [last];
      GroupedEntries(pre);
      GroupedMembers(pre);
      forall h | h in Grouped(cats)
        ensures Grouped(cats)[h] == Seqs.Filter(cats, InGroup(h))
      {
        Seqs.FilterConcat(pre, [last], InGroup(h));
        assert Seqs.Filter([last], InGroup(h)) == if Key(last) == h then [last] else [];
        if h !in Grouped(pre) {
          Seqs.FilterNone(pre, InGroup(h));
        }
      }
    }
  }

  /** No handler type is listed twice among the keys. */
  lemma {:induction false} GroupKeysDistinct(cats: seq<Category>)
    ensures forall i, j :: 0 <= i < j < |GroupKeys(cats)| ==> GroupKeys(cats)[i] != GroupKeys(cats)[j]
  {
    if cats != [] {
      var n := |cats| - 1;
      var pre := cats[..n];
      GroupKeysDistinct(pre);
      GroupedMembers(pre);
    }
  }

  /** Every category lands in exactly the group of its handler type, in catalog order. */
  lemma GroupedByHandler(cats: seq<Category>)
    ensures forall h :: h in Grouped(cats) <==> exists c :: c in cats && Key(c) == h
    ensures forall h :: h in Grouped(cats) ==> Grouped(cats)[h] == Seqs.Filter(cats, InGroup(h))
    ensures forall h :: h in GroupKeys(cats) <==> h in Grouped(cats)
    ensures forall i, j :: 0 <= i < j < |GroupKeys(cats)| ==> GroupKeys(cats)[i] != GroupKeys(cats)[j]
  {
    GroupedMembers(cats);
    GroupedEntries(cats);
    GroupKeysDistinct(cats);
  }

  /** The default group is the first category's handler type, and its default topic that category. */
  lemma {:induction false} GroupDefaults(cats: seq<Category>)
    requires cats != []
    ensures |GroupKeys(cats)| > 0 && GroupKeys(cats)[0] == Key(cats[0])
    ensures Key(cats[0]) in Grouped(cats) && |Grouped(cats)[Key(cats[0])]| > 0
    ensures Grouped(cats)[Key(cats[0])][0] == cats[0]
  {
    var n := |cats| - 1;
    if n > 0 {
      var pre := cats[..n];
      GroupDefaults(pre);
      assert pre[0] == cats[0];
    }
  }

  /** The categories' reduce into per-key arrays, with the order of first appearance. */
  method GroupByHandlerType(cats: seq<Category>) returns (grouped: map<string, seq<Category>>, keys: seq<string>)
    ensures grouped == Grouped(cats) && keys == GroupKeys(cats)
  {
    grouped := map[];
    keys := [];
    var i := 0;
    while i < |cats|
      invariant 0 <= i <= |cats|
      invariant grouped == Grouped(cats[..i]) && keys == GroupKeys(cats[..i])
    {
      var cat := cats[i];
      assert cats[..i + 1][..i] == cats[..i];
      var k := Key(cat);
      if k !in grouped {
        grouped := grouped[k := []];
        keys := keys + [k];
      }
      grouped := grouped[k := grouped[k] + [cat]];
      i := i + 1;
    }
    assert cats[..i] == cats;
  }

  // ---------------------------------------------------------------------------
  // Group and topic selection

  /** The group and topic picked in the form, and the pending suggestion. */
  datatype Selection = Selection(main: string, category: string, suggestion: Option<string>)

  /** `allCategories.find(cat => cat.name === name)`: exact, case-sensitive. */
  function FindByName(catalog: seq<Category>, name: string): (r: Option<nat>)
    ensures r.Some? ==> (r.value < |catalog| && catalog[r.value].name == name &&
      forall j :: 0 <= j < r.value ==> catalog[j].name != name)
    ensures r.None? ==> forall c :: c in catalog ==> c.name != name
  {
    if catalog == [] then None
    else if catalog[0].name == name then Some(0)
    else
      var f := FindByName(catalog[1..], name);
      if f.Some? then Some(f.value + 1) else None
  }

  /** `handleApplySuggestion` alone, before any effect reacts to it. */
  function ApplySuggestion(s: Selection, catalog: seq<Category>): (r: Selection)
    ensures !Truthy(s.suggestion) ==> r == s
    ensures Truthy(s.suggestion) && FindByName(catalog, s.suggestion.value).None? ==> r == s
    ensures Truthy(s.suggestion) && FindByName(catalog, s.suggestion.value).Some? ==>
      r.category == s.suggestion.value && r.suggestion.None? &&
      exists c :: c in catalog && c.name == r.category && Key(c) == r.main
  {
    if Truthy(s.suggestion) then
      match FindByName(catalog, s.suggestion.value)
      case Some(i) =>
        assert catalog[i] in catalog;
        Selection(Key(catalog[i]), catalog[i].name, None)
      case None => s
    else s
  }

  /** A suggestion the suggester made always names a catalog entry, so applying it takes effect. */
  lemma SuggestionApplies(description: string, catalog: seq<Category>, s: Selection)
    requires s.suggestion == Suggest(description, catalog) && s.suggestion.Some?
    ensures FindByName(catalog, s.suggestion.value).Some?
  {
    SuggestFromCatalog(description, catalog);
  }

  /** The topic is one of the group's entries. */
  predicate InGroupNamed(grouped: map<string, seq<Category>>, main: string, category: string)
  {
    main in grouped && exists c :: c in grouped[main] && c.name == category
  }

  /** The effect on `[selectedMainCategory, groupedCategories]` as written: always the group's first topic. */
  function SyncCategoryAsWritten(main: string, grouped: map<string, seq<Category>>): (r: string)
    ensures main != "" && main in grouped && |grouped[main]| > 0 ==> r == grouped[main][0].name
    ensures !(main != "" && main in grouped && |grouped[main]| > 0) ==> r == ""
  {
    if main != "" && main in grouped && |grouped[main]| > 0 then grouped[main][0].name else ""
  }

  /** The effect as intended: a topic already inside the new group is kept, otherwise the first one. */
  function SyncCategory(main: string, category: string, grouped: map<string, seq<Category>>): (r: string)
    ensures !(main != "" && main in grouped && |grouped[main]| > 0) ==> r == ""
    ensures main != "" && main in grouped && |grouped[main]| > 0 ==>
      InGroupNamed(grouped, main, r) &&
      (InGroupNamed(grouped, main, category) ==> r == category) &&
      (!InGroupNamed(grouped, main, category) ==> r == grouped[main][0].name)
  {
    if main != "" && main in grouped && |grouped[main]| > 0 then
      if InGroupNamed(grouped, main, category) then category
      else
        assert grouped[main][0] in grouped[main];
        grouped[main][0].name
    else ""
  }

  /** Applying a suggestion, then the effect runs because the group changed. */
  function AfterApplyAsWritten(s: Selection, catalog: seq<Category>): Selection
  {
    var r := ApplySuggestion(s, catalog);
    if r.main != s.main then r.(category := SyncCategoryAsWritten(r.main, Grouped(catalog))) else r
  }

  function AfterApply(s: Selection, catalog: seq<Category>): Selection
  {
    var r := ApplySuggestion(s, catalog);
    if r.main != s.main then r.(category := SyncCategory(r.main, r.category, Grouped(catalog))) else r
  }

  /** As written, a suggestion in another group that is not that group's first topic is lost. */
  lemma AppliedSuggestionLostAsWritten()
    ensures var catalog := [
        Category("Programming", "", CompSciHelpers),
        Category("Essay Writing", "", AiMisc),
        Category("Graphic Design", "", AiMisc)];
      var s := Selection("comp_sci_helpers", "Programming", Some("Graphic Design"));
      AfterApplyAsWritten(s, catalog).category == "Essay Writing"
  {
    var catalog := [
      Category("Programming", "", CompSciHelpers),
      Category("Essay Writing", "", AiMisc),
      Category("Graphic Design", "", AiMisc)];
    var s := Selection("comp_sci_helpers", "Programming", Some("Graphic Design"));
    assert FindByName(catalog, "Graphic Design") == Some(2) by {
      assert |catalog[0].name| != |"Graphic Design"| && |catalog[1].name| != |"Graphic Design"|;
      assert catalog[1..][1..] == [catalog[2]];
    }
    assert ApplySuggestion(s, catalog) == Selection("ai_misc", "Graphic Design", None);
    assert Grouped(catalog)["ai_misc"][0] == catalog[1] by {
      assert catalog[1] in catalog && Key(catalog[1]) == "ai_misc";
      GroupedMembers(catalog);
      GroupedEntries(catalog);
      assert Seqs.Filter(catalog, InGroup("ai_misc"))[0] == catalog[1] by {
        assert !InGroup("ai_misc")(catalog[0]);
        assert catalog[1..][0] == catalog[1];
      }
    }
  }

  /** With the intended effect, applying a catalogued suggestion selects its group and exactly that topic. */
  lemma AppliedSuggestionKept(s: Selection, catalog: seq<Category>)
    requires Truthy(s.suggestion) && FindByName(catalog, s.suggestion.value).Some?
    ensures var i := FindByName(catalog, s.suggestion.value).value;
      AfterApply(s, catalog) == Selection(Key(catalog[i]), s.suggestion.value, None)
  {
    var i := FindByName(catalog, s.suggestion.value).value;
    var c := catalog[i];
    var r := ApplySuggestion(s, catalog);
    assert r == Selection(Key(c), s.suggestion.value, None);
    var grouped := Grouped(catalog);
    assert InGroupNamed(grouped, Key(c), c.name) by {
      assert c in catalog;
      GroupedMembers(catalog);
      GroupedEntries(catalog);
      assert c in Seqs.Filter(catalog, InGroup(Key(c)));
    }
    if r.main != s.main {
      assert SyncCategory(r.main, r.category, grouped) == r.category;
    }
  }

  // ---------------------------------------------------------------------------
  // Submitting

  datatype Complexity = Low | Medium | High

  const RequiredFieldsError: string :=
    "Please fill in all required fields and ensure payment amount is greater than 0."

  /** The basic validation of `handleSubmit`: the error it sets, or none. */
  function SubmitError(title: string, description: string, category: string, deadline: string,
                       paymentAmount: real): (r: Option<string>)
    ensures r.None? <==>
      title != "" && description != "" && category != "" && deadline != "" && paymentAmount > 0.0
    ensures r.Some? ==> r.value == RequiredFieldsError
  {
    if title == "" || description == "" || category == "" || deadline == "" || paymentAmount <= 0.0
    then Some(RequiredFieldsError)
    else None
  }

  /** The reply to `GET /categories`. */
  datatype CategoriesReply = CategoriesLoaded(categories: seq<Category>) | CategoriesFailed

  /** The reply to `POST /assignments`. */
  datatype CreateReply = Created | CreateFailed(message: Option<string>)

  /** The default group and topic: the first key and its first entry, or nothing. */
  function DefaultSelection(grouped: map<string, seq<Category>>, keys: seq<string>,
                            main: string, category: string): (string, string)
  {
    if |keys| > 0 then
      if keys[0] in grouped && |grouped[keys[0]]| > 0 then (keys[0], grouped[keys[0]][0].name)
      else (keys[0], category)
    else (main, category)
  }

  /** After a successful submit: the defaults again, or nothing when there are no groups. */
  function ResetSelection(grouped: map<string, seq<Category>>, keys: seq<string>,
                          main: string, category: string): (r: (string, string))
    ensures |keys| == 0 ==> r == ("", "")
    ensures |keys| > 0 ==> r == DefaultSelection(grouped, keys, main, category)
  {
    if |keys| > 0 then DefaultSelection(grouped, keys, main, category) else ("", "")
  }

  /** Loading a catalog selects its first category and that category's group. */
  lemma DefaultIsFirstCategory(cats: seq<Category>, main: string, category: string)
    requires cats != []
    ensures DefaultSelection(Grouped(cats), GroupKeys(cats), main, category) == (Key(cats[0]), cats[0].name)
  {
    GroupDefaults(cats);
  }

  /** The form's inputs (title, description, complexity, group, topic, deadline, payment, files) and its submit status. */
  datatype FormFields = FormFields(
    title: string, description: string, complexity: Complexity, main: string, category: string,
    deadline: string, paymentAmount: real, files: seq<string>,
    error: Option<string>, successMessage: Option<string>, isSubmitting: bool)

  const CreatedMessage: string := "Assignment created successfully!"
  const CreateFailedMessage: string := "Failed to create assignment. Please try again."

  /**
   * The form after the reply to `POST /assignments`: on success every input is
   * cleared and the defaults are picked again; on failure the inputs stay and
   * the backend's message, or the fallback, is shown.
   */
  function AfterCreate(f: FormFields, reply: CreateReply, grouped: map<string, seq<Category>>,
                       keys: seq<string>): (r: FormFields)
    ensures !r.isSubmitting
    ensures reply.Created? ==>
      r.successMessage == Some(CreatedMessage) && r.error.None? &&
      r.title == "" && r.description == "" && r.complexity == Low && r.deadline == "" &&
      r.paymentAmount == 0.0 && r.files == [] &&
      (r.main, r.category) == ResetSelection(grouped, keys, f.main, f.category)
    ensures reply.CreateFailed? ==>
      r == f.(error := Some(MessageOr(reply.message, CreateFailedMessage)), successMessage := None,
              isSubmitting := false)
  {
    match reply
    case Created =>
      var selection := ResetSelection(grouped, keys, f.main, f.category);
      FormFields("", "", Low, selection.0, selection.1, "", 0.0, [], None, Some(CreatedMessage), false)
    case CreateFailed(message) =>
      f.(error := Some(MessageOr(message, CreateFailedMessage)), successMessage := None, isSubmitting := false)
  }

  /** After a success with a non-empty catalog the form shows the first category again. */
  lemma CreatedResetsToFirstCategory(f: FormFields, cats: seq<Category>)
    requires cats != []
    ensures var r := AfterCreate(f, Created, Grouped(cats), GroupKeys(cats));
      r.main == Key(cats[0]) && r.category == cats[0].name
  {
    GroupDefaults(cats);
  }

  /** The empty form the component starts with. */
  const EmptyForm: FormFields := FormFields("", "", Low, "", "", "", 0.0, [], None, None, false)

  const CategoriesFailedMessage: string := "Failed to load categories. Please try again."

  /** The component state of `CreateAssignmentForm`; `form` holds the inputs and the submit status. */
  class CreateAssignmentForm {
    var userId: string
    var form: FormFields
    var allCategories: seq<Category>
    var groupedCategories: map<string, seq<Category>>
    var groupKeys: seq<string>
    var loading: bool
    var suggestedCategory: Option<string>

    constructor (userId: string)
      ensures this.userId == userId && form == EmptyForm
      ensures allCategories == [] && groupedCategories == map[] && groupKeys == []
      ensures loading && suggestedCategory.None?
    {
      this.userId, form := userId, EmptyForm;
      allCategories, groupedCategories, groupKeys := [], map[], [];
      loading, suggestedCategory := true, None;
    }

    /** The mount effect: store and group the catalog, then pick the defaults. */
    method LoadCategories(reply: CategoriesReply)
      modifies this`allCategories, this`groupedCategories, this`groupKeys, this`form, this`loading
      ensures reply.CategoriesLoaded? ==>
        allCategories == reply.categories &&
        groupedCategories == Grouped(reply.categories) && groupKeys == GroupKeys(reply.categories) &&
        var selection := DefaultSelection(groupedCategories, groupKeys, old(form.main), old(form.category));
        form == old(form).(main := selection.0, category := selection.1)
      ensures reply.CategoriesFailed? ==>
        allCategories == old(allCategories) && groupedCategories == old(groupedCategories) &&
        groupKeys == old(groupKeys) && form == old(form).(error := Some(CategoriesFailedMessage))
      ensures !loading && suggestedCategory == old(suggestedCategory) && userId == old(userId)
    {
      match reply {
      case CategoriesLoaded(cats) =>
        allCategories := cats;
        var grouped, keys := GroupByHandlerType(cats);
        groupedCategories, groupKeys := grouped, keys;
        if |keys| > 0 {
          var first := keys[0];
          form := form.(main := first);
          if first in grouped && |grouped[first]| > 0 {
            form := form.(category := grouped[first][0].name);
          }
        }
      case CategoriesFailed =>
        form := form.(error := Some(CategoriesFailedMessage));
      }
      loading := false;
    }

    /** `handleDescriptionChange`. */
    method DescriptionChange(newDescription: string)
      modifies this`form, this`suggestedCategory
      ensures form == old(form).(description := newDescription)
      ensures suggestedCategory == SuggestionFor(newDescription, allCategories)
      ensures allCategories == old(allCategories) && groupedCategories == old(groupedCategories)
      ensures groupKeys == old(groupKeys) && userId == old(userId)
    {
      form := form.(description := newDescription);
      if |newDescription| > 10 {
        var suggestion := SuggestCategory(newDescription, allCategories);
        suggestedCategory := suggestion;
      } else {
        suggestedCategory := None;
      }
    }

    /**
     * `handleApplySuggestion`, followed by the topic effect as written when the
     * group changed, so the applied topic gives way to the group's first one.
     */
    method ApplySuggestionClick()
      modifies this`form, this`suggestedCategory
      ensures var r := AfterApplyAsWritten(Selection(old(form.main), old(form.category), old(suggestedCategory)), allCategories);
        form == old(form).(main := r.main, category := r.category) && suggestedCategory == r.suggestion
      ensures allCategories == old(allCategories) && groupedCategories == old(groupedCategories)
      ensures groupKeys == old(groupKeys) && userId == old(userId)
    {
      var r := ApplySuggestion(Selection(form.main, form.category, suggestedCategory), allCategories);
      var category := r.category;
      if r.main != form.main {
        category := SyncCategoryAsWritten(r.main, Grouped(allCategories));
      }
      form, suggestedCategory := form.(main := r.main, category := category), r.suggestion;
    }

    /** The user picks a group; the topic effect as written follows and selects the group's first topic. */
    method SelectMainCategory(main: string)
      modifies this`form
      ensures main != old(form.main) ==>
        form == old(form).(main := main, category := SyncCategoryAsWritten(main, groupedCategories))
      ensures main == old(form.main) ==> form == old(form)
      ensures allCategories == old(allCategories) && groupedCategories == old(groupedCategories)
      ensures groupKeys == old(groupKeys) && suggestedCategory == old(suggestedCategory)
    {
      if main != form.main {
        form := form.(main := main, category := SyncCategoryAsWritten(main, groupedCategories));
      }
    }

    /** `handleSubmit`: the validation, then `ReplyToCreate` when it passes. */
    method Submit(reply: CreateReply) returns (sent: bool)
      modifies this`form
      ensures var f := old(form);
        sent <==> SubmitError(f.title, f.description, f.category, f.deadline, f.paymentAmount).None?
      ensures var f := old(form);
        !sent ==> form == f.(error := SubmitError(f.title, f.description, f.category, f.deadline, f.paymentAmount),
                             successMessage := None, isSubmitting := false)
      ensures sent ==> form == AfterCreate(old(form), reply, groupedCategories, groupKeys)
      ensures allCategories == old(allCategories) && groupedCategories == old(groupedCategories)
      ensures groupKeys == old(groupKeys) && userId == old(userId)
    {
      var check := SubmitError(form.title, form.description, form.category, form.deadline, form.paymentAmount);
      if check.Some? {
        form := form.(error := check, successMessage := None, isSubmitting := false);
        return false;
      }
      sent := true;
      ReplyToCreate(reply);
    }

    /** The reply to the create request: reset the form, or keep it and show the error. */
    method ReplyToCreate(reply: CreateReply)
      modifies this`form
      ensures form == AfterCreate(old(form), reply, groupedCategories, groupKeys)
      ensures allCategories == old(allCategories) && groupedCategories == old(groupedCategories)
      ensures groupKeys == old(groupKeys) && userId == old(userId)
    {
      form := AfterCreate(form, reply, groupedCategories, groupKeys);
    }
  }
}
