/**
 * Recipe denormalisation (`preprocessRecipe` in functions/index.js, and the same
 * expressions in the recipe pass of functions/backfillTS.js): the flat lists
 * `ingredientNames` and `tagNames` are derived from the nested `ingredients` and `tags`
 * by a `map` and a blank filter, and `averageRating` gets the default 0.
 */
module Denormalise {
  import opened Js
  import opened Store
  import opened Ratings

  // ---------------------------------------------------------------------------
  // Name derivation
  // ---------------------------------------------------------------------------

  /** Which of the two lists a name is read for. */
  datatype NameRule = IngredientRule | TagRule

  /**
   * The callback of the `map`: `ing.ingredient?.ingredientName || ""` for an ingredient,
   * `tag.name || ""` for a tag. Both throw for an undefined or null element.
   */
  function NameOf(rule: NameRule, item: Value): (r: Result<Value>)
    ensures r.Err? <==> item == Undefined || item == Null
    ensures r.Ok? ==> Truthy(r.value) || r.value == Str("")
  {
    match rule
    case IngredientRule =>
      (match Get(item, "ingredient")
       case Err(e) => Err(e)
       case Ok(inner) => Ok(Or(OptGet(inner, "ingredientName"), Str(""))))
    case TagRule =>
      (match Get(item, "name")
       case Err(e) => Err(e)
       case Ok(name) => Ok(Or(name, Str(""))))
  }

  /** `items.map(callback)`: throws as soon as the callback throws. */
  function MapNames(rule: NameRule, items: seq<Value>): (r: Result<seq<Value>>)
    ensures r.Ok? ==> |r.value| == |items| && forall i | 0 <= i < |items| :: NameOf(rule, items[i]) == Ok(r.value[i])
    ensures r.Err? ==> r.error == TypeError && exists i | 0 <= i < |items| :: NameOf(rule, items[i]).Err?
  {
    if items == [] then Ok([])
    else
      match NameOf(rule, items[0])
      case Err(e) => Err(e)
      case Ok(name) =>
        match MapNames(rule, items[1..])
        case Err(e) => Err(e)
        case Ok(rest) =>
          assert forall i | 1 <= i < |items| :: items[i] == items[1..][i - 1];
          Ok([name] + rest)
  }

  /** When the callback succeeds on every element, `map` returns the callback's results in order. */
  lemma {:induction false} MapNamesOk(rule: NameRule, items: seq<Value>, names: seq<Value>)
    requires |names| == |items| && forall i | 0 <= i < |items| :: NameOf(rule, items[i]) == Ok(names[i])
    ensures MapNames(rule, items) == Ok(names)
  {
    if items != [] {
      MapNamesOk(rule, items[1..], names[1..]);
      assert names == [names[0]] + names[1..];
    }
  }

  /** `name.trim() !== ""` as a keep test; it throws for a name that is not a string. */
  function KeepNonBlank(names: seq<Value>): (r: Result<seq<string>>)
    ensures r.Ok? <==> forall i | 0 <= i < |names| :: names[i].Str?
    ensures r.Err? ==> r.error == TypeError
    ensures r.Ok? ==> |r.value| <= |names|
  {
    if names == [] then Ok([])
    else if !names[0].Str? then Err(TypeError)
    else
      match KeepNonBlank(names[1..])
      case Err(e) =>
        assert !names[1..][IndexOfNonString(names[1..])].Str?;
        Err(e)
      case Ok(rest) =>
        Ok(if Trim(names[0].s) != "" then [names[0].s] + rest else rest)
  }

  /** One more string in front of a list the filter accepts: it is kept exactly when it is not blank. */
  lemma {:induction false} KeepNonBlankCons(x: string, rest: seq<Value>, kept: seq<string>)
    requires KeepNonBlank(rest) == Ok(kept)
    ensures KeepNonBlank([Str(x)] + rest) == Ok(if Trim(x) != "" then [x] + kept else kept)
  {
    var names := [Str(x)] + rest;
    assert names[0] == Str(x) && names[1..] == rest;
  }

  /** The position of a non-string, where there is one. */
  function IndexOfNonString(names: seq<Value>): (i: nat)
    requires exists i | 0 <= i < |names| :: !names[i].Str?
    ensures i < |names| && !names[i].Str?
  {
    if !names[0].Str? then 0
    else
      assert exists i | 0 <= i < |names[1..]| :: !names[1..][i].Str? by {
        var k :| 0 <= k < |names| && !names[k].Str?;
        assert names[1..][k - 1] == names[k];
      }
      1 + IndexOfNonString(names[1..])
  }

  /**
   * `(data.ingredients || []).map(...).filter(...)`, and the same for tags: a list that is
   * not an array makes `.map` throw, as does a null element or a truthy name that is not
   * a string.
   */
  function DeriveNames(rule: NameRule, list: Value): (r: Result<seq<string>>)
    ensures r.Err? ==> r.error == TypeError
    ensures Truthy(list) && !list.Arr? ==> r.Err?
    ensures list.Arr? && r.Ok? ==> |r.value| <= |list.items|
  {
    var l := Or(list, Arr([]));
    if !l.Arr? then Err(TypeError)
    else
      match MapNames(rule, l.items)
      case Err(e) => Err(e)
      case Ok(names) => KeepNonBlank(names)
  }

  /** The names as strings, when every name is one. */
  function Texts(names: seq<Value>): (r: seq<string>)
    requires forall i | 0 <= i < |names| :: names[i].Str?
    ensures |r| == |names| && forall i | 0 <= i < |names| :: r[i] == names[i].s
  {
    if names == [] then [] else [names[0].s] + Texts(names[1..])
  }

  /**
   * The filter keeps the names in source order and untrimmed, keeps every name with a
   * non-blank character, as often as it occurs, and drops every blank one.
   */
  lemma {:induction false} KeepNonBlankSpec(names: seq<Value>)
    requires forall i | 0 <= i < |names| :: names[i].Str?
    ensures IsSubsequence(KeepNonBlank(names).value, Texts(names))
    ensures forall s | s in KeepNonBlank(names).value :: Trim(s) != ""
    ensures forall i | 0 <= i < |names| && Trim(names[i].s) != "" :: names[i].s in KeepNonBlank(names).value
    ensures forall s | Trim(s) != "" :: multiset(KeepNonBlank(names).value)[s] == multiset(Texts(names))[s]
  {
    if names != [] {
      var rest := names[1..];
      KeepNonBlankSpec(rest);
      assert Texts(names) == [names[0].s] + Texts(rest);
      assert Texts(names)[1..] == Texts(rest);
      var r := KeepNonBlank(rest).value;
      forall i | 1 <= i < |names| ensures names[i] == rest[i - 1] { }
      if Trim(names[0].s) == "" {
        SubsequenceDrop(r, Texts(rest), names[0].s);
      }
    }
  }

  /**
   * The derivation succeeds exactly when the list is missing, falsy or an array whose
   * elements are all non-null and whose names are all strings or absent; its result is
   * never longer than the list.
   */
  lemma DeriveNamesOutcome(rule: NameRule, list: Value)
    ensures DeriveNames(rule, list).Ok? <==>
      (!Truthy(list) || (list.Arr? &&
        forall i | 0 <= i < |list.items| :: NameOf(rule, list.items[i]).Ok? && NameOf(rule, list.items[i]).value.Str?))
    ensures DeriveNames(rule, list).Ok? ==> |DeriveNames(rule, list).value| <= |Or(list, Arr([])).items|
    ensures !Truthy(list) ==> DeriveNames(rule, list) == Ok([])
  {
    var l := Or(list, Arr([]));
    if l.Arr? {
      var m := MapNames(rule, l.items);
      if m.Err? {
        var k :| 0 <= k < |l.items| && NameOf(rule, l.items[k]).Err?;
      } else {
        var names := m.value;
        if KeepNonBlank(names).Err? {
          var k := IndexOfNonString(names);
          assert NameOf(rule, l.items[k]) == Ok(names[k]);
        }
      }
    }
  }

  /** An ingredient `{ingredient: {ingredientName: n}}` contributes `n` itself when `n` is not blank. */
  lemma {:induction false} IngredientNameKept(n: string)
    requires Trim(n) != ""
    ensures DeriveNames(IngredientRule, Arr([Obj(map["ingredient" := Obj(map["ingredientName" := Str(n)])])])) == Ok([n])
  {
    var item := Obj(map["ingredient" := Obj(map["ingredientName" := Str(n)])]);
    assert n != "";
    assert NameOf(IngredientRule, item) == Ok(Str(n));
    MapNamesOk(IngredientRule, [item], [Str(n)]);
    assert KeepNonBlank([]) == Ok([]);
    KeepNonBlankCons(n, [], []);
    assert [Str(n)] + [] == [Str(n)] && [n] + [] == [n];
  }

  /** Missing and whitespace-only tag names are dropped; the rest stay untrimmed and in order. */
  lemma TagScenario(tags: Value)
    requires tags == Arr([Obj(map["name" := Str(" vegan ")]), Obj(map[]), Obj(map["name" := Str("  ")]), Obj(map["name" := Str("quick")])])
    ensures DeriveNames(TagRule, tags) == Ok([" vegan ", "quick"])
  {
    var items := tags.items;
    var names := [Str(" vegan "), Str(""), Str("  "), Str("quick")];
    TagScenarioMapped(items, names);
    ScenarioTrims();
    TagScenarioFiltered(names, " vegan ", "", "  ", "quick");
  }

  /** Which of the scenario's names are blank. */
  lemma ScenarioTrims()
    ensures Trim(" vegan ") != "" && Trim("") == "" && Trim("  ") == "" && Trim("quick") != ""
  {
    TrimEmptyIffAllSpace(" vegan ");
    assert !IsJsSpace(" vegan "[1]);
    TrimEmptyIffAllSpace("quick");
    assert !IsJsSpace("quick"[0]);
    TrimEmptyIffAllSpace("  ");
    assert IsJsSpace("  "[0]) && IsJsSpace("  "[1]);
  }

  lemma TagScenarioMapped(items: seq<Value>, names: seq<Value>)
    requires items == [Obj(map["name" := Str(" vegan ")]), Obj(map[]), Obj(map["name" := Str("  ")]), Obj(map["name" := Str("quick")])]
    requires names == [Str(" vegan "), Str(""), Str("  "), Str("quick")]
    ensures MapNames(TagRule, items) == Ok(names)
  {
    assert NameOf(TagRule, items[3]) == Ok(Str("quick"));
    assert NameOf(TagRule, items[2]) == Ok(Str("  "));
    assert NameOf(TagRule, items[1]) == Ok(Str(""));
    assert NameOf(TagRule, items[0]) == Ok(Str(" vegan "));
    MapNamesOk(TagRule, items, names);
  }

  lemma {:induction false} TagScenarioFiltered(names: seq<Value>, a: string, b: string, c: string, d: string)
    requires names == [Str(a), Str(b), Str(c), Str(d)]
    requires Trim(a) != "" && Trim(b) == "" && Trim(c) == "" && Trim(d) != ""
    ensures KeepNonBlank(names) == Ok([a, d])
  {
    var n3, n2, n1 := [Str(d)], [Str(c), Str(d)], [Str(b), Str(c), Str(d)];
    assert KeepNonBlank([]) == Ok([]);
    KeepNonBlankCons(d, [], []);
    assert [Str(d)] + [] == n3 && [d] + [] == [d];
    KeepNonBlankCons(c, n3, [d]);
    assert [Str(c)] + n3 == n2;
    KeepNonBlankCons(b, n2, [d]);
    assert [Str(b)] + n2 == n1;
    KeepNonBlankCons(a, n1, [d]);
    assert [Str(a)] + n1 == names && [a] + [d] == [a, d];
  }

  /** A string array as stored in the document. */
  function StrArr(names: seq<string>): (r: Value)
    ensures r.Arr? && |r.items| == |names| && forall i | 0 <= i < |names| :: r.items[i] == Str(names[i])
  {
    Arr(seq(|names|, i requires 0 <= i < |names| => Str(names[i])))
  }

  // ---------------------------------------------------------------------------
  // The `preprocessRecipe` trigger
  // ---------------------------------------------------------------------------

  /** The merge `preprocessRecipe` writes for a recipe body. */
  function PreprocessFields(data: Doc): (r: Result<Doc>)
    ensures r.Ok? <==> DeriveNames(IngredientRule, Field(data, "ingredients")).Ok? && DeriveNames(TagRule, Field(data, "tags")).Ok?
    ensures r.Ok? ==> r.value.Keys == {"ingredientNames", "tagNames", "averageRating"}
    ensures r.Ok? ==> Truthy(r.value["averageRating"]) || r.value["averageRating"] == Num(0.0)
  {
    match DeriveNames(IngredientRule, Field(data, "ingredients"))
    case Err(e) => Err(e)
    case Ok(ingredientNames) =>
      match DeriveNames(TagRule, Field(data, "tags"))
      case Err(e) => Err(e)
      case Ok(tagNames) =>
        Ok(map["ingredientNames" := StrArr(ingredientNames), "tagNames" := StrArr(tagNames),
               "averageRating" := Or(Field(data, "averageRating"), Num(0.0))])
  }

  /**
   * `preprocessRecipe` for a write to `recipes/{recipeId}` whose after-state is `after`
   * (None for a deletion): merge the derived fields, then recompute the author's stats when
   * the recipe has a truthy authorId.
   */
  function PreprocessStep(s: Snapshot, recipeId: string, after: Option<Doc>): (r: StepResult)
    ensures after.None? || PreprocessFields(after.value).Err? ==> r.state == s
    ensures after.Some? && PreprocessFields(after.value).Ok? ==> recipeId in Ids(r.state.recipes)
    ensures r.state.users != s.users ==> after.Some? && Truthy(Field(after.value, "authorId"))
  {
    match after
    case None => StepResult(s, Done)
    case Some(data) =>
      match PreprocessFields(data)
      case Err(e) => StepResult(s, Failed(e))
      case Ok(fields) =>
        SetMergeSpec(s.recipes, recipeId, fields);
        var merged := Snapshot(SetMerge(s.recipes, recipeId, fields), s.users);
        if Truthy(Field(data, "authorId")) then UserRecipeStatsStep(merged, Field(data, "authorId"))
        else StepResult(merged, Done)
  }

  /** A deleted recipe causes no write. */
  lemma PreprocessDeletedWritesNothing(s: Snapshot, recipeId: string)
    ensures PreprocessStep(s, recipeId, None) == StepResult(s, Done)
  {
  }

  /**
   * For a recipe that is still there and whose lists derive: the recipe document holds
   * its old fields plus the derived names and an averageRating that is never falsy-but-kept
   * (a falsy value becomes 0); users change only when the authorId is truthy.
   */
  lemma PreprocessWrites(s: Snapshot, recipeId: string, data: Doc)
    requires PreprocessFields(data).Ok?
    ensures Find(PreprocessStep(s, recipeId, Some(data)).state.recipes, recipeId)
         == Some(BodyOrEmpty(s.recipes, recipeId) + PreprocessFields(data).value)
    ensures PreprocessFields(data).value["averageRating"]
         == (if Truthy(Field(data, "averageRating")) then Field(data, "averageRating") else Num(0.0))
    ensures !Truthy(Field(data, "authorId")) ==>
              PreprocessStep(s, recipeId, Some(data)) ==
              StepResult(Snapshot(SetMerge(s.recipes, recipeId, PreprocessFields(data).value), s.users), Done)
    ensures forall other | other != recipeId ::
              Find(PreprocessStep(s, recipeId, Some(data)).state.recipes, other) == Find(s.recipes, other)
  {
    var fields := PreprocessFields(data).value;
    var merged := Snapshot(SetMerge(s.recipes, recipeId, fields), s.users);
    SetMergeSpec(s.recipes, recipeId, fields);
    UserStepsKeepRecipes(merged, Field(data, "authorId"));
  }

  /** The derived fields read only `ingredients`, `tags` and `averageRating`, so merging them in changes nothing they read. */
  lemma PreprocessFieldsSettle(data: Doc)
    requires PreprocessFields(data).Ok?
    ensures PreprocessFields(data + PreprocessFields(data).value) == PreprocessFields(data)
  {
    var fields := PreprocessFields(data).value;
    var data2 := data + fields;
    assert Field(data2, "ingredients") == Field(data, "ingredients");
    assert Field(data2, "tags") == Field(data, "tags");
    assert Field(data2, "averageRating") == Or(Field(data, "averageRating"), Num(0.0));
  }

  /**
   * The merge re-triggers `preprocessRecipe` on the merged document; that second run
   * derives the same fields and leaves the store exactly as the first run left it.
   */
  lemma PreprocessSettles(s: Snapshot, recipeId: string, data: Doc)
    requires Find(s.recipes, recipeId) == Some(data)
    ensures var t := PreprocessStep(s, recipeId, Some(data));
            t.outcome == Done ==>
              PreprocessStep(t.state, recipeId, Find(t.state.recipes, recipeId)) == t
  {
    var t := PreprocessStep(s, recipeId, Some(data));
    if PreprocessFields(data).Ok? && t.outcome == Done {
      var fields := PreprocessFields(data).value;
      var merged := Snapshot(SetMerge(s.recipes, recipeId, fields), s.users);
      var author := Field(data, "authorId");
      PreprocessWrites(s, recipeId, data);
      var data2 := data + fields;
      assert BodyOrEmpty(s.recipes, recipeId) == data;
      assert Find(t.state.recipes, recipeId) == Some(data2);
      assert Field(data2, "authorId") == author;
      PreprocessFieldsSettle(data);
      SetMergeIdempotent(s.recipes, recipeId, fields);
      UserStepsKeepRecipes(merged, author);
      if Truthy(author) {
        UserRecipeStatsIdempotent(merged, author);
      }
    }
  }

  /** The `preprocessRecipe` trigger on the store. */
  method PreprocessRecipe(db: Firestore, recipeId: string, after: Option<Doc>) returns (outcome: Outcome)
    modifies db
    ensures Snapshot(db.recipes, db.users) == PreprocessStep(old(Snapshot(db.recipes, db.users)), recipeId, after).state
    ensures outcome == PreprocessStep(old(Snapshot(db.recipes, db.users)), recipeId, after).outcome
    ensures db.ratings == old(db.ratings) && db.recommendations == old(db.recommendations)
  {
    if after.None? {
      return Done;
    }
    var data := after.value;
    var fields := PreprocessFields(data);
    if fields.Err? {
      return Failed(fields.error);
    }
    db.recipes := SetMerge(db.recipes, recipeId, fields.value);
    var authorId := Field(data, "authorId");
    if Truthy(authorId) {
      outcome := UpdateUserRecipeStats(db, authorId);
    } else {
      outcome := Done;
    }
  }
}
