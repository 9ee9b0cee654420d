/**
 * Weekly recommendations (functions/index.js): `computeRecipeScore` scores a recipe for a
 * user, `calculateWeeklyRecommendations` scores every fetched recipe for every fetched
 * user, sorts by score descending, keeps the first ten and replaces the user's
 * `recommendations` sub-collection with them; `fetchCollectionWithPagination` reads a
 * whole collection page by page.
 */
module Recommendations {
  import opened Js
  import opened Store
  import opened Http

  // ---------------------------------------------------------------------------
  // The JavaScript operations the score uses
  // ---------------------------------------------------------------------------

  /** `{ id: doc.id, ...doc.data() }`: a data field named `id` overrides the document id. */
  function View(e: Entry): (d: Doc)
    ensures "id" in d && d["id"] == (if "id" in e.data then e.data["id"] else Str(e.id))
    ensures forall k | k in e.data :: k in d && d[k] == e.data[k]
  {
    map["id" := Str(e.id)] + e.data
  }

  function Views(c: Collection): (r: seq<Doc>)
    ensures |r| == |c| && forall i | 0 <= i < |c| :: r[i] == View(c[i])
  {
    seq(|c|, i requires 0 <= i < |c| => View(c[i]))
  }

  /** `for (const x of v)`: an array yields its elements, a string its characters; anything else throws. */
  function Iterate(v: Value): (r: Result<seq<Value>>)
    ensures r.Ok? <==> v.Arr? || v.Str?
    ensures v.Arr? ==> r == Ok(v.items)
    ensures v.Str? ==> |r.value| == |v.s|
  {
    match v
    case Arr(items) => Ok(items)
    case Str(s) => Ok(seq(|s|, i requires 0 <= i < |s| => Str([s[i]])))
    case _ => Err(TypeError)
  }

  /** `===` and SameValueZero on values read from documents: objects and arrays are never identical. */
  predicate SameValue(a: Value, b: Value) {
    a == b && !a.Arr? && !a.Obj?
  }

  /** `container.includes(x)`: element search on an array, substring search on a string. */
  function Includes(container: Value, x: Value): (r: Result<bool>)
    ensures r.Ok? <==> container.Arr? || container.Str?
    ensures container.Arr? ==> r == Ok(exists i | 0 <= i < |container.items| :: SameValue(container.items[i], x))
  {
    match container
    case Arr(items) => Ok(exists i | 0 <= i < |items| :: SameValue(items[i], x))
    case Str(s) => Ok(Contains(s, ToText(x)))
    case _ => Err(TypeError)
  }

  /** `items.map(x => x.field)`: throws for an undefined or null element. */
  function MapField(items: seq<Value>, field: string): (r: Result<seq<Value>>)
    ensures r.Ok? <==> forall i | 0 <= i < |items| :: items[i] != Undefined && items[i] != Null
    ensures r.Ok? ==> |r.value| == |items| && forall i | 0 <= i < |items| :: Get(items[i], field) == Ok(r.value[i])
  {
    if items == [] then Ok([])
    else
      match Get(items[0], field)
      case Err(e) => Err(e)
      case Ok(v) =>
        match MapField(items[1..], field)
        case Err(e) => Err(e)
        case Ok(rest) =>
          assert forall i | 1 <= i < |items| :: items[i] == items[1..][i - 1];
          Ok([v] + rest)
  }

  /** `items.flatMap(x => x.field)`: an array result is spliced in, any other result is kept as one element. */
  function FlatMapField(items: seq<Value>, field: string): (r: Result<seq<Value>>)
    ensures r.Ok? <==> forall i | 0 <= i < |items| :: items[i] != Undefined && items[i] != Null
  {
    if items == [] then Ok([])
    else
      match Get(items[0], field)
      case Err(e) => Err(e)
      case Ok(v) =>
        match FlatMapField(items[1..], field)
        case Err(e) => Err(e)
        case Ok(rest) =>
          assert forall i | 1 <= i < |items| :: items[i] == items[1..][i - 1];
          Ok((if v.Arr? then v.items else [v]) + rest)
  }

  /** What one mapped value contributes to a `flatMap`: an array its items, anything else itself. */
  function Spliced(v: Value): seq<Value> {
    if v.Arr? then v.items else [v]
  }

  /** Flattening by one level, as `flatMap` does with the values its callback returns. */
  function Flat(vs: seq<Value>): seq<Value> {
    if vs == [] then [] else Spliced(vs[0]) + Flat(vs[1..])
  }

  /** The flattening of a concatenation is the concatenation of the flattenings. */
  lemma {:induction false} FlatAppend(a: seq<Value>, b: seq<Value>)
    ensures Flat(a + b) == Flat(a) + Flat(b)
    decreases |a|
  {
    if a == [] {
      assert a + b == b;
    } else {
      assert (a + b)[1..] == a[1..] + b;
      FlatAppend(a[1..], b);
    }
  }

  /** A list without arrays is left as it is by flattening. */
  lemma {:induction false} FlatOfScalars(vs: seq<Value>)
    requires forall i | 0 <= i < |vs| :: !vs[i].Arr?
    ensures Flat(vs) == vs
    decreases |vs|
  {
    if vs != [] {
      FlatOfScalars(vs[1..]);
    }
  }

  /**
   * `flatMap` is `map` followed by flattening one level: it throws exactly when `map`
   * does, and otherwise each element's field value is spliced in when it is an array
   * and kept as one element when it is not.
   */
  lemma {:induction false} FlatMapFieldSpec(items: seq<Value>, field: string)
    ensures FlatMapField(items, field).Ok? <==> MapField(items, field).Ok?
    ensures FlatMapField(items, field).Ok? ==> FlatMapField(items, field).value == Flat(MapField(items, field).value)
    decreases |items|
  {
    if items != [] && FlatMapField(items, field).Ok? {
      FlatMapFieldSpec(items[1..], field);
      var v := Get(items[0], field).value;
      var rest := MapField(items[1..], field).value;
      assert MapField(items, field).value == [v] + rest;
      assert ([v] + rest)[1..] == rest;
    }
  }

  /**
   * `user.subcollections?.<list>?.map(x => x.field) || []` (or `flatMap`): undefined short-
   * circuits to []; any other value must be an array, since calling a missing `map` throws.
   */
  function LinkedList(user: Doc, list: string, field: string, flat: bool): (r: Result<seq<Value>>)
    ensures OptGet(Field(user, "subcollections"), list) == Undefined ==> r == Ok([])
  {
    match OptGet(Field(user, "subcollections"), list)
    case Undefined => Ok([])
    case Null => Ok([])
    case Arr(items) => if flat then FlatMapField(items, field) else MapField(items, field)
    case _ => Err(TypeError)
  }

  /**
   * A null list reads as [] like a missing one, and any other value that is not an array
   * throws. On an array of entries the list is `map` of the field (each entry's field, in
   * order), or for `flatMap` its one-level flattening, and it throws exactly when an
   * entry is undefined or null.
   */
  lemma LinkedListSpec(user: Doc, list: string, field: string, flat: bool)
    ensures var l := OptGet(Field(user, "subcollections"), list);
      l == Null ==> LinkedList(user, list, field, flat) == Ok([])
    ensures var l := OptGet(Field(user, "subcollections"), list);
      !l.Arr? && l != Undefined && l != Null ==> LinkedList(user, list, field, flat) == Err(TypeError)
    ensures var l := OptGet(Field(user, "subcollections"), list);
      l.Arr? ==> (LinkedList(user, list, field, flat).Ok? <==> forall i | 0 <= i < |l.items| :: l.items[i] != Undefined && l.items[i] != Null)
    ensures var l := OptGet(Field(user, "subcollections"), list);
      l.Arr? && LinkedList(user, list, field, flat).Ok? && !flat ==>
        && |LinkedList(user, list, field, flat).value| == |l.items|
        && forall i | 0 <= i < |l.items| :: Get(l.items[i], field) == Ok(LinkedList(user, list, field, flat).value[i])
    ensures var l := OptGet(Field(user, "subcollections"), list);
      l.Arr? && LinkedList(user, list, field, flat).Ok? && flat ==>
        LinkedList(user, list, field, flat).value == Flat(MapField(l.items, field).value)
  {
    var l := OptGet(Field(user, "subcollections"), list);
    if l.Arr? {
      FlatMapFieldSpec(l.items, field);
    }
  }

  // ---------------------------------------------------------------------------
  // computeRecipeScore
  // ---------------------------------------------------------------------------

  /** The number of `wanted` values that `tags.includes` finds; throws when `tags` cannot be searched. */
  function CountMatches(wanted: seq<Value>, tags: Value): (r: Result<nat>)
    ensures r.Ok? ==> r.value <= |wanted|
    ensures wanted == [] ==> r == Ok(0)
  {
    if wanted == [] then Ok(0)
    else
      match CountMatches(wanted[..|wanted| - 1], tags)
      case Err(e) => Err(e)
      case Ok(n) =>
        match Includes(tags, wanted[|wanted| - 1])
        case Err(e) => Err(e)
        case Ok(found) => Ok(if found then n + 1 else n)
  }

  /** The hits of a list are those of all but its last value, plus the last position when it is a hit. */
  lemma HitsLast(wanted: seq<Value>, tags: Value)
    requires wanted != []
    ensures var n := |wanted| - 1;
      |Hits(wanted, tags)| == |Hits(wanted[..n], tags)| + (if Includes(tags, wanted[n]) == Ok(true) then 1 else 0)
  {
    var n := |wanted| - 1;
    var init := wanted[..n];
    var found := Includes(tags, wanted[n]) == Ok(true);
    var all, before := Hits(wanted, tags), Hits(init, tags);
    forall i: nat ensures i in all <==> i in before || (found && i == n) {
      if i < n { assert wanted[i] == init[i]; }
    }
    CardinalityOfOneMore(all, before, n, found);
  }

  lemma CardinalityOfOneMore(all: set<nat>, before: set<nat>, n: nat, found: bool)
    requires forall i: nat :: i in all <==> i in before || (found && i == n)
    requires n !in before
    ensures |all| == |before| + (if found then 1 else 0)
  {
    assert all == before + (if found then {n} else {});
  }

  /** The positions of `wanted` whose value `tags.includes` finds. */
  function Hits(wanted: seq<Value>, tags: Value): set<nat> {
    set i: nat | i < |wanted| && Includes(tags, wanted[i]) == Ok(true)
  }

  /**
   * The count is the number of positions of `wanted` that `tags` includes (repeated values
   * count once per position); a `tags` that is neither an array nor a string makes a
   * non-empty count throw.
   */
  lemma {:induction false} CountMatchesCounts(wanted: seq<Value>, tags: Value)
    ensures tags.Arr? || tags.Str? ==> CountMatches(wanted, tags) == Ok(|Hits(wanted, tags)|)
    ensures !tags.Arr? && !tags.Str? && wanted != [] ==> CountMatches(wanted, tags) == Err(TypeError)
    decreases |wanted|
  {
    if wanted == [] {
      assert Hits(wanted, tags) == {};
    } else {
      var n := |wanted| - 1;
      var init := wanted[..n];
      CountMatchesCounts(init, tags);
      if tags.Arr? || tags.Str? {
        HitsLast(wanted, tags);
      } else if init != [] {
        assert CountMatches(init, tags) == Err(TypeError);
      }
    }
  }

  /** The list iterated for a user field: `user.field || []`. */
  function UserList(user: Doc, field: string): Result<seq<Value>> {
    Iterate(Or(Field(user, field), Arr([])))
  }

  /**
   * A missing or falsy list iterates as empty, an array as its items, and any other truthy
   * value other than a string throws.
   */
  lemma UserListSpec(user: Doc, field: string)
    ensures !Truthy(Field(user, field)) ==> UserList(user, field) == Ok([])
    ensures Field(user, field).Arr? ==> UserList(user, field) == Ok(Field(user, field).items)
    ensures Truthy(Field(user, field)) && !Field(user, field).Arr? && !Field(user, field).Str? ==> UserList(user, field).Err?
  {
  }

  /** The bonus for a recipe the user viewed (2), keeps in a collection (3) or whose author they follow (3). */
  function LinkBonus(user: Doc, recipe: Doc): (r: Result<nat>)
    ensures r.Ok? ==> r.value <= 8
  {
    match LinkedList(user, "interactionHistory", "recipeId", false)
    case Err(e) => Err(e)
    case Ok(viewed) =>
      match LinkedList(user, "collections", "recipes", true)
      case Err(e) => Err(e)
      case Ok(collected) =>
        match LinkedList(user, "following", "uid", false)
        case Err(e) => Err(e)
        case Ok(followed) =>
          Ok((if Includes(Arr(viewed), Field(recipe, "id")).value then 2 else 0)
           + (if Includes(Arr(collected), Field(recipe, "id")).value then 3 else 0)
           + (if Includes(Arr(followed), Field(recipe, "authorId")).value then 3 else 0))
  }

  /** Some element of `vs` is identical to `x`. */
  predicate Listed(vs: seq<Value>, x: Value) {
    exists i | 0 <= i < |vs| :: SameValue(vs[i], x)
  }

  /**
   * The bonus is computed exactly when the three linked lists are: 2 when the recipe's id
   * is among the viewed recipe ids, 3 when it is among the collected recipe ids, and 3 when
   * its author is among the followed users.
   */
  lemma LinkBonusSpec(user: Doc, recipe: Doc)
    ensures LinkBonus(user, recipe).Ok? <==>
      && LinkedList(user, "interactionHistory", "recipeId", false).Ok?
      && LinkedList(user, "collections", "recipes", true).Ok?
      && LinkedList(user, "following", "uid", false).Ok?
    ensures LinkBonus(user, recipe).Ok? ==>
      LinkBonus(user, recipe).value ==
        (if Listed(LinkedList(user, "interactionHistory", "recipeId", false).value, Field(recipe, "id")) then 2 else 0)
        + (if Listed(LinkedList(user, "collections", "recipes", true).value, Field(recipe, "id")) then 3 else 0)
        + (if Listed(LinkedList(user, "following", "uid", false).value, Field(recipe, "authorId")) then 3 else 0)
  {
  }

  /** `recipe.averageRating >= 4 && recipe.ratingsCount > 10` */
  predicate Popular(recipe: Doc)
  {
    AtLeast(Field(recipe, "averageRating"), 4.0) && Above(Field(recipe, "ratingsCount"), 10.0)
  }

  /**
   * With numeric fields a recipe is popular exactly when its average is at least 4 and it
   * has more than 10 ratings; a recipe missing either field never is.
   */
  lemma PopularSpec(recipe: Doc)
    ensures Field(recipe, "averageRating").Num? && Field(recipe, "ratingsCount").Num? ==>
      (Popular(recipe) <==> Field(recipe, "averageRating").n >= 4.0 && Field(recipe, "ratingsCount").n > 10.0)
    ensures Field(recipe, "averageRating") == Undefined || Field(recipe, "ratingsCount") == Undefined ==> !Popular(recipe)
  {
  }

  /**
   * The score of a recipe for a user: 5 per dietary preference and 5 per favourite cuisine
   * found in the recipe's tagNames, the link bonus, and 5 for a popular recipe. A field of
   * the wrong kind makes the scoring throw.
   */
  function Score(user: Doc, recipe: Doc): (r: Result<int>)
    ensures r.Ok? ==> 0 <= r.value
  {
    match TagScore(user, Or(Field(recipe, "tagNames"), Arr([])))
    case Err(e) => Err(e)
    case Ok(tagPoints) =>
      match LinkBonus(user, recipe)
      case Err(e) => Err(e)
      case Ok(bonus) => Ok(tagPoints + bonus + (if Popular(recipe) then 5 else 0))
  }

  /** The points for the user's preferences and cuisines found among `tags`, 5 each. */
  function TagScore(user: Doc, tags: Value): (r: Result<int>)
    ensures r.Ok? ==> UserList(user, "dietaryPreferences").Ok? && UserList(user, "favoriteCuisines").Ok?
    ensures r.Ok? ==>
      0 <= r.value <= 5 * |UserList(user, "dietaryPreferences").value| + 5 * |UserList(user, "favoriteCuisines").value|
  {
    match ListPoints(user, "dietaryPreferences", tags)
    case Err(e) => Err(e)
    case Ok(prefPoints) =>
      match ListPoints(user, "favoriteCuisines", tags)
      case Err(e) => Err(e)
      case Ok(cuisinePoints) => Ok(prefPoints + cuisinePoints)
  }

  /** 5 points for each value of the user's list `field` found among `tags`. */
  function ListPoints(user: Doc, field: string, tags: Value): (r: Result<int>)
    ensures r.Ok? ==> UserList(user, field).Ok? && 0 <= r.value <= 5 * |UserList(user, field).value|
  {
    match UserList(user, field)
    case Err(e) => Err(e)
    case Ok(wanted) =>
      match CountMatches(wanted, tags)
      case Err(e) => Err(e)
      case Ok(hits) => Ok(5 * hits)
  }

  /** The loop over one list of wanted tags, adding 5 per match. */
  method AddMatches(score: int, wanted: seq<Value>, tags: Value) returns (r: Result<int>)
    ensures CountMatches(wanted, tags).Ok? ==> r == Ok(score + 5 * CountMatches(wanted, tags).value)
    ensures CountMatches(wanted, tags).Err? ==> r.Err? && r.error == CountMatches(wanted, tags).error
  {
    var total := score;
    for i := 0 to |wanted|
      invariant CountMatches(wanted[..i], tags).Ok?
      invariant total == score + 5 * CountMatches(wanted[..i], tags).value
    {
      assert wanted[..i + 1][..i] == wanted[..i];
      var found := Includes(tags, wanted[i]);
      if found.Err? {
        CountMatchesErrorStays(wanted, tags, i + 1);
        return Err(found.error);
      }
      if found.value {
        total := total + 5;
      }
    }
    assert wanted[..|wanted|] == wanted;
    r := Ok(total);
  }

  /** Once a prefix of the list makes the count throw, the whole list does. */
  lemma {:induction false} CountMatchesErrorStays(wanted: seq<Value>, tags: Value, k: nat)
    requires k <= |wanted| && CountMatches(wanted[..k], tags).Err?
    ensures CountMatches(wanted, tags) == CountMatches(wanted[..k], tags)
    decreases |wanted| - k
  {
    if k < |wanted| {
      assert wanted[..k + 1][..k] == wanted[..k];
      CountMatchesErrorStays(wanted, tags, k + 1);
    } else {
      assert wanted[..k] == wanted;
    }
  }

  /** `computeRecipeScore(user, recipe)` */
  method ComputeRecipeScore(user: Doc, recipe: Doc) returns (r: Result<int>)
    ensures r == Score(user, recipe)
  {
    ScoreSteps(user, recipe);
    var tags := Or(Field(recipe, "tagNames"), Arr([]));
    r := AddTagScore(user, tags);
    if r.Err? {
      return;
    }
    var tagPoints := r.value;
    var bonus := LinkBonus(user, recipe);
    if bonus.Err? {
      return Err(bonus.error);
    }
    var popular := Popular(recipe);
    var score := tagPoints + bonus.value;
    if popular {
      score := score + 5;
    }
    r := Ok(score);
  }

  /** The three steps of the score, each throwing what it throws. */
  lemma ScoreSteps(user: Doc, recipe: Doc)
    ensures var tags := Or(Field(recipe, "tagNames"), Arr([]));
      && (TagScore(user, tags).Err? ==> Score(user, recipe) == Err(TagScore(user, tags).error))
      && (TagScore(user, tags).Ok? && LinkBonus(user, recipe).Err? ==> Score(user, recipe) == Err(LinkBonus(user, recipe).error))
      && (TagScore(user, tags).Ok? && LinkBonus(user, recipe).Ok? ==>
            Score(user, recipe) == Ok(TagScore(user, tags).value + LinkBonus(user, recipe).value + (if Popular(recipe) then 5 else 0)))
  {
  }

  /** The two loops of `computeRecipeScore` over the preferences and the cuisines. */
  method AddTagScore(user: Doc, tags: Value) returns (r: Result<int>)
    ensures r == TagScore(user, tags)
  {
    r := AddListPoints(0, user, "dietaryPreferences", tags);
    if r.Err? {
      return;
    }
    r := AddListPoints(r.value, user, "favoriteCuisines", tags);
  }

  /** One of the two loops, on the list the user document holds under `field`. */
  method AddListPoints(score: int, user: Doc, field: string, tags: Value) returns (r: Result<int>)
    ensures ListPoints(user, field, tags).Ok? ==> r == Ok(score + ListPoints(user, field, tags).value)
    ensures ListPoints(user, field, tags).Err? ==> r == Err(ListPoints(user, field, tags).error)
  {
    var wanted := UserList(user, field);
    if wanted.Err? {
      return Err(wanted.error);
    }
    r := AddMatches(score, wanted.value, tags);
  }

  /** A score is never negative and never more than 5 per preference, 5 per cuisine and 13 for the rest. */
  lemma ScoreBounds(user: Doc, recipe: Doc)
    requires Score(user, recipe).Ok?
    ensures 0 <= Score(user, recipe).value
    ensures Score(user, recipe).value <=
      5 * |UserList(user, "dietaryPreferences").value| + 5 * |UserList(user, "favoriteCuisines").value| + 13
  {
  }

  /**
   * A user with no preferences, cuisines or linked sub-collections scores a recipe 5 when
   * it is popular and 0 otherwise, whatever else the user document holds.
   */
  lemma ScoreOfBlankUser(user: Doc, recipe: Doc)
    requires Field(user, "dietaryPreferences") == Undefined && Field(user, "favoriteCuisines") == Undefined
    requires Field(user, "subcollections") == Undefined
    ensures Score(user, recipe) == Ok(if Popular(recipe) then 5 else 0)
  {
  }

  /**
   * The score is the weighted sum `computeRecipeScore` adds up: 5 for each position of the
   * dietary preferences and 5 for each position of the favourite cuisines whose value
   * the recipe's tagNames include, the link bonus, and 5 for a popular recipe.
   */
  lemma ScoreIsWeightedSum(user: Doc, recipe: Doc)
    ensures var tags := Or(Field(recipe, "tagNames"), Arr([]));
      Score(user, recipe).Ok? ==>
        && UserList(user, "dietaryPreferences").Ok? && UserList(user, "favoriteCuisines").Ok?
        && LinkBonus(user, recipe).Ok?
        && Score(user, recipe).value ==
             5 * |Hits(UserList(user, "dietaryPreferences").value, tags)|
             + 5 * |Hits(UserList(user, "favoriteCuisines").value, tags)|
             + LinkBonus(user, recipe).value + (if Popular(recipe) then 5 else 0)
  {
    var tags := Or(Field(recipe, "tagNames"), Arr([]));
    if Score(user, recipe).Ok? {
      ListPointsCounts(user, "dietaryPreferences", tags);
      ListPointsCounts(user, "favoriteCuisines", tags);
    }
  }

  /** The points of one list are 5 per position whose value `tags` includes. */
  lemma ListPointsCounts(user: Doc, field: string, tags: Value)
    ensures ListPoints(user, field, tags).Ok? ==>
      ListPoints(user, field, tags).value == 5 * |Hits(UserList(user, field).value, tags)|
  {
    if ListPoints(user, field, tags).Ok? {
      var wanted := UserList(user, field).value;
      CountMatchesCounts(wanted, tags);
      if !tags.Arr? && !tags.Str? {
        assert wanted == [];
        assert Hits(wanted, tags) == {};
      }
    }
  }

  /**
   * Each entry of the dietary preferences or of the favourite cuisines weighs the same:
   * appending a value the recipe's tagNames include adds exactly 5 to the score, appending
   * one they do not include adds nothing, and when the tags cannot be searched the
   * scoring throws.
   */
  lemma EntryWeight(user: Doc, recipe: Doc, field: string, x: Value)
    requires field == "dietaryPreferences" || field == "favoriteCuisines"
    requires Field(user, field).Arr?
    requires Score(user, recipe).Ok?
    ensures var tags := Or(Field(recipe, "tagNames"), Arr([]));
      var grown := user[field := Arr(Field(user, field).items + [x])];
      && (Includes(tags, x).Err? ==> Score(grown, recipe).Err?)
      && (Includes(tags, x).Ok? ==>
            Score(grown, recipe) == Ok(Score(user, recipe).value + (if Includes(tags, x).value then 5 else 0)))
  {
    var tags := Or(Field(recipe, "tagNames"), Arr([]));
    var grown := user[field := Arr(Field(user, field).items + [x])];
    assert Field(grown, field) == Arr(Field(user, field).items + [x]);
    assert Field(grown, "subcollections") == Field(user, "subcollections");
    if field == "dietaryPreferences" {
      assert Field(grown, "favoriteCuisines") == Field(user, "favoriteCuisines");
      PreferencesAppend(user, grown, x, tags);
    } else {
      assert Field(grown, "dietaryPreferences") == Field(user, "dietaryPreferences");
      CuisinesAppend(user, grown, x, tags);
    }
    ScoreOfParts(user, grown, recipe);
  }

  /** Two users with the same links and tag points score a recipe alike, and the score moves with the tag points. */
  lemma ScoreOfParts(user: Doc, other: Doc, recipe: Doc)
    requires Score(user, recipe).Ok?
    requires Field(other, "subcollections") == Field(user, "subcollections")
    ensures var tags := Or(Field(recipe, "tagNames"), Arr([]));
      && (TagScore(other, tags).Err? ==> Score(other, recipe).Err?)
      && (TagScore(other, tags).Ok? ==>
            Score(other, recipe) == Ok(Score(user, recipe).value - TagScore(user, tags).value + TagScore(other, tags).value))
  {
    LinkBonusFrame(user, other, recipe);
  }

  /** The link bonus depends on the user only through `subcollections`. */
  lemma LinkBonusFrame(user: Doc, other: Doc, recipe: Doc)
    requires Field(other, "subcollections") == Field(user, "subcollections")
    ensures LinkBonus(other, recipe) == LinkBonus(user, recipe)
  {
    assert forall list, field, flat :: LinkedList(other, list, field, flat) == LinkedList(user, list, field, flat);
  }

  /** Appending a value to the dietary preferences adds its weight to the tag points. */
  lemma PreferencesAppend(user: Doc, grown: Doc, x: Value, tags: Value)
    requires TagScore(user, tags).Ok? && Field(user, "dietaryPreferences").Arr?
    requires Field(grown, "dietaryPreferences") == Arr(Field(user, "dietaryPreferences").items + [x])
    requires Field(grown, "favoriteCuisines") == Field(user, "favoriteCuisines")
    ensures Includes(tags, x).Err? ==> TagScore(grown, tags).Err?
    ensures Includes(tags, x).Ok? ==>
      TagScore(grown, tags) == Ok(TagScore(user, tags).value + (if Includes(tags, x).value then 5 else 0))
  {
    ListPointsAppend(user, grown, "dietaryPreferences", x, tags);
    ListPointsFrame(user, grown, "favoriteCuisines", tags);
    TagScoreParts(user, tags);
    TagScoreParts(grown, tags);
  }

  /** Appending a value to the favourite cuisines adds its weight to the tag points. */
  lemma CuisinesAppend(user: Doc, grown: Doc, x: Value, tags: Value)
    requires TagScore(user, tags).Ok? && Field(user, "favoriteCuisines").Arr?
    requires Field(grown, "favoriteCuisines") == Arr(Field(user, "favoriteCuisines").items + [x])
    requires Field(grown, "dietaryPreferences") == Field(user, "dietaryPreferences")
    ensures Includes(tags, x).Err? ==> TagScore(grown, tags).Err?
    ensures Includes(tags, x).Ok? ==>
      TagScore(grown, tags) == Ok(TagScore(user, tags).value + (if Includes(tags, x).value then 5 else 0))
  {
    ListPointsAppend(user, grown, "favoriteCuisines", x, tags);
    ListPointsFrame(user, grown, "dietaryPreferences", tags);
    TagScoreParts(user, tags);
    TagScoreParts(grown, tags);
  }

  /** The tag points are the points of the two lists, and throw when either does. */
  lemma TagScoreParts(user: Doc, tags: Value)
    ensures TagScore(user, tags).Ok? <==>
      ListPoints(user, "dietaryPreferences", tags).Ok? && ListPoints(user, "favoriteCuisines", tags).Ok?
    ensures TagScore(user, tags).Ok? ==>
      TagScore(user, tags).value == ListPoints(user, "dietaryPreferences", tags).value + ListPoints(user, "favoriteCuisines", tags).value
  {
  }

  /** A list's points depend on the user only through that list. */
  lemma ListPointsFrame(user: Doc, other: Doc, field: string, tags: Value)
    requires Field(other, field) == Field(user, field)
    ensures ListPoints(other, field, tags) == ListPoints(user, field, tags)
  {
  }

  /** Appending a value to a list field adds its weight to that list's points. */
  lemma ListPointsAppend(user: Doc, grown: Doc, field: string, x: Value, tags: Value)
    requires Field(user, field).Arr? && ListPoints(user, field, tags).Ok?
    requires Field(grown, field) == Arr(Field(user, field).items + [x])
    ensures Includes(tags, x).Err? ==> ListPoints(grown, field, tags).Err?
    ensures Includes(tags, x).Ok? ==>
      ListPoints(grown, field, tags) == Ok(ListPoints(user, field, tags).value + (if Includes(tags, x).value then 5 else 0))
  {
    var items := Field(user, field).items;
    assert UserList(grown, field) == Ok(items + [x]) by {
      assert Truthy(Arr(items + [x]));
    }
    assert (items + [x])[..|items|] == items;
  }

  // ---------------------------------------------------------------------------
  // Sorting and the top ten
  // ---------------------------------------------------------------------------

  /** `{ recipeId: recipe.id, score }` */
  datatype Rec = Rec(recipeId: Value, score: int)

  /** The order `sort((a, b) => b.score - a.score)` produces: non-increasing scores. */
  predicate SortedDesc(s: seq<Rec>) {
    forall i, j | 0 <= i < j < |s| :: s[i].score >= s[j].score
  }

  /** Puts `x` after every element of `sorted` whose score is at least its own. */
  function Insert(sorted: seq<Rec>, x: Rec): (r: seq<Rec>)
    ensures multiset(r) == multiset(sorted) + multiset{x}
    ensures |r| == |sorted| + 1
  {
    if sorted == [] then [x]
    else if sorted[|sorted| - 1].score >= x.score then sorted + [x]
    else
      assert sorted == sorted[..|sorted| - 1] + [sorted[|sorted| - 1]];
      Insert(sorted[..|sorted| - 1], x) + [sorted[|sorted| - 1]]
  }

  /** `Array.prototype.sort` with the descending comparator, which is stable. */
  function SortDesc(s: seq<Rec>): (r: seq<Rec>)
    ensures multiset(r) == multiset(s) && |r| == |s|
  {
    if s == [] then []
    else
      assert s == s[..|s| - 1] + [s[|s| - 1]];
      Insert(SortDesc(s[..|s| - 1]), s[|s| - 1])
  }

  lemma {:induction false} InsertSorted(sorted: seq<Rec>, x: Rec)
    requires SortedDesc(sorted)
    ensures SortedDesc(Insert(sorted, x))
  {
    if sorted != [] && sorted[|sorted| - 1].score < x.score {
      var init, last := sorted[..|sorted| - 1], sorted[|sorted| - 1];
      InsertSorted(init, x);
      var r := Insert(init, x);
      forall i | 0 <= i < |r| ensures r[i].score >= last.score {
        InsertFrom(init, x, i);
      }
      assert Insert(sorted, x) == r + [last];
    }
  }

  /** Every element of `Insert(sorted, x)` is `x` or an element of `sorted`. */
  lemma {:induction false} InsertFrom(sorted: seq<Rec>, x: Rec, i: nat)
    requires i < |Insert(sorted, x)|
    ensures Insert(sorted, x)[i] == x || exists k | 0 <= k < |sorted| :: sorted[k] == Insert(sorted, x)[i]
  {
    if sorted != [] && sorted[|sorted| - 1].score < x.score {
      var init := sorted[..|sorted| - 1];
      if i < |Insert(init, x)| {
        InsertFrom(init, x, i);
        assert Insert(sorted, x)[i] == Insert(init, x)[i];
        if Insert(init, x)[i] != x {
          var k :| 0 <= k < |init| && init[k] == Insert(init, x)[i];
          assert sorted[k] == init[k];
        }
      } else {
        assert Insert(sorted, x)[i] == sorted[|sorted| - 1];
      }
    } else if sorted != [] {
      if i < |sorted| {
        assert Insert(sorted, x)[i] == sorted[i];
      }
    }
  }

  /** The sort yields a permutation in non-increasing score order. */
  lemma {:induction false} SortDescSorted(s: seq<Rec>)
    ensures SortedDesc(SortDesc(s))
  {
    if s != [] {
      SortDescSorted(s[..|s| - 1]);
      InsertSorted(SortDesc(s[..|s| - 1]), s[|s| - 1]);
    }
  }

  const MaxRecommendations := 10

  /** `sorted.slice(0, 10)` */
  function TopTen(s: seq<Rec>): (r: seq<Rec>)
    ensures |r| == if |s| < MaxRecommendations then |s| else MaxRecommendations
  {
    var sorted := SortDesc(s);
    sorted[..if |sorted| < MaxRecommendations then |sorted| else MaxRecommendations]
  }

  /**
   * The top ten are at most ten of the user's scored recipes, in non-increasing order, and
   * every recipe left out scores no more than any recipe kept.
   */
  lemma {:induction false} TopTenSpec(s: seq<Rec>)
    ensures |TopTen(s)| <= MaxRecommendations
    ensures SortedDesc(TopTen(s))
    ensures multiset(TopTen(s)) <= multiset(s)
    ensures forall x, y | x in TopTen(s) && y in multiset(s) - multiset(TopTen(s)) :: y.score <= x.score
  {
    var sorted := SortDesc(s);
    SortDescSorted(s);
    SortedSplit(sorted, |TopTen(s)|);
  }

  /** Cutting a sorted sequence leaves a sorted head whose elements all score at least the tail's. */
  lemma SortedSplit(sorted: seq<Rec>, n: nat)
    requires SortedDesc(sorted) && n <= |sorted|
    ensures SortedDesc(sorted[..n])
    ensures multiset(sorted[..n]) <= multiset(sorted)
    ensures forall x, y | x in sorted[..n] && y in multiset(sorted) - multiset(sorted[..n]) :: y.score <= x.score
  {
    var top, rest := sorted[..n], sorted[n..];
    SplitMultiset(sorted, n);
    HeadAboveTail(sorted, n);
    forall x, y | x in top && y in multiset(sorted) - multiset(top) ensures y.score <= x.score {
      assert y in rest;
    }
  }

  lemma SplitMultiset(sorted: seq<Rec>, n: nat)
    requires n <= |sorted|
    ensures multiset(sorted) - multiset(sorted[..n]) == multiset(sorted[n..])
    ensures multiset(sorted[..n]) <= multiset(sorted)
  {
    assert sorted == sorted[..n] + sorted[n..];
  }

  lemma HeadAboveTail(sorted: seq<Rec>, n: nat)
    requires SortedDesc(sorted) && n <= |sorted|
    ensures forall x, y | x in sorted[..n] && y in sorted[n..] :: y.score <= x.score
  {
    forall x, y | x in sorted[..n] && y in sorted[n..] ensures y.score <= x.score {
      var i :| 0 <= i < n && sorted[..n][i] == x;
      var j :| 0 <= j < |sorted| - n && sorted[n..][j] == y;
      assert sorted[n + j].score <= sorted[i].score;
    }
  }

  // ---------------------------------------------------------------------------
  // Pagination
  // ---------------------------------------------------------------------------

  /** The documents after position `from` in query order, at most `limit` of them. */
  function Page(ordered: seq<Entry>, from: nat, limit: nat): (r: seq<Entry>)
    requires from <= |ordered|
    ensures |r| == if from + limit <= |ordered| then limit else |ordered| - from
    ensures |r| <= limit && r == ordered[from..from + |r|]
  {
    ordered[from..if from + limit <= |ordered| then from + limit else |ordered|]
  }

  /**
   * `fetchCollectionWithPagination`: `ordered` is what the ordered query would return in
   * full. Each round fetches the next page after the last document seen; the loop stops
   * only after a page comes back empty, so N documents take ⌈N/limit⌉ + 1 fetches.
   */
  method FetchCollectionWithPagination(ordered: seq<Entry>, limit: nat) returns (data: seq<Entry>, fetches: nat)
    requires limit > 0
    ensures data == ordered
    ensures fetches == (|ordered| + limit - 1) / limit + 1
  {
    data, fetches := [], 0;
    var seen := 0;
    var hasCursor := true;
    while hasCursor
      invariant seen <= |ordered| && data == ordered[..seen]
      invariant hasCursor ==> seen % limit == 0 || seen == |ordered|
      invariant hasCursor ==> fetches == (seen + limit - 1) / limit
      invariant !hasCursor ==> seen == |ordered| && fetches == (seen + limit - 1) / limit + 1
      decreases |ordered| - seen, hasCursor
    {
      var snap := Page(ordered, seen, limit);
      fetches := fetches + 1;
      if snap != [] {
        assert ordered[..seen + |snap|] == ordered[..seen] + snap;
        PageCount(seen, |snap|, |ordered|, limit);
        data := data + snap;
        seen := seen + |snap|;
      } else {
        hasCursor := false;
      }
    }
  }

  lemma PageCount(seen: nat, got: nat, n: nat, limit: nat)
    requires limit > 0 && 0 < got <= limit && seen + got <= n
    requires seen % limit == 0 || seen == n
    requires got == limit || seen + got == n
    ensures (seen + got + limit - 1) / limit == (seen + limit - 1) / limit + 1
    ensures (seen + got) % limit == 0 || seen + got == n
  {
    var q := seen / limit;
    if got == limit {
      DivUnique(seen + got, limit, q + 1);
    }
    assert seen == q * limit;
    DivUnique(seen + limit - 1, limit, q);
    DivUnique(seen + got + limit - 1, limit, q + 1);
  }

  /** The quotient is the one multiple count that brackets the dividend. */
  lemma DivUnique(a: int, d: int, q: int)
    requires d > 0 && q * d <= a < q * d + d
    ensures a / d == q
  {
    var r := a / d;
    assert r * d <= a < r * d + d;
    assert (q - r) * d < d;
    assert (r - q) * d < d;
    MulBelow(q - r, d);
    MulBelow(r - q, d);
  }

  lemma MulBelow(x: int, d: int)
    requires d > 0 && x * d < d
    ensures x < 1
  {
  }

  // ---------------------------------------------------------------------------
  // The weekly handler
  // ---------------------------------------------------------------------------

  /** Every recipe scored for one user, in recipe order; the first scoring error aborts. */
  function ScoreAll(user: Doc, recipes: seq<Doc>): (r: Result<seq<Rec>>)
    ensures r.Ok? ==> |r.value| == |recipes|
  {
    if recipes == [] then Ok([])
    else
      match ScoreAll(user, recipes[..|recipes| - 1])
      case Err(e) => Err(e)
      case Ok(init) =>
        match Score(user, recipes[|recipes| - 1])
        case Err(e) => Err(e)
        case Ok(score) =>
          Ok(init + [Rec(Field(recipes[|recipes| - 1], "id"), score)])
  }

  /** The scoring succeeds exactly when every recipe can be scored. */
  lemma ScoreAllSucceeds(user: Doc, recipes: seq<Doc>)
    ensures ScoreAll(user, recipes).Ok? <==> forall i | 0 <= i < |recipes| :: Score(user, recipes[i]).Ok?
  {
    if ScoreAll(user, recipes).Ok? {
      ScoreAllEntries(user, recipes);
    } else if forall i | 0 <= i < |recipes| :: Score(user, recipes[i]).Ok? {
      ScoreAllWhenEachScores(user, recipes);
    }
  }

  lemma {:induction false} ScoreAllWhenEachScores(user: Doc, recipes: seq<Doc>)
    requires forall i | 0 <= i < |recipes| :: Score(user, recipes[i]).Ok?
    ensures ScoreAll(user, recipes).Ok?
  {
    if recipes != [] {
      var init := recipes[..|recipes| - 1];
      assert forall i | 0 <= i < |init| :: init[i] == recipes[i];
      ScoreAllWhenEachScores(user, init);
    }
  }

  /** A scoring that succeeds lists each recipe's id and score, in order. */
  lemma {:induction false} ScoreAllEntries(user: Doc, recipes: seq<Doc>)
    requires ScoreAll(user, recipes).Ok?
    ensures forall i | 0 <= i < |recipes| ::
      Score(user, recipes[i]).Ok? && ScoreAll(user, recipes).value[i] == Rec(Field(recipes[i], "id"), Score(user, recipes[i]).value)
  {
    if recipes != [] {
      var n := |recipes| - 1;
      var init := recipes[..n];
      assert ScoreAll(user, init).Ok? && Score(user, recipes[n]).Ok?;
      ScoreAllEntries(user, init);
      var prefix := ScoreAll(user, init).value;
      var r := prefix + [Rec(Field(recipes[n], "id"), Score(user, recipes[n]).value)];
      assert ScoreAll(user, recipes).value == r;
      forall i | 0 <= i < n
        ensures Score(user, recipes[i]).Ok? && r[i] == Rec(Field(recipes[i], "id"), Score(user, recipes[i]).value)
      {
        assert recipes[i] == init[i] && r[i] == prefix[i];
      }
    }
  }

  /** The inner loop of the weekly handler, pushing one entry per recipe. */
  method ScoreRecipes(user: Doc, recipes: seq<Doc>) returns (r: Result<seq<Rec>>)
    ensures r == ScoreAll(user, recipes)
  {
    var recs: seq<Rec> := [];
    for i := 0 to |recipes|
      invariant ScoreAll(user, recipes[..i]) == Ok(recs)
    {
      ScoreAllNext(user, recipes, i);
      var score := ComputeRecipeScore(user, recipes[i]);
      if score.Err? {
        ScoreAllErrorStays(user, recipes, i + 1);
        return Err(score.error);
      }
      recs := recs + [Rec(Field(recipes[i], "id"), score.value)];
    }
    assert recipes[..|recipes|] == recipes;
    r := Ok(recs);
  }

  /** One more recipe scored after a prefix that scored. */
  lemma ScoreAllNext(user: Doc, recipes: seq<Doc>, i: nat)
    requires i < |recipes| && ScoreAll(user, recipes[..i]).Ok?
    ensures Score(user, recipes[i]).Err? ==> ScoreAll(user, recipes[..i + 1]) == Err(Score(user, recipes[i]).error)
    ensures Score(user, recipes[i]).Ok? ==>
      ScoreAll(user, recipes[..i + 1]) == Ok(ScoreAll(user, recipes[..i]).value + [Rec(Field(recipes[i], "id"), Score(user, recipes[i]).value)])
  {
    assert recipes[..i + 1][..i] == recipes[..i];
  }

  lemma {:induction false} ScoreAllErrorStays(user: Doc, recipes: seq<Doc>, k: nat)
    requires k <= |recipes| && ScoreAll(user, recipes[..k]).Err?
    ensures ScoreAll(user, recipes) == ScoreAll(user, recipes[..k])
    decreases |recipes| - k
  {
    if k < |recipes| {
      assert recipes[..k + 1][..k] == recipes[..k];
      ScoreAllErrorStays(user, recipes, k + 1);
    } else {
      assert recipes[..k] == recipes;
    }
  }

  /**
   * The new batch: one document per kept recommendation, named by its recipe id and holding
   * its score; a later entry with the same id overwrites an earlier one, and an id that
   * does not name a document throws.
   */
  function RecDocs(top: seq<Rec>): (r: Result<map<string, int>>)
    ensures r.Ok? <==> forall i | 0 <= i < |top| :: DocId(top[i].recipeId).Ok?
  {
    if top == [] then Ok(map[])
    else
      var init, last := top[..|top| - 1], top[|top| - 1];
      match RecDocs(init)
      case Err(e) => Err(e)
      case Ok(m) =>
        match DocId(last.recipeId)
        case Err(e) => Err(e)
        case Ok(id) =>
          assert forall i | 0 <= i < |init| :: init[i] == top[i];
          Ok(m[id := last.score])
  }

  /**
   * The batch holds exactly one document per distinct kept recipe id: every kept recipe is
   * written, nothing else is, and each document holds the score of the last kept entry
   * with that id.
   */
  lemma RecDocsSpec(top: seq<Rec>)
    requires RecDocs(top).Ok?
    ensures |RecDocs(top).value.Keys| <= |top|
    ensures forall k | k in RecDocs(top).value ::
      exists i | 0 <= i < |top| :: top[i].recipeId == Str(k) && top[i].score == RecDocs(top).value[k]
    ensures forall i | 0 <= i < |top| :: top[i].recipeId.Str? && top[i].recipeId.s in RecDocs(top).value
    ensures RecDocs(top).value.Keys == set i | 0 <= i < |top| :: top[i].recipeId.s
    ensures forall i | 0 <= i < |top| && LastOfId(top, i) :: RecDocs(top).value[top[i].recipeId.s] == top[i].score
  {
    RecDocsFrom(top);
    RecDocsCovers(top);
    RecDocsLastWins(top);
    var m := RecDocs(top).value;
    var ids := set i | 0 <= i < |top| :: top[i].recipeId.s;
    forall k | k in ids ensures k in m {
      var i :| 0 <= i < |top| && top[i].recipeId.s == k;
    }
    forall k | k in m ensures k in ids {
      var i :| 0 <= i < |top| && top[i].recipeId == Str(k) && top[i].score == m[k];
      assert top[i].recipeId.s in ids;
    }
  }

  /** No later entry of `top` has the same recipe id as entry `i`. */
  predicate LastOfId(top: seq<Rec>, i: int)
    requires 0 <= i < |top|
  {
    forall j | i < j < |top| :: top[j].recipeId != top[i].recipeId
  }

  /** The batch has at most one document per kept recommendation, and each holds the score of one of them. */
  lemma {:induction false} RecDocsFrom(top: seq<Rec>)
    requires RecDocs(top).Ok?
    ensures |RecDocs(top).value.Keys| <= |top|
    ensures forall k | k in RecDocs(top).value ::
      exists i | 0 <= i < |top| :: top[i].recipeId == Str(k) && top[i].score == RecDocs(top).value[k]
  {
    if top != [] {
      var init, last := top[..|top| - 1], top[|top| - 1];
      RecDocsFrom(init);
      var m := RecDocs(init).value;
      var id := DocId(last.recipeId).value;
      assert RecDocs(top).value == m[id := last.score];
      assert m[id := last.score].Keys == m.Keys + {id};
      assert |m.Keys + {id}| <= |m.Keys| + 1;
      forall k | k in m[id := last.score]
        ensures exists i | 0 <= i < |top| :: top[i].recipeId == Str(k) && top[i].score == m[id := last.score][k]
      {
        if k == id {
          assert top[|top| - 1].recipeId == Str(k);
        } else {
          var i :| 0 <= i < |init| && init[i].recipeId == Str(k) && init[i].score == m[k];
          assert top[i] == init[i];
        }
      }
    }
  }

  /** Every kept recommendation is written under its recipe id. */
  lemma {:induction false} RecDocsCovers(top: seq<Rec>)
    requires RecDocs(top).Ok?
    ensures forall i | 0 <= i < |top| :: top[i].recipeId.Str? && top[i].recipeId.s in RecDocs(top).value
  {
    if top != [] {
      var init, last := top[..|top| - 1], top[|top| - 1];
      RecDocsCovers(init);
      var m := RecDocs(init).value;
      var id := DocId(last.recipeId).value;
      assert RecDocs(top).value == m[id := last.score];
      forall i | 0 <= i < |top| ensures top[i].recipeId.Str? && top[i].recipeId.s in m[id := last.score] {
        if i < |init| {
          assert top[i] == init[i];
        }
      }
    }
  }

  /** A document holds the score of the last kept entry with its id. */
  lemma {:induction false} RecDocsLastWins(top: seq<Rec>)
    requires RecDocs(top).Ok?
    ensures forall i | 0 <= i < |top| && LastOfId(top, i) ::
      top[i].recipeId.s in RecDocs(top).value && RecDocs(top).value[top[i].recipeId.s] == top[i].score
  {
    RecDocsCovers(top);
    if top != [] {
      var init, last := top[..|top| - 1], top[|top| - 1];
      RecDocsLastWins(init);
      RecDocsCovers(init);
      var m := RecDocs(init).value;
      var id := DocId(last.recipeId).value;
      assert RecDocs(top).value == m[id := last.score];
      forall i | 0 <= i < |top| && LastOfId(top, i)
        ensures m[id := last.score][top[i].recipeId.s] == top[i].score
      {
        if i < |init| {
          assert top[i] == init[i];
          assert top[|top| - 1].recipeId != top[i].recipeId;
          assert LastOfId(init, i) by {
            forall j | i < j < |init| ensures init[j].recipeId != init[i].recipeId {
              assert init[j] == top[j];
            }
          }
        }
      }
    }
  }

  /** The recommendations sub-collections after one user's turn, and whether the turn completed. */
  datatype Turn = Turn(recommendations: map<string, map<string, int>>, ok: bool)

  /**
   * One user's turn: score and rank every recipe, then delete the old recommendations and
   * write the new ones as two batches; a failure while building the second batch leaves
   * the user with no recommendations.
   */
  function UserTurn(recs: map<string, map<string, int>>, user: Doc, recipes: seq<Doc>): Turn {
    match ScoreAll(user, recipes)
    case Err(_) => Turn(recs, false)
    case Ok(scored) =>
      match DocId(Field(user, "id"))
      case Err(_) => Turn(recs, false)
      case Ok(uid) =>
        match RecDocs(TopTen(scored))
        case Err(_) => Turn(recs[uid := map[]], false)
        case Ok(docs) => Turn(recs[uid := docs], true)
  }

  /** The users' turns in order, stopping at the first that fails. */
  function AllTurns(recs: map<string, map<string, int>>, users: seq<Doc>, recipes: seq<Doc>): Turn
    decreases |users|
  {
    if users == [] then Turn(recs, true)
    else
      var t := UserTurn(recs, users[0], recipes);
      if !t.ok then t else AllTurns(t.recommendations, users[1..], recipes)
  }

  /**
   * A user's turn succeeds only for a user with an id whose recipes all score; a user
   * without one, or whose scoring throws, fails before anything is written; and a turn
   * writes at most that user's recommendations.
   */
  lemma UserTurnSpec(recs: map<string, map<string, int>>, user: Doc, recipes: seq<Doc>)
    ensures UserTurn(recs, user, recipes).ok ==> DocId(Field(user, "id")).Ok? && ScoreAll(user, recipes).Ok?
    ensures ScoreAll(user, recipes).Err? || DocId(Field(user, "id")).Err? ==> UserTurn(recs, user, recipes) == Turn(recs, false)
    ensures UserTurn(recs, user, recipes).recommendations.Keys
      <= recs.Keys + (if DocId(Field(user, "id")).Ok? then {DocId(Field(user, "id")).value} else {})
  {
  }

  /** A run of turns that completes met only users with an id. */
  lemma {:induction false} AllTurnsIds(recs: map<string, map<string, int>>, users: seq<Doc>, recipes: seq<Doc>)
    requires AllTurns(recs, users, recipes).ok
    ensures forall i | 0 <= i < |users| :: DocId(Field(users[i], "id")).Ok?
    decreases |users|
  {
    if users != [] {
      var t := UserTurn(recs, users[0], recipes);
      UserTurnSpec(recs, users[0], recipes);
      AllTurnsIds(t.recommendations, users[1..], recipes);
      assert forall i | 1 <= i < |users| :: users[i] == users[1..][i - 1];
    }
  }

  /** `apiKey !== functions.config().app.secure_api_key` with `apiKey = req.query.apiKey || req.headers["x-api-key"]`. */
  predicate Authorized(queryKey: Value, headerKey: Value, configured: Value)
    ensures Truthy(queryKey) ==> (Authorized(queryKey, headerKey, configured) <==> SameValue(queryKey, configured))
    ensures !Truthy(queryKey) ==> (Authorized(queryKey, headerKey, configured) <==> SameValue(headerKey, configured))
    ensures configured.Obj? || configured.Arr? ==> !Authorized(queryKey, headerKey, configured)
  {
    SameValue(Or(queryKey, headerKey), configured)
  }

  /** The reply and the new recommendations of one request. */
  function Weekly(recs: map<string, map<string, int>>, queryKey: Value, headerKey: Value, configured: Value,
                  users: seq<Entry>, recipes: seq<Entry>): (r: (Response, map<string, map<string, int>>))
    ensures r.0.status == 403 <==> !Authorized(queryKey, headerKey, configured)
    ensures r.0.status == 403 ==> r.1 == recs
    ensures r.0.status in {200, 403, 500}
  {
    if !Authorized(queryKey, headerKey, configured) then (Response(403, "Unauthorized"), recs)
    else
      var t := AllTurns(recs, Views(users), Views(recipes));
      (if t.ok then Response(200, "Weekly recommendations calculated.") else Response(500, "Error"), t.recommendations)
  }

  /** A request with the wrong key gets 403 and writes nothing. */
  lemma WrongKeyWritesNothing(recs: map<string, map<string, int>>, queryKey: Value, headerKey: Value, configured: Value,
                              users: seq<Entry>, recipes: seq<Entry>)
    requires !Authorized(queryKey, headerKey, configured)
    ensures Weekly(recs, queryKey, headerKey, configured, users, recipes) == (Response(403, "Unauthorized"), recs)
  {
  }

  /**
   * After a completed turn the user's recommendations are exactly the new batch: one
   * document for each recipe id among the top ten and no other, each holding the score
   * of the last top-ten entry with that id, which is the score of a recipe with that id;
   * nothing of the old recommendations remains and no other user changes.
   */
  lemma {:induction false} UserTurnReplaces(recs: map<string, map<string, int>>, user: Doc, recipes: seq<Doc>)
    requires UserTurn(recs, user, recipes).ok
    ensures DocId(Field(user, "id")).Ok? && ScoreAll(user, recipes).Ok?
    ensures RecDocs(TopTen(ScoreAll(user, recipes).value)).Ok?
    ensures var uid := DocId(Field(user, "id")).value;
            var after := UserTurn(recs, user, recipes).recommendations;
            var top := TopTen(ScoreAll(user, recipes).value);
            && uid in after
            && after[uid].Keys == (set i | 0 <= i < |top| :: top[i].recipeId.s)
            && (forall i | 0 <= i < |top| && LastOfId(top, i) :: after[uid][top[i].recipeId.s] == top[i].score)
    ensures var uid := DocId(Field(user, "id")).value;
            var after := UserTurn(recs, user, recipes).recommendations;
            && uid in after && |after[uid].Keys| <= MaxRecommendations
            && (forall k | k in after[uid] :: exists j | 0 <= j < |recipes| ::
                  Field(recipes[j], "id") == Str(k) && Score(user, recipes[j]) == Ok(after[uid][k]))
            && (forall other | other != uid :: (other in after <==> other in recs) && (other in recs ==> after[other] == recs[other]))
  {
    var scored := ScoreAll(user, recipes).value;
    var top := TopTen(scored);
    var uid := DocId(Field(user, "id")).value;
    var docs := RecDocs(top).value;
    assert UserTurn(recs, user, recipes) == Turn(recs[uid := docs], true);
    TopTenSpec(scored);
    RecDocsSpec(top);
    BatchFromScores(user, recipes, scored, top, docs);
  }

  /** Every entry of a user's batch is the id and score of one of the recipes. */
  lemma BatchFromScores(user: Doc, recipes: seq<Doc>, scored: seq<Rec>, top: seq<Rec>, docs: map<string, int>)
    requires ScoreAll(user, recipes) == Ok(scored)
    requires multiset(top) <= multiset(scored)
    requires forall k | k in docs :: exists i | 0 <= i < |top| :: top[i].recipeId == Str(k) && top[i].score == docs[k]
    ensures forall k | k in docs :: exists j | 0 <= j < |recipes| ::
      Field(recipes[j], "id") == Str(k) && Score(user, recipes[j]) == Ok(docs[k])
  {
    ScoreAllEntries(user, recipes);
    forall k | k in docs
      ensures exists j | 0 <= j < |recipes| :: Field(recipes[j], "id") == Str(k) && Score(user, recipes[j]) == Ok(docs[k])
    {
      var i :| 0 <= i < |top| && top[i].recipeId == Str(k) && top[i].score == docs[k];
      assert top[i] in multiset(scored);
      var j :| 0 <= j < |scored| && scored[j] == top[i];
      assert scored[j] == Rec(Field(recipes[j], "id"), Score(user, recipes[j]).value);
    }
  }

  /** A turn that fails after the old batch was deleted leaves the user with no recommendations. */
  lemma FailedWriteClears(recs: map<string, map<string, int>>, user: Doc, recipes: seq<Doc>)
    requires ScoreAll(user, recipes).Ok? && DocId(Field(user, "id")).Ok?
    requires RecDocs(TopTen(ScoreAll(user, recipes).value)).Err?
    ensures UserTurn(recs, user, recipes) == Turn(recs[DocId(Field(user, "id")).value := map[]], false)
  {
  }

  /** The per-user turn on the store. */
  method RecommendForUser(db: Firestore, user: Doc, recipes: seq<Doc>) returns (ok: bool)
    modifies db`recommendations
    ensures Turn(db.recommendations, ok) == UserTurn(old(db.recommendations), user, recipes)
  {
    var scored := ScoreRecipes(user, recipes);
    if scored.Err? {
      return false;
    }
    var top := TopTen(scored.value);
    var uid := DocId(Field(user, "id"));
    if uid.Err? {
      return false;
    }
    ok := ReplaceRecommendations(db, uid.value, top);
  }

  /**
   * Steps 6 and 7 of a user's turn: the old recommendations are deleted, then the new
   * ones are written, or none when building their batch throws.
   */
  method ReplaceRecommendations(db: Firestore, uid: string, top: seq<Rec>) returns (ok: bool)
    modifies db`recommendations
    ensures ok == RecDocs(top).Ok?
    ensures db.recommendations == old(db.recommendations)[uid := if ok then RecDocs(top).value else map[]]
  {
    db.recommendations := db.recommendations[uid := map[]];
    var batch := BuildBatch(top);
    if batch.Err? {
      return false;
    }
    db.recommendations := db.recommendations[uid := batch.value];
    ok := true;
  }

  /** The `forEach` filling the second batch with one `set` per kept recommendation. */
  method BuildBatch(top: seq<Rec>) returns (r: Result<map<string, int>>)
    ensures r == RecDocs(top)
  {
    var docs: map<string, int> := map[];
    for i := 0 to |top|
      invariant RecDocs(top[..i]) == Ok(docs)
    {
      assert top[..i + 1][..i] == top[..i];
      var id := DocId(top[i].recipeId);
      if id.Err? {
        RecDocsErrorStays(top, i + 1);
        return Err(id.error);
      }
      docs := docs[id.value := top[i].score];
    }
    assert top[..|top|] == top;
    r := Ok(docs);
  }

  lemma {:induction false} RecDocsErrorStays(top: seq<Rec>, k: nat)
    requires k <= |top| && RecDocs(top[..k]).Err?
    ensures RecDocs(top) == RecDocs(top[..k])
    decreases |top| - k
  {
    if k < |top| {
      assert top[..k + 1][..k] == top[..k];
      RecDocsErrorStays(top, k + 1);
    } else {
      assert top[..k] == top;
    }
  }

  /** Page size of `fetchCollectionWithPagination`. */
  const PageSize := 100

  /**
   * `calculateWeeklyRecommendations`. `usersByCreatedTime` and `recipesByCreatedAt` are the
   * documents the ordered queries return.
   */
  method CalculateWeeklyRecommendations(db: Firestore, queryKey: Value, headerKey: Value, configured: Value,
                                        usersByCreatedTime: seq<Entry>, recipesByCreatedAt: seq<Entry>)
    returns (response: Response)
    modifies db`recommendations
    ensures (response, db.recommendations)
         == Weekly(old(db.recommendations), queryKey, headerKey, configured, usersByCreatedTime, recipesByCreatedAt)
  {
    var apiKey := Or(queryKey, headerKey);
    if !SameValue(apiKey, configured) {
      return Response(403, "Unauthorized");
    }
    var users, _ := FetchCollectionWithPagination(usersByCreatedTime, PageSize);
    var recipes, _ := FetchCollectionWithPagination(recipesByCreatedAt, PageSize);
    var userViews, recipeViews := Views(users), Views(recipes);
    for i := 0 to |userViews|
      invariant AllTurns(db.recommendations, userViews[i..], recipeViews) == AllTurns(old(db.recommendations), userViews, recipeViews)
    {
      assert userViews[i..][1..] == userViews[i + 1..];
      var ok := RecommendForUser(db, userViews[i], recipeViews);
      if !ok {
        return Response(500, "Error");
      }
    }
    response := Response(200, "Weekly recommendations calculated.");
  }
}
