/**
 * Rating aggregates (functions/index.js): `updateRecipeRating` recomputes a recipe's
 * average, count and star histogram from all of its rating documents and then calls
 * `updateUserAverageRating` for the recipe's author; `updateUserRecipeStats` (called by
 * `preprocessRecipe`) recomputes an author's recipe count and rating-weighted average.
 * Every aggregate is recomputed from the full current data, never adjusted by a delta.
 */
module Ratings {
  import opened Js
  import opened Store

  // ---------------------------------------------------------------------------
  // Recipe aggregate
  // ---------------------------------------------------------------------------

  /** The fields `updateRecipeRating` writes onto the recipe. */
  datatype RecipeAggregate = RecipeAggregate(averageRating: real, ratingsCount: nat, ratingCounts: map<int, nat>)

  function Sum(s: seq<int>): int {
    if s == [] then 0 else Sum(s[..|s| - 1]) + s[|s| - 1]
  }

  /** The mean of the ratings, and exactly 0 when there are none. */
  function Mean(s: seq<int>): real {
    if |s| == 0 then 0.0 else Sum(s) as real / |s| as real
  }

  /** The star values the histogram is seeded with. */
  const Stars: set<int> := {1, 2, 3, 4, 5}

  function Elems(s: seq<int>): set<int> {
    set x | x in s
  }

  /** Keys 1..5 plus every rating value seen, each mapped to its number of occurrences. */
  function Histogram(s: seq<int>): map<int, nat> {
    map k | k in Stars + Elems(s) :: multiset(s)[k]
  }

  /** What the recipe's aggregate fields should be for a given set of rating documents. */
  function Aggregate(ratings: seq<int>): (r: RecipeAggregate)
    ensures r.ratingsCount == |ratings|
    ensures r.ratingCounts.Keys == Stars + Elems(ratings)
  {
    RecipeAggregate(Mean(ratings), |ratings|, Histogram(ratings))
  }

  /** The loop of `updateRecipeRating` over the rating snapshot. */
  method ComputeRecipeAggregate(ratings: seq<int>) returns (agg: RecipeAggregate)
    ensures agg == Aggregate(ratings)
  {
    var total := 0;
    var counts: map<int, nat> := map[1 := 0, 2 := 0, 3 := 0, 4 := 0, 5 := 0];
    assert counts == Histogram([]);
    var i := 0;
    while i < |ratings|
      invariant 0 <= i <= |ratings|
      invariant total == Sum(ratings[..i])
      invariant counts == Histogram(ratings[..i])
    {
      var r := ratings[i];
      assert ratings[..i + 1] == ratings[..i] + [r];
      HistogramSnoc(ratings[..i], r);
      total := total + r;
      counts := counts[r := (if r in counts then counts[r] else 0) + 1];
      i := i + 1;
    }
    assert ratings[..i] == ratings;
    var average := if |ratings| == 0 then 0.0 else total as real / |ratings| as real;
    agg := RecipeAggregate(average, |ratings|, counts);
  }

  /** Counting one more rating bumps its own key, adding the key when it is new. */
  lemma HistogramSnoc(s: seq<int>, r: int)
    ensures Histogram(s + [r]) == Histogram(s)[r := (if r in Histogram(s) then Histogram(s)[r] else 0) + 1]
  {
    var h, h' := Histogram(s), Histogram(s + [r]);
    assert multiset(s + [r]) == multiset(s) + multiset{r};
    assert Elems(s + [r]) == Elems(s) + {r};
    if r !in h {
      assert r !in Stars + Elems(s);
      assert r !in s;
      assert multiset(s)[r] == 0;
    }
  }

  /** With ratings in 1..5 the keys are exactly 1..5 and the histogram partitions the count. */
  lemma {:induction false} HistogramPartitionsCount(s: seq<int>)
    requires forall i | 0 <= i < |s| :: 1 <= s[i] <= 5
    ensures Histogram(s).Keys == Stars
    ensures Histogram(s)[1] + Histogram(s)[2] + Histogram(s)[3] + Histogram(s)[4] + Histogram(s)[5] == |s|
  {
    StarTotal(s);
  }

  lemma {:induction false} StarTotal(s: seq<int>)
    requires forall i | 0 <= i < |s| :: 1 <= s[i] <= 5
    ensures multiset(s)[1] + multiset(s)[2] + multiset(s)[3] + multiset(s)[4] + multiset(s)[5] == |s|
  {
    if s != [] {
      var init := s[..|s| - 1];
      assert s == init + [s[|s| - 1]];
      StarTotal(init);
      assert multiset(s) == multiset(init) + multiset{s[|s| - 1]};
    }
  }

  lemma {:induction false} SumBounds(s: seq<int>)
    requires forall i | 0 <= i < |s| :: 1 <= s[i] <= 5
    ensures |s| <= Sum(s) <= 5 * |s|
  {
    if s != [] {
      SumBounds(s[..|s| - 1]);
    }
  }

  /** Star ratings average to a value between 1 and 5. */
  lemma MeanWithinStars(s: seq<int>)
    requires |s| > 0
    requires forall i | 0 <= i < |s| :: 1 <= s[i] <= 5
    ensures 1.0 <= Mean(s) <= 5.0
  {
    SumBounds(s);
    QuotientWithin(Sum(s) as real, |s| as real, 1.0, 5.0);
  }

  /** A quotient of a total lying between lo·n and hi·n lies between lo and hi. */
  lemma QuotientWithin(t: real, n: real, lo: real, hi: real)
    requires n > 0.0 && lo * n <= t <= hi * n
    ensures lo <= t / n <= hi
  {
    var q := t / n;
    assert q * n == t;
    assert (q - lo) * n >= 0.0;
    assert (hi - q) * n >= 0.0;
  }

  /** Recomputing from an unchanged rating set writes the same aggregate. */
  lemma AggregateDeterminedByRatings(s: seq<int>, t: seq<int>)
    requires multiset(s) == multiset(t)
    ensures Aggregate(s) == Aggregate(t)
  {
    SumPermutation(s, t);
    assert |s| == |multiset(s)| == |t|;
    forall k ensures k in s <==> k in t {
      assert k in s <==> k in multiset(s);
      assert k in t <==> k in multiset(t);
    }
    assert Elems(s) == Elems(t);
  }

  /** The sum of the ratings does not depend on their order. */
  lemma {:induction false} SumPermutation(s: seq<int>, t: seq<int>)
    requires multiset(s) == multiset(t)
    ensures Sum(s) == Sum(t)
    decreases |s|
  {
    if s != [] {
      var x := s[|s| - 1];
      assert s == s[..|s| - 1] + [x];
      assert x in multiset(t);
      var j :| 0 <= j < |t| && t[j] == x;
      var t' := t[..j] + t[j + 1..];
      assert t == t[..j] + [x] + t[j + 1..];
      var s' := s[..|s| - 1];
      assert multiset(t') == multiset(t) - multiset{x};
      assert multiset(s') == multiset(s) - multiset{x};
      SumPermutation(s', t');
      SumRemove(t, j);
    }
  }

  lemma {:induction false} SumRemove(t: seq<int>, j: nat)
    requires j < |t|
    ensures Sum(t) == Sum(t[..j] + t[j + 1..]) + t[j]
  {
    if j < |t| - 1 {
      var init := t[..|t| - 1];
      SumRemove(init, j);
      assert init[..j] + init[j + 1..] + [t[|t| - 1]] == t[..j] + t[j + 1..];
      assert (t[..j] + t[j + 1..])[..|t| - 2] == init[..j] + init[j + 1..];
    } else {
      assert t[..j] + t[j + 1..] == t[..|t| - 1];
    }
  }

  /** Ratings [5, 3, 4]: average 4, histogram {1:0, 2:0, 3:1, 4:1, 5:1}; without the 3: average 4.5 over 2. */
  lemma RatingScenario()
    ensures Aggregate([5, 3, 4]).averageRating == 4.0 && Aggregate([5, 3, 4]).ratingsCount == 3
    ensures Aggregate([5, 3, 4]).ratingCounts == map[1 := 0, 2 := 0, 3 := 1, 4 := 1, 5 := 1]
    ensures Aggregate([5, 4]).averageRating == 4.5 && Aggregate([5, 4]).ratingsCount == 2
    ensures Aggregate([]).averageRating == 0.0 && Aggregate([]).ratingsCount == 0
  {
    var s := [5, 3, 4];
    assert Sum(s) == 12 by {
      assert s[..2] == [5, 3] && [5, 3][..1] == [5] && [5][..0] == [];
    }
    assert Sum([5, 4]) == 9 by {
      assert [5, 4][..1] == [5] && [5][..0] == [];
    }
    assert Elems(s) == {3, 4, 5};
    var h := Histogram(s);
    assert h.Keys == Stars;
    assert multiset(s)[1] == 0 && multiset(s)[2] == 0;
  }

  /** The stored form of the histogram: an object keyed by the decimal text of each star value. */
  function CountsObject(h: map<int, nat>): Value {
    IntToStringInjectiveAll();
    Obj(map k | k in h :: IntToString(k) := Num(h[k] as real))
  }

  lemma IntToStringInjectiveAll()
    ensures forall a, b | IntToString(a) == IntToString(b) :: a == b
  {
    forall a, b | IntToString(a) == IntToString(b) ensures a == b {
      IntToStringInjective(a, b);
    }
  }

  /** `{averageRating, ratingsCount, ratingCounts}` as written by `recipeRef.update`. */
  function AggregateFields(agg: RecipeAggregate): Doc {
    map["averageRating" := Num(agg.averageRating),
        "ratingsCount" := Num(agg.ratingsCount as real),
        "ratingCounts" := CountsObject(agg.ratingCounts)]
  }

  // ---------------------------------------------------------------------------
  // Author aggregate
  // ---------------------------------------------------------------------------

  /**
   * `data.averageRating || 0` as a number: a missing or falsy field counts as 0. A stored
   * value that is not a number is also read as 0.
   */
  function RecipeAverage(d: Doc): real {
    match Field(d, "averageRating")
    case Num(n) => n
    case _ => 0.0
  }

  /** `data.ratingsCount || 0` as a number. */
  function RecipeReviews(d: Doc): real {
    match Field(d, "ratingsCount")
    case Num(n) => n
    case _ => 0.0
  }

  /** Σ averageRating × ratingsCount over the author's recipes. */
  function WeightedTotal(c: Collection): real {
    if c == [] then 0.0
    else WeightedTotal(c[..|c| - 1]) + RecipeAverage(c[|c| - 1].data) * RecipeReviews(c[|c| - 1].data)
  }

  /** Σ ratingsCount over the author's recipes. */
  function ReviewTotal(c: Collection): real {
    if c == [] then 0.0 else ReviewTotal(c[..|c| - 1]) + RecipeReviews(c[|c| - 1].data)
  }

  /** The rating-weighted mean over the author's recipes, 0 when nobody has rated any of them. */
  function AuthorAverage(c: Collection): real {
    if ReviewTotal(c) > 0.0 then WeightedTotal(c) / ReviewTotal(c) else 0.0
  }

  /** The accumulation loop shared by both user-stat helpers. */
  method AuthorTotals(recipes: Collection) returns (totalRating: real, totalReviews: real)
    ensures totalRating == WeightedTotal(recipes) && totalReviews == ReviewTotal(recipes)
  {
    totalRating, totalReviews := 0.0, 0.0;
    for i := 0 to |recipes|
      invariant totalRating == WeightedTotal(recipes[..i])
      invariant totalReviews == ReviewTotal(recipes[..i])
    {
      assert recipes[..i + 1][..i] == recipes[..i];
      var d := recipes[i].data;
      totalRating := totalRating + RecipeAverage(d) * RecipeReviews(d);
      totalReviews := totalReviews + RecipeReviews(d);
    }
    assert recipes[..|recipes|] == recipes;
  }

  /** A recipe nobody has rated adds no weight: the author's totals and average do not move. */
  lemma UnratedRecipeAddsNoWeight(c: Collection, e: Entry)
    requires RecipeReviews(e.data) == 0.0
    ensures WeightedTotal(c + [e]) == WeightedTotal(c) && ReviewTotal(c + [e]) == ReviewTotal(c)
    ensures AuthorAverage(c + [e]) == AuthorAverage(c)
  {
    assert (c + [e])[..|c|] == c;
  }

  /** When every recipe average lies in [lo, hi] and counts are non-negative, so does the author's average. */
  lemma {:induction false} AuthorAverageWithin(c: Collection, lo: real, hi: real)
    requires forall i | 0 <= i < |c| :: lo <= RecipeAverage(c[i].data) <= hi && RecipeReviews(c[i].data) >= 0.0
    requires ReviewTotal(c) > 0.0
    ensures lo <= AuthorAverage(c) <= hi
  {
    WeightedTotalWithin(c, lo, hi);
    QuotientWithin(WeightedTotal(c), ReviewTotal(c), lo, hi);
  }

  lemma {:induction false} WeightedTotalWithin(c: Collection, lo: real, hi: real)
    requires forall i | 0 <= i < |c| :: lo <= RecipeAverage(c[i].data) <= hi && RecipeReviews(c[i].data) >= 0.0
    ensures lo * ReviewTotal(c) <= WeightedTotal(c) <= hi * ReviewTotal(c)
    ensures ReviewTotal(c) >= 0.0
  {
    if c != [] {
      var init := c[..|c| - 1];
      assert forall i | 0 <= i < |init| :: init[i] == c[i];
      WeightedTotalWithin(init, lo, hi);
      var a, n := RecipeAverage(c[|c| - 1].data), RecipeReviews(c[|c| - 1].data);
      assert ReviewTotal(c) == ReviewTotal(init) + n;
      assert WeightedTotal(c) == WeightedTotal(init) + a * n;
      WithinStep(lo, hi, a, n, WeightedTotal(init), ReviewTotal(init));
    }
  }

  /** Adding `n` reviews averaging between `lo` and `hi` keeps the running total between the bounds. */
  lemma WithinStep(lo: real, hi: real, a: real, n: real, weighted: real, reviews: real)
    requires lo * reviews <= weighted <= hi * reviews
    requires lo <= a <= hi && n >= 0.0
    ensures lo * (reviews + n) <= weighted + a * n <= hi * (reviews + n)
  {
    assert (a - lo) * n >= 0.0;
    assert (hi - a) * n >= 0.0;
  }

  /** An author with recipes (4.0, 3) and (0, 0) has 3 reviews and average 4.0. */
  lemma AuthorScenario(r1: Entry, r2: Entry)
    requires r1.data == map["averageRating" := Num(4.0), "ratingsCount" := Num(3.0)]
    requires r2.data == map["averageRating" := Num(0.0), "ratingsCount" := Num(0.0)]
    ensures ReviewTotal([r1, r2]) == 3.0 && AuthorAverage([r1, r2]) == 4.0
  {
    assert [r1, r2][..1] == [r1];
    assert [r1][..0] == [];
    assert RecipeAverage(r1.data) == 4.0 && RecipeReviews(r1.data) == 3.0;
    assert RecipeAverage(r2.data) == 0.0 && RecipeReviews(r2.data) == 0.0;
    assert ReviewTotal([r1]) == 3.0 && WeightedTotal([r1]) == 12.0;
    assert ReviewTotal([r1, r2]) == 3.0 && WeightedTotal([r1, r2]) == 12.0;
  }

  /** `updateUserRecipeStats` merges the recipe count and the average. */
  function RecipeStatsFields(authored: Collection): Doc {
    map["recipeCount" := Num(|authored| as real), "averageRating" := Num(AuthorAverage(authored))]
  }

  /** `updateUserAverageRating` updates the average and the review total. */
  function AverageRatingFields(authored: Collection): Doc {
    map["averageRating" := Num(AuthorAverage(authored)), "totalReviews" := Num(ReviewTotal(authored))]
  }

  /**
   * The two helpers agree on the average but write different field sets: only one of them
   * keeps `recipeCount` current and only the other keeps `totalReviews` current.
   */
  lemma AuthorWritesDiffer(authored: Collection)
    ensures RecipeStatsFields(authored)["averageRating"] == AverageRatingFields(authored)["averageRating"]
    ensures "totalReviews" !in RecipeStatsFields(authored) && "recipeCount" !in AverageRatingFields(authored)
  {
  }

  // ---------------------------------------------------------------------------
  // The handlers as steps on the store
  // ---------------------------------------------------------------------------

  /** The two collections the rating handlers write. */
  datatype Snapshot = Snapshot(recipes: Collection, users: Collection)

  /** The store after a handler ran, and how it ended. */
  datatype StepResult = StepResult(state: Snapshot, outcome: Outcome)

  /**
   * `updateUserAverageRating(userId)`: query the recipes whose authorId is `userId`
   * (throws for undefined), then `update` the user (throws for an id that is not a
   * non-empty string, and for a user document that does not exist).
   */
  function UserAverageRatingStep(s: Snapshot, userId: Value): StepResult {
    match Query(s.recipes, "authorId", userId)
    case Err(e) => StepResult(s, Failed(e))
    case Ok(authored) =>
      match DocId(userId)
      case Err(e) => StepResult(s, Failed(e))
      case Ok(uid) =>
        match Update(s.users, uid, AverageRatingFields(authored))
        case Err(e) => StepResult(s, Failed(e))
        case Ok(users) => StepResult(Snapshot(s.recipes, users), Done)
  }

  /**
   * `updateRecipeRating` for recipe `recipeId` whose rating documents are `ratings`:
   * `update` the recipe (NOT_FOUND when it does not exist), read its authorId back and
   * cascade to that author without checking that the authorId is present.
   */
  function RecipeRatingStep(s: Snapshot, ratings: seq<int>, recipeId: string): StepResult {
    match Update(s.recipes, recipeId, AggregateFields(Aggregate(ratings)))
    case Err(e) => StepResult(s, Failed(e))
    case Ok(recipes) =>
      UserAverageRatingStep(Snapshot(recipes, s.users), Field(BodyOrEmpty(recipes, recipeId), "authorId"))
  }

  /** `updateUserRecipeStats(userId)`: like the other helper, but a merge that creates the user. */
  function UserRecipeStatsStep(s: Snapshot, userId: Value): StepResult {
    match Query(s.recipes, "authorId", userId)
    case Err(e) => StepResult(s, Failed(e))
    case Ok(authored) =>
      match DocId(userId)
      case Err(e) => StepResult(s, Failed(e))
      case Ok(uid) =>
        StepResult(Snapshot(s.recipes, SetMerge(s.users, uid, RecipeStatsFields(authored))), Done)
  }

  /** The author helpers never touch the recipes. */
  lemma UserStepsKeepRecipes(s: Snapshot, userId: Value)
    ensures UserAverageRatingStep(s, userId).state.recipes == s.recipes
    ensures UserRecipeStatsStep(s, userId).state.recipes == s.recipes
  {
  }

  /**
   * `updateUserAverageRating` only updates an existing user, so the set of users stays the
   * same; when it fails it has written nothing.
   */
  lemma UserAverageRatingFrame(s: Snapshot, userId: Value)
    ensures Ids(UserAverageRatingStep(s, userId).state.users) == Ids(s.users)
    ensures UserAverageRatingStep(s, userId).outcome.Failed? ==> UserAverageRatingStep(s, userId).state == s
  {
  }

  /**
   * `updateUserRecipeStats` writes nothing when it fails, and when it completes the user's
   * document exists, created by the merge if need be.
   */
  lemma UserRecipeStatsFrame(s: Snapshot, userId: Value)
    ensures UserRecipeStatsStep(s, userId).outcome.Failed? ==> UserRecipeStatsStep(s, userId).state == s
    ensures UserRecipeStatsStep(s, userId).outcome == Done ==>
      DocId(userId).Ok? && DocId(userId).value in Ids(UserRecipeStatsStep(s, userId).state.users)
  {
    if Query(s.recipes, "authorId", userId).Ok? && DocId(userId).Ok? {
      SetMergeSpec(s.users, DocId(userId).value, RecipeStatsFields(Query(s.recipes, "authorId", userId).value));
    }
  }

  /**
   * A rating event creates and deletes no recipe and no user; for a recipe that does not
   * exist it fails with NOT_FOUND and writes nothing.
   */
  lemma RecipeRatingFrame(s: Snapshot, ratings: seq<int>, recipeId: string)
    ensures Ids(RecipeRatingStep(s, ratings, recipeId).state.recipes) == Ids(s.recipes)
    ensures Ids(RecipeRatingStep(s, ratings, recipeId).state.users) == Ids(s.users)
    ensures recipeId !in Ids(s.recipes) ==> RecipeRatingStep(s, ratings, recipeId) == StepResult(s, Failed(NotFound))
  {
    var first := Update(s.recipes, recipeId, AggregateFields(Aggregate(ratings)));
    if first.Ok? {
      var mid := Snapshot(first.value, s.users);
      UserAverageRatingFrame(mid, Field(BodyOrEmpty(first.value, recipeId), "authorId"));
    }
  }

  /** Running `updateUserAverageRating` again on its own result changes nothing. */
  lemma UserAverageRatingIdempotent(s: Snapshot, userId: Value)
    ensures UserAverageRatingStep(UserAverageRatingStep(s, userId).state, userId) ==
            StepResult(UserAverageRatingStep(s, userId).state, UserAverageRatingStep(s, userId).outcome)
  {
    var t := UserAverageRatingStep(s, userId);
    if Query(s.recipes, "authorId", userId).Ok? && DocId(userId).Ok? {
      var authored := Query(s.recipes, "authorId", userId).value;
      var uid := DocId(userId).value;
      var u := Update(s.users, uid, AverageRatingFields(authored));
      if u.Ok? {
        SetMergeIdempotent(s.users, uid, AverageRatingFields(authored));
        SetMergeSpec(s.users, uid, AverageRatingFields(authored));
      }
    }
  }

  /** Running `updateUserRecipeStats` again on its own result changes nothing. */
  lemma UserRecipeStatsIdempotent(s: Snapshot, userId: Value)
    ensures UserRecipeStatsStep(UserRecipeStatsStep(s, userId).state, userId) == UserRecipeStatsStep(s, userId)
  {
    if Query(s.recipes, "authorId", userId).Ok? && DocId(userId).Ok? {
      var authored := Query(s.recipes, "authorId", userId).value;
      SetMergeIdempotent(s.users, DocId(userId).value, RecipeStatsFields(authored));
    }
  }

  /**
   * A second delivery of the same rating event, with no rating change in between, leaves
   * the store exactly as the first left it and ends the same way.
   */
  lemma RecipeRatingIdempotent(s: Snapshot, ratings: seq<int>, recipeId: string)
    ensures RecipeRatingStep(RecipeRatingStep(s, ratings, recipeId).state, ratings, recipeId)
         == RecipeRatingStep(s, ratings, recipeId)
  {
    var fields := AggregateFields(Aggregate(ratings));
    var first := Update(s.recipes, recipeId, fields);
    if first.Ok? {
      var recipes := first.value;
      var author := Field(BodyOrEmpty(recipes, recipeId), "authorId");
      var mid := Snapshot(recipes, s.users);
      var t := UserAverageRatingStep(mid, author);
      UserStepsKeepRecipes(mid, author);
      SetMergeIdempotent(s.recipes, recipeId, fields);
      SetMergeSpec(s.recipes, recipeId, fields);
      assert Update(t.state.recipes, recipeId, fields) == Ok(recipes);
      UserAverageRatingIdempotent(mid, author);
    }
  }

  // ---------------------------------------------------------------------------
  // The handlers on the store object
  // ---------------------------------------------------------------------------

  /** `updateUserAverageRating(userId)` */
  method UpdateUserAverageRating(db: Firestore, userId: Value) returns (outcome: Outcome)
    modifies db
    ensures Snapshot(db.recipes, db.users) == UserAverageRatingStep(old(Snapshot(db.recipes, db.users)), userId).state
    ensures outcome == UserAverageRatingStep(old(Snapshot(db.recipes, db.users)), userId).outcome
    ensures db.ratings == old(db.ratings) && db.recommendations == old(db.recommendations)
  {
    var query := Query(db.recipes, "authorId", userId);
    if query.Err? {
      return Failed(query.error);
    }
    var totalRating, totalReviews := AuthorTotals(query.value);
    var average := if totalReviews > 0.0 then totalRating / totalReviews else 0.0;
    var uid := DocId(userId);
    if uid.Err? {
      return Failed(uid.error);
    }
    var fields := map["averageRating" := Num(average), "totalReviews" := Num(totalReviews)];
    assert fields == AverageRatingFields(query.value);
    var users := Update(db.users, uid.value, fields);
    if users.Err? {
      return Failed(users.error);
    }
    db.users := users.value;
    outcome := Done;
  }

  /** `updateUserRecipeStats(userId)` */
  method UpdateUserRecipeStats(db: Firestore, userId: Value) returns (outcome: Outcome)
    modifies db
    ensures Snapshot(db.recipes, db.users) == UserRecipeStatsStep(old(Snapshot(db.recipes, db.users)), userId).state
    ensures outcome == UserRecipeStatsStep(old(Snapshot(db.recipes, db.users)), userId).outcome
    ensures db.ratings == old(db.ratings) && db.recommendations == old(db.recommendations)
  {
    var query := Query(db.recipes, "authorId", userId);
    if query.Err? {
      return Failed(query.error);
    }
    var totalRating, totalReviews := AuthorTotals(query.value);
    var average := if totalReviews > 0.0 then totalRating / totalReviews else 0.0;
    var uid := DocId(userId);
    if uid.Err? {
      return Failed(uid.error);
    }
    var fields := map["recipeCount" := Num(|query.value| as real), "averageRating" := Num(average)];
    assert fields == RecipeStatsFields(query.value);
    db.users := SetMerge(db.users, uid.value, fields);
    outcome := Done;
  }

  /** The `updateRecipeRating` trigger for a write under `recipes/{recipeId}/ratings`. */
  method UpdateRecipeRating(db: Firestore, recipeId: string) returns (outcome: Outcome)
    modifies db
    ensures Snapshot(db.recipes, db.users)
         == RecipeRatingStep(old(Snapshot(db.recipes, db.users)), old(db.RatingsOf(recipeId)), recipeId).state
    ensures outcome == RecipeRatingStep(old(Snapshot(db.recipes, db.users)), old(db.RatingsOf(recipeId)), recipeId).outcome
    ensures db.ratings == old(db.ratings) && db.recommendations == old(db.recommendations)
  {
    var agg := ComputeRecipeAggregate(db.RatingsOf(recipeId));
    var recipes := Update(db.recipes, recipeId, AggregateFields(agg));
    if recipes.Err? {
      return Failed(recipes.error);
    }
    db.recipes := recipes.value;
    var authorId := Field(BodyOrEmpty(db.recipes, recipeId), "authorId");
    outcome := UpdateUserAverageRating(db, authorId);
  }
}
