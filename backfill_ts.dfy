/**
 * The one-off backfill of the denormalised fields: first every recipe gets its
 * `ingredientNames` and `tagNames`, derived as the live trigger derives them; then every
 * user gets `recipeCount` and `averageRating` computed from the recipes as they stand
 * after the first pass.
 */
module BackfillTs {
  import opened Js
  import opened Store
  import opened Ratings
  import opened Denormalise

  /** The merge the recipe pass writes for one recipe body: the two name lists only. */
  function NameFields(data: Doc): (r: Result<Doc>)
    ensures r.Ok? ==> r.value.Keys == {"ingredientNames", "tagNames"}
  {
    match DeriveNames(IngredientRule, Field(data, "ingredients"))
    case Err(e) => Err(e)
    case Ok(ingredientNames) =>
      match DeriveNames(TagRule, Field(data, "tags"))
      case Err(e) => Err(e)
      case Ok(tagNames) => Ok(map["ingredientNames" := StrArr(ingredientNames), "tagNames" := StrArr(tagNames)])
  }

  /**
   * The backfill derives the same name lists as the live trigger: it fails for the same
   * documents, and otherwise writes the trigger's merge without `averageRating`.
   */
  lemma NameFieldsMatchTrigger(data: Doc)
    ensures NameFields(data).Ok? <==> PreprocessFields(data).Ok?
    ensures NameFields(data).Ok? ==>
      && NameFields(data).value["ingredientNames"] == PreprocessFields(data).value["ingredientNames"]
      && NameFields(data).value["tagNames"] == PreprocessFields(data).value["tagNames"]
      && NameFields(data).value == PreprocessFields(data).value - {"averageRating"}
  {
    if NameFields(data).Ok? {
      var mine, theirs := NameFields(data).value, PreprocessFields(data).value;
      assert theirs.Keys == {"ingredientNames", "tagNames", "averageRating"};
      assert (theirs - {"averageRating"}).Keys == mine.Keys;
    }
  }

  /** The store after the recipe pass, and whether it completed. */
  datatype PassResult = PassResult(recipes: Collection, outcome: Outcome)

  /**
   * The recipe pass over the snapshot `docs`, one merge per recipe in query order. A
   * recipe whose names cannot be derived ends the whole run; the merges already
   * written stay.
   */
  function RecipePass(c: Collection, docs: seq<Entry>): (r: PassResult)
    ensures forall id | id in Ids(c) :: id in Ids(r.recipes)
    ensures |c| <= |r.recipes| <= |c| + |docs|
    decreases |docs|
  {
    if docs == [] then PassResult(c, Done)
    else
      match NameFields(docs[0].data)
      case Err(e) => PassResult(c, Failed(e))
      case Ok(fields) =>
        SetMergeSpec(c, docs[0].id, fields);
        RecipePass(SetMerge(c, docs[0].id, fields), docs[1..])
  }

  /** A completed recipe pass derived the names of every recipe of the snapshot. */
  lemma {:induction false} RecipePassAllDerived(c: Collection, docs: seq<Entry>)
    requires RecipePass(c, docs).outcome == Done
    ensures forall i | 0 <= i < |docs| :: NameFields(docs[i].data).Ok?
    decreases |docs|
  {
    if docs != [] {
      var rest := docs[1..];
      RecipePassAllDerived(SetMerge(c, docs[0].id, NameFields(docs[0].data).value), rest);
      forall i | 0 <= i < |docs| ensures NameFields(docs[i].data).Ok? {
        if i > 0 { assert docs[i] == rest[i - 1]; }
      }
    }
  }

  /** The recipe pass, completed or not, leaves every document outside the snapshot as it was. */
  lemma {:induction false} RecipePassOthers(c: Collection, docs: seq<Entry>, id: string)
    requires id !in Ids(docs)
    ensures Find(RecipePass(c, docs).recipes, id) == Find(c, id)
    decreases |docs|
  {
    if docs != [] && NameFields(docs[0].data).Ok? {
      var fields := NameFields(docs[0].data).value;
      var rest := docs[1..];
      assert id != Ids(docs)[0];
      assert id !in Ids(rest) by {
        forall i | 0 <= i < |rest| ensures Ids(rest)[i] != id {
          assert Ids(docs)[i + 1] == Ids(rest)[i];
        }
      }
      RecipePassOthers(SetMerge(c, docs[0].id, fields), rest, id);
      SetMergeFind(c, docs[0].id, fields, id);
    }
  }

  /**
   * After a completed recipe pass over distinct ids, each recipe of the snapshot holds its
   * old body with the derived names merged in.
   */
  lemma {:induction false} RecipePassWritten(c: Collection, docs: seq<Entry>, i: nat)
    requires UniqueIds(docs) && i < |docs|
    requires RecipePass(c, docs).outcome == Done
    ensures NameFields(docs[i].data).Ok?
    ensures Find(RecipePass(c, docs).recipes, docs[i].id) == Some(BodyOrEmpty(c, docs[i].id) + NameFields(docs[i].data).value)
    decreases |docs|
  {
    RecipePassAllDerived(c, docs);
    var fields := NameFields(docs[0].data).value;
    var c' := SetMerge(c, docs[0].id, fields);
    var rest := docs[1..];
    assert RecipePass(c, docs) == RecipePass(c', rest);
    if i == 0 {
      assert docs[0].id !in Ids(rest) by {
        forall k | 0 <= k < |rest| ensures Ids(rest)[k] != docs[0].id {
          assert rest[k] == docs[k + 1];
        }
      }
      RecipePassOthers(c', rest, docs[0].id);
      SetMergeFind(c, docs[0].id, fields, docs[0].id);
    } else {
      assert UniqueIds(rest) by {
        forall a, b | 0 <= a < b < |rest| ensures rest[a].id != rest[b].id {
          assert rest[a] == docs[a + 1] && rest[b] == docs[b + 1];
        }
      }
      assert docs[i] == rest[i - 1];
      RecipePassWritten(c', rest, i - 1);
      assert docs[i].id != docs[0].id;
      SetMergeFind(c, docs[0].id, fields, docs[i].id);
    }
  }

  /**
   * After a completed recipe pass over distinct ids, each recipe of the snapshot holds its
   * old body with the derived names merged in, and every other document is unchanged.
   */
  lemma RecipePassSpec(c: Collection, docs: seq<Entry>)
    requires UniqueIds(docs)
    requires RecipePass(c, docs).outcome == Done
    ensures forall i | 0 <= i < |docs| :: NameFields(docs[i].data).Ok?
    ensures forall i | 0 <= i < |docs| ::
      Find(RecipePass(c, docs).recipes, docs[i].id) == Some(BodyOrEmpty(c, docs[i].id) + NameFields(docs[i].data).value)
    ensures forall id | id !in Ids(docs) :: Find(RecipePass(c, docs).recipes, id) == Find(c, id)
  {
    RecipePassAllDerived(c, docs);
    forall i | 0 <= i < |docs|
      ensures Find(RecipePass(c, docs).recipes, docs[i].id) == Some(BodyOrEmpty(c, docs[i].id) + NameFields(docs[i].data).value)
    {
      RecipePassWritten(c, docs, i);
    }
    forall id | id !in Ids(docs) ensures Find(RecipePass(c, docs).recipes, id) == Find(c, id) {
      RecipePassOthers(c, docs, id);
    }
  }

  /** `where("authorId", "==", userId)` over the recipes. */
  function Authored(recipes: Collection, userId: string): (r: Collection)
    ensures forall e | e in r :: e in recipes && Field(e.data, "authorId") == Str(userId)
    ensures forall e | e in recipes && Field(e.data, "authorId") == Str(userId) :: e in r
  {
    WhereEq(recipes, "authorId", Str(userId))
  }

  /** The merges of the user pass over the snapshot `snap`: the author stats of each user, in query order. */
  function StatsWrites(recipes: Collection, snap: seq<Entry>): (r: seq<Entry>)
    ensures |r| == |snap|
    ensures forall i | 0 <= i < |snap| :: r[i] == Entry(snap[i].id, RecipeStatsFields(Authored(recipes, snap[i].id)))
  {
    seq(|snap|, i requires 0 <= i < |snap| => Entry(snap[i].id, RecipeStatsFields(Authored(recipes, snap[i].id))))
  }

  /** The users after the user pass. */
  function UserPass(users: Collection, recipes: Collection, snap: seq<Entry>): (r: Collection)
    ensures |users| <= |r| <= |users| + |snap|
  {
    MergeAll(users, StatsWrites(recipes, snap))
  }

  /**
   * After the user pass over distinct ids every user of the snapshot, with or without
   * recipes, holds its old body with `recipeCount` and `averageRating` of its recipes
   * merged in, and no other document changes.
   */
  lemma UserPassSpec(users: Collection, recipes: Collection, snap: seq<Entry>)
    requires UniqueIds(snap)
    ensures forall i | 0 <= i < |snap| ::
      Find(UserPass(users, recipes, snap), snap[i].id)
        == Some(BodyOrEmpty(users, snap[i].id) + RecipeStatsFields(Authored(recipes, snap[i].id)))
    ensures forall id | id !in Ids(snap) :: Find(UserPass(users, recipes, snap), id) == Find(users, id)
  {
    var writes := StatsWrites(recipes, snap);
    assert Ids(writes) == Ids(snap);
    assert UniqueIds(writes);
    forall i | 0 <= i < |snap|
      ensures Find(UserPass(users, recipes, snap), snap[i].id)
           == Some(BodyOrEmpty(users, snap[i].id) + RecipeStatsFields(Authored(recipes, snap[i].id)))
    {
      MergeAllWritten(users, writes, i);
    }
    forall id | id !in Ids(snap) ensures Find(UserPass(users, recipes, snap), id) == Find(users, id) {
      MergeAllOthers(users, writes, id);
    }
  }

  /**
   * A completed backfill over collections with distinct ids writes every document: each
   * recipe holds its body with its name lists merged in, and each user its body with the
   * stats of the recipes that name it as author, as the recipe pass left them.
   */
  lemma BackfillWritesEveryDocument(recipes: Collection, users: Collection)
    requires UniqueIds(recipes) && UniqueIds(users)
    requires RecipePass(recipes, recipes).outcome == Done
    ensures var after := RecipePass(recipes, recipes).recipes;
      && (forall i | 0 <= i < |recipes| ::
            NameFields(recipes[i].data).Ok?
            && Find(after, recipes[i].id) == Some(recipes[i].data + NameFields(recipes[i].data).value))
      && (forall i | 0 <= i < |users| ::
            Find(UserPass(users, after, users), users[i].id)
              == Some(users[i].data + RecipeStatsFields(Authored(after, users[i].id))))
  {
    var after := RecipePass(recipes, recipes).recipes;
    forall i | 0 <= i < |recipes|
      ensures NameFields(recipes[i].data).Ok?
      ensures Find(after, recipes[i].id) == Some(recipes[i].data + NameFields(recipes[i].data).value)
    {
      RecipePassSpec(recipes, recipes);
      EntryBody(recipes, i);
    }
    forall i | 0 <= i < |users|
      ensures Find(UserPass(users, after, users), users[i].id)
           == Some(users[i].data + RecipeStatsFields(Authored(after, users[i].id)))
    {
      UserPassSpec(users, after, users);
      EntryBody(users, i);
    }
  }

  /**
   * For a user id the store accepts, the backfill's merge is the one `updateUserRecipeStats`
   * writes for the same recipes.
   */
  lemma UserPassMatchesTrigger(recipes: Collection, users: Collection, userId: string)
    requires DocId(Str(userId)).Ok?
    ensures UserRecipeStatsStep(Snapshot(recipes, users), Str(userId))
         == StepResult(Snapshot(recipes, SetMerge(users, userId, RecipeStatsFields(Authored(recipes, userId)))), Done)
  {
  }

  /** `recipeCount` is the number of recipes whose authorId is the user. */
  lemma RecipeCountIsAuthored(recipes: Collection, userId: string)
    ensures RecipeStatsFields(Authored(recipes, userId))["recipeCount"] == Num(|Authored(recipes, userId)| as real)
    ensures forall e | e in recipes :: e in Authored(recipes, userId) <==> Field(e.data, "authorId") == Str(userId)
  {
  }

  /** The first loop of `backfillData`: the name merge of every recipe of the snapshot. */
  method RecipeNames(db: Firestore) returns (outcome: Outcome)
    modifies db`recipes
    ensures var pass := RecipePass(old(db.recipes), old(db.recipes));
      db.recipes == pass.recipes && outcome == pass.outcome
  {
    var snapshot := db.recipes;
    var i := 0;
    while i < |snapshot|
      invariant 0 <= i <= |snapshot|
      invariant RecipePass(db.recipes, snapshot[i..]) == RecipePass(snapshot, snapshot)
    {
      var data := snapshot[i].data;
      var ingredientNames := DeriveNames(IngredientRule, Field(data, "ingredients"));
      if ingredientNames.Err? {
        return Failed(ingredientNames.error);
      }
      var tagNames := DeriveNames(TagRule, Field(data, "tags"));
      if tagNames.Err? {
        return Failed(tagNames.error);
      }
      var fields := map["ingredientNames" := StrArr(ingredientNames.value), "tagNames" := StrArr(tagNames.value)];
      assert NameFields(data) == Ok(fields);
      assert snapshot[i..][1..] == snapshot[i + 1..];
      db.recipes := SetMerge(db.recipes, snapshot[i].id, fields);
      i := i + 1;
    }
    outcome := Done;
  }

  /** One more user of the snapshot is one more merge. */
  lemma UserPassStep(users: Collection, recipes: Collection, j: nat)
    requires j < |users|
    ensures UserPass(users, recipes, users[..j + 1])
         == SetMerge(UserPass(users, recipes, users[..j]), users[j].id, RecipeStatsFields(Authored(recipes, users[j].id)))
  {
    var writes := StatsWrites(recipes, users[..j + 1]);
    assert users[..j + 1][..j] == users[..j];
    assert writes[..j] == StatsWrites(recipes, users[..j]);
    assert writes[j] == Entry(users[j].id, RecipeStatsFields(Authored(recipes, users[j].id)));
  }

  /** The second loop of `backfillData`: the author stats of every user of the snapshot. */
  method UserStats(db: Firestore)
    modifies db`users
    ensures db.users == UserPass(old(db.users), db.recipes, old(db.users))
  {
    var users := db.users;
    for j := 0 to |users|
      invariant db.users == UserPass(users, db.recipes, users[..j])
    {
      var authored := WhereEq(db.recipes, "authorId", Str(users[j].id));
      var totalRating, totalReviews := AuthorTotals(authored);
      var average := if totalReviews > 0.0 then totalRating / totalReviews else 0.0;
      var fields := map["recipeCount" := Num(|authored| as real), "averageRating" := Num(average)];
      assert fields == RecipeStatsFields(Authored(db.recipes, users[j].id));
      UserPassStep(users, db.recipes, j);
      db.users := SetMerge(db.users, users[j].id, fields);
    }
    assert users[..|users|] == users;
  }

  /**
   * `backfillData`: the recipe pass over the recipes as first read, then, when it
   * completed, the user pass over the users, each user's stats computed from the
   * recipes as the recipe pass left them.
   */
  method BackfillData(db: Firestore) returns (outcome: Outcome)
    modifies db`recipes, db`users
    ensures var pass := RecipePass(old(db.recipes), old(db.recipes));
      && db.recipes == pass.recipes && outcome == pass.outcome
      && db.users == (if pass.outcome.Done? then UserPass(old(db.users), pass.recipes, old(db.users)) else old(db.users))
  {
    outcome := RecipeNames(db);
    if outcome.Done? {
      UserStats(db);
    }
  }
}
