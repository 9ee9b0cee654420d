/**
 * Mirroring recipes into the search index: the fixed-schema projection of a recipe
 * document, the trigger that keeps one entry in step with its document, and the
 * HTTP endpoint that re-imports the whole collection.
 */
module RecipesSync {
  import opened Js
  import opened Store
  import opened Http
  import opened SearchIndex

  /** Fields copied when truthy and sent as "" otherwise. */
  const TextFields: set<string> := {"title", "description", "authorId"}
  /** Fields copied when they are arrays and sent as [] otherwise. */
  const ArrayFields: set<string> := {"cookingSteps", "ingredientNames", "tagNames"}
  /** Fields sent as `Number(x || 0)`. */
  const CountFields: set<string> :=
    {"createdAt", "updatedAt", "cookTime", "prepTime", "totalTime", "viewsCount", "ratingsCount", "calories"}
  /** The fields every projection has; `embeddings` is added only for an array. */
  const ProjectionKeys: set<string> := {"id", "averageRating", "createdByAI"} + TextFields + ArrayFields + CountFields

  lemma GroupsDisjoint()
    ensures TextFields !! ArrayFields && TextFields !! CountFields && ArrayFields !! CountFields
    ensures "id" !in TextFields + ArrayFields + CountFields
    ensures "averageRating" !in TextFields + ArrayFields + CountFields
    ensures "embeddings" !in ProjectionKeys
  {
  }

  /** One field of the projection, by the rule of its group. */
  function ProjectionField(id: string, data: Doc, k: string): (v: Value)
    ensures k == "id" ==> v == Str(id)
    ensures k in TextFields ==> v == TextOrEmpty(Field(data, k))
    ensures k in ArrayFields ==> v == ArrayOrEmpty(Field(data, k))
    ensures k in CountFields ==> v == CountValue(Field(data, k))
    ensures k == "averageRating" ==> v == RatingValue(Field(data, k))
  {
    GroupsDisjoint();
    if k == "id" then Str(id)
    else if k in TextFields then TextOrEmpty(Field(data, k))
    else if k in ArrayFields then ArrayOrEmpty(Field(data, k))
    else if k in CountFields then CountValue(Field(data, k))
    else if k == "averageRating" then RatingValue(Field(data, k))
    else Bool(Truthy(Field(data, k)))
  }

  /** `embeddings.map(Number)`: the same length, each element converted on its own. */
  function Embeddings(items: seq<Value>): (r: seq<Value>)
    ensures |r| == |items|
    ensures forall i | 0 <= i < |items| :: (r[i].Num? || r[i] == Null) && (items[i].Num? ==> r[i] == items[i])
  {
    seq(|items|, i requires 0 <= i < |items| => NumberValue(ToNumber(items[i])))
  }

  /** `sanitizeRecipeData(id, data)`, as the document sent to the index. */
  function SanitizeRecipe(id: string, data: Doc): (r: Doc)
    ensures r.Keys == ProjectionKeys + (if Field(data, "embeddings").Arr? then {"embeddings"} else {})
    ensures forall k | k in ProjectionKeys :: r[k] == ProjectionField(id, data, k)
    ensures Field(data, "embeddings").Arr? ==> r["embeddings"] == Arr(Embeddings(Field(data, "embeddings").items))
  {
    WithEmbeddings(BaseProjection(id, data), Field(data, "embeddings"))
  }

  /** `embeddings` added to a projection when it is an array, converted to numbers. */
  function WithEmbeddings(base: Doc, e: Value): (r: Doc)
    requires base.Keys == ProjectionKeys
    ensures r.Keys == ProjectionKeys + (if e.Arr? then {"embeddings"} else {})
    ensures forall k | k in ProjectionKeys :: r[k] == base[k]
    ensures e.Arr? ==> r["embeddings"] == Arr(Embeddings(e.items))
  {
    GroupsDisjoint();
    if e.Arr? then base["embeddings" := Arr(Embeddings(e.items))] else base
  }

  /**
   * The id is kept; text fields default to "" and array fields to []; counts and times
   * are numbers (null for NaN) and 0 when missing; the rating is a number and the AI
   * flag a boolean.
   */
  lemma SanitizeRecipeFields(id: string, data: Doc)
    ensures var r := SanitizeRecipe(id, data);
      && r["id"] == Str(id)
      && (forall k | k in TextFields ::
            (Truthy(Field(data, k)) ==> r[k] == data[k]) && (!Truthy(Field(data, k)) ==> r[k] == Str("")))
      && (forall k | k in ArrayFields ::
            r[k].Arr? && (Field(data, k).Arr? ==> r[k] == data[k]) && (!Field(data, k).Arr? ==> r[k] == Arr([])))
      && (forall k | k in CountFields ::
            (r[k].Num? || r[k] == Null) && (!Truthy(Field(data, k)) ==> r[k] == Num(0.0)) && (Field(data, k).Num? ==> r[k] == data[k]))
      && r["averageRating"] == (if Field(data, "averageRating").Num? then data["averageRating"] else Num(0.0))
      && r["createdByAI"] == Bool(Truthy(Field(data, "createdByAI")))
  {
    GroupsDisjoint();
  }

  /** The fields every projection has, each by the rule of its group. */
  function BaseProjection(id: string, data: Doc): (r: Doc)
    ensures r.Keys == ProjectionKeys
    ensures forall k | k in ProjectionKeys :: r[k] == ProjectionField(id, data, k)
  {
    map k | k in ProjectionKeys :: ProjectionField(id, data, k)
  }

  /** The records `backfillRecipes` imports: one projection per document, in query order. */
  function Projections(recipes: Collection): (r: seq<Record>)
    ensures |r| == |recipes|
    ensures forall i | 0 <= i < |recipes| :: r[i] == Record(recipes[i].id, SanitizeRecipe(recipes[i].id, recipes[i].data))
  {
    seq(|recipes|, i requires 0 <= i < |recipes| => Record(recipes[i].id, SanitizeRecipe(recipes[i].id, recipes[i].data)))
  }

  /** The ids a backfill sends are the ids of the collection. */
  lemma ProjectionIds(recipes: Collection)
    ensures RecordIds(Projections(recipes)) == (set e | e in recipes :: e.id)
  {
    var batch := Projections(recipes);
    forall k | k in RecordIds(batch) ensures k in (set e | e in recipes :: e.id) {
      var i :| 0 <= i < |batch| && batch[i].id == k;
      assert recipes[i] in recipes;
    }
    forall e | e in recipes ensures e.id in RecordIds(batch) {
      var i :| 0 <= i < |recipes| && recipes[i] == e;
      assert batch[i].id == e.id;
    }
  }

  /**
   * After a backfill of a collection with distinct ids, the index holds every recipe's
   * projection under its id, and the entries of other ids are untouched.
   */
  lemma BackfillMirrors(index: map<string, Doc>, recipes: Collection)
    requires UniqueIds(recipes)
    ensures var after := UpsertAll(index, Projections(recipes));
      && after.Keys == index.Keys + (set e | e in recipes :: e.id)
      && (forall e | e in recipes :: after[e.id] == SanitizeRecipe(e.id, e.data))
      && (forall k | k in index && k !in (set e | e in recipes :: e.id) :: after[k] == index[k])
  {
    var batch := Projections(recipes);
    var after := UpsertAll(index, batch);
    ProjectionIds(recipes);
    UpsertAllKeys(index, batch);
    assert forall i, j | 0 <= i < j < |batch| :: batch[i].id != batch[j].id;
    UpsertAllDistinct(index, batch);
    forall e | e in recipes ensures after[e.id] == SanitizeRecipe(e.id, e.data) {
      var i :| 0 <= i < |recipes| && recipes[i] == e;
      assert batch[i] == Record(e.id, SanitizeRecipe(e.id, e.data));
    }
    forall k | k in index && k !in RecordIds(batch) ensures after[k] == index[k] {
      UpsertAllOthers(index, batch, k);
    }
  }

  /**
   * `indexRecipeOnWrite`: a deleted recipe removes its entry (which fails when there is
   * none), a created or changed recipe replaces its entry with its projection.
   */
  method IndexRecipeOnWrite(index: Index, recipeId: string, after: Option<Doc>) returns (r: Outcome)
    modifies index
    ensures after.None? && recipeId in old(index.docs) ==> r == Done && index.docs == old(index.docs) - {recipeId}
    ensures after.None? && recipeId !in old(index.docs) ==> r == Failed(NotFound) && index.docs == old(index.docs)
    ensures after.Some? ==> r == Done && index.docs == old(index.docs)[recipeId := SanitizeRecipe(recipeId, after.value)]
  {
    if after.None? {
      r := index.Delete(recipeId);
      return;
    }
    var sanitized := SanitizeRecipe(recipeId, after.value);
    index.Upsert(recipeId, sanitized);
    r := Done;
  }

  /**
   * `backfillRecipes`: imports one projection per recipe document; whether the index
   * service accepts the import is a parameter.
   */
  method BackfillRecipes(index: Index, recipes: Collection, accepted: bool) returns (res: Response)
    modifies index
    ensures accepted ==> res == Response(200, "Backfilled recipes!") && index.docs == UpsertAll(old(index.docs), Projections(recipes))
    ensures !accepted ==> res == Response(500, "Backfill failed") && index.docs == old(index.docs)
  {
    var docs := Projections(recipes);
    var outcome := index.Import(docs, accepted);
    if outcome.Done? {
      res := Response(200, "Backfilled recipes!");
    } else {
      res := Response(500, "Backfill failed");
    }
  }
}
