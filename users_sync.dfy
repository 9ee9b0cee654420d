/**
 * Mirroring user profiles into the search index: the fixed-schema projection of a user
 * document (timestamps in whole seconds), the trigger that keeps one entry in step with
 * its document, and the HTTP endpoint that re-imports the whole collection.
 */
module UsersSync {
  import opened Js
  import opened Store
  import opened Http
  import opened SearchIndex

  /** Fields copied when truthy and sent as "" otherwise. */
  const TextFields: set<string> :=
    {"display_name", "shortDescription", "email", "photo_url", "cookingSkillLevel", "role"}
  /** Fields copied when they are arrays and sent as [] otherwise. */
  const ArrayFields: set<string> := {"dietaryPreferences", "favoriteCuisines"}
  /** Fields sent as `Number(x || 0)`. */
  const CountFields: set<string> := {"recipeCount", "totalReviews"}
  /** Millisecond timestamps sent in whole seconds. */
  const TimeFields: set<string> := {"created_time", "last_active_time"}
  /** The fields of every projection. */
  const ProjectionKeys: set<string> := {"id", "averageRating"} + TextFields + ArrayFields + CountFields + TimeFields

  lemma GroupsDisjoint()
    ensures TextFields !! ArrayFields && TextFields !! CountFields && TextFields !! TimeFields
    ensures ArrayFields !! CountFields && ArrayFields !! TimeFields && CountFields !! TimeFields
    ensures "id" !in TextFields + ArrayFields + CountFields + TimeFields
    ensures "averageRating" !in TextFields + ArrayFields + CountFields + TimeFields
  {
  }

  /** The six text fields are distinct. */
  lemma TextFieldCount()
    ensures |TextFields| == 6
  {
    var a: set<string> := {"display_name", "shortDescription", "email"};
    var b: set<string> := {"photo_url", "cookingSkillLevel", "role"};
    assert |a| == 3 && |b| == 3 && a !! b;
    assert TextFields == a + b;
  }

  /** Every projection has exactly fourteen fields. */
  lemma ProjectionKeyCount()
    ensures |ProjectionKeys| == 14
  {
    GroupsDisjoint();
    var keys: set<string> := {"id", "averageRating"};
    assert |keys| == 2;
    TextFieldCount();
    keys := keys + TextFields;
    assert |keys| == 8;
    keys := keys + ArrayFields;
    assert |keys| == 10;
    keys := keys + CountFields;
    assert |keys| == 12;
    keys := keys + TimeFields;
  }

  /**
   * `Math.floor(Number(v) / 1000) || 0`: whole seconds of a millisecond timestamp; a value
   * that is not a number gives NaN, which `|| 0` turns into 0.
   */
  function Seconds(v: Value): (r: Value)
    ensures r.Num? && r.n == r.n.Floor as real
    ensures ToNumber(v).NaN? ==> r == Num(0.0)
    ensures ToNumber(v).Finite? ==> r.n <= ToNumber(v).r / 1000.0 < r.n + 1.0
  {
    match ToNumber(v)
    case NaN => Num(0.0)
    case Finite(ms) => Num((ms / 1000.0).Floor as real)
  }

  /** A non-negative whole number of milliseconds becomes its quotient by 1000. */
  lemma SecondsOfMillis(ms: nat)
    ensures Seconds(Num(ms as real)) == Num((ms / 1000) as real)
  {
    var q, rem := ms / 1000, ms % 1000;
    assert ms == 1000 * q + rem;
    var x := ms as real / 1000.0;
    assert x == q as real + rem as real / 1000.0;
    assert q as real <= x < q as real + 1.0;
    assert x.Floor == q;
  }

  /** One field of the projection, by the rule of its group. */
  function ProjectionField(id: string, data: Doc, k: string): (v: Value)
    ensures k == "id" ==> v == Str(id)
    ensures k in TextFields ==> v == TextOrEmpty(Field(data, k))
    ensures k in ArrayFields ==> v == ArrayOrEmpty(Field(data, k))
    ensures k in CountFields ==> v == CountValue(Field(data, k))
    ensures k in TimeFields ==> v == Seconds(Field(data, k))
    ensures k == "averageRating" ==> v == RatingValue(Field(data, k))
  {
    GroupsDisjoint();
    if k == "id" then Str(id)
    else if k in TextFields then TextOrEmpty(Field(data, k))
    else if k in ArrayFields then ArrayOrEmpty(Field(data, k))
    else if k in CountFields then CountValue(Field(data, k))
    else if k in TimeFields then Seconds(Field(data, k))
    else RatingValue(Field(data, k))
  }

  /** `sanitizeUserData(id, data)`, as the document sent to the index: always the same fourteen fields. */
  function SanitizeUser(id: string, data: Doc): (r: Doc)
    ensures r.Keys == ProjectionKeys
    ensures forall k | k in ProjectionKeys :: r[k] == ProjectionField(id, data, k)
  {
    map k | k in ProjectionKeys :: ProjectionField(id, data, k)
  }

  /**
   * The id is kept; text fields default to "" and array fields to []; counts are numbers
   * (null for NaN) and 0 when missing; times are whole numbers, 0 when missing; the
   * rating is a number.
   */
  lemma SanitizeUserFields(id: string, data: Doc)
    ensures var r := SanitizeUser(id, data);
      && r["id"] == Str(id)
      && (forall k | k in TextFields ::
            (Truthy(Field(data, k)) ==> r[k] == data[k]) && (!Truthy(Field(data, k)) ==> r[k] == Str("")))
      && (forall k | k in ArrayFields ::
            r[k].Arr? && (Field(data, k).Arr? ==> r[k] == data[k]) && (!Field(data, k).Arr? ==> r[k] == Arr([])))
      && (forall k | k in CountFields ::
            (r[k].Num? || r[k] == Null) && (!Truthy(Field(data, k)) ==> r[k] == Num(0.0)) && (Field(data, k).Num? ==> r[k] == data[k]))
      && (forall k | k in TimeFields ::
            r[k].Num? && r[k].n == r[k].n.Floor as real && (k !in data ==> r[k] == Num(0.0)))
      && r["averageRating"] == (if Field(data, "averageRating").Num? then data["averageRating"] else Num(0.0))
  {
    GroupsDisjoint();
  }

  /** The records `backfillUsers` imports: one projection per document, in query order. */
  function Projections(users: Collection): (r: seq<Record>)
    ensures |r| == |users|
    ensures forall i | 0 <= i < |users| :: r[i] == Record(users[i].id, SanitizeUser(users[i].id, users[i].data))
  {
    seq(|users|, i requires 0 <= i < |users| => Record(users[i].id, SanitizeUser(users[i].id, users[i].data)))
  }

  /** The ids a backfill sends are the ids of the collection. */
  lemma ProjectionIds(users: Collection)
    ensures RecordIds(Projections(users)) == (set e | e in users :: e.id)
  {
    var batch := Projections(users);
    forall k | k in RecordIds(batch) ensures k in (set e | e in users :: e.id) {
      var i :| 0 <= i < |batch| && batch[i].id == k;
      assert users[i] in users;
    }
    forall e | e in users ensures e.id in RecordIds(batch) {
      var i :| 0 <= i < |users| && users[i] == e;
      assert batch[i].id == e.id;
    }
  }

  /**
   * After a backfill of a collection with distinct ids, the index holds every user's
   * projection under its id, and the entries of other ids are untouched.
   */
  lemma BackfillMirrors(index: map<string, Doc>, users: Collection)
    requires UniqueIds(users)
    ensures var after := UpsertAll(index, Projections(users));
      && after.Keys == index.Keys + (set e | e in users :: e.id)
      && (forall e | e in users :: after[e.id] == SanitizeUser(e.id, e.data))
      && (forall k | k in index && k !in (set e | e in users :: e.id) :: after[k] == index[k])
  {
    var batch := Projections(users);
    var after := UpsertAll(index, batch);
    ProjectionIds(users);
    UpsertAllKeys(index, batch);
    assert forall i, j | 0 <= i < j < |batch| :: batch[i].id != batch[j].id;
    UpsertAllDistinct(index, batch);
    forall e | e in users ensures after[e.id] == SanitizeUser(e.id, e.data) {
      var i :| 0 <= i < |users| && users[i] == e;
      assert batch[i] == Record(e.id, SanitizeUser(e.id, e.data));
    }
    forall k | k in index && k !in RecordIds(batch) ensures after[k] == index[k] {
      UpsertAllOthers(index, batch, k);
    }
  }

  /**
   * `indexUserOnWrite`: a deleted user removes its entry (which fails when there is
   * none), a created or changed user replaces its entry with its projection.
   */
  method IndexUserOnWrite(index: Index, userId: string, after: Option<Doc>) returns (r: Outcome)
    modifies index
    ensures after.None? && userId in old(index.docs) ==> r == Done && index.docs == old(index.docs) - {userId}
    ensures after.None? && userId !in old(index.docs) ==> r == Failed(NotFound) && index.docs == old(index.docs)
    ensures after.Some? ==> r == Done && index.docs == old(index.docs)[userId := SanitizeUser(userId, after.value)]
  {
    if after.None? {
      r := index.Delete(userId);
      return;
    }
    var sanitized := SanitizeUser(userId, after.value);
    index.Upsert(userId, sanitized);
    r := Done;
  }

  /**
   * `backfillUsers`: imports one projection per user document; whether the index
   * service accepts the import is a parameter.
   */
  method BackfillUsers(index: Index, users: Collection, accepted: bool) returns (res: Response)
    modifies index
    ensures accepted ==> res == Response(200, "Backfilled users!") && index.docs == UpsertAll(old(index.docs), Projections(users))
    ensures !accepted ==> res == Response(500, "Backfill failed") && index.docs == old(index.docs)
  {
    var docs := Projections(users);
    var outcome := index.Import(docs, accepted);
    if outcome.Done? {
      res := Response(200, "Backfilled users!");
    } else {
      res := Response(500, "Backfill failed");
    }
  }
}
