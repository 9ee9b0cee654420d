/**
 * The one-off repair of ingredient units and servings: every ingredient of every recipe
 * gets the unit "g" when it has none, and the recipe's initial servings (or 1) when its
 * servings are null or undefined. The ingredients are changed in place, one update per
 * ingredient is added to a single batch, and the batch is committed at the end; any
 * error is caught and then nothing is committed.
 */
module UnitsServings {
  import opened Js
  import opened Store

  /** The unit given to an ingredient without one. */
  const DefaultUnit: string := "g"

  /** The servings given to an ingredient without any: `recipe.initialServings || 1`. */
  function ServingsDefault(recipe: Doc): (r: Value)
    ensures Truthy(r)  || r == Num(1.0)
    ensures r != Null && r != Undefined
  {
    Or(Field(recipe, "initialServings"), Num(1.0))
  }

  /** `!unit || unit.trim() === ""` for a unit known to be a string or falsy. */
  predicate BlankUnit(unit: Value) {
    !Truthy(unit) || (unit.Str? && Trim(unit.s) == "")
  }

  /**
   * The body of the inner `forEach` for one ingredient. Reading `unit` of undefined or
   * null throws, and so does `trim` of a truthy unit that is not a string. Property
   * writes on a value that is not a plain object do not reach the stored document, so
   * such an ingredient is written back as it was.
   */
  function RepairIngredient(item: Value, servingsDefault: Value): (r: Result<Value>)
    ensures r.Err? <==> item == Undefined || item == Null
                        || (item.Obj? && Truthy(Field(item.fields, "unit")) && !Field(item.fields, "unit").Str?)
    ensures r.Err? ==> r.error == TypeError
    ensures r.Ok? && !item.Obj? ==> r.value == item
    ensures r.Ok? && item.Obj? ==> r.value.Obj?
  {
    match Get(item, "unit")
    case Err(e) => Err(e)
    case Ok(unit) =>
      if Truthy(unit) && !unit.Str? then Err(TypeError)
      else if !item.Obj? then Ok(item)
      else
        var withUnit := if BlankUnit(unit) then item.fields["unit" := Str(DefaultUnit)] else item.fields;
        var servings := Field(withUnit, "servings");
        Ok(Obj(if servings == Null || servings == Undefined then withUnit["servings" := servingsDefault] else withUnit))
  }

  /**
   * A repaired ingredient object: a blank unit becomes "g" and any other unit stays; null
   * or undefined servings become the default and any other value, 0 included, stays; no
   * other field changes.
   */
  lemma RepairIngredientFields(item: Value, servingsDefault: Value)
    requires item.Obj? && RepairIngredient(item, servingsDefault).Ok?
    ensures var after := RepairIngredient(item, servingsDefault).value.fields;
      var unit, servings := Field(item.fields, "unit"), Field(item.fields, "servings");
      && after.Keys == item.fields.Keys + (if BlankUnit(unit) then {"unit"} else {})
                       + (if servings == Null || servings == Undefined then {"servings"} else {})
      && after["unit"] == (if BlankUnit(unit) then Str(DefaultUnit) else unit)
      && after["servings"] == (if servings == Null || servings == Undefined then servingsDefault else servings)
      && forall k | k in item.fields && k != "unit" && k != "servings" :: after[k] == item.fields[k]
  {
    var unit := Field(item.fields, "unit");
    assert Get(item, "unit") == Ok(unit);
    var withUnit := if BlankUnit(unit) then item.fields["unit" := Str(DefaultUnit)] else item.fields;
    assert Field(withUnit, "servings") == Field(item.fields, "servings");
  }

  /** Once repaired, an ingredient has a non-blank unit and servings that are neither null nor undefined. */
  lemma RepairedIsComplete(item: Value, servingsDefault: Value)
    requires item.Obj? && RepairIngredient(item, servingsDefault).Ok?
    requires servingsDefault != Null && servingsDefault != Undefined
    ensures var after := RepairIngredient(item, servingsDefault).value.fields;
      !BlankUnit(Field(after, "unit")) && Field(after, "servings") != Null && Field(after, "servings") != Undefined
  {
    RepairIngredientFields(item, servingsDefault);
    assert Trim(DefaultUnit) == DefaultUnit by {
      assert !IsJsSpace('g');
    }
  }

  /** Repairing a repaired ingredient changes nothing. */
  lemma RepairIngredientIdempotent(item: Value, servingsDefault: Value)
    requires RepairIngredient(item, servingsDefault).Ok?
    requires servingsDefault != Null && servingsDefault != Undefined
    ensures var once := RepairIngredient(item, servingsDefault).value;
      RepairIngredient(once, servingsDefault) == Ok(once)
  {
    var once := RepairIngredient(item, servingsDefault).value;
    if item.Obj? {
      RepairedIsComplete(item, servingsDefault);
      RepairIngredientFields(item, servingsDefault);
      assert Get(once, "unit") == Ok(Field(once.fields, "unit"));
      assert once.fields["unit" := Field(once.fields, "unit")] == once.fields;
    }
  }

  /** The ingredient list after the inner loop, and the error that stopped it, if any. */
  datatype Repair = Repair(items: seq<Value>, error: Option<Error>)

  /**
   * The inner `forEach` over a list: the ingredients are repaired in order; an error
   * leaves the failing ingredient and those after it untouched.
   */
  function RepairFrom(items: seq<Value>, servingsDefault: Value): (r: Repair)
    ensures |r.items| == |items|
    decreases |items|
  {
    if items == [] then Repair([], None)
    else
      match RepairIngredient(items[0], servingsDefault)
      case Err(e) => Repair(items, Some(e))
      case Ok(v) =>
        var rest := RepairFrom(items[1..], servingsDefault);
        Repair([v] + rest.items, rest.error)
  }

  /**
   * A completed repair keeps the length and the order of the list: each ingredient is
   * replaced by its own repair, and the list fails exactly when one ingredient fails.
   */
  lemma {:induction false} RepairFromSpec(items: seq<Value>, servingsDefault: Value)
    ensures RepairFrom(items, servingsDefault).error.None?
        <==> forall i | 0 <= i < |items| :: RepairIngredient(items[i], servingsDefault).Ok?
    ensures RepairFrom(items, servingsDefault).error.None? ==>
      forall i | 0 <= i < |items| :: RepairFrom(items, servingsDefault).items[i] == RepairIngredient(items[i], servingsDefault).value
    decreases |items|
  {
    if items != [] {
      RepairFromSpec(items[1..], servingsDefault);
      if RepairIngredient(items[0], servingsDefault).Ok? {
        forall i | 0 < i < |items| ensures items[i] == items[1..][i - 1] { }
      }
    }
  }

  /** Running the repair over its own completed result changes nothing. */
  lemma RepairFromIdempotent(items: seq<Value>, servingsDefault: Value)
    requires servingsDefault != Null && servingsDefault != Undefined
    requires RepairFrom(items, servingsDefault).error.None?
    ensures var once := RepairFrom(items, servingsDefault).items;
      RepairFrom(once, servingsDefault) == Repair(once, None)
  {
    var once := RepairFrom(items, servingsDefault).items;
    RepairFromSpec(items, servingsDefault);
    forall i | 0 <= i < |once| ensures RepairIngredient(once[i], servingsDefault) == Ok(once[i]) {
      RepairIngredientIdempotent(items[i], servingsDefault);
    }
    RepairFromSpec(once, servingsDefault);
    assert RepairFrom(once, servingsDefault).items == once;
  }

  /** One step of the repair: after a done prefix, a list whose first ingredient repairs to `v`. */
  lemma RepairStep(prefix: seq<Value>, tail: seq<Value>, servingsDefault: Value, v: Value)
    requires tail != [] && RepairIngredient(tail[0], servingsDefault) == Ok(v)
    ensures prefix + RepairFrom(tail, servingsDefault).items == (prefix + [v]) + RepairFrom(tail[1..], servingsDefault).items
    ensures RepairFrom(tail, servingsDefault).error == RepairFrom(tail[1..], servingsDefault).error
  {
    var rest := RepairFrom(tail[1..], servingsDefault);
    assert RepairFrom(tail, servingsDefault) == Repair([v] + rest.items, rest.error);
    assert prefix + ([v] + rest.items) == (prefix + [v]) + rest.items;
  }

  /** The inner loop, changing the ingredients of one recipe in place. */
  method RepairIngredients(a: array<Value>, servingsDefault: Value) returns (error: Option<Error>)
    modifies a
    ensures a[..] == RepairFrom(old(a[..]), servingsDefault).items
    ensures error == RepairFrom(old(a[..]), servingsDefault).error
  {
    ghost var whole := RepairFrom(a[..], servingsDefault);
    var i := 0;
    while i < a.Length
      invariant 0 <= i <= a.Length
      invariant a[i..] == old(a[i..])
      invariant whole.items == a[..i] + RepairFrom(a[i..], servingsDefault).items
      invariant whole.error == RepairFrom(a[i..], servingsDefault).error
    {
      var item := a[i];
      ghost var prefix, tail := a[..i], a[i..];
      assert tail[0] == item;
      var repaired := RepairIngredient(item, servingsDefault);
      if repaired.Err? {
        assert RepairFrom(tail, servingsDefault) == Repair(tail, Some(repaired.error));
        assert prefix + tail == a[..];
        return Some(repaired.error);
      }
      RepairStep(prefix, tail, servingsDefault, repaired.value);
      a[i] := repaired.value;
      assert a[i + 1..] == tail[1..];
      assert a[..i + 1] == prefix + [repaired.value];
      i := i + 1;
    }
    assert a[..i] == a[..];
    error := None;
  }

  // ---------------------------------------------------------------------------
  // The whole run
  // ---------------------------------------------------------------------------

  /**
   * The batched writes for one recipe: `recipe.ingredients.forEach` throws unless the
   * ingredients are an array. The source adds one update per ingredient, at the field path
   * `ingredients.<index>`; this model writes them as a single update of the whole repaired
   * `ingredients` list instead.
   */
  function RecipeWrites(e: Entry): (r: Result<seq<Entry>>)
    ensures r.Err? <==> !Field(e.data, "ingredients").Arr?
                        || RepairFrom(Field(e.data, "ingredients").items, ServingsDefault(e.data)).error.Some?
    ensures r.Ok? ==> |r.value| <= 1
  {
    var list := Field(e.data, "ingredients");
    if !list.Arr? then Err(TypeError)
    else
      var repair := RepairFrom(list.items, ServingsDefault(e.data));
      if repair.error.Some? then Err(repair.error.value)
      else if list.items == [] then Ok([])
      else Ok([Entry(e.id, map["ingredients" := Arr(repair.items)])])
  }

  /**
   * A second run over a repaired recipe sends the same update again, and merging it once
   * more leaves the recipe as the first run left it.
   */
  lemma RecipeWritesSettle(e: Entry)
    requires RecipeWrites(e).Ok? && |RecipeWrites(e).value| == 1
    ensures var w := RecipeWrites(e).value[0];
      && RecipeWrites(Entry(e.id, e.data + w.data)) == Ok([w])
      && (e.data + w.data) + w.data == e.data + w.data
  {
    var w := RecipeWrites(e).value[0];
    var list := Field(e.data, "ingredients");
    var d := ServingsDefault(e.data);
    var repaired := RepairFrom(list.items, d).items;
    assert w == Entry(e.id, map["ingredients" := Arr(repaired)]);
    var data2 := e.data + w.data;
    assert Field(data2, "ingredients") == Arr(repaired);
    assert Field(data2, "initialServings") == Field(e.data, "initialServings");
    RepairFromIdempotent(list.items, d);
  }

  /** The batch the outer `forEach` builds over the recipes, stopping at the first error. */
  function IngredientBatch(recipes: seq<Entry>): (r: Result<seq<Entry>>)
    ensures (forall i | 0 <= i < |recipes| :: RecipeWrites(recipes[i]).Ok?) ==> r.Ok?
    ensures r.Ok? ==> |r.value| <= |recipes|
    decreases |recipes|
  {
    if recipes == [] then Ok([])
    else
      match IngredientBatch(recipes[..|recipes| - 1])
      case Err(e) => Err(e)
      case Ok(writes) =>
        match RecipeWrites(recipes[|recipes| - 1])
        case Err(e) => Err(e)
        case Ok(w) => Ok(writes + w)
  }

  /** How the run ended. */
  datatype RunEnd =
    | NoRecipes            // the collection was empty: nothing is written
    | Committed            // the batch was committed
    | Caught(error: Error) // an error was caught and logged: nothing is written

  /** The end of a run over `recipes`; whether the store accepts the commit is a parameter. */
  function BackfillEnd(recipes: Collection, committed: bool): (r: RunEnd)
    ensures r == NoRecipes <==> recipes == []
    ensures r == Committed <==> recipes != [] && committed && IngredientBatch(recipes).Ok?
  {
    if recipes == [] then NoRecipes
    else
      match IngredientBatch(recipes)
      case Err(e) => Caught(e)
      case Ok(_) => if committed then Committed else Caught(ServiceError)
  }

  /** A run that reaches the commit has repaired every recipe, so no recipe's ingredients were malformed. */
  lemma {:induction false} BatchMeansEveryRecipeRepaired(recipes: seq<Entry>)
    requires IngredientBatch(recipes).Ok?
    ensures forall i | 0 <= i < |recipes| :: RecipeWrites(recipes[i]).Ok?
    decreases |recipes|
  {
    if recipes != [] {
      var init := recipes[..|recipes| - 1];
      BatchMeansEveryRecipeRepaired(init);
      forall i | 0 <= i < |init| ensures recipes[i] == init[i] { }
    }
  }

  /** `backfillIngredients` */
  method BackfillIngredients(db: Firestore, committed: bool) returns (end: RunEnd)
    modifies db`recipes
    ensures end == BackfillEnd(old(db.recipes), committed)
    ensures db.recipes == if end == Committed then MergeAll(old(db.recipes), IngredientBatch(old(db.recipes)).value) else old(db.recipes)
  {
    var snapshot := db.recipes;
    if |snapshot| == 0 {
      return NoRecipes;
    }
    var batch: seq<Entry> := [];
    for i := 0 to |snapshot|
      invariant IngredientBatch(snapshot[..i]) == Ok(batch)
      invariant db.recipes == snapshot
    {
      assert snapshot[..i + 1][..i] == snapshot[..i];
      var recipe := snapshot[i].data;
      var list := Field(recipe, "ingredients");
      assert snapshot[..i + 1][i] == snapshot[i];
      if !list.Arr? {
        assert RecipeWrites(snapshot[i]) == Err(TypeError);
        assert IngredientBatch(snapshot[..i + 1]) == Err(TypeError);
        BatchErrorStays(snapshot, i + 1);
        return Caught(TypeError);
      }
      var a := new Value[|list.items|](j requires 0 <= j < |list.items| => list.items[j]);
      assert a[..] == list.items;
      var error := RepairIngredients(a, ServingsDefault(recipe));
      if error.Some? {
        assert IngredientBatch(snapshot[..i + 1]) == Err(error.value);
        BatchErrorStays(snapshot, i + 1);
        return Caught(error.value);
      }
      ghost var w := RecipeWrites(snapshot[i]);
      if a.Length > 0 {
        assert w == Ok([Entry(snapshot[i].id, map["ingredients" := Arr(a[..])])]);
        batch := batch + [Entry(snapshot[i].id, map["ingredients" := Arr(a[..])])];
      } else {
        assert w == Ok([]);
        assert batch + [] == batch;
      }
      assert IngredientBatch(snapshot[..i + 1]) == Ok(batch);
    }
    assert snapshot[..|snapshot|] == snapshot;
    if !committed {
      return Caught(ServiceError);
    }
    db.recipes := MergeAll(db.recipes, batch);
    end := Committed;
  }

  /** Once the batch of a prefix has failed, the batch of the whole list fails with the same error. */
  lemma {:induction false} BatchErrorStays(recipes: seq<Entry>, n: nat)
    requires n <= |recipes| && IngredientBatch(recipes[..n]).Err?
    ensures IngredientBatch(recipes) == IngredientBatch(recipes[..n])
    decreases |recipes| - n
  {
    if n < |recipes| {
      assert recipes[..n + 1][..n] == recipes[..n];
      BatchErrorStays(recipes, n + 1);
    } else {
      assert recipes[..n] == recipes;
    }
  }

  // ---------------------------------------------------------------------------
  // A second run
  // ---------------------------------------------------------------------------

  /** A recipe as a committed run leaves it: its write, if it has one, merged in. */
  function Settled(e: Entry): (r: Entry)
    ensures r.id == e.id
  {
    match RecipeWrites(e)
    case Ok(w) => if w == [] then e else Entry(e.id, e.data + w[0].data)
    case Err(_) => e
  }

  function SettleAll(recipes: seq<Entry>): (r: seq<Entry>)
    ensures |r| == |recipes| && forall i | 0 <= i < |recipes| :: r[i] == Settled(recipes[i])
  {
    seq(|recipes|, i requires 0 <= i < |recipes| => Settled(recipes[i]))
  }

  /**
   * With distinct document ids, committing the batch of the first `n` recipes settles
   * exactly those recipes, in place, and leaves the others as they were.
   */
  lemma {:induction false} BatchPrefixSettles(recipes: seq<Entry>, n: nat)
    requires UniqueIds(recipes) && n <= |recipes| && IngredientBatch(recipes[..n]).Ok?
    ensures MergeAll(recipes, IngredientBatch(recipes[..n]).value) == SettleAll(recipes[..n]) + recipes[n..]
  {
    if n == 0 {
      assert recipes[..0] == [] && recipes[0..] == recipes;
    } else {
      var prefix := recipes[..n - 1];
      assert recipes[..n][..n - 1] == prefix && recipes[..n][n - 1] == recipes[n - 1];
      var b := IngredientBatch(prefix).value;
      var w := RecipeWrites(recipes[n - 1]).value;
      assert IngredientBatch(recipes[..n]).value == b + w;
      BatchPrefixSettles(recipes, n - 1);
      MergeAllAppend(recipes, b, w);
      SettleNext(recipes, n);
    }
  }

  /** Settling the first `n` recipes keeps every id in its place. */
  lemma PrefixSettledIds(recipes: seq<Entry>, n: nat)
    requires UniqueIds(recipes) && n <= |recipes|
    ensures UniqueIds(SettleAll(recipes[..n]) + recipes[n..])
  {
    var x := SettleAll(recipes[..n]) + recipes[n..];
    forall i | 0 <= i < |x| ensures x[i].id == recipes[i].id {
      if i < n { assert x[i] == Settled(recipes[i]); }
    }
  }

  /** The write of recipe `n - 1`, merged after the first `n - 1` are settled, settles it in place. */
  lemma SettleNext(recipes: seq<Entry>, n: nat)
    requires UniqueIds(recipes) && 0 < n <= |recipes| && RecipeWrites(recipes[n - 1]).Ok?
    ensures MergeAll(SettleAll(recipes[..n - 1]) + recipes[n - 1..], RecipeWrites(recipes[n - 1]).value)
         == SettleAll(recipes[..n]) + recipes[n..]
  {
    var e := recipes[n - 1];
    var w := RecipeWrites(e).value;
    var x := SettleAll(recipes[..n - 1]) + recipes[n - 1..];
    var y := SettleAll(recipes[..n]) + recipes[n..];
    assert x[n - 1] == e;
    if w == [] {
      assert x == y;
    } else {
      assert MergeAll(x, w) == SetMerge(MergeAll(x, []), w[0].id, w[0].data);
      PrefixSettledIds(recipes, n - 1);
      SetMergeAt(x, n - 1, w[0].data);
      assert x[n - 1 := Entry(e.id, e.data + w[0].data)] == y;
    }
  }

  /** A settled recipe produces the same write as before and is settled already. */
  lemma SettledAgain(e: Entry)
    requires RecipeWrites(e).Ok?
    ensures RecipeWrites(Settled(e)) == RecipeWrites(e)
    ensures Settled(Settled(e)) == Settled(e)
  {
    if RecipeWrites(e).value != [] {
      RecipeWritesSettle(e);
    }
  }

  /** The batch built over settled recipes is the batch built over the recipes themselves. */
  lemma {:induction false} BatchOfSettled(recipes: seq<Entry>)
    requires IngredientBatch(recipes).Ok?
    ensures IngredientBatch(SettleAll(recipes)) == IngredientBatch(recipes)
    decreases |recipes|
  {
    if recipes != [] {
      var init, last := recipes[..|recipes| - 1], recipes[|recipes| - 1];
      var settled := SettleAll(recipes);
      assert settled[..|settled| - 1] == SettleAll(init);
      assert settled[|settled| - 1] == Settled(last);
      BatchOfSettled(init);
      SettledAgain(last);
    }
  }

  /**
   * Running the repair again after a committed run, over recipes with distinct ids,
   * builds a batch again, and committing it leaves every recipe as the first run left it.
   */
  lemma RunSettles(recipes: seq<Entry>)
    requires UniqueIds(recipes) && IngredientBatch(recipes).Ok?
    ensures var after := MergeAll(recipes, IngredientBatch(recipes).value);
      && IngredientBatch(after) == IngredientBatch(recipes)
      && MergeAll(after, IngredientBatch(after).value) == after
  {
    assert recipes[..|recipes|] == recipes && recipes[|recipes|..] == [];
    BatchPrefixSettles(recipes, |recipes|);
    var after := SettleAll(recipes);
    assert MergeAll(recipes, IngredientBatch(recipes).value) == after;
    BatchOfSettled(recipes);
    BatchMeansEveryRecipeRepaired(recipes);
    assert UniqueIds(after) by {
      forall i, j | 0 <= i < j < |after| ensures after[i].id != after[j].id {
        assert after[i].id == recipes[i].id && after[j].id == recipes[j].id;
      }
    }
    assert after[..|after|] == after && after[|after|..] == [];
    BatchPrefixSettles(after, |after|);
    forall i | 0 <= i < |after| ensures Settled(after[i]) == after[i] {
      SettledAgain(recipes[i]);
    }
    assert SettleAll(after) == after;
  }
}
