/**
 * The embedding backfill: every recipe without a truthy `embeddings` field has a text
 * built from its title, ingredient names and tag names sent to the embedding service,
 * and the returned vector is merged into the recipe as its `embeddings` field. A failure
 * for one recipe is caught and the loop goes on with the next.
 *
 * The service is a parameter: a function from the text sent to either the vector it
 * returns or the error the request ends with.
 */
module Embeddings {
  import opened Js
  import opened Store
  import opened Denormalise

  /**
   * `(v || []).join(", ")`: a falsy value joins as the empty list; a truthy value that
   * is not an array has no `join` and throws.
   */
  function ListText(v: Value): (r: Result<string>)
    ensures r.Ok? <==> !Truthy(v) || v.Arr?
    ensures r.Err? ==> r.error == TypeError
    ensures !Truthy(v) ==> r == Ok("")
    ensures v.Arr? ==> r == Ok(ArrayJoin(v.items, ", "))
  {
    var list := Or(v, Arr([]));
    if list.Arr? then Ok(ArrayJoin(list.items, ", ")) else Err(TypeError)
  }

  /**
   * `[data.title, ingredientNames, tagNames].join(" ")`, or the error building one of
   * the two lists throws (the ingredient names are built first).
   */
  function EmbeddingText(data: Doc): (r: Result<string>)
    ensures r.Err? <==> ListText(Field(data, "ingredientNames")).Err? || ListText(Field(data, "tagNames")).Err?
    ensures r.Err? ==> r.error == TypeError
  {
    var ingredients := ListText(Field(data, "ingredientNames"));
    var tags := ListText(Field(data, "tagNames"));
    if ingredients.Err? then Err(ingredients.error)
    else if tags.Err? then Err(tags.error)
    else Ok(ArrayJoin([Field(data, "title"), Str(ingredients.value), Str(tags.value)], " "))
  }

  /** Joining string values joins the strings. */
  lemma ArrayJoinStrings(names: seq<string>, sep: string)
    ensures ArrayJoin(StrArr(names).items, sep) == Join(names, sep)
  {
    var items := StrArr(names).items;
    var texts := seq(|items|, i requires 0 <= i < |items| => JoinText(items[i]));
    assert |texts| == |names|;
    forall i | 0 <= i < |names| ensures texts[i] == names[i] {
      assert items[i] == Str(names[i]);
    }
    assert texts == names;
  }

  /** The parts are the title, then the ingredient names and the tag names, each joined by ", ". */
  lemma EmbeddingTextOfNames(data: Doc, title: string, ingredients: seq<string>, tags: seq<string>)
    requires Field(data, "title") == Str(title)
    requires Field(data, "ingredientNames") == StrArr(ingredients)
    requires Field(data, "tagNames") == StrArr(tags)
    ensures EmbeddingText(data) == Ok(title + " " + Join(ingredients, ", ") + " " + Join(tags, ", "))
  {
    ArrayJoinStrings(ingredients, ", ");
    ArrayJoinStrings(tags, ", ");
    var i, t := Join(ingredients, ", "), Join(tags, ", ");
    var items := [Str(title), Str(i), Str(t)];
    var parts := [title, i, t];
    assert EmbeddingText(data) == Ok(ArrayJoin(items, " "));
    assert seq(3, k requires 0 <= k < 3 => JoinText(items[k])) == parts;
    assert ArrayJoin(items, " ") == Join(parts, " ");
    assert parts[..2][..1] == [title];
    assert Join(parts[..2], " ") == title + " " + i;
    assert Join(parts, " ") == Join(parts[..2], " ") + " " + t;
  }

  /** A recipe with none of the three fields is described by two spaces: missing parts are empty. */
  lemma EmbeddingTextOfNothing(data: Doc)
    requires "title" !in data && "ingredientNames" !in data && "tagNames" !in data
    ensures EmbeddingText(data) == Ok("  ")
  {
    assert Field(data, "title") == Undefined;
    assert ListText(Field(data, "ingredientNames")) == Ok("") && ListText(Field(data, "tagNames")) == Ok("");
    var items := [Undefined, Str(""), Str("")];
    var parts := ["", "", ""];
    assert seq(|items|, i requires 0 <= i < |items| => JoinText(items[i])) == parts;
    assert parts[..2] == ["", ""] && parts[..2][..1] == [""];
    assert Join(parts[..2], " ") == " ";
    assert EmbeddingText(data) == Ok(ArrayJoin(items, " "));
    assert ArrayJoin(items, " ") == Join(parts, " ");
    assert Join(parts, " ") == "  ";
  }

  /** What happens to one recipe of the snapshot. */
  datatype Attempt =
    | Skipped                                  // it already has embeddings: no request, no write
    | TextFailed(error: Error)                 // building the text threw: no request, no write
    | RequestFailed(text: string, error: Error) // the request or the write failed: no write
    | Embedded(text: string, embedding: Value)  // the vector was merged into the recipe

  /**
   * One iteration of the loop on a recipe body. Firestore refuses a field whose value is
   * undefined, so a response without a vector makes the write throw.
   */
  function Try(data: Doc, embed: string -> Result<Value>): (a: Attempt)
    ensures a.Skipped? <==> Truthy(Field(data, "embeddings"))
  {
    if Truthy(Field(data, "embeddings")) then Skipped
    else
      match EmbeddingText(data)
      case Err(e) => TextFailed(e)
      case Ok(text) =>
        match embed(text)
        case Err(e) => RequestFailed(text, e)
        case Ok(v) => if v == Undefined then RequestFailed(text, ServiceError) else Embedded(text, v)
  }

  /** Whether the attempt sent a request to the service. */
  predicate Requested(a: Attempt) {
    a.RequestFailed? || a.Embedded?
  }

  /** The text one recipe sends to the service, if it sends one. */
  function RequestOf(e: Entry, embed: string -> Result<Value>): (r: seq<string>)
    ensures |r| <= 1
    ensures r != [] <==> Requested(Try(e.data, embed))
  {
    var a := Try(e.data, embed);
    if Requested(a) then [a.text] else []
  }

  /** The merge one recipe makes, if it makes one: into that recipe, of the `embeddings` field alone. */
  function WriteOf(e: Entry, embed: string -> Result<Value>): (r: seq<Entry>)
    ensures |r| <= 1
    ensures r != [] <==> Try(e.data, embed).Embedded?
    ensures forall k | 0 <= k < |r| :: r[k].id == e.id && r[k].data.Keys == {"embeddings"}
  {
    var a := Try(e.data, embed);
    if a.Embedded? then [Entry(e.id, map["embeddings" := a.embedding])] else []
  }

  /** The texts sent to the service, in the order of the snapshot. */
  function Requests(docs: seq<Entry>, embed: string -> Result<Value>): (r: seq<string>)
    ensures |r| <= |docs|
    decreases |docs|
  {
    if docs == [] then []
    else Requests(docs[..|docs| - 1], embed) + RequestOf(docs[|docs| - 1], embed)
  }

  /** The merges made, in the order of the snapshot. */
  function Writes(docs: seq<Entry>, embed: string -> Result<Value>): (r: seq<Entry>)
    ensures |r| <= |docs|
    decreases |docs|
  {
    if docs == [] then []
    else Writes(docs[..|docs| - 1], embed) + WriteOf(docs[|docs| - 1], embed)
  }

  /**
   * Recipes are handled one by one: what the loop sends for a run of recipes is what it
   * sends for each part.
   */
  lemma {:induction false} RequestsAppend(a: seq<Entry>, b: seq<Entry>, embed: string -> Result<Value>)
    ensures Requests(a + b, embed) == Requests(a, embed) + Requests(b, embed)
    decreases |b|
  {
    if b == [] {
      assert a + b == a;
    } else {
      var init, last := b[..|b| - 1], b[|b| - 1];
      assert (a + b)[..|a + b| - 1] == a + init;
      assert (a + b)[|a + b| - 1] == last;
      RequestsAppend(a, init, embed);
    }
  }

  /**
   * What the loop writes for a run of recipes is what it writes for each part, so a
   * recipe that fails stops nothing after it.
   */
  lemma {:induction false} WritesAppend(a: seq<Entry>, b: seq<Entry>, embed: string -> Result<Value>)
    ensures Writes(a + b, embed) == Writes(a, embed) + Writes(b, embed)
    decreases |b|
  {
    if b == [] {
      assert a + b == a;
    } else {
      var init, last := b[..|b| - 1], b[|b| - 1];
      assert (a + b)[..|a + b| - 1] == a + init;
      assert (a + b)[|a + b| - 1] == last;
      calc {
        Writes(a + b, embed);
        Writes(a + init, embed) + WriteOf(last, embed);
        { WritesAppend(a, init, embed); }
        Writes(a, embed) + Writes(init, embed) + WriteOf(last, embed);
        Writes(a, embed) + (Writes(init, embed) + WriteOf(last, embed));
        Writes(a, embed) + Writes(b, embed);
      }
    }
  }

  /** A run of one recipe sends and writes what that recipe does. */
  lemma OneRecipe(e: Entry, embed: string -> Result<Value>)
    ensures Requests([e], embed) == RequestOf(e, embed)
    ensures Writes([e], embed) == WriteOf(e, embed)
  {
    assert [e][..0] == [];
  }

  /**
   * A recipe the loop does not write to, because it is skipped or any step for it
   * fails, leaves the writes for the recipes before and after it as they would be
   * without it.
   */
  lemma NothingWrittenFor(before: seq<Entry>, e: Entry, after: seq<Entry>, embed: string -> Result<Value>)
    requires !Try(e.data, embed).Embedded?
    ensures Writes(before + [e] + after, embed) == Writes(before, embed) + Writes(after, embed)
  {
    assert WriteOf(e, embed) == [];
    OneRecipe(e, embed);
    WritesAppend(before, [e], embed);
    assert Writes(before + [e], embed) == Writes(before, embed);
    WritesAppend(before + [e], after, embed);
  }

  /** No write names an id that no recipe of the snapshot has. */
  lemma {:induction false} WritesNameNoOther(docs: seq<Entry>, embed: string -> Result<Value>, id: string)
    requires forall k | 0 <= k < |docs| :: docs[k].id != id
    ensures forall k | 0 <= k < |Writes(docs, embed)| :: Writes(docs, embed)[k].id != id
    decreases |docs|
  {
    if docs != [] {
      var init, last := docs[..|docs| - 1], docs[|docs| - 1];
      assert forall k | 0 <= k < |init| :: init[k] == docs[k];
      WritesNameNoOther(init, embed, id);
      var w, tail := Writes(init, embed), WriteOf(last, embed);
      assert Writes(docs, embed) == w + tail;
    }
  }

  /** With distinct ids in the snapshot, the writes have distinct ids too. */
  lemma {:induction false} WritesUnique(docs: seq<Entry>, embed: string -> Result<Value>)
    requires UniqueIds(docs)
    ensures UniqueIds(Writes(docs, embed))
    decreases |docs|
  {
    if docs != [] {
      var init, last := docs[..|docs| - 1], docs[|docs| - 1];
      assert forall k | 0 <= k < |init| :: init[k] == docs[k];
      assert UniqueIds(init);
      WritesUnique(init, embed);
      WritesNameNoOther(init, embed, last.id);
      var w, tail := Writes(init, embed), WriteOf(last, embed);
      assert Writes(docs, embed) == w + tail;
    }
  }

  /** A recipe the loop writes to: the merge carries the vector the service returned for its text. */
  lemma {:induction false} WrittenEntry(docs: seq<Entry>, embed: string -> Result<Value>, i: nat)
    requires i < |docs| && WriteOf(docs[i], embed) != []
    ensures WriteOf(docs[i], embed)[0] in Writes(docs, embed)
    decreases |docs|
  {
    var init := docs[..|docs| - 1];
    if i < |init| {
      assert init[i] == docs[i];
      WrittenEntry(init, embed, i);
    }
  }

  /** In a snapshot with distinct ids, a recipe the loop does not write to is named by no write. */
  lemma {:induction false} UnwrittenId(docs: seq<Entry>, embed: string -> Result<Value>, i: nat)
    requires UniqueIds(docs) && i < |docs| && !Try(docs[i].data, embed).Embedded?
    ensures forall k | 0 <= k < |Writes(docs, embed)| :: Writes(docs, embed)[k].id != docs[i].id
    decreases |docs|
  {
    var init, last := docs[..|docs| - 1], docs[|docs| - 1];
    assert forall k | 0 <= k < |init| :: init[k] == docs[k];
    var w, tail := Writes(init, embed), WriteOf(last, embed);
    assert Writes(docs, embed) == w + tail;
    if i < |init| {
      assert UniqueIds(init);
      UnwrittenId(init, embed, i);
    } else {
      WritesNameNoOther(init, embed, docs[i].id);
    }
  }

  /**
   * After the backfill of a collection with distinct ids, a recipe that got a vector has
   * it as its `embeddings` field and every other field as before.
   */
  lemma BackfillWritten(recipes: Collection, embed: string -> Result<Value>, i: nat)
    requires UniqueIds(recipes) && i < |recipes| && Try(recipes[i].data, embed).Embedded?
    ensures Find(MergeAll(recipes, Writes(recipes, embed)), recipes[i].id)
         == Some(recipes[i].data["embeddings" := Try(recipes[i].data, embed).embedding])
  {
    var e := recipes[i];
    var v := Try(e.data, embed).embedding;
    var w := WriteOf(e, embed)[0];
    assert w == Entry(e.id, map["embeddings" := v]);
    WritesUnique(recipes, embed);
    WrittenEntry(recipes, embed, i);
    MergeAllField(recipes, Writes(recipes, embed), i, "embeddings", v);
  }

  /**
   * After the backfill of a collection with distinct ids, a recipe that was skipped, or
   * for which any step failed, is exactly as before.
   */
  lemma BackfillUntouched(recipes: Collection, embed: string -> Result<Value>, i: nat)
    requires UniqueIds(recipes) && i < |recipes| && !Try(recipes[i].data, embed).Embedded?
    ensures Find(MergeAll(recipes, Writes(recipes, embed)), recipes[i].id) == Some(recipes[i].data)
  {
    var writes := Writes(recipes, embed);
    FindEntry(recipes, i);
    UnwrittenId(recipes, embed, i);
    assert recipes[i].id !in Ids(writes);
    MergeAllOthers(recipes, writes, recipes[i].id);
  }

  /** One more recipe of the snapshot adds its own request and write, if any. */
  lemma PassStep(docs: seq<Entry>, i: nat, embed: string -> Result<Value>)
    requires i < |docs|
    ensures Requests(docs[..i + 1], embed) == Requests(docs[..i], embed) + RequestOf(docs[i], embed)
    ensures Writes(docs[..i + 1], embed) == Writes(docs[..i], embed) + WriteOf(docs[i], embed)
  {
    assert docs[..i + 1][..i] == docs[..i];
    assert docs[..i + 1][i] == docs[i];
  }

  /**
   * One iteration of the loop: skip a recipe that has embeddings, otherwise build its
   * text, ask the service for a vector and merge it in; a throw at any step is caught
   * and nothing is written. Returns the text sent, if any.
   */
  method EmbedRecipe(db: Firestore, e: Entry, embed: string -> Result<Value>) returns (sent: seq<string>)
    modifies db`recipes
    ensures sent == RequestOf(e, embed)
    ensures db.recipes == MergeAll(old(db.recipes), WriteOf(e, embed))
  {
    sent := [];
    if Truthy(Field(e.data, "embeddings")) {
      return;
    }
    var text := EmbeddingText(e.data);
    if text.Err? {
      return;
    }
    sent := [text.value];
    var response := embed(text.value);
    if response.Err? || response.value == Undefined {
      return;
    }
    assert Try(e.data, embed) == Embedded(text.value, response.value);
    ghost var write := Entry(e.id, map["embeddings" := response.value]);
    assert [write][..0] == [];
    db.recipes := SetMerge(db.recipes, e.id, map["embeddings" := response.value]);
  }

  /**
   * `backfillEmbeddings`: walks the snapshot of the recipes taken at the start, and
   * returns the texts it sent to the service.
   */
  method BackfillEmbeddings(db: Firestore, embed: string -> Result<Value>) returns (requests: seq<string>)
    modifies db`recipes
    ensures requests == Requests(old(db.recipes), embed)
    ensures db.recipes == MergeAll(old(db.recipes), Writes(old(db.recipes), embed))
  {
    var snapshot := db.recipes;
    requests := [];
    for i := 0 to |snapshot|
      invariant requests == Requests(snapshot[..i], embed)
      invariant db.recipes == MergeAll(snapshot, Writes(snapshot[..i], embed))
    {
      PassStep(snapshot, i, embed);
      MergeAllAppend(snapshot, Writes(snapshot[..i], embed), WriteOf(snapshot[i], embed));
      var sent := EmbedRecipe(db, snapshot[i], embed);
      requests := requests + sent;
    }
    assert snapshot[..|snapshot|] == snapshot;
  }
}
