/**
 * The document store as the Cloud Functions see it: a collection is the sequence of
 * its documents in the order a query returns them, and the writes the functions use
 * (`set` with `{merge: true}`, `update`, `where(field, "==", v)`) are functions on it.
 * The class `Firestore` holds the collections the handlers read and write.
 */
module Store {
  import opened Js

  datatype Entry = Entry(id: string, data: Doc)

  type Collection = seq<Entry>

  predicate UniqueIds(c: Collection) {
    forall i, j | 0 <= i < j < |c| :: c[i].id != c[j].id
  }

  function Ids(c: Collection): (r: seq<string>)
    ensures |r| == |c| && forall i | 0 <= i < |c| :: r[i] == c[i].id
  {
    if c == [] then [] else [c[0].id] + Ids(c[1..])
  }

  /** `collection.doc(id).get()`: the body of the document, if it exists. */
  function Find(c: Collection, id: string): (r: Option<Doc>)
    ensures r.Some? <==> id in Ids(c)
  {
    if c == [] then None
    else if c[0].id == id then Some(c[0].data)
    else Find(c[1..], id)
  }

  /** In a collection with distinct ids, each entry is what a lookup of its id finds. */
  lemma {:induction false} FindEntry(c: Collection, i: nat)
    requires UniqueIds(c) && i < |c|
    ensures Find(c, c[i].id) == Some(c[i].data)
  {
    if i > 0 {
      var rest := c[1..];
      assert UniqueIds(rest) by {
        forall a, b | 0 <= a < b < |rest| ensures rest[a].id != rest[b].id {
          assert rest[a] == c[a + 1] && rest[b] == c[b + 1];
        }
      }
      assert c[i] == rest[i - 1];
      FindEntry(rest, i - 1);
    }
  }

  /** The body a merge starts from: the existing document, or an empty one. */
  function BodyOrEmpty(c: Collection, id: string): Doc {
    match Find(c, id)
    case Some(d) => d
    case None => map[]
  }

  /** A merge onto an entry of a collection with distinct ids starts from that entry's body. */
  lemma EntryBody(c: Collection, i: nat)
    requires UniqueIds(c) && i < |c|
    ensures BodyOrEmpty(c, c[i].id) == c[i].data
  {
    FindEntry(c, i);
  }

  /**
   * `doc(id).set(fields, {merge: true})`: the given top-level fields replace those of
   * the document and the others stay; a missing document is created (last in query order).
   */
  function SetMerge(c: Collection, id: string, fields: Doc): (r: Collection)
    ensures |c| <= |r| <= |c| + 1
  {
    if c == [] then [Entry(id, fields)]
    else if c[0].id == id then [Entry(id, c[0].data + fields)] + c[1..]
    else [c[0]] + SetMerge(c[1..], id, fields)
  }

  /** After a merge the document holds its old fields overridden by the new ones; no other document changes. */
  lemma {:induction false} SetMergeSpec(c: Collection, id: string, fields: Doc)
    ensures Find(SetMerge(c, id, fields), id) == Some(BodyOrEmpty(c, id) + fields)
    ensures forall other | other != id :: Find(SetMerge(c, id, fields), other) == Find(c, other)
    ensures id in Ids(c) ==> Ids(SetMerge(c, id, fields)) == Ids(c)
    ensures id !in Ids(c) ==> Ids(SetMerge(c, id, fields)) == Ids(c) + [id]
  {
    if c != [] && c[0].id != id {
      SetMergeSpec(c[1..], id, fields);
      var r := SetMerge(c, id, fields);
      assert r == [c[0]] + SetMerge(c[1..], id, fields);
      assert r[1..] == SetMerge(c[1..], id, fields);
      assert Ids(r) == [c[0].id] + Ids(SetMerge(c[1..], id, fields));
      assert Ids(c) == [c[0].id] + Ids(c[1..]);
    } else if c != [] {
      var r := SetMerge(c, id, fields);
      assert r == [Entry(id, c[0].data + fields)] + c[1..];
      assert r[0].id == id && r[1..] == c[1..];
      assert Find(c, id) == Some(c[0].data);
      assert BodyOrEmpty(c, id) == c[0].data;
      assert Find(r, id) == Some(c[0].data + fields);
      assert Ids(r) == [id] + Ids(c[1..]);
      assert Ids(c) == [id] + Ids(c[1..]);
    } else {
      assert map[] + fields == fields;
    }
  }

  /** With distinct ids, a merge into the document at position `k` updates that position in place. */
  lemma {:induction false} SetMergeAt(c: Collection, k: nat, fields: Doc)
    requires UniqueIds(c) && k < |c|
    ensures SetMerge(c, c[k].id, fields) == c[k := Entry(c[k].id, c[k].data + fields)]
  {
    if k > 0 {
      var rest := c[1..];
      assert UniqueIds(rest) by {
        forall a, b | 0 <= a < b < |rest| ensures rest[a].id != rest[b].id {
          assert rest[a] == c[a + 1] && rest[b] == c[b + 1];
        }
      }
      assert rest[k - 1] == c[k];
      SetMergeAt(rest, k - 1, fields);
      assert c[0].id != c[k].id;
      assert c[k := Entry(c[k].id, c[k].data + fields)] == [c[0]] + rest[k - 1 := Entry(c[k].id, c[k].data + fields)];
    }
  }

  /** What a merge does to the lookups alone. */
  lemma SetMergeFind(c: Collection, id: string, fields: Doc, other: string)
    ensures Find(SetMerge(c, id, fields), id) == Some(BodyOrEmpty(c, id) + fields)
    ensures other != id ==> Find(SetMerge(c, id, fields), other) == Find(c, other)
  {
    SetMergeSpec(c, id, fields);
  }

  /** A sequence of merges, each write naming a document and the fields merged into it. */
  function MergeAll(c: Collection, writes: seq<Entry>): (r: Collection)
    ensures |c| <= |r| <= |c| + |writes|
    decreases |writes|
  {
    if writes == [] then c
    else
      var last := writes[|writes| - 1];
      SetMerge(MergeAll(c, writes[..|writes| - 1]), last.id, last.data)
  }

  /** Making the writes of `a` and then those of `b` is making the writes of `a + b`. */
  lemma {:induction false} MergeAllAppend(c: Collection, a: seq<Entry>, b: seq<Entry>)
    ensures MergeAll(c, a + b) == MergeAll(MergeAll(c, a), b)
    decreases |b|
  {
    if b == [] {
      assert a + b == a;
    } else {
      var init, last := b[..|b| - 1], b[|b| - 1];
      assert (a + b)[..|a + b| - 1] == a + init;
      assert (a + b)[|a + b| - 1] == last;
      MergeAllAppend(c, a, init);
    }
  }

  /** A document no write names is left as it was. */
  lemma {:induction false} MergeAllOthers(c: Collection, writes: seq<Entry>, id: string)
    requires id !in Ids(writes)
    ensures Find(MergeAll(c, writes), id) == Find(c, id)
    decreases |writes|
  {
    if writes != [] {
      var init, last := writes[..|writes| - 1], writes[|writes| - 1];
      assert id != Ids(writes)[|writes| - 1];
      SetMergeFind(MergeAll(c, init), last.id, last.data, id);
      assert id !in Ids(init) by {
        forall i | 0 <= i < |init| ensures Ids(init)[i] != id {
          assert Ids(writes)[i] == Ids(init)[i];
        }
      }
      MergeAllOthers(c, init, id);
    }
  }

  /** With distinct ids, each named document holds its old body with its write merged in. */
  lemma {:induction false} MergeAllWritten(c: Collection, writes: seq<Entry>, i: nat)
    requires UniqueIds(writes) && i < |writes|
    ensures Find(MergeAll(c, writes), writes[i].id) == Some(BodyOrEmpty(c, writes[i].id) + writes[i].data)
    decreases |writes|
  {
    var init, last := writes[..|writes| - 1], writes[|writes| - 1];
    var before := MergeAll(c, init);
    assert MergeAll(c, writes) == SetMerge(before, last.id, last.data);
    SetMergeFind(before, last.id, last.data, writes[i].id);
    if i < |init| {
      assert UniqueIds(init) by {
        forall a, b | 0 <= a < b < |init| ensures init[a].id != init[b].id {
          assert init[a] == writes[a] && init[b] == writes[b];
        }
      }
      assert writes[i] == init[i];
      MergeAllWritten(c, init, i);
    } else {
      assert last.id !in Ids(init) by {
        forall k | 0 <= k < |init| ensures Ids(init)[k] != last.id {
          assert init[k] == writes[k];
        }
      }
      MergeAllOthers(c, init, last.id);
      assert BodyOrEmpty(before, last.id) == BodyOrEmpty(c, last.id);
    }
  }

  /**
   * With distinct ids on both sides, a write of one field to an existing document
   * leaves that document with the field set and every other field as before.
   */
  lemma MergeAllField(c: Collection, writes: seq<Entry>, i: nat, k: string, v: Value)
    requires UniqueIds(c) && UniqueIds(writes) && i < |c|
    requires Entry(c[i].id, map[k := v]) in writes
    ensures Find(MergeAll(c, writes), c[i].id) == Some(c[i].data[k := v])
  {
    FindEntry(c, i);
    var j :| 0 <= j < |writes| && writes[j] == Entry(c[i].id, map[k := v]);
    MergeAllWritten(c, writes, j);
    var d := c[i].data;
    assert d + map[k := v] == d[k := v] by {
      assert (d + map[k := v]).Keys == d[k := v].Keys;
    }
  }

  /**
   * `doc(id).update(fields)`: like a merge, but a document that does not exist is an
   * error (NOT_FOUND) and nothing is written.
   */
  function Update(c: Collection, id: string, fields: Doc): (r: Result<Collection>)
    ensures r.Err? <==> id !in Ids(c)
    ensures r.Err? ==> r.error == NotFound
    ensures r.Ok? ==> r.value == SetMerge(c, id, fields) && Ids(r.value) == Ids(c)
  {
    SetMergeSpec(c, id, fields);
    if id in Ids(c) then Ok(SetMerge(c, id, fields)) else Err(NotFound)
  }

  /** A merge of the same fields twice writes what one merge writes. */
  lemma {:induction false} SetMergeIdempotent(c: Collection, id: string, fields: Doc)
    ensures SetMerge(SetMerge(c, id, fields), id, fields) == SetMerge(c, id, fields)
  {
    if c != [] && c[0].id != id {
      SetMergeIdempotent(c[1..], id, fields);
    } else if c != [] {
      var once := SetMerge(c, id, fields);
      assert once == [Entry(id, c[0].data + fields)] + c[1..];
      assert once[0].id == id && once[1..] == c[1..];
      var d := c[0].data + fields;
      assert SetMerge(once, id, fields) == [Entry(id, d + fields)] + c[1..];
      assert d + fields == d;
      assert Entry(id, d + fields) == Entry(id, d);
    } else {
      assert SetMerge(SetMerge(c, id, fields), id, fields) == [Entry(id, fields + fields)];
      assert fields + fields == fields;
    }
  }

  /**
   * `collection.doc(v)` for a document id taken from data: a non-empty string without
   * "/" names a document; any other value makes the client throw.
   */
  function DocId(v: Value): (r: Result<string>)
    ensures r.Ok? <==> v.Str? && v.s != "" && '/' !in v.s
    ensures r.Ok? ==> r.value == v.s
  {
    if v.Str? && v.s != "" && '/' !in v.s then Ok(v.s) else Err(TypeError)
  }

  /**
   * `collection.where(field, "==", v).get()`: the matching documents in query order, each
   * as often as the collection holds it.
   */
  function WhereEq(c: Collection, field: string, v: Value): (r: Collection)
    ensures |r| <= |c|
    ensures forall e | e in r :: e in c && Field(e.data, field) == v
    ensures forall e | e in c && Field(e.data, field) == v :: e in r
  {
    if c == [] then []
    else (if Field(c[0].data, field) == v then [c[0]] else []) + WhereEq(c[1..], field, v)
  }

  /**
   * The query result is the collection filtered: an order-preserving subsequence holding
   * every matching document as often as the collection does, and nothing else.
   */
  lemma {:induction false} WhereEqFilters(c: Collection, field: string, v: Value)
    ensures IsSubsequence(WhereEq(c, field, v), c)
    ensures forall e: Entry | Field(e.data, field) == v :: multiset(WhereEq(c, field, v))[e] == multiset(c)[e]
    ensures forall e: Entry | Field(e.data, field) != v :: multiset(WhereEq(c, field, v))[e] == 0
  {
    if c != [] {
      WhereEqFilters(c[1..], field, v);
      var rest := WhereEq(c[1..], field, v);
      assert c == [c[0]] + c[1..];
      if Field(c[0].data, field) == v {
        assert WhereEq(c, field, v) == [c[0]] + rest;
        assert ([c[0]] + rest)[1..] == rest;
      } else {
        assert WhereEq(c, field, v) == rest;
        assert rest != [] ==> rest[0] != c[0];
      }
    }
  }

  /** Queries compare with undefined only by throwing. */
  function Query(c: Collection, field: string, v: Value): (r: Result<Collection>)
    ensures r.Err? <==> v == Undefined
  {
    if v == Undefined then Err(TypeError) else Ok(WhereEq(c, field, v))
  }

  /** The collections and sub-collections the functions read and write. */
  class Firestore {
    /** `recipes`, in query order. */
    var recipes: Collection
    /** `users`, in query order. */
    var users: Collection
    /** `recipes/{id}/ratings`: the `rating` value of each rating document, in query order. */
    var ratings: map<string, seq<int>>
    /** `users/{id}/recommendations`: recipe id to score. */
    var recommendations: map<string, map<string, int>>

    constructor (recipes: Collection, users: Collection, ratings: map<string, seq<int>>)
      ensures this.recipes == recipes && this.users == users && this.ratings == ratings
      ensures this.recommendations == map[]
    {
      this.recipes := recipes;
      this.users := users;
      this.ratings := ratings;
      this.recommendations := map[];
    }

    /** `recipes/{id}/ratings.get()`: a recipe without ratings has an empty sub-collection. */
    function RatingsOf(recipeId: string): (r: seq<int>)
      reads this
      ensures recipeId !in ratings ==> r == []
    {
      if recipeId in ratings then ratings[recipeId] else []
    }
  }
}
