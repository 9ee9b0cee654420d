/**
 * The search index the recipe and user collections are mirrored into: one Typesense
 * collection is a map from document id to the document last sent for it. The field
 * rules both sanitisers share are defined here too.
 *
 * Documents are kept in the form they are sent in: a number that `Number(...)` turned
 * into NaN is sent as null, and a field whose value is undefined is not sent at all.
 */
module SearchIndex {
  import opened Js

  // ---------------------------------------------------------------------------
  // Field rules of the sanitisers
  // ---------------------------------------------------------------------------

  /** A number as it is sent: NaN becomes null. */
  function NumberValue(j: JsNumber): (r: Value)
    ensures r.Num? <==> j.Finite?
    ensures r.Num? ==> r.n == j.r
    ensures r.Num? || r == Null
  {
    match j
    case NaN => Null
    case Finite(x) => Num(x)
  }

  /** `v || ''`: a falsy value becomes the empty string, any other is kept as it is. */
  function TextOrEmpty(v: Value): (r: Value)
    ensures Truthy(v) ==> r == v
    ensures !Truthy(v) ==> r == Str("")
    ensures r != Undefined && r != Null
  {
    Or(v, Str(""))
  }

  /** `Array.isArray(v) ? v : []`: the result is always an array. */
  function ArrayOrEmpty(v: Value): (r: Value)
    ensures r.Arr?
    ensures v.Arr? ==> r == v
    ensures !v.Arr? ==> r == Arr([])
  {
    if IsArray(v) then v else Arr([])
  }

  /** `Number(v || 0)`: 0 for a missing or falsy value, the number itself for a number. */
  function CountValue(v: Value): (r: Value)
    ensures r.Num? || r == Null
    ensures !Truthy(v) ==> r == Num(0.0)
    ensures v.Num? ==> r == v
  {
    NumberValue(NumberOrZero(v))
  }

  /** `typeof v === 'number' ? v : 0` */
  function RatingValue(v: Value): (r: Value)
    ensures r.Num?
    ensures v.Num? ==> r == v
    ensures !v.Num? ==> r == Num(0.0)
  {
    if IsNumber(v) then v else Num(0.0)
  }

  // ---------------------------------------------------------------------------
  // The index
  // ---------------------------------------------------------------------------

  /** A document to send: its id and its fields. */
  datatype Record = Record(id: string, doc: Doc)

  /** Upserting the records one after the other: each replaces the entry with its id. */
  function UpsertAll(m: map<string, Doc>, batch: seq<Record>): (r: map<string, Doc>)
    ensures m.Keys <= r.Keys
    ensures forall i | 0 <= i < |batch| :: batch[i].id in r
    decreases |batch|
  {
    if batch == [] then m
    else
      var last := batch[|batch| - 1];
      UpsertAll(m, batch[..|batch| - 1])[last.id := last.doc]
  }

  /** The ids of a batch. */
  function RecordIds(batch: seq<Record>): (r: set<string>)
    ensures forall i | 0 <= i < |batch| :: batch[i].id in r
    ensures forall k | k in r :: exists i | 0 <= i < |batch| :: batch[i].id == k
  {
    set i | 0 <= i < |batch| :: batch[i].id
  }

  /** After an import the index holds the old entries and one entry per id of the batch. */
  lemma {:induction false} UpsertAllKeys(m: map<string, Doc>, batch: seq<Record>)
    ensures UpsertAll(m, batch).Keys == m.Keys + RecordIds(batch)
    decreases |batch|
  {
    if batch != [] {
      var init, last := batch[..|batch| - 1], batch[|batch| - 1];
      UpsertAllKeys(m, init);
      RecordIdsSnoc(init, last);
      assert batch == init + [last];
    }
  }

  lemma RecordIdsSnoc(init: seq<Record>, last: Record)
    ensures RecordIds(init + [last]) == RecordIds(init) + {last.id}
  {
    var batch := init + [last];
    assert batch[|init|] == last;
    assert last.id in RecordIds(batch);
    forall k | k in RecordIds(batch) ensures k in RecordIds(init) + {last.id} {
      var i :| 0 <= i < |batch| && batch[i].id == k;
      if i < |init| { assert init[i] == batch[i]; }
    }
    forall k | k in RecordIds(init) ensures k in RecordIds(batch) {
      var i :| 0 <= i < |init| && init[i].id == k;
      assert batch[i] == init[i];
    }
  }

  /** An entry whose id is not in the batch is left as it was. */
  lemma {:induction false} UpsertAllOthers(m: map<string, Doc>, batch: seq<Record>, k: string)
    requires k in m && k !in RecordIds(batch)
    ensures k in UpsertAll(m, batch) && UpsertAll(m, batch)[k] == m[k]
    decreases |batch|
  {
    if batch != [] {
      var init, last := batch[..|batch| - 1], batch[|batch| - 1];
      RecordIdsSnoc(init, last);
      assert batch == init + [last];
      UpsertAllOthers(m, init, k);
    }
  }

  /** An id of the batch holds the document of the last record with that id. */
  lemma {:induction false} UpsertAllLast(m: map<string, Doc>, batch: seq<Record>, i: nat)
    requires i < |batch| && forall j | i < j < |batch| :: batch[j].id != batch[i].id
    ensures batch[i].id in UpsertAll(m, batch) && UpsertAll(m, batch)[batch[i].id] == batch[i].doc
    decreases |batch|
  {
    var init := batch[..|batch| - 1];
    if i < |init| {
      assert init[i] == batch[i];
      assert batch[|batch| - 1].id != batch[i].id;
      forall j | i < j < |init| ensures init[j].id != init[i].id {
        assert init[j] == batch[j];
      }
      UpsertAllLast(m, init, i);
    }
  }

  /** With distinct ids, every record of an import ends up in the index as sent. */
  lemma UpsertAllDistinct(m: map<string, Doc>, batch: seq<Record>)
    requires forall i, j | 0 <= i < j < |batch| :: batch[i].id != batch[j].id
    ensures forall i | 0 <= i < |batch| :: batch[i].id in UpsertAll(m, batch) && UpsertAll(m, batch)[batch[i].id] == batch[i].doc
  {
    forall i | 0 <= i < |batch|
      ensures batch[i].id in UpsertAll(m, batch) && UpsertAll(m, batch)[batch[i].id] == batch[i].doc
    {
      UpsertAllLast(m, batch, i);
    }
  }

  /** One collection of the search index. */
  class Index {
    /** Document id to the document last upserted for it. */
    var docs: map<string, Doc>

    constructor (docs: map<string, Doc>)
      ensures this.docs == docs
    {
      this.docs := docs;
    }

    /** `documents(id).delete()`: an id that is not indexed makes the call fail. */
    method Delete(id: string) returns (r: Outcome)
      modifies this
      ensures id in old(docs) ==> r == Done && docs == old(docs) - {id}
      ensures id !in old(docs) ==> r == Failed(NotFound) && docs == old(docs)
    {
      if id in docs {
        docs := docs - {id};
        r := Done;
      } else {
        r := Failed(NotFound);
      }
    }

    /** `documents().upsert(doc)`: the document replaces the entry with its id, or is added. */
    method Upsert(id: string, doc: Doc)
      modifies this
      ensures docs == old(docs)[id := doc]
    {
      docs := docs[id := doc];
    }

    /**
     * `documents().import(batch, {action: 'upsert'})`: each record is upserted in turn.
     * Whether the service accepts the import is a parameter; a refused import writes nothing.
     */
    method Import(batch: seq<Record>, accepted: bool) returns (r: Outcome)
      modifies this
      ensures accepted ==> r == Done && docs == UpsertAll(old(docs), batch)
      ensures !accepted ==> r == Failed(ServiceError) && docs == old(docs)
    {
      if !accepted {
        return Failed(ServiceError);
      }
      for i := 0 to |batch|
        invariant docs == UpsertAll(old(docs), batch[..i])
      {
        assert batch[..i + 1][..i] == batch[..i];
        docs := docs[batch[i].id := batch[i].doc];
      }
      assert batch[..|batch|] == batch;
      r := Done;
    }
  }
}
