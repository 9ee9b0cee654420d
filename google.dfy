/**
 * The daily Google Play subscription check: for every user with a purchase token, the
 * Play Developer API is asked for the subscription, and the user's `subscribed` field
 * is set to whether it is active. An error for one user is caught and the check goes on
 * with the next.
 *
 * The API and the clock are parameters: `play` maps a purchase token to the
 * `response.data` the API returns (or the error the call ends with), and `now` is the
 * current time in milliseconds since the epoch.
 */
module GoogleSubscription {
  import opened Js
  import opened Store

  /** The largest time value a `Date` holds, in milliseconds either side of the epoch. */
  const MaxTime: real := 8640000000000000.0

  /** `new Date(ms)`: a time value beyond the range of dates is an invalid date (NaN). */
  function DateValue(ms: JsNumber): (r: JsNumber)
    ensures r.Finite? ==> -MaxTime <= r.r <= MaxTime
  {
    match ms
    case NaN => NaN
    case Finite(x) => if x < -MaxTime || x > MaxTime then NaN else Finite(x)
  }

  /** `new Date(parseInt(expiry)) > new Date()`: an invalid date is never later. */
  predicate ExpiresAfter(expiry: Value, now: int) {
    match DateValue(ParseInt(ToText(expiry)))
    case NaN => false
    case Finite(t) => t > now as real
  }

  /** An expiry sent, as the API does, as a string of digits compares as that number of milliseconds. */
  lemma ExpiresAfterDigits(millis: string, now: int)
    requires millis != "" && AllDigits(millis) && DecimalValue(millis) as real <= MaxTime
    ensures ExpiresAfter(Str(millis), now) <==> DecimalValue(millis) > now
  {
    var t := DecimalValue(millis) as real;
    assert ToText(Str(millis)) == millis;
    assert ParseInt(millis) == Finite(t);
    assert DateValue(Finite(t)) == Finite(t);
    assert t > now as real <==> DecimalValue(millis) > now;
  }

  /** A missing expiry never counts as later than now. */
  lemma MissingExpiryIsPast(now: int)
    ensures !ExpiresAfter(Undefined, now)
  {
    assert ToText(Undefined)[0] == 'u';
    assert TrimStart(ToText(Undefined)) == ToText(Undefined);
  }

  /**
   * `isActive`: the subscription renews automatically or has not expired yet, and its
   * payment has been received (`paymentState === 1`).
   */
  function IsActive(subscription: Value, now: int): (r: bool)
    ensures r ==> OptGet(subscription, "paymentState") == Num(1.0)
    ensures OptGet(subscription, "paymentState") == Num(1.0) && Truthy(OptGet(subscription, "autoRenewing")) ==> r
    ensures OptGet(subscription, "paymentState") == Num(1.0) && !Truthy(OptGet(subscription, "autoRenewing")) ==>
      (r <==> ExpiresAfter(OptGet(subscription, "expiryTimeMillis"), now))
  {
    (Truthy(OptGet(subscription, "autoRenewing")) || ExpiresAfter(OptGet(subscription, "expiryTimeMillis"), now))
    && OptGet(subscription, "paymentState") == Num(1.0)
  }

  /** What happens to one user of the snapshot. */
  datatype Check =
    | Skipped                // no purchase token: no request, no write
    | CheckFailed(error: Error) // the request, or reading its answer, threw: no write
    | Checked(active: bool)  // `subscribed` was set to `active`

  /** One iteration of the loop on a user body. */
  function CheckUser(data: Doc, play: Value -> Result<Value>, now: int): (c: Check)
    ensures c.Skipped? <==> !Truthy(Field(data, "receiptToken"))
  {
    var token := Field(data, "receiptToken");
    if !Truthy(token) then Skipped
    else
      match play(token)
      case Err(e) => CheckFailed(e)
      case Ok(subscription) =>
        if subscription == Undefined || subscription == Null then CheckFailed(TypeError)
        else Checked(IsActive(subscription, now))
  }

  /** The update one user gets, if any: of the `subscribed` field alone. */
  function WriteOf(e: Entry, play: Value -> Result<Value>, now: int): (r: seq<Entry>)
    ensures |r| <= 1
    ensures r != [] <==> CheckUser(e.data, play, now).Checked?
    ensures forall k | 0 <= k < |r| :: r[k].id == e.id && r[k].data.Keys == {"subscribed"}
  {
    var c := CheckUser(e.data, play, now);
    if c.Checked? then [Entry(e.id, map["subscribed" := Bool(c.active)])] else []
  }

  /** The updates made, in the order of the snapshot. */
  function Writes(docs: seq<Entry>, play: Value -> Result<Value>, now: int): (r: seq<Entry>)
    ensures |r| <= |docs|
    decreases |docs|
  {
    if docs == [] then []
    else Writes(docs[..|docs| - 1], play, now) + WriteOf(docs[|docs| - 1], play, now)
  }

  /** One more user of the snapshot handled. */
  lemma WritesNext(docs: seq<Entry>, i: nat, play: Value -> Result<Value>, now: int)
    requires i < |docs|
    ensures Writes(docs[..i + 1], play, now) == Writes(docs[..i], play, now) + WriteOf(docs[i], play, now)
  {
    assert docs[..i + 1][..i] == docs[..i];
  }

  /**
   * Users are handled one by one: what the check writes for a run of users is what it
   * writes for each part, so an error for one user stops nothing after it.
   */
  lemma {:induction false} WritesAppend(a: seq<Entry>, b: seq<Entry>, play: Value -> Result<Value>, now: int)
    ensures Writes(a + b, play, now) == Writes(a, play, now) + Writes(b, play, now)
    decreases |b|
  {
    if b == [] {
      assert a + b == a;
    } else {
      var init, last := b[..|b| - 1], b[|b| - 1];
      assert (a + b)[..|a + b| - 1] == a + init;
      assert (a + b)[|a + b| - 1] == last;
      WritesAppend(a, init, play, now);
    }
  }

  /** A user that is skipped, or whose check fails, leaves the other users' updates as they were. */
  lemma NothingWrittenFor(before: seq<Entry>, e: Entry, after: seq<Entry>, play: Value -> Result<Value>, now: int)
    requires !CheckUser(e.data, play, now).Checked?
    ensures Writes(before + [e] + after, play, now) == Writes(before, play, now) + Writes(after, play, now)
  {
    assert WriteOf(e, play, now) == [];
    NoWrites([e], play, now);
    WritesAppend(before, [e], play, now);
    assert Writes(before + [e], play, now) == Writes(before, play, now);
    WritesAppend(before + [e], after, play, now);
  }

  lemma NoWrites(docs: seq<Entry>, play: Value -> Result<Value>, now: int)
    requires |docs| == 1 && WriteOf(docs[0], play, now) == []
    ensures Writes(docs, play, now) == []
  {
    assert docs[..0] == [];
  }

  /** No update names an id that no user of the snapshot has. */
  lemma {:induction false} WritesNameNoOther(docs: seq<Entry>, play: Value -> Result<Value>, now: int, id: string)
    requires forall k | 0 <= k < |docs| :: docs[k].id != id
    ensures forall k | 0 <= k < |Writes(docs, play, now)| :: Writes(docs, play, now)[k].id != id
    decreases |docs|
  {
    if docs != [] {
      var init, last := docs[..|docs| - 1], docs[|docs| - 1];
      assert forall k | 0 <= k < |init| :: init[k] == docs[k];
      WritesNameNoOther(init, play, now, id);
      var w, tail := Writes(init, play, now), WriteOf(last, play, now);
      assert Writes(docs, play, now) == w + tail;
    }
  }

  /** With distinct user ids, the updates have distinct ids too. */
  lemma {:induction false} WritesUnique(docs: seq<Entry>, play: Value -> Result<Value>, now: int)
    requires UniqueIds(docs)
    ensures UniqueIds(Writes(docs, play, now))
    decreases |docs|
  {
    if docs != [] {
      var init, last := docs[..|docs| - 1], docs[|docs| - 1];
      assert forall k | 0 <= k < |init| :: init[k] == docs[k];
      assert UniqueIds(init);
      WritesUnique(init, play, now);
      WritesNameNoOther(init, play, now, last.id);
      var w, tail := Writes(init, play, now), WriteOf(last, play, now);
      assert Writes(docs, play, now) == w + tail;
    }
  }

  /** A user whose check succeeds gets an update carrying the computed status. */
  lemma {:induction false} WrittenEntry(docs: seq<Entry>, play: Value -> Result<Value>, now: int, i: nat)
    requires i < |docs| && WriteOf(docs[i], play, now) != []
    ensures WriteOf(docs[i], play, now)[0] in Writes(docs, play, now)
    decreases |docs|
  {
    var init := docs[..|docs| - 1];
    if i < |init| {
      assert init[i] == docs[i];
      WrittenEntry(init, play, now, i);
    }
  }

  /** In a snapshot with distinct ids, a user whose check does not succeed is named by no update. */
  lemma {:induction false} UnwrittenId(docs: seq<Entry>, play: Value -> Result<Value>, now: int, i: nat)
    requires UniqueIds(docs) && i < |docs| && !CheckUser(docs[i].data, play, now).Checked?
    ensures forall k | 0 <= k < |Writes(docs, play, now)| :: Writes(docs, play, now)[k].id != docs[i].id
    decreases |docs|
  {
    var init, last := docs[..|docs| - 1], docs[|docs| - 1];
    assert forall k | 0 <= k < |init| :: init[k] == docs[k];
    var w, tail := Writes(init, play, now), WriteOf(last, play, now);
    assert Writes(docs, play, now) == w + tail;
    if i < |init| {
      assert UniqueIds(init);
      UnwrittenId(init, play, now, i);
    } else {
      WritesNameNoOther(init, play, now, docs[i].id);
    }
  }

  /**
   * After the check of a collection with distinct ids, a user whose check succeeded has
   * `subscribed` set to whether the subscription is active, and every other field as before.
   */
  lemma CheckedUserUpdated(users: Collection, play: Value -> Result<Value>, now: int, i: nat)
    requires UniqueIds(users) && i < |users| && CheckUser(users[i].data, play, now).Checked?
    ensures Find(MergeAll(users, Writes(users, play, now)), users[i].id)
         == Some(users[i].data["subscribed" := Bool(CheckUser(users[i].data, play, now).active)])
  {
    var writes := Writes(users, play, now);
    var v := Bool(CheckUser(users[i].data, play, now).active);
    var w := WriteOf(users[i], play, now)[0];
    assert w == Entry(users[i].id, map["subscribed" := v]);
    WritesUnique(users, play, now);
    WrittenEntry(users, play, now, i);
    MergeAllField(users, writes, i, "subscribed", v);
  }

  /**
   * After the check of a collection with distinct ids, a user without a purchase token,
   * or whose check failed, is exactly as before.
   */
  lemma UncheckedUserUntouched(users: Collection, play: Value -> Result<Value>, now: int, i: nat)
    requires UniqueIds(users) && i < |users| && !CheckUser(users[i].data, play, now).Checked?
    ensures Find(MergeAll(users, Writes(users, play, now)), users[i].id) == Some(users[i].data)
  {
    var writes := Writes(users, play, now);
    FindEntry(users, i);
    UnwrittenId(users, play, now, i);
    assert users[i].id !in Ids(writes);
    MergeAllOthers(users, writes, users[i].id);
  }

  /**
   * One iteration of the loop: skip a user without a purchase token, otherwise ask the
   * API for the subscription and update `subscribed`; a throw is caught and nothing is
   * written. The user's document exists, as it comes from the snapshot.
   */
  method CheckOneUser(db: Firestore, e: Entry, play: Value -> Result<Value>, now: int)
    modifies db`users
    ensures db.users == MergeAll(old(db.users), WriteOf(e, play, now))
  {
    var token := Field(e.data, "receiptToken");
    if !Truthy(token) {
      return;
    }
    var response := play(token);
    if response.Err? {
      return;
    }
    var subscription := response.value;
    if subscription == Undefined || subscription == Null {
      return;
    }
    var isActive := IsActive(subscription, now);
    ghost var write := Entry(e.id, map["subscribed" := Bool(isActive)]);
    assert WriteOf(e, play, now) == [write];
    assert [write][..0] == [];
    db.users := SetMerge(db.users, e.id, map["subscribed" := Bool(isActive)]);
  }

  /** `checkGoogleSubscription`: walks the snapshot of the users taken at the start. */
  method CheckGoogleSubscriptions(db: Firestore, play: Value -> Result<Value>, now: int)
    modifies db`users
    ensures db.users == MergeAll(old(db.users), Writes(old(db.users), play, now))
  {
    var snapshot := db.users;
    for i := 0 to |snapshot|
      invariant db.users == MergeAll(snapshot, Writes(snapshot[..i], play, now))
    {
      WritesNext(snapshot, i, play, now);
      MergeAllAppend(snapshot, Writes(snapshot[..i], play, now), WriteOf(snapshot[i], play, now));
      CheckOneUser(db, snapshot[i], play, now);
    }
    assert snapshot[..|snapshot|] == snapshot;
  }
}
