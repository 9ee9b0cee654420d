/**
 * The App Store server-notification webhook: it reads the user id and the notification
 * type from the request body and records on that user whether the subscription is
 * active. The handler is a function from the request body and the `users` collection
 * to the reply and the collection after it.
 */
module AppleSubscription {
  import opened Js
  import opened Store
  import opened Http

  /** The reply sent and the `users` collection afterwards. */
  datatype Reply = Reply(response: Response, users: Collection)

  /** `req.body.data.signedTransactionInfo?.appAccountToken`, on a body with truthy `data`. */
  function AccountToken(body: Value): (r: Value)
    ensures !OptGet(body, "data").Obj? ==> r == Undefined
  {
    OptGet(OptGet(OptGet(body, "data"), "signedTransactionInfo"), "appAccountToken")
  }

  /** A notification type means an active subscription exactly when it is one of two. */
  predicate Subscribed(status: Value) {
    status == Str("SUBSCRIBED") || status == Str("DID_RENEW")
  }

  /** `appleSubscriptionWebhook` */
  function AppleWebhook(body: Value, users: Collection): (r: Reply)
    ensures !Truthy(body) || !Truthy(OptGet(body, "data")) ==> r == Reply(Response(400, "Invalid data"), users)
    ensures Truthy(body) && Truthy(OptGet(body, "data")) && !Truthy(AccountToken(body)) ==>
      r == Reply(Response(400, "Invalid user data"), users)
    ensures r.response.status != 200 ==> r.users == users
    ensures r.response in {Response(200, "OK"), Response(400, "Invalid data"), Response(400, "Invalid user data"),
                           Response(500, "Internal Server Error")}
  {
    if !Truthy(body) || !Truthy(OptGet(body, "data")) then Reply(Response(400, "Invalid data"), users)
    else
      var userId := AccountToken(body);
      if !Truthy(userId) then Reply(Response(400, "Invalid user data"), users)
      else
        var subscribed := Subscribed(OptGet(body, "notificationType"));
        match DocId(userId)
        case Err(_) => Reply(Response(500, "Internal Server Error"), users)
        case Ok(id) =>
          match Update(users, id, map["subscribed" := Bool(subscribed)])
          case Err(_) => Reply(Response(500, "Internal Server Error"), users)
          case Ok(after) => Reply(Response(200, "OK"), after)
  }

  /**
   * A 200 reply means the token named an existing user, whose `subscribed` field now
   * says whether the notification type subscribes; nothing else of that user and no
   * other user changed.
   */
  lemma WebhookSuccess(body: Value, users: Collection, other: string)
    requires AppleWebhook(body, users).response.status == 200
    ensures var r := AppleWebhook(body, users);
      && AccountToken(body).Str? && AccountToken(body).s in Ids(users)
      && var id := AccountToken(body).s;
      && Find(r.users, id) == Some(Find(users, id).value["subscribed" := Bool(Subscribed(OptGet(body, "notificationType")))])
      && (other != id ==> Find(r.users, other) == Find(users, other))
  {
    var token := AccountToken(body);
    assert Truthy(body) && Truthy(OptGet(body, "data")) && Truthy(token);
    assert DocId(token).Ok?;
    var id := token.s;
    var subscribed := Bool(Subscribed(OptGet(body, "notificationType")));
    var fields := map["subscribed" := subscribed];
    assert Update(users, id, fields).Ok?;
    assert AppleWebhook(body, users).users == SetMerge(users, id, fields);
    SetMergeFind(users, id, fields, other);
    var d := Find(users, id).value;
    assert d + fields == d["subscribed" := subscribed] by {
      assert (d + fields).Keys == d["subscribed" := subscribed].Keys;
    }
  }

  /**
   * A request that passes both checks fails with 500 exactly when the token is not a
   * usable document id or names no user.
   */
  lemma WebhookServerError(body: Value, users: Collection)
    requires Truthy(body) && Truthy(OptGet(body, "data")) && Truthy(AccountToken(body))
    ensures AppleWebhook(body, users).response.status == 500 <==>
      DocId(AccountToken(body)).Err? || DocId(AccountToken(body)).value !in Ids(users)
  {
  }
}
