/**
 * The push-notification test script: it reads which notification types to send from its
 * first argument, builds one message per type from a fixed table, sends the messages one
 * after the other and collects the errors of the sends that fail.
 *
 * The arguments after the script name are a sequence of strings; the messaging service
 * is a parameter `send` that answers the n-th send of a message.
 */
module Notifications {
  import opened Js

  /** `process.argv[2 + i]`, or nothing when there are fewer arguments. */
  function Arg(args: seq<string>, i: nat): Option<string> {
    if i < |args| then Some(args[i]) else None
  }

  /** `arg || fallback`: a missing or empty argument takes the fallback. */
  function ArgOr(arg: Option<string>, fallback: string): string {
    if arg.Some? && arg.value != "" then arg.value else fallback
  }

  const DefaultToken: string := "dDoAQCRcS0hcj4xgEcyNu-:APA91bFMWqKIxFphIpUUQVo9hs5RvTDqQW0UAxvN7ywHr-4bWX04wmKZkQ7HWPJer5cHWxBT-DwiXSMg6uxSc8O3OlJSexqlwCGAibNIrCQS6ljQfXygTzE"
  const DefaultRecipeId: string := "7lYvKQa6pq0dvCrWcYCU"
  const DefaultCommentId: string := "423ZhGcyNhD1ZkvXLRwA"
  const DefaultFollowerUid: string := "eW2mRlQLIffkpck4ku9O6nXn9ZV2"
  const DefaultFileName: string := "test_file.pdf"
  const DefaultCommentAuthorName: string := "Test Commenter"

  /** The values the messages are filled in with. */
  datatype Params = Params(token: string, recipeId: string, commentId: string, followerUid: string,
                           fileName: string, commentAuthorName: string)

  /** The second to seventh arguments, each with its default. */
  function ParamsOf(args: seq<string>): (r: Params)
    ensures |args| <= 1 ==> r == Params(DefaultToken, DefaultRecipeId, DefaultCommentId, DefaultFollowerUid,
                                        DefaultFileName, DefaultCommentAuthorName)
    ensures |args| > 1 && args[1] != "" ==> r.token == args[1]
    ensures |args| > 2 && args[2] != "" ==> r.recipeId == args[2]
    ensures |args| > 3 && args[3] != "" ==> r.commentId == args[3]
    ensures |args| > 4 && args[4] != "" ==> r.followerUid == args[4]
    ensures |args| > 5 && args[5] != "" ==> r.fileName == args[5]
    ensures |args| > 6 && args[6] != "" ==> r.commentAuthorName == args[6]
    ensures |args| <= 1 || args[1] == "" ==> r.token == DefaultToken
    ensures |args| <= 2 || args[2] == "" ==> r.recipeId == DefaultRecipeId
    ensures |args| <= 3 || args[3] == "" ==> r.commentId == DefaultCommentId
    ensures |args| <= 4 || args[4] == "" ==> r.followerUid == DefaultFollowerUid
    ensures |args| <= 5 || args[5] == "" ==> r.fileName == DefaultFileName
    ensures |args| <= 6 || args[6] == "" ==> r.commentAuthorName == DefaultCommentAuthorName
  {
    Params(ArgOr(Arg(args, 1), DefaultToken), ArgOr(Arg(args, 2), DefaultRecipeId),
           ArgOr(Arg(args, 3), DefaultCommentId), ArgOr(Arg(args, 4), DefaultFollowerUid),
           ArgOr(Arg(args, 5), DefaultFileName), ArgOr(Arg(args, 6), DefaultCommentAuthorName))
  }

  /**
   * `requestedTypesArg.split(",").map(s => s.trim().toLowerCase())`, the argument
   * defaulting to "all".
   */
  function RequestedTypes(arg: Option<string>): (r: seq<string>)
    ensures |r| >= 1
    ensures arg.None? || arg.value == "" ==> r == ["all"]
    ensures forall i | 0 <= i < |r| :: ',' !in r[i] && forall j | 0 <= j < |r[i]| :: !('A' <= r[i][j] <= 'Z')
  {
    var parts := Split(ArgOr(arg, "all"), ',');
    DefaultAll();
    seq(|parts|, i requires 0 <= i < |parts| => Canonical(parts[i]))
  }

  /** The default argument "all" reads as the one type "all". */
  lemma DefaultAll()
    ensures Split("all", ',') == ["all"] && Canonical("all") == "all"
  {
    assert TrimStart("all") == "all" && TrimEnd("all") == "all";
    CanonicalKeeps("all");
  }

  /** `s.trim().toLowerCase()`: no upper-case letter is left and no new character appears. */
  function Canonical(piece: string): (r: string)
    ensures forall c | c in r :: c in piece || 'a' <= c <= 'z'
    ensures forall j | 0 <= j < |r| :: !('A' <= r[j] <= 'Z')
  {
    var t := Trim(piece);
    TrimInside(piece);
    ToLowerAscii(t)
  }

  /** No white space is left at either end of a canonical name, and only a blank piece becomes empty. */
  lemma CanonicalTrims(piece: string)
    ensures Canonical(piece) != [] ==>
      !IsJsSpace(Canonical(piece)[0]) && !IsJsSpace(Canonical(piece)[|Canonical(piece)| - 1])
    ensures Canonical(piece) == [] <==> AllSpace(piece)
  {
    var t := Trim(piece);
    TrimEmptyIffAllSpace(piece);
    if t != [] {
      TrimEndPrefix(TrimStart(piece));
      assert t[0] == TrimStart(piece)[0];
      LowerKeepsNonSpace(t, 0);
      LowerKeepsNonSpace(t, |t| - 1);
    }
  }

  lemma LowerKeepsNonSpace(t: string, j: nat)
    requires j < |t| && !IsJsSpace(t[j])
    ensures !IsJsSpace(ToLowerAscii(t)[j])
  {
    if 'A' <= t[j] <= 'Z' {
      assert 'a' <= ToLowerAscii(t)[j] <= 'z';
    }
  }

  /** A name padded with white space reads as the name in lower case. */
  lemma CanonicalPadded(lead: string, name: string, trail: string)
    requires AllSpace(lead) && AllSpace(trail)
    requires name != [] ==> !IsJsSpace(name[0]) && !IsJsSpace(name[|name| - 1])
    ensures Canonical(lead + name + trail) == ToLowerAscii(name)
  {
    TrimPadded(lead, name, trail);
  }

  /** The pieces `leads[i] + names[i] + trails[i]`. */
  function Padded(leads: seq<string>, names: seq<string>, trails: seq<string>): (r: seq<string>)
    requires |leads| == |names| == |trails|
    ensures |r| == |names| && forall i | 0 <= i < |names| :: r[i] == leads[i] + names[i] + trails[i]
  {
    seq(|names|, i requires 0 <= i < |names| => leads[i] + names[i] + trails[i])
  }

  /**
   * Type names given joined by commas, in any case and with white space around them, are
   * read back as those names in lower case, in order.
   */
  lemma RequestedTypesOfPaddedList(leads: seq<string>, names: seq<string>, trails: seq<string>)
    requires |names| >= 1 && |leads| == |names| == |trails|
    requires Join(Padded(leads, names, trails), ",") != ""
    requires forall i | 0 <= i < |names| :: AllSpace(leads[i]) && AllSpace(trails[i]) && ',' !in names[i]
    requires forall i | 0 <= i < |names| ::
      names[i] != [] ==> !IsJsSpace(names[i][0]) && !IsJsSpace(names[i][|names[i]| - 1])
    ensures |RequestedTypes(Some(Join(Padded(leads, names, trails), ",")))| == |names|
    ensures forall i | 0 <= i < |names| ::
      RequestedTypes(Some(Join(Padded(leads, names, trails), ",")))[i] == ToLowerAscii(names[i])
  {
    var padded := Padded(leads, names, trails);
    var joined := Join(padded, ",");
    forall i | 0 <= i < |padded| ensures ',' !in padded[i] {
      assert forall c | c in leads[i] :: IsJsSpace(c);
      assert forall c | c in trails[i] :: IsJsSpace(c);
    }
    SplitJoin(padded, ',');
    assert Split(joined, ',') == padded;
    assert ArgOr(Some(joined), "all") == joined;
    var r := RequestedTypes(Some(joined));
    forall i | 0 <= i < |names| ensures r[i] == ToLowerAscii(names[i]) {
      CanonicalPadded(leads[i], names[i], trails[i]);
    }
  }

  /** For example, " New_Recipe " requests "new_recipe". */
  lemma RequestedPaddedMixedCase()
    ensures RequestedTypes(Some(" New_Recipe ")) == ["new_recipe"]
  {
    var name := "New_Recipe";
    PaddedNewRecipe();
    RequestedTypesOfPaddedList([" "], [name], [" "]);
    LowerNewRecipe();
  }

  lemma PaddedNewRecipe()
    ensures Join(Padded([" "], ["New_Recipe"], [" "]), ",") == " New_Recipe "
    ensures AllSpace(" ") && !IsJsSpace('N') && !IsJsSpace('e')
  {
    var padded := Padded([" "], ["New_Recipe"], [" "]);
    assert padded == [" New_Recipe "] by {
      assert " " + "New_Recipe" + " " == " New_Recipe ";
    }
  }

  lemma LowerNewRecipe()
    ensures ToLowerAscii("New_Recipe") == "new_recipe"
  {
  }

  /**
   * A non-empty list of type names, each lower-case, without surrounding white space and
   * without a comma, given joined by commas, is read back as that list.
   */
  lemma RequestedTypesOfList(names: seq<string>)
    requires |names| >= 1 && Join(names, ",") != ""
    requires forall i | 0 <= i < |names| :: ',' !in names[i] && Trim(names[i]) == names[i]
    requires forall i | 0 <= i < |names| :: forall j | 0 <= j < |names[i]| :: !('A' <= names[i][j] <= 'Z')
    ensures RequestedTypes(Some(Join(names, ","))) == names
  {
    var joined := Join(names, ",");
    SplitJoin(names, ',');
    assert Split(joined, ',') == names;
    assert ArgOr(Some(joined), "all") == joined;
    var r := RequestedTypes(Some(joined));
    assert |r| == |names|;
    forall i | 0 <= i < |names| ensures r[i] == names[i] {
      CanonicalKeeps(names[i]);
    }
  }

  lemma CanonicalKeeps(name: string)
    requires Trim(name) == name
    requires forall j | 0 <= j < |name| :: !('A' <= name[j] <= 'Z')
    ensures Canonical(name) == name
  {
    assert ToLowerAscii(name) == name;
  }

  /** A message: where it goes, what it shows and what it carries for the app. */
  datatype Message = Message(token: string, title: string, body: string, data: map<string, string>)

  const Title: string := "FoodFellas'"
  const ClickAction: string := "FLUTTER_NOTIFICATION_CLICK"

  /** The keys of `notificationMapping`, in the order they are declared. */
  const NotificationTypes: seq<string> :=
    ["weekly_recommendations", "new_comment", "new_follower", "new_recipe", "pdf_processing_done"]

  /** `notificationMapping[kind]`, when it is one of the declared types. */
  function MessageFor(kind: string, p: Params): (r: Option<Message>)
    ensures r.Some? <==> kind in NotificationTypes
    ensures r.Some? ==> r.value.token == p.token && r.value.title == Title
    ensures r.Some? ==> "type" in r.value.data && r.value.data["type"] == kind
    ensures r.Some? ==> "click_action" in r.value.data && r.value.data["click_action"] == ClickAction
  {
    if kind == "weekly_recommendations" then
      Some(Message(p.token, Title, "Check out your new weekly recipe recommendations. \U{1F4C6}",
                   map["type" := kind, "click_action" := ClickAction]))
    else if kind == "new_comment" then
      Some(Message(p.token, Title, p.commentAuthorName + " just left a comment on one of your recipes.",
                   map["type" := kind, "recipeId" := p.recipeId, "commentId" := p.commentId,
                       "click_action" := ClickAction]))
    else if kind == "new_follower" then
      Some(Message(p.token, Title, "You got a new Fella! " + p.followerUid + " just started following you. \U{1F389}",
                   map["type" := kind, "followerUid" := p.followerUid, "click_action" := ClickAction]))
    else if kind == "new_recipe" then
      Some(Message(p.token, Title, "A new recipe has just been posted! Check it out! \U{1F37D}\U{FE0F}",
                   map["type" := kind, "recipeId" := p.recipeId, "click_action" := ClickAction]))
    else if kind == "pdf_processing_done" then
      Some(Message(p.token, Title, "Your PDF " + p.fileName + " has been converted to recipes!",
                   map["type" := kind, "fileName" := p.fileName, "click_action" := ClickAction]))
    else None
  }

  /** `Object.values(notificationMapping)`. */
  function AllMessages(p: Params): (r: seq<Message>)
    ensures |r| == |NotificationTypes|
    ensures forall i | 0 <= i < |r| :: MessageFor(NotificationTypes[i], p) == Some(r[i])
  {
    seq(|NotificationTypes|, i requires 0 <= i < |NotificationTypes| => MessageFor(NotificationTypes[i], p).value)
  }

  /** The requested types the table knows, in request order, repetitions kept. */
  function KnownTypes(requested: seq<string>): (r: seq<string>)
    ensures |r| <= |requested|
    ensures forall i | 0 <= i < |r| :: r[i] in NotificationTypes
    decreases |requested|
  {
    if requested == [] then []
    else
      var last := requested[|requested| - 1];
      KnownTypes(requested[..|requested| - 1]) + (if last in NotificationTypes then [last] else [])
  }

  /** The messages for the known requested types, in request order. */
  function Known(requested: seq<string>, p: Params): (r: seq<Message>)
    ensures |r| <= |requested|
    ensures forall i | 0 <= i < |r| :: r[i].token == p.token && r[i].title == Title
    decreases |requested|
  {
    if requested == [] then []
    else
      var last := requested[|requested| - 1];
      Known(requested[..|requested| - 1], p) + (match MessageFor(last, p) case Some(m) => [m] case None => [])
  }

  /** The messages the script sends for the requested types. */
  function Selected(requested: seq<string>, p: Params): (r: seq<Message>)
    ensures forall i | 0 <= i < |r| :: r[i].token == p.token && r[i].title == Title
  {
    if "all" in requested then AllMessages(p) else Known(requested, p)
  }

  /** The `type` a message carries in its data. */
  function TypeOf(m: Message): string {
    if "type" in m.data then m.data["type"] else ""
  }

  function Types(ms: seq<Message>): (r: seq<string>)
    ensures |r| == |ms| && forall i | 0 <= i < |ms| :: r[i] == TypeOf(ms[i])
  {
    seq(|ms|, i requires 0 <= i < |ms| => TypeOf(ms[i]))
  }

  /** When "all" is requested, every declared type is sent once, in declaration order. */
  lemma SelectedAll(requested: seq<string>, p: Params)
    requires "all" in requested
    ensures Types(Selected(requested, p)) == NotificationTypes
  {
  }

  /**
   * Otherwise one message is sent per known requested type, in request order with
   * repetitions kept, each carrying its type, and unknown types send nothing.
   */
  lemma {:induction false} SelectedKnown(requested: seq<string>, p: Params)
    requires "all" !in requested
    ensures Types(Selected(requested, p)) == KnownTypes(requested)
    ensures forall i | 0 <= i < |Selected(requested, p)| :: Selected(requested, p)[i].token == p.token
    decreases |requested|
  {
    if requested != [] {
      var init := requested[..|requested| - 1];
      assert "all" !in init by {
        assert forall i | 0 <= i < |init| :: init[i] == requested[i];
      }
      SelectedKnown(init, p);
    }
  }

  /**
   * `messages` built by pushing, for each requested type the table knows, its message;
   * or every message when "all" is among the requested types.
   */
  method SelectMessages(requested: seq<string>, p: Params) returns (messages: seq<Message>)
    ensures messages == Selected(requested, p)
  {
    if "all" in requested {
      messages := AllMessages(p);
      return;
    }
    messages := [];
    for i := 0 to |requested|
      invariant messages == Known(requested[..i], p)
    {
      assert requested[..i + 1][..i] == requested[..i];
      var kind := requested[i];
      var m := MessageFor(kind, p);
      if m.Some? {
        messages := messages + [m.value];
      }
    }
    assert requested[..|requested|] == requested;
  }

  /** What the messaging service answers to one send. */
  datatype Delivery = Delivered(response: string) | Rejected(error: string)

  /** The errors, as text, of the sends that fail, in sending order. */
  function Errors(messages: seq<Message>, send: (nat, Message) -> Delivery): (r: seq<string>)
    ensures |r| <= |messages|
    ensures (forall i | 0 <= i < |messages| :: send(i, messages[i]).Delivered?) ==> r == []
    decreases |messages|
  {
    if messages == [] then []
    else
      var i := |messages| - 1;
      Errors(messages[..i], send) + (match send(i, messages[i]) case Rejected(e) => [e] case Delivered(_) => [])
  }

  /** The positions of the sends that fail. */
  function Failed(messages: seq<Message>, send: (nat, Message) -> Delivery): set<nat> {
    set i: nat | i < |messages| && send(i, messages[i]).Rejected?
  }

  /** There is exactly one error per failed send. */
  lemma {:induction false} ErrorsCount(messages: seq<Message>, send: (nat, Message) -> Delivery)
    ensures |Errors(messages, send)| == |Failed(messages, send)|
    decreases |messages|
  {
    if messages != [] {
      var i := |messages| - 1;
      var init := messages[..i];
      ErrorsCount(init, send);
      var before := Failed(init, send);
      assert forall k | 0 <= k < i :: init[k] == messages[k];
      if send(i, messages[i]).Rejected? {
        assert Failed(messages, send) == before + {i};
      } else {
        assert Failed(messages, send) == before;
      }
    }
  }

  /** The summary the script logs at the end. */
  datatype Summary = AllSent | SomeFailed(line: string)

  function SummaryOf(errors: seq<string>): (r: Summary)
    ensures r.AllSent? <==> errors == []
  {
    if |errors| > 0 then SomeFailed("Some notifications failed: " + Join(errors, ", ")) else AllSent
  }

  /** The success line is logged exactly when no send fails. */
  lemma SuccessIffNoFailure(messages: seq<Message>, send: (nat, Message) -> Delivery)
    ensures SummaryOf(Errors(messages, send)).AllSent? <==>
      forall i | 0 <= i < |messages| :: send(i, messages[i]).Delivered?
  {
    ErrorsCount(messages, send);
    if exists i | 0 <= i < |messages| :: send(i, messages[i]).Rejected? {
      var i :| 0 <= i < |messages| && send(i, messages[i]).Rejected?;
      assert i in Failed(messages, send);
    } else {
      assert Failed(messages, send) == {};
    }
  }

  /**
   * The send loop: every message is sent once, in order, and a failed send appends its
   * error and does not stop the ones after it.
   */
  method SendAll(messages: seq<Message>, send: (nat, Message) -> Delivery) returns (sent: seq<Message>, errors: seq<string>)
    ensures sent == messages
    ensures errors == Errors(messages, send)
  {
    sent, errors := [], [];
    for i := 0 to |messages|
      invariant sent == messages[..i]
      invariant errors == Errors(messages[..i], send)
    {
      assert messages[..i + 1][..i] == messages[..i];
      var msg := messages[i];
      var reply := send(i, msg);
      sent := sent + [msg];
      if reply.Rejected? {
        errors := errors + [reply.error];
      }
    }
  }

  /** The whole script: parse the arguments, select the messages, send them, summarise. */
  method TestNotifications(args: seq<string>, send: (nat, Message) -> Delivery)
    returns (sent: seq<Message>, errors: seq<string>, summary: Summary)
    ensures sent == Selected(RequestedTypes(Arg(args, 0)), ParamsOf(args))
    ensures errors == Errors(sent, send) && summary == SummaryOf(errors)
  {
    var requested := RequestedTypes(Arg(args, 0));
    var messages := SelectMessages(requested, ParamsOf(args));
    sent, errors := SendAll(messages, send);
    summary := SummaryOf(errors);
  }
}
