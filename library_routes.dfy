/** The message library's HTTP handlers (`/api/message-library/...`), each
    working in place on the one service object's `messages` and `triggers`
    arrays. A handler's answer is a status code with a body or an error text. */
module LibraryRoutes {
  import opened Common
  import opened MessageLibrary
  import opened Payload

  /** `res.status(code).json(body)`, or `res.status(code).json({ error })`. */
  datatype Reply<T> = Done(code: int, body: T) | HttpError(code: int, error: string)

  const NotFoundText: string := "Message not found"
  const MissingSendArgsText: string := "messageId and phoneNumber are required"
  /** The `message` of the `{ success: true, message }` answers. */
  const DeletedText: string := "Message deleted"
  const ImportedText: string := "Data imported successfully"

  /** The `error.message` a 500 answer of the send route carries. */
  function FailureText(f: Failure): string {
    match f
    case MissingCredentials => "Missing WhatsApp API credentials"
    case UnsupportedType(t) => "Unsupported message type: " + (if t.Some? then t.value else "undefined")
    case TypeError => "TypeError"
  }

  // ---------------------------------------------------------------------------
  // The list operations behind the handlers

  /** `{ ...messages[i], ...body, updatedAt }`. */
  function Updated(m: Message, body: Message, now: string): (r: Message)
    ensures r == Overlay(m, body).(updatedAt := Some(now))
    ensures r.updatedAt == Some(now)
    ensures body.messageId.None? ==> r.messageId == m.messageId
  {
    Overlay(m, body).(updatedAt := Some(now))
  }

  /** The first message with the id gets `status` and `updatedAt`; a list
      without one is returned as it is. */
  function WithStatus(ms: seq<Message>, id: string, status: string, now: string): (r: seq<Message>)
    ensures |r| == |ms|
    ensures var i := FindIndex(ms, HasMessageId(Some(id)));
      && (i == -1 ==> r == ms)
      && (i >= 0 ==> r[i] == ms[i].(status := Some(status), updatedAt := Some(now)))
      && forall j :: 0 <= j < |ms| && j != i ==> r[j] == ms[j]
  {
    var i := FindIndex(ms, HasMessageId(Some(id)));
    if i == -1 then ms else ms[i := ms[i].(status := Some(status), updatedAt := Some(now))]
  }

  /** Publishing (or unpublishing) twice is publishing once. */
  lemma WithStatusIdempotent(ms: seq<Message>, id: string, status: string, now: string)
    ensures WithStatus(WithStatus(ms, id, status, now), id, status, now) == WithStatus(ms, id, status, now)
  {
    var i := FindIndex(ms, HasMessageId(Some(id)));
    if i >= 0 {
      var m' := ms[i].(status := Some(status), updatedAt := Some(now));
      FindIndexUpdate(ms, HasMessageId(Some(id)), i, m');
    }
  }

  /** After `WithStatus`, the lookup by the id finds the message with the
      new status, and the last of two status changes is the one that holds. */
  lemma WithStatusLookup(ms: seq<Message>, id: string, s1: string, s2: string, t1: string, t2: string)
    requires FindIndex(ms, HasMessageId(Some(id))) >= 0
    ensures var r := WithStatus(ms, id, s1, t1);
      Find(r, HasMessageId(Some(id))).Some? &&
      Find(r, HasMessageId(Some(id))).value.status == Some(s1)
    ensures WithStatus(WithStatus(ms, id, s1, t1), id, s2, t2) == WithStatus(ms, id, s2, t2)
  {
    var p := HasMessageId(Some(id));
    var i := FindIndex(ms, p);
    var m1 := ms[i].(status := Some(s1), updatedAt := Some(t1));
    FindIndexUpdate(ms, p, i, m1);
    var r := ms[i := m1];
    assert ms[i := m1][i := m1.(status := Some(s2), updatedAt := Some(t2))] ==
           ms[i := ms[i].(status := Some(s2), updatedAt := Some(t2))];
  }

  /** `splice(i, 1)` removes exactly that element: one fewer, the others in
      their order, and the multiset of the rest. */
  lemma RemoveAtFacts<T>(s: seq<T>, i: nat)
    requires i < |s|
    ensures |s[..i] + s[i + 1..]| == |s| - 1
    ensures Subsequence(s[..i] + s[i + 1..], s)
    ensures multiset(s[..i] + s[i + 1..]) + multiset{s[i]} == multiset(s)
  {
    assert s == s[..i] + [s[i]] + s[i + 1..];
    SkipOne(s, i);
  }

  lemma {:induction false} SkipOne<T>(s: seq<T>, i: nat)
    requires i < |s|
    ensures Subsequence(s[..i] + s[i + 1..], s)
    decreases i
  {
    if i == 0 {
      assert s[..0] + s[1..] == s[1..];
      SubsequenceRefl(s[1..]);
    } else {
      SkipOne(s[1..], i - 1);
      var t := s[..i] + s[i + 1..];
      assert t[0] == s[0];
      assert t[1..] == s[1..][..i - 1] + s[1..][i..];
    }
  }

  lemma {:induction false} SubsequenceRefl<T>(s: seq<T>)
    ensures Subsequence(s, s)
    decreases |s|
  {
    if s != [] {
      SubsequenceRefl(s[1..]);
    }
  }

  // ---------------------------------------------------------------------------
  // The handlers

  /** `GET /messages/:messageId`. */
  method GetMessage(svc: MessageLibraryService, messageId: string) returns (reply: Reply<Message>)
    ensures svc.MessageById(Some(messageId)).None? ==> reply == HttpError(404, NotFoundText)
    ensures svc.MessageById(Some(messageId)).Some? ==>
      reply == Done(200, svc.MessageById(Some(messageId)).value)
  {
    var message := svc.MessageById(Some(messageId));
    if message.None? {
      return HttpError(404, NotFoundText);
    }
    return Done(200, message.value);
  }

  /** `POST /messages`: the new record, answered with 201. */
  method CreateMessage(svc: MessageLibraryService, body: Message, generatedId: string, now: string)
    returns (reply: Reply<Message>)
    modifies svc
    ensures reply == Done(201, NewMessage(body, generatedId, now))
    ensures svc.messages == old(svc.messages) + [reply.body]
    ensures svc.triggers == old(svc.triggers)
  {
    var m := svc.AddMessage(body, generatedId, now);
    return Done(201, m);
  }

  /** `POST /triggers`: the new record, answered with 201. */
  method CreateTrigger(svc: MessageLibraryService, body: Trigger, generatedId: string, now: string)
    returns (reply: Reply<Trigger>)
    modifies svc
    ensures reply == Done(201, NewTrigger(body, generatedId, now))
    ensures svc.triggers == old(svc.triggers) + [reply.body]
    ensures svc.messages == old(svc.messages)
  {
    var t := svc.AddTrigger(body, generatedId, now);
    return Done(201, t);
  }

  /** `PUT /messages/:messageId`: the first message with the id, overlaid
      with the body and stamped; 404 and no change when there is none. */
  method UpdateMessage(svc: MessageLibraryService, messageId: string, body: Message, now: string)
    returns (reply: Reply<Message>)
    modifies svc
    ensures svc.triggers == old(svc.triggers)
    ensures var i := FindIndex(old(svc.messages), HasMessageId(Some(messageId)));
      && (i == -1 ==> reply == HttpError(404, NotFoundText) && svc.messages == old(svc.messages))
      && (i >= 0 ==>
            && svc.messages == old(svc.messages)[i := Updated(old(svc.messages)[i], body, now)]
            && reply == Done(200, svc.messages[i]))
  {
    var messageIndex := FindIndex(svc.messages, HasMessageId(Some(messageId)));
    if messageIndex == -1 {
      return HttpError(404, NotFoundText);
    }
    svc.messages := svc.messages[messageIndex := Updated(svc.messages[messageIndex], body, now)];
    return Done(200, svc.messages[messageIndex]);
  }

  /** An update whose body leaves out the id, or repeats the record's own,
      keeps the record where the lookup finds it. */
  lemma UpdateKeepsLookup(ms: seq<Message>, id: string, body: Message, now: string)
    requires FindIndex(ms, HasMessageId(Some(id))) >= 0
    requires body.messageId.None? || body.messageId == Some(id)
    ensures var i := FindIndex(ms, HasMessageId(Some(id)));
      Find(ms[i := Updated(ms[i], body, now)], HasMessageId(Some(id))) == Some(Updated(ms[i], body, now))
  {
    var i := FindIndex(ms, HasMessageId(Some(id)));
    FindIndexUpdate(ms, HasMessageId(Some(id)), i, Updated(ms[i], body, now));
  }

  /** `DELETE /messages/:messageId`: removes the first message with the id;
      404 and no change when there is none. */
  method DeleteMessage(svc: MessageLibraryService, messageId: string) returns (reply: Reply<string>)
    modifies svc
    ensures svc.triggers == old(svc.triggers)
    ensures var i := FindIndex(old(svc.messages), HasMessageId(Some(messageId)));
      && (i == -1 ==> reply == HttpError(404, NotFoundText) && svc.messages == old(svc.messages))
      && (i >= 0 ==> reply == Done(200, DeletedText) &&
                     svc.messages == old(svc.messages)[..i] + old(svc.messages)[i + 1..])
  {
    var messageIndex := FindIndex(svc.messages, HasMessageId(Some(messageId)));
    if messageIndex == -1 {
      return HttpError(404, NotFoundText);
    }
    svc.messages := svc.messages[..messageIndex] + svc.messages[messageIndex + 1..];
    return Done(200, DeletedText);
  }

  /** The status flip shared by the publish and unpublish handlers. */
  method SetStatus(svc: MessageLibraryService, messageId: string, status: string, now: string)
    returns (reply: Reply<Message>)
    modifies svc
    ensures svc.triggers == old(svc.triggers)
    ensures svc.messages == WithStatus(old(svc.messages), messageId, status, now)
    ensures var i := FindIndex(old(svc.messages), HasMessageId(Some(messageId)));
      && (i == -1 ==> reply == HttpError(404, NotFoundText))
      && (i >= 0 ==> reply == Done(200, svc.messages[i]))
  {
    var messageIndex := FindIndex(svc.messages, HasMessageId(Some(messageId)));
    if messageIndex == -1 {
      return HttpError(404, NotFoundText);
    }
    var m := svc.messages[messageIndex];
    svc.messages := svc.messages[messageIndex := m.(status := Some(status), updatedAt := Some(now))];
    return Done(200, svc.messages[messageIndex]);
  }

  /** `POST /messages/:messageId/publish`. */
  method Publish(svc: MessageLibraryService, messageId: string, now: string) returns (reply: Reply<Message>)
    modifies svc
    ensures svc.triggers == old(svc.triggers)
    ensures svc.messages == WithStatus(old(svc.messages), messageId, PublishedStatus, now)
    ensures reply.Done? ==> reply.body.status == Some(PublishedStatus)
    ensures reply.HttpError? <==> FindIndex(old(svc.messages), HasMessageId(Some(messageId))) == -1
    ensures var i := FindIndex(old(svc.messages), HasMessageId(Some(messageId)));
      && (i == -1 ==> reply == HttpError(404, NotFoundText))
      && (i >= 0 ==> reply == Done(200, svc.messages[i]))
  {
    reply := SetStatus(svc, messageId, PublishedStatus, now);
  }

  /** `POST /messages/:messageId/unpublish`. */
  method Unpublish(svc: MessageLibraryService, messageId: string, now: string) returns (reply: Reply<Message>)
    modifies svc
    ensures svc.triggers == old(svc.triggers)
    ensures svc.messages == WithStatus(old(svc.messages), messageId, DraftStatus, now)
    ensures reply.Done? ==> reply.body.status == Some(DraftStatus)
    ensures reply.HttpError? <==> FindIndex(old(svc.messages), HasMessageId(Some(messageId))) == -1
    ensures var i := FindIndex(old(svc.messages), HasMessageId(Some(messageId)));
      && (i == -1 ==> reply == HttpError(404, NotFoundText))
      && (i >= 0 ==> reply == Done(200, svc.messages[i]))
  {
    reply := SetStatus(svc, messageId, DraftStatus, now);
  }

  function ForMessage(messageId: string): Trigger -> bool {
    (t: Trigger) => t.messageId == Some(messageId)
  }

  /** `GET /triggers/message/:messageId`: exactly the triggers of that
      message, in store order. */
  function TriggersForMessage(svc: MessageLibraryService, messageId: string): (r: seq<Trigger>)
    reads svc
    ensures Subsequence(r, svc.triggers)
    ensures forall t :: t in r <==> t in svc.triggers && t.messageId == Some(messageId)
    ensures forall t :: multiset(r)[t] ==
                        if t.messageId == Some(messageId) then multiset(svc.triggers)[t] else 0
  {
    FilterSpec(svc.triggers, ForMessage(messageId));
    Filter(svc.triggers, ForMessage(messageId))
  }

  /** `{ messageText, phoneNumber, matchingTriggers, count }`. */
  datatype MatchReport = MatchReport(messageText: Option<string>, phoneNumber: Option<string>,
                                     matchingTriggers: seq<Trigger>, count: nat)

  /** `POST /triggers/match`: the matching triggers and their number; a
      failing match is answered with 500. */
  method MatchTriggers(svc: MessageLibraryService, messageText: Option<string>, phoneNumber: Option<string>)
    returns (reply: Reply<MatchReport>)
    ensures var m := svc.FindMatchingTriggers(messageText);
      && (m.Err? ==> reply == HttpError(500, "Failed to find matching triggers"))
      && (m.Ok? ==> reply.Done? && reply.code == 200 &&
                    reply.body.matchingTriggers == m.value &&
                    reply.body.count == |reply.body.matchingTriggers| &&
                    reply.body.messageText == messageText && reply.body.phoneNumber == phoneNumber)
  {
    var matching := svc.FindMatchingTriggers(messageText);
    if matching.Err? {
      return HttpError(500, "Failed to find matching triggers");
    }
    return Done(200, MatchReport(messageText, phoneNumber, matching.value, |matching.value|));
  }

  /** `POST /test-send`: 400 without both arguments, 404 for an unknown
      message, and otherwise the request the send would post, or the error
      text of a failure to build it (500). */
  method TestSend(svc: MessageLibraryService, messageId: Option<string>, phoneNumber: Option<string>, env: Env)
    returns (reply: Reply<SendRequest>)
    ensures !Truthy(messageId) || !Truthy(phoneNumber) ==> reply == HttpError(400, MissingSendArgsText)
    ensures Truthy(messageId) && Truthy(phoneNumber) ==>
      var m := svc.MessageById(messageId);
      && (m.None? ==> reply == HttpError(404, NotFoundText))
      && (m.Some? ==>
            var req := BuildSendRequest(m.value, phoneNumber, env);
            && (req.Err? ==> reply == HttpError(500, FailureText(req.error)))
            && (req.Ok? ==> reply == Done(200, req.value)))
  {
    if !Truthy(messageId) || !Truthy(phoneNumber) {
      return HttpError(400, MissingSendArgsText);
    }
    var message := svc.MessageById(messageId);
    if message.None? {
      return HttpError(404, NotFoundText);
    }
    var request := BuildSendRequest(message.value, phoneNumber, env);
    if request.Err? {
      return HttpError(500, FailureText(request.error));
    }
    return Done(200, request.value);
  }

  /** `POST /import`: each list is replaced only when the body provides it. */
  method Import(svc: MessageLibraryService, messages: Option<seq<Message>>, triggers: Option<seq<Trigger>>)
    returns (reply: Reply<string>)
    modifies svc
    ensures reply == Done(200, ImportedText)
    ensures svc.messages == if messages.Some? then messages.value else old(svc.messages)
    ensures svc.triggers == if triggers.Some? then triggers.value else old(svc.triggers)
  {
    if messages.Some? {
      svc.messages := messages.value;
    }
    if triggers.Some? {
      svc.triggers := triggers.value;
    }
    return Done(200, ImportedText);
  }
}
