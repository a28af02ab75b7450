/** The message library service: an in-memory store of canned messages and
    the triggers that select them, with the lookups the webhook uses (by id,
    by keyword, by button or list reply) and the two append operations. */
module MessageLibrary {
  import opened Common

  /** A reply button of an `interactive_button` message. */
  datatype Button = Button(buttonId: Option<string>, id: Option<string>, title: Option<string>,
                           triggerId: Option<string>, nextAction: Option<string>,
                           targetMessageId: Option<string>)

  /** A row of a section of an `interactive_list` message. */
  datatype Row = Row(rowId: Option<string>, id: Option<string>, title: Option<string>,
                     description: Option<string>, triggerId: Option<string>,
                     nextAction: Option<string>, targetMessageId: Option<string>)

  datatype Section = Section(title: Option<string>, rows: Option<seq<Row>>)

  /** A message's `contentPayload`. */
  datatype Content = Content(header: Option<string>, body: Option<string>, footer: Option<string>,
                             buttonText: Option<string>, buttons: Option<seq<Button>>,
                             sections: Option<seq<Section>>)

  /** A library message; `messageType` is the record's `type` field. */
  datatype Message = Message(messageId: Option<string>, name: Option<string>,
                             messageType: Option<string>, status: Option<string>,
                             contentPayload: Option<Content>,
                             createdAt: Option<string>, updatedAt: Option<string>)

  /** A trigger's `triggerValue`: one keyword or id, or an array of keywords. */
  datatype TriggerValue = Keyword(word: string) | Keywords(words: seq<string>)

  datatype Trigger = Trigger(triggerId: Option<string>, triggerType: Option<string>,
                             triggerValue: Option<TriggerValue>, nextAction: Option<string>,
                             targetId: Option<string>, messageId: Option<string>,
                             createdAt: Option<string>, updatedAt: Option<string>)

  /** The exceptions the service's code raises: a property read on
      `undefined`, and the two errors the send path throws itself. */
  datatype Failure = TypeError | MissingCredentials | UnsupportedType(messageType: Option<string>)

  const PublishedStatus: string := "published"
  const DraftStatus: string := "draft"
  const KeywordMatch: string := "keyword_match"
  const ButtonClick: string := "button_click"
  const ListSelection: string := "list_selection"
  const ButtonReply: string := "button_reply"
  const ListReply: string := "list_reply"

  /** An entry of `getMessageButtons`. */
  datatype ButtonInfo = ButtonInfo(buttonId: Option<string>, title: Option<string>,
                                   triggerId: Option<string>, nextAction: Option<string>,
                                   targetMessageId: Option<string>)

  /** An entry of `getMessageListOptions`. */
  datatype ListOption = ListOption(rowId: Option<string>, title: Option<string>,
                                   description: Option<string>, triggerId: Option<string>,
                                   nextAction: Option<string>, targetMessageId: Option<string>)

  /** The `interactive` object of an incoming reply. */
  datatype ReplyRef = ReplyRef(id: Option<string>)
  datatype Interactive = Interactive(replyType: Option<string>, buttonReply: Option<ReplyRef>,
                                     listReply: Option<ReplyRef>)

  /** `{ trigger, nextMessage }`. */
  datatype InteractiveMatch = InteractiveMatch(trigger: Trigger, nextMessage: Option<Message>)

  // ---------------------------------------------------------------------------
  // Object spread

  /** A record with no own properties. */
  const NoFields: Message := Message(None, None, None, None, None, None, None)

  /** `{ ...base, ...patch }`: every property `patch` has wins. */
  function Overlay(base: Message, patch: Message): (r: Message)
    ensures r.messageId == (if patch.messageId.Some? then patch.messageId else base.messageId)
    ensures r.name == (if patch.name.Some? then patch.name else base.name)
    ensures r.messageType == (if patch.messageType.Some? then patch.messageType else base.messageType)
    ensures r.status == (if patch.status.Some? then patch.status else base.status)
    ensures r.contentPayload == (if patch.contentPayload.Some? then patch.contentPayload else base.contentPayload)
    ensures r.createdAt == (if patch.createdAt.Some? then patch.createdAt else base.createdAt)
    ensures r.updatedAt == (if patch.updatedAt.Some? then patch.updatedAt else base.updatedAt)
  {
    Message(Pick(patch.messageId, base.messageId), Pick(patch.name, base.name),
            Pick(patch.messageType, base.messageType), Pick(patch.status, base.status),
            Pick(patch.contentPayload, base.contentPayload),
            Pick(patch.createdAt, base.createdAt), Pick(patch.updatedAt, base.updatedAt))
  }

  /** The property of the later spread when it has one. */
  function Pick<T>(later: Option<T>, earlier: Option<T>): Option<T> {
    if later.Some? then later else earlier
  }

  /** Spreading a record with no properties changes nothing, and spreading
      the same record twice is spreading it once. */
  lemma OverlayLaws(base: Message, patch: Message)
    ensures Overlay(base, NoFields) == base
    ensures Overlay(NoFields, patch) == patch
    ensures Overlay(Overlay(base, patch), patch) == Overlay(base, patch)
  {
  }

  /** `{ ...base, ...patch }` for triggers. */
  function OverlayTrigger(base: Trigger, patch: Trigger): (r: Trigger)
    ensures r.triggerId == (if patch.triggerId.Some? then patch.triggerId else base.triggerId)
    ensures r.triggerType == (if patch.triggerType.Some? then patch.triggerType else base.triggerType)
    ensures r.triggerValue == (if patch.triggerValue.Some? then patch.triggerValue else base.triggerValue)
    ensures r.nextAction == (if patch.nextAction.Some? then patch.nextAction else base.nextAction)
    ensures r.targetId == (if patch.targetId.Some? then patch.targetId else base.targetId)
    ensures r.messageId == (if patch.messageId.Some? then patch.messageId else base.messageId)
    ensures r.createdAt == (if patch.createdAt.Some? then patch.createdAt else base.createdAt)
    ensures r.updatedAt == (if patch.updatedAt.Some? then patch.updatedAt else base.updatedAt)
  {
    Trigger(Pick(patch.triggerId, base.triggerId), Pick(patch.triggerType, base.triggerType),
            Pick(patch.triggerValue, base.triggerValue), Pick(patch.nextAction, base.nextAction),
            Pick(patch.targetId, base.targetId), Pick(patch.messageId, base.messageId),
            Pick(patch.createdAt, base.createdAt), Pick(patch.updatedAt, base.updatedAt))
  }

  /** `{ messageId: 'msg_' + ..., ...messageData, createdAt, updatedAt }`:
      the caller's own id wins over the generated one, the timestamps do not. */
  function NewMessage(data: Message, generatedId: string, now: string): (m: Message)
    ensures m.messageId == if data.messageId.Some? then data.messageId else Some(generatedId)
    ensures m.createdAt == Some(now) && m.updatedAt == Some(now)
    ensures m.name == data.name && m.messageType == data.messageType
    ensures m.status == data.status && m.contentPayload == data.contentPayload
  {
    Overlay(NoFields.(messageId := Some(generatedId)), data).(createdAt := Some(now), updatedAt := Some(now))
  }

  /** `{ triggerId: 'trigger_' + ..., ...triggerData, createdAt, updatedAt }`. */
  function NewTrigger(data: Trigger, generatedId: string, now: string): (t: Trigger)
    ensures t.triggerId == if data.triggerId.Some? then data.triggerId else Some(generatedId)
    ensures t.createdAt == Some(now) && t.updatedAt == Some(now)
    ensures t.triggerType == data.triggerType && t.triggerValue == data.triggerValue
    ensures t.nextAction == data.nextAction && t.targetId == data.targetId
    ensures t.messageId == data.messageId
  {
    var blank := Trigger(Some(generatedId), None, None, None, None, None, None, None);
    OverlayTrigger(blank, data).(createdAt := Some(now), updatedAt := Some(now))
  }

  // ---------------------------------------------------------------------------
  // The tests the lookups apply

  function IsPublished(): Message -> bool {
    (m: Message) => m.status == Some(PublishedStatus)
  }

  /** `msg.messageId === messageId`; two absent ids are equal too. */
  function HasMessageId(id: Option<string>): Message -> bool {
    (m: Message) => m.messageId == id
  }

  /** `Array.isArray(v) ? v : [v]`. */
  function KeywordsOf(v: TriggerValue): seq<string> {
    match v
    case Keyword(w) => [w]
    case Keywords(ws) => ws
  }

  /** `keywords.some(k => text.includes(k.toLowerCase()))`. */
  function AnyKeyword(keywords: seq<string>, text: string): (b: bool)
    ensures b <==> exists i :: 0 <= i < |keywords| && Includes(text, ToLower(keywords[i]))
  {
    if keywords == [] then false
    else Includes(text, ToLower(keywords[0])) || AnyKeyword(keywords[1..], text)
  }

  /** A `keyword_match` trigger whose value is missing: reading
      `keyword.toLowerCase()` on it throws. */
  function LacksKeyword(): Trigger -> bool {
    (t: Trigger) => t.triggerType == Some(KeywordMatch) && t.triggerValue.None?
  }

  /** The filter's test for a trigger whose value is present. */
  function KeywordHit(text: string): Trigger -> bool {
    (t: Trigger) => t.triggerType == Some(KeywordMatch) && t.triggerValue.Some? &&
                    AnyKeyword(KeywordsOf(t.triggerValue.value), text)
  }

  /** What keyword matching means: a `keyword_match` trigger one of whose
      keywords, lowercased, occurs in the normalised text. */
  ghost predicate MatchesText(t: Trigger, text: string) {
    t.triggerType == Some(KeywordMatch) && t.triggerValue.Some? &&
    exists k :: k in KeywordsOf(t.triggerValue.value) && IsSubstring(ToLower(k), text)
  }

  lemma KeywordHitMeaning(text: string)
    ensures forall t :: KeywordHit(text)(t) <==> MatchesText(t, text)
  {
    forall t ensures KeywordHit(text)(t) <==> MatchesText(t, text) {
      if t.triggerType == Some(KeywordMatch) && t.triggerValue.Some? {
        var ks := KeywordsOf(t.triggerValue.value);
        forall i | 0 <= i < |ks| ensures Includes(text, ToLower(ks[i])) <==> IsSubstring(ToLower(ks[i]), text) {
          IncludesSpec(text, ToLower(ks[i]));
        }
        assert AnyKeyword(ks, text) <==> exists k :: k in ks && IsSubstring(ToLower(k), text) by {
          if AnyKeyword(ks, text) {
            var i :| 0 <= i < |ks| && Includes(text, ToLower(ks[i]));
            assert ks[i] in ks;
          }
          if exists k :: k in ks && IsSubstring(ToLower(k), text) {
            var k :| k in ks && IsSubstring(ToLower(k), text);
            var i :| 0 <= i < |ks| && ks[i] == k;
            assert Includes(text, ToLower(ks[i]));
          }
        }
      }
    }
  }

  /** `messageText.toLowerCase().trim()`. */
  function Normalize(text: string): string {
    Trim(ToLower(text))
  }

  /** `trigger.triggerType === type && trigger.triggerValue === id`: strict
      equality holds for the same string, or for two absent values, and never
      for an array. */
  function ValueIs(v: Option<TriggerValue>, id: Option<string>): bool {
    match v
    case None => id.None?
    case Some(Keyword(w)) => id == Some(w)
    case Some(Keywords(_)) => false
  }

  function InteractiveTrigger(triggerType: string, id: Option<string>): Trigger -> bool {
    (t: Trigger) => t.triggerType == Some(triggerType) && ValueIs(t.triggerValue, id)
  }

  // ---------------------------------------------------------------------------
  // List options

  function RowsOf(s: Section): seq<Row> {
    if s.rows.Some? then s.rows.value else []
  }

  function OptionOf(r: Row): ListOption {
    ListOption(r.rowId, r.title, r.description, r.triggerId, r.nextAction, r.targetMessageId)
  }

  function OptionsOfRows(rows: seq<Row>): (os: seq<ListOption>)
    ensures |os| == |rows|
    ensures forall j :: 0 <= j < |rows| ==> os[j] == OptionOf(rows[j])
  {
    seq(|rows|, j requires 0 <= j < |rows| => OptionOf(rows[j]))
  }

  /** A section whose `rows` is missing: `section.rows.forEach` throws on it. */
  function MissingRows(): Section -> bool {
    (s: Section) => s.rows.None?
  }

  /** Every section's rows, section by section and row by row. */
  function Flatten(sections: seq<Section>): seq<ListOption> {
    if sections == [] then []
    else Flatten(sections[..|sections| - 1]) + OptionsOfRows(RowsOf(sections[|sections| - 1]))
  }

  function RowCount(sections: seq<Section>): nat {
    if sections == [] then 0
    else RowCount(sections[..|sections| - 1]) + |RowsOf(sections[|sections| - 1])|
  }

  /** The flattened list has one entry per row. */
  lemma {:induction false} FlattenLength(sections: seq<Section>)
    ensures |Flatten(sections)| == RowCount(sections)
  {
    if sections != [] {
      FlattenLength(sections[..|sections| - 1]);
    }
  }

  /** Flattening distributes over concatenation of section lists. */
  lemma {:induction false} FlattenAppend(a: seq<Section>, b: seq<Section>)
    ensures Flatten(a + b) == Flatten(a) + Flatten(b)
    decreases |b|
  {
    if b == [] {
      assert a + b == a;
    } else {
      var b', last := b[..|b| - 1], OptionsOfRows(RowsOf(b[|b| - 1]));
      assert (a + b)[..|a + b| - 1] == a + b';
      assert (a + b)[|a + b| - 1] == b[|b| - 1];
      calc {
        Flatten(a + b);
        Flatten(a + b') + last;
        { FlattenAppend(a, b'); }
        Flatten(a) + Flatten(b') + last;
        Flatten(a) + Flatten(b);
      }
    }
  }

  /** The options of one section are exactly its rows, in order. */
  lemma FlattenOne(s: Section)
    ensures Flatten([s]) == OptionsOfRows(RowsOf(s))
  {
    assert [s][..0] == [];
  }

  /** `getMessageListOptions`' result for a message's sections. */
  function ListOptionsOf(sections: seq<Section>): (r: Result<seq<ListOption>, Failure>)
    ensures r.Err? <==> exists i :: 0 <= i < |sections| && sections[i].rows.None?
    ensures r.Ok? ==> r.value == Flatten(sections) && |r.value| == RowCount(sections)
  {
    FlattenLength(sections);
    if FindIndex(sections, MissingRows()) >= 0 then Err(TypeError) else Ok(Flatten(sections))
  }

  /** The nested `forEach` of `getMessageListOptions`: one option pushed
      per row, section by section; a section without `rows` throws. */
  method CollectOptions(sections: seq<Section>) returns (r: Result<seq<ListOption>, Failure>)
    ensures r == ListOptionsOf(sections)
  {
    var options: seq<ListOption> := [];
    var i := 0;
    while i < |sections|
      invariant 0 <= i <= |sections|
      invariant forall k :: 0 <= k < i ==> sections[k].rows.Some?
      invariant options == Flatten(sections[..i])
    {
      if sections[i].rows.None? {
        return Err(TypeError);
      }
      var rows := sections[i].rows.value;
      var j := 0;
      while j < |rows|
        invariant 0 <= j <= |rows|
        invariant options == Flatten(sections[..i]) + OptionsOfRows(rows[..j])
      {
        assert OptionsOfRows(rows[..j + 1]) == OptionsOfRows(rows[..j]) + [OptionOf(rows[j])];
        options := options + [OptionOf(rows[j])];
        j := j + 1;
      }
      assert rows[..j] == rows;
      assert sections[..i + 1][..i] == sections[..i];
      i := i + 1;
    }
    assert sections[..i] == sections;
    return Ok(options);
  }

  // ---------------------------------------------------------------------------
  // The service

  class MessageLibraryService {
    var messages: seq<Message>
    var triggers: seq<Trigger>

    /** The store, seeded with the given messages and triggers. */
    constructor (messages: seq<Message>, triggers: seq<Trigger>)
      ensures this.messages == messages && this.triggers == triggers
    {
      this.messages := messages;
      this.triggers := triggers;
    }

    /** `getPublishedMessages`: exactly the published messages, each as often
        as in the store, in store order. */
    function PublishedMessages(): (r: seq<Message>)
      reads this
      ensures Subsequence(r, messages)
      ensures forall m :: m in r <==> m in messages && m.status == Some(PublishedStatus)
      ensures forall m :: multiset(r)[m] ==
                          if m.status == Some(PublishedStatus) then multiset(messages)[m] else 0
    {
      FilterSpec(messages, IsPublished());
      Filter(messages, IsPublished())
    }

    /** `getMessageById`: the first message carrying the id, if any. */
    function MessageById(id: Option<string>): (r: Option<Message>)
      reads this
      ensures r.None? <==> forall i :: 0 <= i < |messages| ==> messages[i].messageId != id
      ensures r.Some? ==> exists i :: 0 <= i < |messages| && messages[i] == r.value &&
                            r.value.messageId == id &&
                            forall j :: 0 <= j < i ==> messages[j].messageId != id
    {
      Find(messages, HasMessageId(id))
    }

    /** `findMatchingTriggers`: a missing text, or a `keyword_match` trigger
        with no value, throws; otherwise exactly the triggers whose keywords
        occur in the lowercased, trimmed text, in store order. */
    function FindMatchingTriggers(messageText: Option<string>): (r: Result<seq<Trigger>, Failure>)
      reads this
      ensures r.Err? ==> r.error == TypeError
      ensures r.Err? <==> messageText.None? ||
                          exists i :: 0 <= i < |triggers| && triggers[i].triggerType == Some(KeywordMatch) &&
                                      triggers[i].triggerValue.None?
      ensures r.Ok? ==> Subsequence(r.value, triggers)
      ensures r.Ok? ==> forall t :: t in r.value <==> t in triggers && MatchesText(t, Normalize(messageText.value))
      ensures r.Ok? ==> forall t :: multiset(r.value)[t] ==
                          if MatchesText(t, Normalize(messageText.value)) then multiset(triggers)[t] else 0
    {
      if messageText.None? then Err(TypeError)
      else
        var text := Normalize(messageText.value);
        // Every trigger is tested, so the filter throws if any trigger throws.
        if FindIndex(triggers, LacksKeyword()) >= 0 then Err(TypeError)
        else
          FilterSpec(triggers, KeywordHit(text));
          KeywordHitMeaning(text);
          Ok(Filter(triggers, KeywordHit(text)))
    }

    /** `findButtonTrigger`: the first `button_click` trigger for the id. */
    function FindButtonTrigger(buttonId: Option<string>): (r: Option<Trigger>)
      reads this
      ensures r.None? <==> forall i :: 0 <= i < |triggers| ==>
                             !(triggers[i].triggerType == Some(ButtonClick) && ValueIs(triggers[i].triggerValue, buttonId))
      ensures r.Some? ==> exists i :: 0 <= i < |triggers| && triggers[i] == r.value &&
                            r.value.triggerType == Some(ButtonClick) && ValueIs(r.value.triggerValue, buttonId) &&
                            forall j :: 0 <= j < i ==>
                              !(triggers[j].triggerType == Some(ButtonClick) && ValueIs(triggers[j].triggerValue, buttonId))
    {
      Find(triggers, InteractiveTrigger(ButtonClick, buttonId))
    }

    /** `findListTrigger`: the first `list_selection` trigger for the id. */
    function FindListTrigger(listItemId: Option<string>): (r: Option<Trigger>)
      reads this
      ensures r.None? <==> forall i :: 0 <= i < |triggers| ==>
                             !(triggers[i].triggerType == Some(ListSelection) && ValueIs(triggers[i].triggerValue, listItemId))
      ensures r.Some? ==> exists i :: 0 <= i < |triggers| && triggers[i] == r.value &&
                            r.value.triggerType == Some(ListSelection) && ValueIs(r.value.triggerValue, listItemId) &&
                            forall j :: 0 <= j < i ==>
                              !(triggers[j].triggerType == Some(ListSelection) && ValueIs(triggers[j].triggerValue, listItemId))
    {
      Find(triggers, InteractiveTrigger(ListSelection, listItemId))
    }

    /** `processInteractiveResponse`: a button reply goes to the button
        lookup, a list reply to the list lookup, anything else matches
        nothing; a hit comes with the message its `targetId` names. Reading
        the reply of the announced kind throws when it is missing. */
    function ProcessInteractiveResponse(data: Interactive): (r: Result<Option<InteractiveMatch>, Failure>)
      reads this
      ensures r.Err? <==> (data.replyType == Some(ButtonReply) && data.buttonReply.None?) ||
                          (data.replyType == Some(ListReply) && data.listReply.None?)
      ensures r.Ok? && data.replyType == Some(ButtonReply) ==>
                data.buttonReply.Some? && (r.value.Some? <==> FindButtonTrigger(data.buttonReply.value.id).Some?)
      ensures r.Ok? && data.replyType == Some(ListReply) ==>
                data.listReply.Some? && (r.value.Some? <==> FindListTrigger(data.listReply.value.id).Some?)
      ensures r.Ok? && data.replyType != Some(ButtonReply) && data.replyType != Some(ListReply) ==>
                r.value.None?
      ensures r.Ok? && r.value.Some? && data.replyType == Some(ButtonReply) ==>
                r.value.value.trigger == FindButtonTrigger(data.buttonReply.value.id).value
      ensures r.Ok? && r.value.Some? && data.replyType == Some(ListReply) ==>
                r.value.value.trigger == FindListTrigger(data.listReply.value.id).value
      ensures r.Ok? && r.value.Some? ==>
                r.value.value.nextMessage == MessageById(r.value.value.trigger.targetId) &&
                r.value.value.trigger in triggers
    {
      var found :=
        if data.replyType == Some(ButtonReply) then
          if data.buttonReply.None? then Err(TypeError) else Ok(FindButtonTrigger(data.buttonReply.value.id))
        else if data.replyType == Some(ListReply) then
          if data.listReply.None? then Err(TypeError) else Ok(FindListTrigger(data.listReply.value.id))
        else Ok(None);
      if found.Err? then Err(found.error)
      else if found.value.None? then Ok(None)
      else Ok(Some(InteractiveMatch(found.value.value, MessageById(found.value.value.targetId))))
    }

    /** `getMessageButtons`: nothing for a missing message or one without
        buttons, a throw for a message with no `contentPayload`, else one
        entry per button, in order. */
    function MessageButtons(messageId: Option<string>): (r: Result<seq<ButtonInfo>, Failure>)
      reads this
      ensures var m := MessageById(messageId);
        && (r.Err? <==> m.Some? && m.value.contentPayload.None?)
        && (m.None? ==> r == Ok([]))
        && (m.Some? && m.value.contentPayload.Some? && m.value.contentPayload.value.buttons.None? ==> r == Ok([]))
        && (m.Some? && m.value.contentPayload.Some? && m.value.contentPayload.value.buttons.Some? ==>
              var bs := m.value.contentPayload.value.buttons.value;
              r.Ok? && |r.value| == |bs| &&
              forall i :: 0 <= i < |bs| ==>
                r.value[i].buttonId == bs[i].buttonId && r.value[i].title == bs[i].title &&
                r.value[i].triggerId == bs[i].triggerId && r.value[i].nextAction == bs[i].nextAction &&
                r.value[i].targetMessageId == bs[i].targetMessageId)
    {
      var m := MessageById(messageId);
      if m.None? then Ok([])
      else if m.value.contentPayload.None? then Err(TypeError)
      else if m.value.contentPayload.value.buttons.None? then Ok([])
      else
        var bs := m.value.contentPayload.value.buttons.value;
        Ok(seq(|bs|, i requires 0 <= i < |bs| =>
          ButtonInfo(bs[i].buttonId, bs[i].title, bs[i].triggerId, bs[i].nextAction, bs[i].targetMessageId)))
    }

    /** What `getMessageListOptions` answers for a message id. */
    function ListOptions(messageId: Option<string>): (r: Result<seq<ListOption>, Failure>)
      reads this
      ensures var m := MessageById(messageId);
        && (m.None? ==> r == Ok([]))
        && (m.Some? && m.value.contentPayload.Some? && m.value.contentPayload.value.sections.None? ==> r == Ok([]))
        && (r.Err? <==>
              (m.Some? &&
               (m.value.contentPayload.None? ||
                (m.value.contentPayload.value.sections.Some? &&
                 exists i :: 0 <= i < |m.value.contentPayload.value.sections.value| &&
                             m.value.contentPayload.value.sections.value[i].rows.None?))))
        && (r.Ok? && m.Some? && m.value.contentPayload.value.sections.Some? ==>
              r.value == Flatten(m.value.contentPayload.value.sections.value) &&
              |r.value| == RowCount(m.value.contentPayload.value.sections.value))
    {
      var m := MessageById(messageId);
      if m.None? then Ok([])
      else if m.value.contentPayload.None? then Err(TypeError)
      else if m.value.contentPayload.value.sections.None? then Ok([])
      else ListOptionsOf(m.value.contentPayload.value.sections.value)
    }

    /** `getMessageListOptions`: pushes one option per row, section by
        section; a section without `rows` stops it with a throw. */
    method GetMessageListOptions(messageId: Option<string>) returns (r: Result<seq<ListOption>, Failure>)
      ensures r == ListOptions(messageId)
    {
      var message := MessageById(messageId);
      if message.None? {
        return Ok([]);
      }
      if message.value.contentPayload.None? {
        return Err(TypeError);
      }
      if message.value.contentPayload.value.sections.None? {
        return Ok([]);
      }
      r := CollectOptions(message.value.contentPayload.value.sections.value);
    }

    /** `addMessage`: appends exactly one record and returns it. */
    method AddMessage(data: Message, generatedId: string, now: string) returns (m: Message)
      modifies this
      ensures m == NewMessage(data, generatedId, now)
      ensures messages == old(messages) + [m]
      ensures triggers == old(triggers)
    {
      m := NewMessage(data, generatedId, now);
      messages := messages + [m];
    }

    /** `addTrigger`: appends exactly one record and returns it. */
    method AddTrigger(data: Trigger, generatedId: string, now: string) returns (t: Trigger)
      modifies this
      ensures t == NewTrigger(data, generatedId, now)
      ensures triggers == old(triggers) + [t]
      ensures messages == old(messages)
    {
      t := NewTrigger(data, generatedId, now);
      triggers := triggers + [t];
    }
  }

  /** After `addMessage`, looking the new id up finds the new record unless
      an earlier message already carried that id. */
  lemma AddedMessageFound(before: seq<Message>, m: Message)
    requires forall i :: 0 <= i < |before| ==> before[i].messageId != m.messageId
    ensures Find(before + [m], HasMessageId(m.messageId)) == Some(m)
  {
    var s := before + [m];
    assert s[|before|] == m;
    assert forall j :: 0 <= j < |before| ==> !HasMessageId(m.messageId)(s[j]);
  }
}
