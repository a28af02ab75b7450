/** The payload-building half of `sendLibraryMessage`: from a library message
    and a recipient, the WhatsApp Cloud API request the service would post
    (its URL, its authorization header and its JSON body). */
module Payload {
  import opened Common
  import opened MessageLibrary

  /** The three environment variables the send path reads. */
  datatype Env = Env(phoneNumberId: Option<string>, accessToken: Option<string>,
                     apiVersion: Option<string>)

  const DefaultApiVersion: string := "v22.0"
  const StandardText: string := "standard_text"
  const InteractiveButton: string := "interactive_button"
  const InteractiveList: string := "interactive_list"
  const DefaultListButton: string := "View Options"
  const MaxButtons: nat := 3

  /** `{ type: 'reply', reply: { id, title } }`. */
  datatype ReplyButton = ReplyButton(id: Option<string>, title: Option<string>)

  /** `{ id, title, description }` of a list row. */
  datatype ListRow = ListRow(id: Option<string>, title: Option<string>, description: Option<string>)

  datatype ListSection = ListSection(title: Option<string>, rows: seq<ListRow>)

  /** The message-specific part of the JSON body. A `header` or `footer` of
      `None` is a property the payload leaves out. */
  datatype Outbound =
    | Text(previewUrl: bool, body: Option<string>)
    | ButtonCard(header: Option<string>, text: string, footer: Option<string>, buttons: seq<ReplyButton>)
    | ListCard(header: Option<string>, text: string, footer: Option<string>,
               button: string, sections: seq<ListSection>)

  /** `{ messaging_product, recipient_type, to, type, ... }`. */
  datatype Envelope = Envelope(messagingProduct: string, recipientType: string,
                               to: Option<string>, message: Outbound)

  /** What `axios.post(apiUrl, messagePayload, { headers })` is given. */
  datatype SendRequest = SendRequest(url: string, authorization: string, payload: Envelope)

  function ApiUrl(env: Env): string
    requires env.phoneNumberId.Some?
  {
    "https://graph.facebook.com/" + OrDefault(env.apiVersion, DefaultApiVersion) + "/" +
    env.phoneNumberId.value + "/messages"
  }

  function ReplyButtonOf(b: Button): ReplyButton {
    ReplyButton(OrElse(b.buttonId, b.id), b.title)
  }

  /** `(buttons || []).slice(0, 3).map(...)`. */
  function ReplyButtons(buttons: Option<seq<Button>>): (r: seq<ReplyButton>)
    ensures var bs := if buttons.Some? then buttons.value else [];
      && |r| == (if |bs| < MaxButtons then |bs| else MaxButtons)
      && forall i :: 0 <= i < |r| ==> r[i] == ReplyButtonOf(bs[i])
  {
    var bs := if buttons.Some? then buttons.value else [];
    var kept := if |bs| <= MaxButtons then bs else bs[..MaxButtons];
    seq(|kept|, i requires 0 <= i < |kept| => ReplyButtonOf(kept[i]))
  }

  function ListRowOf(r: Row): ListRow {
    ListRow(OrElse(r.rowId, r.id), r.title, r.description)
  }

  /** `(section.rows || []).map(...)`: unlike the list options lookup, a
      missing `rows` gives an empty list here. */
  function ListSectionOf(s: Section): (r: ListSection)
    ensures r.title == s.title
    ensures |r.rows| == |RowsOf(s)|
    ensures forall j :: 0 <= j < |r.rows| ==> r.rows[j] == ListRowOf(RowsOf(s)[j])
  {
    var rows := RowsOf(s);
    ListSection(s.title, seq(|rows|, j requires 0 <= j < |rows| => ListRowOf(rows[j])))
  }

  function ListSections(sections: Option<seq<Section>>): (r: seq<ListSection>)
    ensures var ss := if sections.Some? then sections.value else [];
      |r| == |ss| && forall i :: 0 <= i < |r| ==> r[i] == ListSectionOf(ss[i])
  {
    var ss := if sections.Some? then sections.value else [];
    seq(|ss|, i requires 0 <= i < |ss| => ListSectionOf(ss[i]))
  }

  /** `if (payload.header) interactive.header = ...`: kept only when truthy. */
  function Present(s: Option<string>): (r: Option<string>)
    ensures r.Some? <==> Truthy(s)
    ensures r.Some? ==> r == s
  {
    if Truthy(s) then s else None
  }

  /** The three types the switch handles. */
  predicate Supported(messageType: Option<string>) {
    messageType == Some(StandardText) || messageType == Some(InteractiveButton) ||
    messageType == Some(InteractiveList)
  }

  /** The `switch (messageEntry.type)`. An unsupported type throws, and so
      does reading `contentPayload` of a supported message that has none. A
      `standard_text` message becomes a text body carrying its content's
      `body`, with link previews off. A button message carries at most three
      buttons, the first ones of the message, each replying with its
      `buttonId`, or `id` when that is empty. A list message keeps every
      section and every row, each row answering with its `rowId`, or `id`
      when that is empty, and its button label defaults to "View Options".
      Both interactive bodies default their text to the empty string and
      carry the message's header or footer text only when it is non-empty. */
  function BodyOf(entry: Message): (r: Result<Outbound, Failure>)
    ensures r == Err(UnsupportedType(entry.messageType)) <==> !Supported(entry.messageType)
    ensures r == Err(TypeError) <==> Supported(entry.messageType) && entry.contentPayload.None?
    ensures r.Ok? <==> Supported(entry.messageType) && entry.contentPayload.Some?
    ensures entry.messageType == Some(StandardText) && r.Ok? ==>
      r.value == Text(false, entry.contentPayload.value.body)
    ensures entry.messageType == Some(InteractiveButton) && r.Ok? ==>
      var p := entry.contentPayload.value;
      var bs := if p.buttons.Some? then p.buttons.value else [];
      && r.value.ButtonCard?
      && |r.value.buttons| <= MaxButtons
      && |r.value.buttons| == (if |bs| < MaxButtons then |bs| else MaxButtons)
      && (forall i :: 0 <= i < |r.value.buttons| ==>
            r.value.buttons[i].title == bs[i].title &&
            r.value.buttons[i].id == (if Truthy(bs[i].buttonId) then bs[i].buttonId else bs[i].id))
      && (r.value.text == if Truthy(p.body) then p.body.value else "")
      && (r.value.header.Some? <==> Truthy(p.header)) && r.value.header == Present(p.header)
      && (r.value.footer.Some? <==> Truthy(p.footer)) && r.value.footer == Present(p.footer)
    ensures entry.messageType == Some(InteractiveList) && r.Ok? ==>
      var p := entry.contentPayload.value;
      var ss := if p.sections.Some? then p.sections.value else [];
      && r.value.ListCard?
      && r.value.sections == ListSections(p.sections)
      && |r.value.sections| == |ss|
      && (forall i :: 0 <= i < |ss| ==>
            && r.value.sections[i].title == ss[i].title
            && |r.value.sections[i].rows| == |RowsOf(ss[i])|
            && forall j :: 0 <= j < |RowsOf(ss[i])| ==>
                 && r.value.sections[i].rows[j].id ==
                    (if Truthy(RowsOf(ss[i])[j].rowId) then RowsOf(ss[i])[j].rowId else RowsOf(ss[i])[j].id)
                 && r.value.sections[i].rows[j].title == RowsOf(ss[i])[j].title
                 && r.value.sections[i].rows[j].description == RowsOf(ss[i])[j].description)
      && (r.value.button == if Truthy(p.buttonText) then p.buttonText.value else DefaultListButton)
      && (r.value.text == if Truthy(p.body) then p.body.value else "")
      && (r.value.header.Some? <==> Truthy(p.header)) && r.value.header == Present(p.header)
      && (r.value.footer.Some? <==> Truthy(p.footer)) && r.value.footer == Present(p.footer)
  {
    if entry.messageType == Some(StandardText) then
      if entry.contentPayload.None? then Err(TypeError)
      else Ok(Text(false, entry.contentPayload.value.body))
    else if entry.messageType == Some(InteractiveButton) then
      if entry.contentPayload.None? then Err(TypeError)
      else
        var p := entry.contentPayload.value;
        Ok(ButtonCard(Present(p.header), OrDefault(p.body, ""), Present(p.footer), ReplyButtons(p.buttons)))
    else if entry.messageType == Some(InteractiveList) then
      if entry.contentPayload.None? then Err(TypeError)
      else
        var p := entry.contentPayload.value;
        Ok(ListCard(Present(p.header), OrDefault(p.body, ""), Present(p.footer),
                    OrDefault(p.buttonText, DefaultListButton), ListSections(p.sections)))
    else Err(UnsupportedType(entry.messageType))
  }

  /** The request `sendLibraryMessage` posts for `entry` and the recipient.
      Without both credentials nothing is built, whatever the message; with
      them, the body's failure is the request's, and a request goes to the
      configured API version (`v22.0` by default) and phone number, with a
      bearer token, addressed to the recipient. */
  function BuildSendRequest(entry: Message, recipient: Option<string>, env: Env): (r: Result<SendRequest, Failure>)
    ensures !Truthy(env.phoneNumberId) || !Truthy(env.accessToken) ==> r == Err(MissingCredentials)
    ensures Truthy(env.phoneNumberId) && Truthy(env.accessToken) ==>
      && (r.Err? <==> BodyOf(entry).Err?)
      && (r.Err? ==> r.error == BodyOf(entry).error)
      && (r.Ok? ==>
            && r.value.url == "https://graph.facebook.com/" + OrDefault(env.apiVersion, DefaultApiVersion) +
                              "/" + env.phoneNumberId.value + "/messages"
            && r.value.authorization == "Bearer " + env.accessToken.value
            && r.value.payload == Envelope("whatsapp", "individual", recipient, BodyOf(entry).value))
  {
    if !Truthy(env.phoneNumberId) || !Truthy(env.accessToken) then Err(MissingCredentials)
    else
      var body := BodyOf(entry);
      if body.Err? then Err(body.error)
      else Ok(SendRequest(ApiUrl(env), "Bearer " + env.accessToken.value,
                          Envelope("whatsapp", "individual", recipient, body.value)))
  }
}
