/**
 * The request payload schema of the automation endpoint: a zod object with a
 * required non-empty `message`, a `channel` enumeration defaulting to "chat",
 * and an optional `customerName`. Zod checks the three properties in order,
 * collects one issue per bad property, and drops properties it does not know.
 */
module PayloadSchema {
  import opened Results
  import opened Json

  /** The communication channel a message arrived on. */
  datatype Channel = Chat | Email | Call

  /** A payload once the schema has accepted it; `channel` is already defaulted. */
  datatype Payload = Payload(message: string, channel: Channel, customerName: Option<string>)

  /** The zod issue codes this schema can raise. */
  datatype IssueCode = InvalidType | TooSmall | InvalidEnumValue

  /** One validation issue: the property path it concerns and its code. */
  datatype Issue = Issue(path: seq<string>, code: IssueCode)

  const MessageKey: string := "message"
  const ChannelKey: string := "channel"
  const CustomerNameKey: string := "customerName"

  /** The channel used when the payload has no `channel` property. */
  const DefaultChannel: Channel := Chat

  /** The literal that names each channel on the wire. */
  function ChannelName(c: Channel): string
  {
    match c
    case Chat => "chat"
    case Email => "email"
    case Call => "call"
  }

  /** `z.enum(["chat", "email", "call"])` applied to a string. */
  function ParseChannel(s: string): (r: Option<Channel>)
    ensures r.Some? <==> s == "chat" || s == "email" || s == "call"
    ensures r.Some? ==> ChannelName(r.value) == s
  {
    if s == "chat" then Some(Chat)
    else if s == "email" then Some(Email)
    else if s == "call" then Some(Call)
    else None
  }

  lemma ChannelNameRoundTrip(c: Channel)
    ensures ParseChannel(ChannelName(c)) == Some(c)
  {
  }

  /** `z.string().min(1)` on the `message` property; the string is not trimmed. */
  function ParseMessage(v: Option<Json>): Result<string, Issue>
  {
    match v
    case Some(JString(s)) =>
      if |s| >= 1 then Ok(s) else Err(Issue([MessageKey], TooSmall))
    case _ => Err(Issue([MessageKey], InvalidType))
  }

  /** `z.enum(...).default("chat")` on the `channel` property. */
  function ParseChannelField(v: Option<Json>): Result<Channel, Issue>
  {
    match v
    case None => Ok(DefaultChannel)
    case Some(JString(s)) =>
      (match ParseChannel(s)
       case Some(c) => Ok(c)
       case None => Err(Issue([ChannelKey], InvalidEnumValue)))
    case Some(_) => Err(Issue([ChannelKey], InvalidType))
  }

  /** `z.string().optional()` on the `customerName` property. */
  function ParseCustomerName(v: Option<Json>): Result<Option<string>, Issue>
  {
    match v
    case None => Ok(None)
    case Some(JString(s)) => Ok(Some(s))
    case Some(_) => Err(Issue([CustomerNameKey], InvalidType))
  }

  /** The issues a property check contributes to the error: none or its one issue. */
  function IssuesOf<T>(r: Result<T, Issue>): seq<Issue>
  {
    if r.Err? then [r.error] else []
  }

  /**
   * Reference statement of what the schema accepts: an object whose `message`
   * is a string of length at least one, whose `channel`, if present, is one of
   * the three literals, and whose `customerName`, if present, is a string.
   */
  ghost predicate Acceptable(j: Json)
  {
    && j.JObject?
    && MessageKey in j.fields && j.fields[MessageKey].JString? && |j.fields[MessageKey].s| >= 1
    && (ChannelKey in j.fields ==>
          j.fields[ChannelKey] == JString("chat")
          || j.fields[ChannelKey] == JString("email")
          || j.fields[ChannelKey] == JString("call"))
    && (CustomerNameKey in j.fields ==> j.fields[CustomerNameKey].JString?)
  }

  /** True when the issue list reports a problem with property `key`. */
  predicate Reports(issues: seq<Issue>, key: string)
  {
    exists k :: 0 <= k < |issues| && issues[k].path == [key]
  }

  /**
   * `payloadSchema.parse(json)`: the accepted payload, or the issues of the
   * ZodError it throws.
   */
  function Validate(j: Json): (r: Result<Payload, seq<Issue>>)
    ensures r.Ok? <==> Acceptable(j)
    ensures r.Ok? ==> JString(r.value.message) == j.fields[MessageKey]
    ensures r.Ok? && ChannelKey !in j.fields ==> r.value.channel == Chat
    ensures r.Ok? && ChannelKey in j.fields ==> j.fields[ChannelKey] == JString(ChannelName(r.value.channel))
    ensures r.Ok? && CustomerNameKey !in j.fields ==> r.value.customerName == None
    ensures r.Ok? && CustomerNameKey in j.fields ==>
              r.value.customerName.Some? && j.fields[CustomerNameKey] == JString(r.value.customerName.value)
    ensures r.Err? ==> |r.error| > 0
  {
    if !j.JObject? then Err([Issue([], InvalidType)])
    else
      var message := ParseMessage(Get(j, MessageKey));
      var channel := ParseChannelField(Get(j, ChannelKey));
      var name := ParseCustomerName(Get(j, CustomerNameKey));
      if message.Ok? && channel.Ok? && name.Ok? then
        Ok(Payload(message.value, channel.value, name.value))
      else
        Err(IssuesOf(message) + IssuesOf(channel) + IssuesOf(name))
  }

  /**
   * When an object is refused, the ZodError names exactly the properties that
   * break their rule, each once. The route discards these issues (route.ts
   * answers every ZodError with one fixed text), so they are not visible to a
   * caller of the endpoint.
   */
  lemma IssuesNameTheFailingProperties(j: Json)
    requires j.JObject? && Validate(j).Err?
    ensures Reports(Validate(j).error, MessageKey) <==>
              !(MessageKey in j.fields && j.fields[MessageKey].JString? && |j.fields[MessageKey].s| >= 1)
    ensures Reports(Validate(j).error, ChannelKey) <==>
              && ChannelKey in j.fields
              && j.fields[ChannelKey] != JString("chat")
              && j.fields[ChannelKey] != JString("email")
              && j.fields[ChannelKey] != JString("call")
    ensures Reports(Validate(j).error, CustomerNameKey) <==>
              CustomerNameKey in j.fields && !j.fields[CustomerNameKey].JString?
    ensures |Validate(j).error| <= 3
  {
    var message := ParseMessage(Get(j, MessageKey));
    var channel := ParseChannelField(Get(j, ChannelKey));
    var name := ParseCustomerName(Get(j, CustomerNameKey));
    var issues := IssuesOf(message) + IssuesOf(channel) + IssuesOf(name);
    assert Validate(j).error == issues;
    assert forall k :: 0 <= k < |issues| ==> issues[k] in IssuesOf(message) + IssuesOf(channel) + IssuesOf(name);
    if message.Err? { assert issues[0].path == [MessageKey]; }
    if channel.Err? { assert issues[|IssuesOf(message)|].path == [ChannelKey]; }
    if name.Err? { assert issues[|issues| - 1].path == [CustomerNameKey]; }
  }

  /**
   * The characters JavaScript's `String.prototype.trim` removes: the white
   * space and line terminator characters of ECMAScript.
   */
  predicate IsWhitespace(c: char)
  {
    || c == ' ' || c == '\t' || c == '\n' || c == '\r' || c == '\U{000B}' || c == '\U{000C}'
    || c == '\U{00A0}' || c == '\U{1680}' || ('\U{2000}' <= c <= '\U{200A}') || c == '\U{2028}'
    || c == '\U{2029}' || c == '\U{202F}' || c == '\U{205F}' || c == '\U{3000}' || c == '\U{FEFF}'
  }

  /**
   * The schema does not trim: any non-empty message made only of whitespace is
   * accepted, while the empty message is refused with a too-small issue on
   * `message`.
   */
  lemma WhitespaceMessageAccepted(j: Json, s: string)
    requires j.JObject? && MessageKey in j.fields && j.fields[MessageKey] == JString(s)
    requires |s| >= 1 && forall k :: 0 <= k < |s| ==> IsWhitespace(s[k])
    requires ChannelKey !in j.fields && CustomerNameKey !in j.fields
    ensures Validate(j) == Ok(Payload(s, Chat, None))
    ensures Validate(JObject(map[MessageKey := JString("")])) == Err([Issue([MessageKey], TooSmall)])
  {
    var issue := Issue([MessageKey], TooSmall);
    assert [issue] + [] + [] == [issue];
  }

  /**
   * Properties outside the schema are stripped: adding one never changes the
   * outcome of validation.
   */
  lemma UnknownPropertiesIgnored(j: Json, key: string, v: Json)
    requires j.JObject?
    requires key != MessageKey && key != ChannelKey && key != CustomerNameKey
    ensures Validate(JObject(j.fields[key := v])) == Validate(j)
  {
  }

  /**
   * The body the browser client sends, `JSON.stringify({ message, channel,
   * customerName })`; an absent `customerName` is omitted by stringify.
   */
  function RequestBody(p: Payload): Json
  {
    var fields := map[MessageKey := JString(p.message), ChannelKey := JString(ChannelName(p.channel))];
    match p.customerName
    case None => JObject(fields)
    case Some(name) => JObject(fields[CustomerNameKey := JString(name)])
  }

  /** Every payload with a non-empty message survives the trip through its request body. */
  lemma RequestBodyRoundTrip(p: Payload)
    requires |p.message| >= 1
    ensures Validate(RequestBody(p)) == Ok(p)
  {
  }
}
