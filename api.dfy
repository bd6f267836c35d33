/**
 * The POST handler of the automation endpoint: parse and validate the body,
 * classify the message, run the one handler the dispatch selects, and answer
 * with the `{ intent, reply, time }` envelope, or with `{ error }` and status
 * 400 when anything throws.
 */
module Api {
  import opened Results
  import opened Json
  import opened PayloadSchema
  import opened Dispatch

  /** What can reach the `catch` block. */
  datatype Thrown =
    | ZodError(issues: seq<Issue>)
    | JsonSyntaxError
    | ServiceError(description: string)

  /** The outcome of `await request.json()`. */
  datatype Body = Parsed(json: Json) | Malformed

  /**
   * The AI library, whose functions are opaque: each returns its text or
   * throws. Whatever they throw is passed on unchanged.
   */
  datatype Library = Library(
    detectIntent: string -> Result<string, Thrown>,
    salesAutomation: string -> Result<string, Thrown>,
    supportAutomation: string -> Result<string, Thrown>,
    paymentAutomation: () -> Result<string, Thrown>,
    callAutomation: string -> Result<string, Thrown>,
    gmailAutomation: string -> Result<string, Thrown>,
    generalAutomation: string -> Result<string, Thrown>)

  /** The outcome of running one invocation against the library. */
  function Run(lib: Library, inv: Invocation): Result<string, Thrown>
    requires |inv.args| == Arity(inv.automation)
  {
    match inv.automation
    case SalesAutomation => lib.salesAutomation(inv.args[0])
    case SupportAutomation => lib.supportAutomation(inv.args[0])
    case PaymentAutomation => lib.paymentAutomation()
    case CallAutomation => lib.callAutomation(inv.args[0])
    case GmailAutomation => lib.gmailAutomation(inv.args[0])
    case GeneralAutomation => lib.generalAutomation(inv.args[0])
  }

  /** One call the handler makes into the library, in the order made. */
  datatype Call = DetectIntent(message: string) | Automate(invocation: Invocation)

  /** The result a successful request returns. */
  datatype AutomationResult = AutomationResult(intent: string, reply: string, time: string)

  /** An HTTP response: its status and its JSON body. */
  datatype Response = Response(status: int, body: Json)

  const InvalidPayloadMessage: string := "Invalid payload. Please check your request body."
  const GenericFailureMessage: string := "Unable to generate response. Verify your OpenAI credentials."

  /** The text the `catch` block answers with: it depends only on whether a ZodError was thrown. */
  function ErrorMessage(e: Thrown): (m: string)
    ensures m == InvalidPayloadMessage <==> e.ZodError?
    ensures m == GenericFailureMessage <==> !e.ZodError?
  {
    if e.ZodError? then InvalidPayloadMessage else GenericFailureMessage
  }

  /** `NextResponse.json({ intent, reply, time })`, status 200. */
  function SuccessResponse(r: AutomationResult): (resp: Response)
    ensures resp.status == 200
    ensures resp.body.JObject? && resp.body.fields.Keys == {"intent", "reply", "time"}
  {
    Response(200, JObject(map["intent" := JString(r.intent), "reply" := JString(r.reply), "time" := JString(r.time)]))
  }

  /** `NextResponse.json({ error: message }, { status: 400 })`. */
  function ErrorResponse(message: string): (resp: Response)
    ensures resp.status == 400
    ensures resp.body.JObject? && resp.body.fields.Keys == {"error"}
  {
    Response(400, JObject(map["error" := JString(message)]))
  }

  /** `response.ok`: the status is in the 2xx range. */
  predicate IsOk(resp: Response)
  {
    200 <= resp.status < 300
  }

  /** The result a caller reads from a response body: the three string fields, if all are there. */
  function ReadResult(body: Json): Option<AutomationResult>
  {
    match (GetString(body, "intent"), GetString(body, "reply"), GetString(body, "time"))
    case (Some(intent), Some(reply), Some(time)) => Some(AutomationResult(intent, reply, time))
    case _ => None
  }

  /** The error text a caller reads from a failed response, `body?.error`. */
  function ReadError(body: Json): Option<string>
  {
    GetString(body, "error")
  }

  /**
   * The envelope is read back as it was written: a success carries the whole
   * result and no error, a failure carries its message and no partial result.
   */
  lemma EnvelopeRoundTrip(r: AutomationResult, message: string)
    ensures IsOk(SuccessResponse(r)) && ReadResult(SuccessResponse(r).body) == Some(r)
    ensures ReadError(SuccessResponse(r).body) == None
    ensures !IsOk(ErrorResponse(message)) && ReadError(ErrorResponse(message).body) == Some(message)
    ensures ReadResult(ErrorResponse(message).body) == None
  {
  }

  /**
   * `POST(request)`. The body, the library and the clock reading `now` are
   * parameters; `calls` lists the calls made into the library, in order.
   */
  method Post(body: Body, lib: Library, now: string) returns (response: Response, calls: seq<Call>)
    ensures response.status == 200 || response.status == 400
    ensures body.Malformed? ==> response == ErrorResponse(GenericFailureMessage) && calls == []
    ensures body.Parsed? && Validate(body.json).Err? ==>
              response == ErrorResponse(InvalidPayloadMessage) && calls == []
    ensures body.Parsed? && Validate(body.json).Ok? ==>
              var p := Validate(body.json).value;
              match lib.detectIntent(p.message)
              case Err(e) =>
                calls == [DetectIntent(p.message)] && response == ErrorResponse(ErrorMessage(e))
              case Ok(intent) =>
                var inv := SelectHandler(IntentOf(intent), p);
                && calls == [DetectIntent(p.message), Automate(inv)]
                && response == match Run(lib, inv)
                                case Ok(reply) => SuccessResponse(AutomationResult(intent, reply, now))
                                case Err(e) => ErrorResponse(ErrorMessage(e))
  {
    calls := [];
    if body.Malformed? {
      response := ErrorResponse(ErrorMessage(JsonSyntaxError));
      return;
    }
    var parsed := Validate(body.json);
    if parsed.Err? {
      response := ErrorResponse(ErrorMessage(ZodError(parsed.error)));
      return;
    }
    var payload := parsed.value;

    calls := calls + [DetectIntent(payload.message)];
    var detected := lib.detectIntent(payload.message);
    if detected.Err? {
      response := ErrorResponse(ErrorMessage(detected.error));
      return;
    }
    var intent := detected.value;

    var reply: Result<string, Thrown>;
    if intent == "BUY" {
      calls := calls + [Automate(Invocation(SalesAutomation, [payload.message]))];
      reply := lib.salesAutomation(payload.message);
    } else if intent == "SELL" {
      calls := calls + [Automate(Invocation(SalesAutomation, [SellerInquiry]))];
      reply := lib.salesAutomation(SellerInquiry);
    } else if intent == "SUPPORT" {
      calls := calls + [Automate(Invocation(SupportAutomation, [payload.message]))];
      reply := lib.supportAutomation(payload.message);
    } else if intent == "PAYMENT" {
      calls := calls + [Automate(Invocation(PaymentAutomation, []))];
      reply := lib.paymentAutomation();
    } else if intent == "CALL" {
      var name := NameOrDefault(payload.customerName);
      calls := calls + [Automate(Invocation(CallAutomation, [name]))];
      reply := lib.callAutomation(name);
    } else if payload.channel == Email {
      calls := calls + [Automate(Invocation(GmailAutomation, [payload.message]))];
      reply := lib.gmailAutomation(payload.message);
    } else {
      calls := calls + [Automate(Invocation(GeneralAutomation, [payload.message]))];
      reply := lib.generalAutomation(payload.message);
    }
    if reply.Err? {
      response := ErrorResponse(ErrorMessage(reply.error));
      return;
    }

    response := SuccessResponse(AutomationResult(intent, reply.value, now));
  }
}
