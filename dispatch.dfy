/**
 * The `switch (intent)` of the automation endpoint: which automation handler
 * answers a request, and with which argument, given the classifier's label
 * and the validated payload.
 */
module Dispatch {
  import opened Results
  import opened PayloadSchema

  /**
   * The classifier's label as the switch sees it. The classifier returns
   * arbitrary text; everything that is not one of the five named labels
   * falls to the default arm, kept here as `Other`.
   */
  datatype IntentCase = Buy | Sell | Support | Payment | CallRequest | Other(name: string)

  /** The cases a label can select: `Other` never carries one of the five named labels. */
  type Intent = i: IntentCase | !i.Other? || !IsNamedIntent(i.name) witness Buy

  /** The five labels that have a case of their own. */
  predicate IsNamedIntent(name: string)
  {
    name == "BUY" || name == "SELL" || name == "SUPPORT" || name == "PAYMENT" || name == "CALL"
  }

  /** The text of an intent. */
  function LabelOf(i: Intent): string
  {
    match i
    case Buy => "BUY"
    case Sell => "SELL"
    case Support => "SUPPORT"
    case Payment => "PAYMENT"
    case CallRequest => "CALL"
    case Other(name) => name
  }

  /** The case of the switch that a label selects (strict string equality). */
  function IntentOf(name: string): (i: Intent)
    ensures LabelOf(i) == name
    ensures i.Other? <==> !IsNamedIntent(name)
  {
    if name == "BUY" then Buy
    else if name == "SELL" then Sell
    else if name == "SUPPORT" then Support
    else if name == "PAYMENT" then Payment
    else if name == "CALL" then CallRequest
    else Other(name)
  }

  /** Every case is selected by its own label, so labels and cases correspond one to one. */
  lemma IntentLabelRoundTrip(i: Intent)
    ensures IntentOf(LabelOf(i)) == i
  {
  }

  /** The six automation handlers of the AI library. */
  datatype Automation =
    | SalesAutomation
    | SupportAutomation
    | PaymentAutomation
    | CallAutomation
    | GmailAutomation
    | GeneralAutomation

  /** How many arguments each handler takes: the payment handler takes none. */
  function Arity(a: Automation): nat
  {
    if a == PaymentAutomation then 0 else 1
  }

  /** One call of one handler with its arguments. */
  datatype Invocation = Invocation(automation: Automation, args: seq<string>)

  /** The text the sales handler receives for a seller inquiry. */
  const SellerInquiry: string := "Handle seller inquiry"

  /** The name the call handler receives when the payload has no `customerName`. */
  const DefaultCustomerName: string := "Customer"

  /** `payload.customerName ?? "Customer"`: only an absent name is replaced. */
  function NameOrDefault(name: Option<string>): string
  {
    match name
    case Some(n) => n
    case None => DefaultCustomerName
  }

  /**
   * The handler the switch runs for `intent` and the argument it passes.
   * Each handler is reached from exactly the intents (and, for the two
   * fallbacks, channels) listed below, with the arity it declares.
   */
  function SelectHandler(intent: Intent, p: Payload): (inv: Invocation)
    ensures |inv.args| == Arity(inv.automation)
    ensures inv.automation == SalesAutomation <==> intent == Buy || intent == Sell
    ensures inv.automation == SupportAutomation <==> intent == Support
    ensures inv.automation == PaymentAutomation <==> intent == Payment
    ensures inv.automation == CallAutomation <==> intent == CallRequest
    ensures inv.automation == GmailAutomation <==> intent.Other? && p.channel == Email
    ensures inv.automation == GeneralAutomation <==> intent.Other? && p.channel != Email
    ensures intent == Sell ==> inv.args == [SellerInquiry]
    ensures intent == CallRequest ==> inv.args == [NameOrDefault(p.customerName)]
    ensures intent == Buy || intent == Support || intent.Other? ==> inv.args == [p.message]
  {
    match intent
    case Buy => Invocation(SalesAutomation, [p.message])
    case Sell => Invocation(SalesAutomation, [SellerInquiry])
    case Support => Invocation(SupportAutomation, [p.message])
    case Payment => Invocation(PaymentAutomation, [])
    case CallRequest => Invocation(CallAutomation, [NameOrDefault(p.customerName)])
    case Other(_) =>
      if p.channel == Email then Invocation(GmailAutomation, [p.message])
      else Invocation(GeneralAutomation, [p.message])
  }

  /** Which handler runs is decided by the intent and the channel alone. */
  lemma HandlerDependsOnIntentAndChannelOnly(intent: Intent, p: Payload, q: Payload)
    requires p.channel == q.channel
    ensures SelectHandler(intent, p).automation == SelectHandler(intent, q).automation
  {
  }

  // ---------------------------------------------------------------------------
  // The decision table written as data, an independent reference for the switch

  /** Where a handler argument comes from. */
  datatype Argument = TheMessage | CustomerNameOr(placeholder: string) | Literal(text: string)

  /** A handler together with the sources of its arguments. */
  datatype Route = Route(automation: Automation, args: seq<Argument>)

  /** One row of the decision table: a label and the route it selects. */
  datatype Rule = Rule(name: string, route: Route)

  /** The table of named intents, one row per label. */
  const DecisionTable: seq<Rule> := [
    Rule("BUY", Route(SalesAutomation, [TheMessage])),
    Rule("SELL", Route(SalesAutomation, [Literal(SellerInquiry)])),
    Rule("SUPPORT", Route(SupportAutomation, [TheMessage])),
    Rule("PAYMENT", Route(PaymentAutomation, [])),
    Rule("CALL", Route(CallAutomation, [CustomerNameOr(DefaultCustomerName)]))
  ]

  /** The route for labels without a row: the channel decides. */
  function FallbackRoute(c: Channel): Route
  {
    if c == Email then Route(GmailAutomation, [TheMessage]) else Route(GeneralAutomation, [TheMessage])
  }

  /** The route of the first row of `table` whose label is `name`. */
  function FindRule(table: seq<Rule>, name: string): (r: Option<Route>)
    ensures r.Some? <==> exists k :: 0 <= k < |table| && table[k].name == name
  {
    if table == [] then None
    else if table[0].name == name then Some(table[0].route)
    else FindRule(table[1..], name)
  }

  /** The first row with a matching label is the one found. */
  lemma {:induction false} FindRuleFirstMatch(table: seq<Rule>, name: string, k: nat)
    requires k < |table| && table[k].name == name
    requires forall j :: 0 <= j < k ==> table[j].name != name
    ensures FindRule(table, name) == Some(table[k].route)
  {
    if k > 0 {
      FindRuleFirstMatch(table[1..], name, k - 1);
    }
  }

  /** The value of one argument source for a payload. */
  function ArgumentValue(a: Argument, p: Payload): string
  {
    match a
    case TheMessage => p.message
    case CustomerNameOr(placeholder) =>
      (match p.customerName
       case Some(n) => n
       case None => placeholder)
    case Literal(text) => text
  }

  /** The call a route makes for a payload. */
  function Bind(r: Route, p: Payload): (inv: Invocation)
    ensures inv.automation == r.automation && |inv.args| == |r.args|
    ensures forall k :: 0 <= k < |r.args| ==> inv.args[k] == ArgumentValue(r.args[k], p)
  {
    Invocation(r.automation, seq(|r.args|, k requires 0 <= k < |r.args| => ArgumentValue(r.args[k], p)))
  }

  /** Routing by table lookup, with the channel fallback for labels without a row. */
  function TableDispatch(name: string, p: Payload): Invocation
  {
    match FindRule(DecisionTable, name)
    case Some(r) => Bind(r, p)
    case None => Bind(FallbackRoute(p.channel), p)
  }

  /** The switch and the decision table agree on every label and every payload. */
  lemma SwitchFollowsDecisionTable(name: string, p: Payload)
    ensures SelectHandler(IntentOf(name), p) == TableDispatch(name, p)
  {
    var t := DecisionTable;
    var inv := SelectHandler(IntentOf(name), p);
    if name == "BUY" {
      FindRuleFirstMatch(t, name, 0);
    } else if name == "SELL" {
      FindRuleFirstMatch(t, name, 1);
    } else if name == "SUPPORT" {
      FindRuleFirstMatch(t, name, 2);
    } else if name == "PAYMENT" {
      FindRuleFirstMatch(t, name, 3);
    } else if name == "CALL" {
      FindRuleFirstMatch(t, name, 4);
    } else {
      assert FindRule(t, name) == None;
    }
    assert inv.args == TableDispatch(name, p).args;
  }
}
