# NextPlay AI automation endpoint — a Dafny model

NextPlay AI answers a customer message through one HTTP endpoint, `POST /api/ai`.
The handler validates the JSON body (a required `message`, a `channel` of `chat`,
`email` or `call` defaulting to `chat`, an optional `customerName`), asks the AI
library to classify the message, runs exactly one automation handler chosen by the
classified intent (and, for unrecognised intents, by the channel), and answers with
`{ intent, reply, time }`. Anything thrown on the way becomes `{ error }` with status
400; the error text tells a schema failure apart from every other failure.

The model has five modules:

- `Results` (`results.dfy`): `Option` and `Result`.
- `Json` (`json.dfy`): the parsed request body as a JSON value.
- `PayloadSchema` (`schema.dfy`): the zod schema as `Validate`, checked against an
  independent statement of what it accepts (`Acceptable`) and against the request
  body the browser client builds.
- `Dispatch` (`dispatch.dfy`): the `switch (intent)` as `SelectHandler`, which names
  the handler and its exact arguments. It is proved equal to a decision table
  written as data.
- `Api` (`api.dfy`): the `POST` procedure as a method over an opaque `Library` of
  handler functions, with the success and error envelopes and the `catch` message.

The AI library (`detectIntent` and the six automations) is opaque. It is a
`Library` of function values, each returning text or throwing a `Thrown` value.
`Post` also returns the list of calls it made into the library, so its contract can
say which handlers ran with which arguments without knowing any reply text. The
clock is the parameter `now`.

Four behaviours of the handler are easy to misread:

- The schema does not trim. `z.string().min(1)` accepts `" "`. Only the browser
  client refuses whitespace-only input (`nextplay-ai/src/app/page.tsx:57`).
- The classifier's output is arbitrary text. The `default` arm takes every label
  other than the five named ones, not only `UNKNOWN` (`Intent.Other`).
- The `catch` block picks its message by `error instanceof z.ZodError`, not by where
  the error came from. A ZodError thrown inside the AI library would also be
  answered with the invalid-payload text. `ErrorMessage` states this.
- `customerName ?? "Customer"` replaces only an absent name. An empty
  `customerName` reaches the call handler as `""`.

## Model

| member | source | states |
|---|---|---|
| `PayloadSchema.ParseChannel` | nextplay-ai/src/app/api/ai/route.ts:18 | the channel enum accepts exactly the strings "chat", "email" and "call", and maps each of them to the channel with that name |
| `PayloadSchema.ChannelNameRoundTrip` | nextplay-ai/src/app/api/ai/route.ts:18 | parsing a channel's wire name gives back that channel |
| `PayloadSchema.Validate` | nextplay-ai/src/app/api/ai/route.ts:16-20 | a body is accepted exactly when it is an object whose `message` is a string of length at least 1, whose `channel` is absent or one of the three literals, and whose `customerName` is absent or a string; an accepted payload carries the body's message, its channel or `chat` when absent, and its `customerName` unchanged or none; a refusal always carries at least one issue |
| `PayloadSchema.IssuesNameTheFailingProperties` | nextplay-ai/src/app/api/ai/route.ts:16-20 | for a refused object, the ZodError reports `message` exactly when it is missing, not a string or empty; `channel` exactly when it is present and not one of the three literals; `customerName` exactly when it is present and not a string; there are at most three issues (the route discards them) |
| `PayloadSchema.WhitespaceMessageAccepted` | nextplay-ai/src/app/api/ai/route.ts:17 | every body whose only schema property is a non-empty message made of whitespace characters (those JavaScript's `trim` removes) is accepted as that message, channel `chat` and no name; the empty message is refused with a single too-small issue on `message` |
| `PayloadSchema.UnknownPropertiesIgnored` | nextplay-ai/src/app/api/ai/route.ts:16 | adding a property the schema does not name never changes the validation outcome |
| `PayloadSchema.RequestBodyRoundTrip` | nextplay-ai/src/app/page.tsx:68-72 | the body the client builds from any payload with a non-empty message validates back to that payload |
| `Dispatch.IntentOf` | nextplay-ai/src/app/api/ai/route.ts:30-46 | the switch case for a label keeps the label text, and is the default case exactly when the label is not BUY, SELL, SUPPORT, PAYMENT or CALL |
| `Dispatch.IntentLabelRoundTrip` | nextplay-ai/src/app/api/ai/route.ts:30-46 | every switch case is selected by its own label text, so no `Other` case carries one of the five named labels |
| `Dispatch.SelectHandler` | nextplay-ai/src/app/api/ai/route.ts:30-52 | one handler with its declared arity is chosen. Sales runs exactly for BUY and SELL, support for SUPPORT, payment for PAYMENT, call for CALL. Gmail runs exactly for other intents on channel `email`, general exactly for other intents on `chat` or `call`. SELL passes the literal "Handle seller inquiry" whatever the payload, CALL passes the customer name or "Customer" when absent, and all other cases pass the original message |
| `Dispatch.HandlerDependsOnIntentAndChannelOnly` | nextplay-ai/src/app/api/ai/route.ts:30-52 | two payloads on the same channel reach the same handler for the same intent |
| `Dispatch.SwitchFollowsDecisionTable` | nextplay-ai/src/app/api/ai/route.ts:30-52 | for every label and payload, the switch makes the same call as looking the label up in the five-row decision table and falling back to gmail for `email` or general otherwise |
| `Api.ErrorMessage` | nextplay-ai/src/app/api/ai/route.ts:61-64 | the answer is the invalid-payload text exactly when a ZodError was thrown, and the credentials text exactly otherwise |
| `Api.SuccessResponse` | nextplay-ai/src/app/api/ai/route.ts:54-58 | a success has status 200 and a body with exactly the fields `intent`, `reply` and `time` |
| `Api.ErrorResponse` | nextplay-ai/src/app/api/ai/route.ts:66 | a failure has status 400 and a body with exactly the field `error` |
| `Api.EnvelopeRoundTrip` | nextplay-ai/src/app/api/ai/route.ts:54-66 | a caller reads the whole result back from a success and no error text; from a failure it reads the message and no partial result; only the success is a 2xx response |
| `Api.Post` | nextplay-ai/src/app/api/ai/route.ts:22-68 | status is 200 or 400. An unparseable body gives the credentials text and a body failing the schema gives the invalid-payload text, both without calling the library. Otherwise the classifier is called once on the message. If it throws, the `catch` message follows and nothing else runs. If not, exactly the invocation `SelectHandler` chooses runs next, and the response is `{intent, reply, time}` with the classifier's label unchanged, that handler's reply and `now`, or the `catch` message if the handler throws |

## Left out

- The AI library behind `@/lib/ai`: what `detectIntent` and the six automations compute is not modelled. They are opaque functions, and no property depends on reply text.
- `request.json()`: JSON text parsing is reduced to its outcome, a parsed value or a syntax error (`Body`). JSON numbers are reals and are never inspected.
- zod internals: issue message texts (such as "Message is required.") and issue fields other than path and code are not modelled, because the route discards them.
- `NextResponse`: headers and serialisation are left out. A response is a status and a JSON body.
- `new Date().toISOString()`: the clock is the parameter `now`. Its ISO-8601 format, and whether it is later than the request's arrival, are not modelled.
- `console.error`: a logging side effect, left out.
- Asynchrony: awaiting the classifier and the sales, support, gmail and general handlers is modelled as sequential calls, because each request runs one sequential path. `paymentAutomation()` and `callAutomation(...)` are called without `await` (route.ts:41, route.ts:44); as `let reply: string` (route.ts:28) requires, the model treats them as returning their text synchronously.
- Api.Post: the `calls` log is the model's own record, appended beside each library call; it cannot see a call whose result is unused, so "exactly one handler runs" rests on the log and the straight-line body, not on an observation of the library.
- `export const dynamic`: Next.js rendering configuration, with no behaviour in the handler.
- `nextplay-ai/src/app/page.tsx`: the React state, `fetch`, the client-side trim guard and the history list are presentation. Only the request body the client sends (`RequestBody`) and the way it reads an envelope (`ReadResult`, `ReadError`) appear, as partners of the schema and the envelope.
- `nextplay-ai/src/app/layout.tsx` and `nextplay-ai/tailwind.config.ts`: fonts, metadata and styling only.
