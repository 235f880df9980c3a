# nirvana-ai chat core, modelled in Dafny

This project models the decision logic of the nirvana-ai chat server: a Next.js endpoint
that validates a chat payload, checks that an Ollama model is configured and available,
and streams a completion from the local Ollama backend. It also models two library helpers
under app/lib: a prompt builder and a one-shot text generator. Everything in the core
is pure, so the model is datatypes, functions and lemmas.

- `JsStrings` (`js_strings.dfy`): the JavaScript string operations the core relies on.
  `Trim` is `String.prototype.trim` (the TrimString operation of ECMA-262): it strips
  WhiteSpace and LineTerminator code points from both ends. `Contains` is `includes`.
  `Utf16Length` is `length`, counted in UTF-16 code units.
- `Constants` (`constants.dfy`): the error keys of `VALIDATION_ERRORS`, kept abstract, with
  their texts from `lib/utils/constants.ts`, the system prompt, and the "model is configured"
  test shared by the route and `generateText`.
- `ChatSchema` (`chat_schema.dfy`): `MessagePartSchema`, `UIMessageSchema` and
  `ChatRequestSchema` of `app/api/chat/route.ts`. Each schema is stated twice:
  - as a declarative predicate over JSON (`ValidPart`, `ValidMessage`, `ValidRequest`);
  - as the validator `safeParse` runs. The validator returns issues, each a path plus a code
    with its bound (`too_small`/`too_big` with minimum/maximum and `inclusive`,
    `invalid_type`, `invalid_value`, `invalid_union`). It lists them in the schema's key
    order (zod 4 semantics).

  A payload without issues decodes into typed data: encoding that data gives the payload
  with its unknown keys dropped (`StripRequest`), and encoding typed data and parsing it
  gives that data back.
- `ChatRoute` (`chat_route.dfy`): `POST`'s guard chain and its catch-block classifier.
  The collaborators `ollama(name)`, `convertToModelMessages` and `streamText` are
  function-typed fields of a `Backend` value. The handler returns the response together with
  the list of collaborator calls it made, so "never called" is a statement about that list.
- `BuildPrompt` (`build_prompt.dfy`): `buildPrompt`, with the template as a parameter.
- `GenerateText` (`generate_text.dfy`): `generateText`. `ollama.chat` is a function from the
  call to its outcome: a response whose content is or is not a string, a rejection with an
  `Error`, or a rejection with anything else. The function returns the settled result and
  the list of calls.

I/O is replaced by parameters:
- the parsed or unparseable request body (`BodyOutcome`);
- the value of `OLLAMA_MODEL` (`Option<string>`, `None` when unset);
- the backend collaborators named above.

`generateText` does not pass a backend rejection on unchanged: it rethrows it as
`MODEL_REQUEST_FAIL: <message>` (app/lib/ollama/generateText.ts:26-29), and the model does the same.

## Model

| member | source | states |
|---|---|---|
| JsStrings.TrimStart | app/lib/utils/buildPrompt.ts:8 | the result is a suffix of the input; everything cut is white space; the result does not start with white space |
| JsStrings.TrimEnd | app/lib/utils/buildPrompt.ts:10 | the result is a prefix of the input; everything cut is white space; the result does not end with white space |
| JsStrings.Trim | app/lib/ollama/generateText.ts:11 | `trim()` returns a slice of its input with white space on both sides, and that slice has no white space at either end |
| JsStrings.TrimOfPadded | app/lib/utils/buildPrompt.ts:8 | trimming a trimmed string padded with any white space gives that string back, interior untouched (reference characterisation of `trim`) |
| JsStrings.TrimIdempotent | app/lib/utils/buildPrompt.ts:10 | trimming twice equals trimming once |
| JsStrings.TrimEmptyIff | app/lib/utils/buildPrompt.ts:4 | `trim()` is empty exactly when the input is all white space |
| JsStrings.TrimIsSlice | app/lib/utils/buildPrompt.ts:8-10 | what `trim` returns is a contiguous slice of its input, and only white space lies on either side of it |
| JsStrings.Contains | app/api/chat/route.ts:93 | `includes` can hold only when the substring fits, and always holds for the empty substring |
| JsStrings.ContainsIff | app/api/chat/route.ts:93 | `includes` holds exactly when the substring occurs at some index |
| JsStrings.IsNonBlank | app/lib/utils/buildPrompt.ts:4 | the argument is a string whose `trim()` is non-empty |
| JsStrings.NonBlankIff | app/lib/ollama/generateText.ts:7 | an argument passes the blank-prompt guard exactly when it is a string with a character that is not white space |
| JsStrings.Utf16Length | app/api/chat/route.ts:10 | a string's JavaScript length lies between its code-point count and twice that |
| ChatSchema.ValidPart | app/api/chat/route.ts:7-15 | the part union as a predicate: a text part whose text is 1..2000 long, or a step-start / step-end part |
| ChatSchema.ValidMessage | app/api/chat/route.ts:17-21 | UIMessageSchema as a predicate: a string id, a role of the enum, an array of valid parts |
| ChatSchema.ValidRequest | app/api/chat/route.ts:23-27 | ChatRequestSchema as a predicate: id and trigger absent or strings, at least one message, all valid |
| ChatSchema.RoleOf | app/api/chat/route.ts:19 | the role enum accepts exactly "user", "assistant", "system" and "tool" |
| ChatSchema.RoleOfName | app/api/chat/route.ts:19 | an accepted role name decodes to the role whose name it is |
| ChatSchema.RoleName | app/api/chat/route.ts:19 | every role's name is accepted by the role enum and maps back to that role |
| ChatSchema.TextIssues | app/api/chat/route.ts:10 | `min(1).max(2000)` reports nothing exactly for lengths 1..2000, too_small (minimum 1, inclusive) below and too_big (maximum 2000, inclusive) above |
| ChatSchema.PartIssues | app/api/chat/route.ts:7-15 | a part yields no issue exactly when it is a valid text part or a step-start/step-end part |
| ChatSchema.ElementIssues | app/api/chat/route.ts:20 | every issue `z.array` reports comes from one of its items, under that item's index |
| ChatSchema.ElementIssuesEmpty | app/api/chat/route.ts:20 | an array reports no issue exactly when none of its items does |
| ChatSchema.ElementIssuesInclude | app/api/chat/route.ts:25 | every issue of an item is reported by the array, under that item's index |
| ChatSchema.MessageIssues | app/api/chat/route.ts:17-21 | a non-object message is one invalid_type issue; a non-string id, a role outside the enum and a non-array parts are each reported under their key |
| ChatSchema.MessagesFieldIssues | app/api/chat/route.ts:25 | an empty array gives exactly too_small at ["messages"], minimum 1, inclusive; a non-array gives invalid_type first, followed by too_small when it is "" (the length check also runs on non-arrays that have a length); a missing field gives only invalid_type |
| ChatSchema.RequestIssues | app/api/chat/route.ts:23-27 | a non-object body is one invalid_type issue at the root; a non-string id or trigger and a non-array messages are each reported under their key |
| ChatSchema.MessageIssuesEmptyIff | app/api/chat/route.ts:17-21 | a message yields no issue exactly when it has a string id, a role of the enum, and parts that are all valid, in any order and number including zero |
| ChatSchema.RequestIssuesEmptyIff | app/api/chat/route.ts:23-27 | a request yields no issue exactly when id and trigger are absent or strings and messages is a non-empty array of valid messages |
| ChatSchema.EmptyMessagesIssue | app/api/chat/route.ts:25 | an empty messages array is reported as too_small at ["messages"], minimum 1, inclusive |
| ChatSchema.TextLengthIssueAt | app/api/chat/route.ts:8-11 | an empty (or over-2000) text at message i, part j is reported as too_small (too_big) at ["messages", i, "parts", j, "text"] |
| ChatSchema.DecodePart | app/api/chat/route.ts:7-15 | a valid part decodes to a text part exactly when it is text-shaped, carrying the payload's text; otherwise to the step marker its `type` names; the text is 1..2000 long |
| ChatSchema.DecodeParts | app/api/chat/route.ts:20 | the decoded parts are the items decoded one by one, in order |
| ChatSchema.DecodeMessage | app/api/chat/route.ts:17-21 | a valid message decodes to the payload's id, the role its `role` names, and its parts decoded in order, whatever other keys it has; text parts are 1..2000 long |
| ChatSchema.DecodeMessages | app/api/chat/route.ts:25 | the decoded messages are the items decoded one by one, in order |
| ChatSchema.DecodeRequest | app/api/chat/route.ts:23-27 | a valid request decodes to the payload's optional id and trigger and its messages decoded in order, whatever other keys it has; at least one message, all well formed |
| ChatSchema.DecodePartStrips | app/api/chat/route.ts:7-15 | the decoded part, encoded again, is the payload with only the keys of the union option it matched |
| ChatSchema.DecodeMessageStrips | app/api/chat/route.ts:17-21 | the decoded message, encoded again, is the payload with only id, role and parts, each part stripped likewise |
| ChatSchema.DecodeRequestStrips | app/api/chat/route.ts:23-27 | the decoded request, encoded again, is the payload with only id, messages and trigger, unknown keys dropped at every level |
| ChatSchema.ParseRequest | app/api/chat/route.ts:42 | `safeParse` succeeds exactly on valid requests, with well-formed data whose JSON is the payload stripped of unknown keys; otherwise it fails with the full, non-empty issue list |
| ChatSchema.PartRoundTrip | app/api/chat/route.ts:7-15 | every well-formed part, as JSON, validates and decodes to itself |
| ChatSchema.MessageRoundTrip | app/api/chat/route.ts:17-21 | every well-formed message, as JSON, validates and decodes to itself |
| ChatSchema.ParsedDataIsStrippedPayload | app/api/chat/route.ts:42-51 | the data `safeParse` yields is the only well-formed request whose JSON is the stripped payload |
| ChatSchema.RequestRoundTrip | app/api/chat/route.ts:23-27 | every well-formed request, as JSON, passes `safeParse` and decodes to itself |
| ChatRoute.StatusOf | app/api/chat/route.ts:36-104 | INVALID_JSON is sent with 400, MODEL_NOT_CONFIGURED and MODEL_NOT_AVAILABLE with 503, MODEL_REQUEST_FAIL with 502, every other key with 500 |
| ChatRoute.IsConnectionFailure | app/api/chat/route.ts:93 | a connection failure is a message in which "fetch failed" occurs at some index, or a cause code equal to ECONNREFUSED |
| Constants.IsConfigured | app/api/chat/route.ts:53-54 | `OLLAMA_MODEL` counts as configured exactly when it is set and non-empty |
| ChatRoute.Classify | app/api/chat/route.ts:81-105 | a zod error gives 400 INVALID_JSON with its issues; an Error gives 502 MODEL_REQUEST_FAIL exactly when its message contains "fetch failed" or its cause code is ECONNREFUSED, and otherwise 500 INTERNAL_SERVER_ERROR echoing its message; anything else gives 500 UNKNOWN_ERROR with no message |
| ChatRoute.Post | app/api/chat/route.ts:29-106 | each error response's status is the one its key maps to; a streamed response has status 200 and the no-cache / keep-alive headers; a collaborator is called only after the body parsed, validated and a model was configured, and the model provider is called first; at most three calls, all three on success |
| ChatRoute.ParseFailureShortCircuits | app/api/chat/route.ts:32-40 | an unparseable body gives 400 INVALID_JSON and no collaborator is called |
| ChatRoute.SchemaFailureReportsIssues | app/api/chat/route.ts:42-49 | a body that fails the schema gives 400 INVALID_JSON with the whole issue list as details, and nothing is called |
| ChatRoute.EmptyMessagesRejected | app/api/chat/route.ts:44-49 | `messages: []` gives 400 INVALID_JSON whose details contain too_small at ["messages"], minimum 1, inclusive |
| ChatRoute.EmptyTextRejected | app/api/chat/route.ts:44-49 | an empty text part at message i, part j gives 400 INVALID_JSON with too_small at ["messages", i, "parts", j, "text"], nothing called |
| ChatRoute.NotConfiguredCallsNothing | app/api/chat/route.ts:53-56 | a missing or empty OLLAMA_MODEL gives 503 MODEL_NOT_CONFIGURED with no provider or stream call |
| ChatRoute.NullHandleNeverStreams | app/api/chat/route.ts:58-61 | a null model handle gives 503 MODEL_NOT_AVAILABLE; only the provider was called, never the stream |
| ChatRoute.ProviderThrowsClassified | app/api/chat/route.ts:58-64 | a throw from `ollama(name)` or from `convertToModelMessages` is answered by the catch block, and no later collaborator is called |
| ChatRoute.SuccessStreamsConvertedMessages | app/api/chat/route.ts:63-80 | on the success path the calls are provider, converter, stream; the stream gets the model, the system prompt, the converted messages and temperature 0.7; a stream result is returned with status 200 and the no-cache / keep-alive headers, a rejection is classified |
| BuildPrompt.BuildPrompt | app/lib/utils/buildPrompt.ts:3-6 | the builder throws exactly for non-string or blank input, and then with PROMPT.INVALID |
| BuildPrompt.PromptShape | app/lib/utils/buildPrompt.ts:8-10 | a valid prompt is trimmed template + "\nQuestion:\n" + trimmed input; each piece is its source minus surrounding white space; the prompt ends with the non-empty trimmed input |
| BuildPrompt.InputWhiteSpaceIrrelevant | app/lib/utils/buildPrompt.ts:10 | `buildPrompt(s) == buildPrompt(trim(s))` for every s |
| BuildPrompt.TemplateInteriorKept | app/lib/utils/buildPrompt.ts:8 | a template that is white space + body + white space contributes exactly its body, internal newlines and indentation included |
| BuildPrompt.BlankInputRejected | app/lib/utils/buildPrompt.ts:4-6 | empty, white-space-only and non-string inputs throw PROMPT.INVALID |
| GenerateText.PromptCall | app/lib/ollama/generateText.ts:22-25 | the backend gets the configured model and exactly one message, from the user, whose content has no surrounding white space |
| GenerateText.Settle | app/lib/ollama/generateText.ts:26-36 | the promise resolves only for a non-empty string content, and then with text that has no surrounding white space and is no longer than the content |
| GenerateText.GenerateText | app/lib/ollama/generateText.ts:6-37 | the backend is called exactly when the prompt is non-blank and a model is configured, then exactly once with the model and one user message holding the trimmed prompt, and the outcome is how that call settles; with no call, the error is PROMPT.INVALID for a blank prompt and INVALID_MODEL otherwise |
| GenerateText.PromptCheckedFirst | app/lib/ollama/generateText.ts:7-9 | a falsy, non-string or blank prompt throws PROMPT.INVALID before the model check, with no call |
| GenerateText.UnconfiguredModelCallsNothing | app/lib/ollama/generateText.ts:14-17 | a missing or empty OLLAMA_MODEL throws INVALID_MODEL and the backend is never called |
| GenerateText.RejectionWrapped | app/lib/ollama/generateText.ts:26-29 | a rejection is rethrown as MODEL_REQUEST_FAIL with the Error's message as detail, or "Unknown error" for a non-Error |
| GenerateText.RejectionMessageText | app/lib/ollama/generateText.ts:27-28 | with the texts of lib/utils/constants.ts, a rejection's message is MODEL_REQUEST_FAIL, ": ", then the Error's message or "Unknown error" |
| GenerateText.MissingContentRejected | app/lib/ollama/generateText.ts:31-34 | missing, non-string or empty content throws MODEL_MISSING_CONTENT |
| GenerateText.ContentReturnedTrimmed | app/lib/ollama/generateText.ts:36 | content that is white space + body + white space returns exactly the body |
| GenerateText.WhiteSpaceContentIsEmptyResult | app/lib/ollama/generateText.ts:36 | non-empty content of white space only returns "" (no check after trimming) |
| GenerateText.SameTrimSameOutcome | app/lib/ollama/generateText.ts:7-11 | two prompts with the same trimmed text make the same calls and settle the same way |
| GenerateText.PromptWhiteSpaceIrrelevant | app/lib/ollama/generateText.ts:11 | surrounding white space on the prompt changes neither the call nor the outcome |

## Left out

- The single-message `{ message }` request form, with its REQUIRED / EMPTY / TOO_LONG reasons: only its constants exist, and no code of the core implements it.
- zod internals: the nested per-option errors inside an `invalid_union` issue, issue `message` wording, and the `origin`, `expected` and `values` metadata beyond the expected type. A text-shaped part that fails a length check reports that check, as zod 4 does when exactly one union option passes its type checks. Any other failing part reports one `invalid_union` issue at the part.
- The length check of `messages` on a non-array value reads the value's `length`: it is modelled for strings and for objects whose `length` field is a number. An object whose `length` field is some other JSON value, which JavaScript would coerce to a number, gets no too_small issue in the model.
- The parse-error object sent as `details` for an unparseable body: it is an opaque `ParseErrorDetails`.
- JSON values: numbers are reals; an object is a map, so a duplicate key keeps one value, as `JSON.parse` keeps the last. Lone UTF-16 surrogates cannot occur in a Dafny string.
- `cause.code` is modelled only when it is a string. Any other value is `None`, which is never equal to "ECONNREFUSED", as in the source.
- A falsy model handle of any kind (null, undefined, …) is one `NullHandle`.
- `toUIMessageStreamResponse` is taken not to throw; its response is status 200 with the two headers the handler passes. Streaming transport, cancellation, and the concurrency of simultaneous calls are not modelled.
- Temperature is the fixed argument 0.7, with no numeric reasoning.
- Which constants table the `@/lib` index re-exports: the index file is not part of this model. Error keys stay abstract; their texts are those of `lib/utils/constants.ts`, the table that has every key the core uses. The texts of `app/lib/utils/constants.ts` are not modelled (its `MODEL_REQUEST_FAIL` is "Ollama request failed:", which `generateText` would render as "Ollama request failed:: <detail>").
- The value of `USER_PROMPT_TEMPLATE`: `BuildPrompt` takes the template as a parameter, and its properties hold for every template.
- The UI (`app/page.tsx`), linting and test configuration, and logging.
