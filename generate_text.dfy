/**
 * `generateText`: one non-streaming completion. Guard the prompt, then the configured
 * model; call the chat backend once with the trimmed prompt as the only user message;
 * wrap a rejection into a MODEL_REQUEST_FAIL message; require string content; return
 * it trimmed.
 */
module GenerateText {
  import opened Base
  import opened JsStrings
  import opened Constants

  datatype ChatMessage = ChatMessage(role: string, content: string)

  /** The argument of `ollama.chat`. */
  datatype ChatCall = ChatCall(model: string, messages: seq<ChatMessage>)

  /**
   * How `ollama.chat` settles: with a response whose `message.content` is a string
   * (`Some`) or is missing or not a string (`None`), or by rejecting with an `Error`
   * or with some other value.
   */
  datatype ChatOutcome = Answered(content: Option<string>) | RejectedWithError(message: string) | RejectedWithOther

  /** The message of a thrown `Error`: a bare constant, or a constant followed by ": " and a detail. */
  datatype ErrorMessage = Plain(key: ErrorKey) | WithDetail(key: ErrorKey, detail: string)

  /** The settled promise and the backend calls made. */
  datatype Generated = Generated(result: Result<string, ErrorMessage>, calls: seq<ChatCall>)

  const UnknownErrorDetail: string := "Unknown error"

  /** The text of an error message, given the constants table in use. */
  function MessageText(m: ErrorMessage, text: ErrorKey -> string): string {
    match m
    case Plain(k) => text(k)
    case WithDetail(k, d) => text(k) + ": " + d
  }

  /** The one backend call for a valid prompt and model. */
  function PromptCall(model: string, prompt: string): (c: ChatCall)
    ensures c.model == model && |c.messages| == 1
    ensures c.messages[0].role == "user" && IsTrimmed(c.messages[0].content)
  {
    ChatCall(model, [ChatMessage("user", Trim(prompt))])
  }

  /**
   * The handling of the backend's answer: a rejection is wrapped, missing, non-string or
   * empty content is refused, and string content is returned trimmed.
   */
  function Settle(outcome: ChatOutcome): (r: Result<string, ErrorMessage>)
    ensures r.Success? ==> IsTrimmed(r.value) && outcome.Answered? && outcome.content.Some?
                           && outcome.content.value != "" && |r.value| <= |outcome.content.value|
  {
    match outcome
    case RejectedWithError(m) => Failure(WithDetail(ModelRequestFail, m))
    case RejectedWithOther => Failure(WithDetail(ModelRequestFail, UnknownErrorDetail))
    case Answered(content) =>
      if content.None? || content.value == "" then Failure(Plain(ModelMissingContent))
      else Success(Trim(content.value))
  }

  function GenerateText(prompt: Arg, env: Option<string>, chat: ChatCall -> ChatOutcome): (g: Generated)
    ensures g.calls != [] <==> IsNonBlank(prompt) && IsConfigured(env)
    ensures g.calls != [] ==> g.calls == [PromptCall(env.value, prompt.s)] && g.result == Settle(chat(g.calls[0]))
    ensures g.calls == [] ==> g.result == Failure(Plain(if IsNonBlank(prompt) then InvalidModel else PromptInvalid))
  {
    if !IsNonBlank(prompt) then Generated(Failure(Plain(PromptInvalid)), [])
    else if !IsConfigured(env) then Generated(Failure(Plain(InvalidModel)), [])
    else
      var call := PromptCall(env.value, prompt.s);
      Generated(Settle(chat(call)), [call])
  }

  /** The prompt check runs first: a blank or non-string prompt throws PROMPT.INVALID whatever the configuration. */
  lemma PromptCheckedFirst(prompt: Arg, env: Option<string>, chat: ChatCall -> ChatOutcome)
    requires !IsNonBlank(prompt)
    ensures GenerateText(prompt, env, chat) == Generated(Failure(Plain(PromptInvalid)), [])
  {
  }

  /** A missing or empty OLLAMA_MODEL throws INVALID_MODEL and the backend is never called. */
  lemma UnconfiguredModelCallsNothing(s: string, env: Option<string>, chat: ChatCall -> ChatOutcome)
    requires IsNonBlank(StringArg(s)) && !IsConfigured(env)
    ensures GenerateText(StringArg(s), env, chat) == Generated(Failure(Plain(InvalidModel)), [])
  {
  }

  /**
   * A rejection is rethrown as MODEL_REQUEST_FAIL + ": " + the Error's message, or
   * + ": Unknown error" for anything that is not an Error.
   */
  lemma RejectionWrapped(s: string, model: string, chat: ChatCall -> ChatOutcome)
    requires IsNonBlank(StringArg(s)) && model != ""
    requires chat(PromptCall(model, s)).RejectedWithError? || chat(PromptCall(model, s)).RejectedWithOther?
    ensures var outcome := chat(PromptCall(model, s));
            var detail := if outcome.RejectedWithError? then outcome.message else UnknownErrorDetail;
            GenerateText(StringArg(s), Some(model), chat).result == Failure(WithDetail(ModelRequestFail, detail))
  {
    assert GenerateText(StringArg(s), Some(model), chat).result == Settle(chat(PromptCall(model, s)));
  }

  /** Missing, non-string or empty content throws MODEL_MISSING_CONTENT. */
  lemma MissingContentRejected(s: string, model: string, chat: ChatCall -> ChatOutcome)
    requires IsNonBlank(StringArg(s)) && model != ""
    requires chat(PromptCall(model, s)) in {Answered(None), Answered(Some(""))}
    ensures GenerateText(StringArg(s), Some(model), chat).result == Failure(Plain(ModelMissingContent))
  {
    assert GenerateText(StringArg(s), Some(model), chat).result == Settle(chat(PromptCall(model, s)));
  }

  /**
   * Non-empty string content is returned trimmed: what is left once white space is cut
   * from both ends. Content of white space only is therefore returned as "".
   */
  lemma ContentReturnedTrimmed(s: string, model: string, chat: ChatCall -> ChatOutcome, p: string, body: string, q: string)
    requires IsNonBlank(StringArg(s)) && model != ""
    requires AllWhiteSpace(p) && AllWhiteSpace(q) && IsTrimmed(body) && p + body + q != ""
    requires chat(PromptCall(model, s)) == Answered(Some(p + body + q))
    ensures GenerateText(StringArg(s), Some(model), chat).result == Success(body)
  {
    assert GenerateText(StringArg(s), Some(model), chat).result == Settle(chat(PromptCall(model, s)));
    TrimOfPadded(p, body, q);
  }

  /** White-space-only content passes the emptiness check and comes back as "". */
  lemma WhiteSpaceContentIsEmptyResult(s: string, model: string, chat: ChatCall -> ChatOutcome)
    requires IsNonBlank(StringArg(s)) && model != ""
    requires chat(PromptCall(model, s)).Answered? && chat(PromptCall(model, s)).content.Some?
    requires var c := chat(PromptCall(model, s)).content.value; c != "" && AllWhiteSpace(c)
    ensures GenerateText(StringArg(s), Some(model), chat).result == Success("")
  {
    assert GenerateText(StringArg(s), Some(model), chat).result == Settle(chat(PromptCall(model, s)));
    TrimEmptyIff(chat(PromptCall(model, s)).content.value);
  }

  /** Two prompts that trim to the same text lead to the same backend calls and the same outcome. */
  lemma SameTrimSameOutcome(s: string, t: string, env: Option<string>, chat: ChatCall -> ChatOutcome)
    requires Trim(s) == Trim(t)
    ensures GenerateText(StringArg(s), env, chat) == GenerateText(StringArg(t), env, chat)
  {
  }

  /** Surrounding white space on the prompt changes neither the backend call nor the outcome. */
  lemma {:induction false} PromptWhiteSpaceIrrelevant(s: string, env: Option<string>, chat: ChatCall -> ChatOutcome)
    ensures GenerateText(StringArg(s), env, chat) == GenerateText(StringArg(Trim(s)), env, chat)
  {
    TrimIdempotent(s);
    SameTrimSameOutcome(s, Trim(s), env, chat);
  }

  /**
   * With the texts of lib/utils/constants.ts, a rejection's message reads "<MODEL_REQUEST_FAIL>: "
   * followed by the Error's message, or by "Unknown error".
   */
  lemma RejectionMessageText(outcome: ChatOutcome)
    requires outcome.RejectedWithError? || outcome.RejectedWithOther?
    ensures Settle(outcome).Failure?
    ensures var detail := if outcome.RejectedWithError? then outcome.message else UnknownErrorDetail;
            MessageText(Settle(outcome).error, LibText) == LibText(ModelRequestFail) + ": " + detail
  {
  }
}
