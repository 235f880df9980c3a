/**
 * `buildPrompt`: reject a blank or non-string input, otherwise put the trimmed user
 * input under the trimmed template, separated by a "Question:" line.
 */
module BuildPrompt {
  import opened Base
  import opened JsStrings
  import opened Constants

  const QuestionLine: string := "\nQuestion:\n"

  /** The prompt for `input` under `template` (USER_PROMPT_TEMPLATE in the shipped code). */
  function BuildPrompt(template: string, input: Arg): (r: Result<string, ErrorKey>)
    ensures r.Failure? <==> !IsNonBlank(input)
    ensures r.Failure? ==> r.error == PromptInvalid
  {
    if !IsNonBlank(input) then Failure(PromptInvalid)
    else Success(Trim(template) + QuestionLine + Trim(input.s))
  }

  /**
   * A valid prompt is the trimmed template, the question line and the trimmed input, in that
   * order: each piece is a slice of its source with only white space cut from its ends, and
   * the input piece is non-empty and closes the prompt.
   */
  lemma PromptShape(template: string, s: string)
    requires IsNonBlank(StringArg(s))
    ensures var r := BuildPrompt(template, StringArg(s));
            var t := Trim(template);
            var q := Trim(s);
            && r.Success?
            && r.value == t + QuestionLine + q
            && IsTrimmed(t) && IsTrimmed(q) && q != []
            && |r.value| > |q| && r.value[|r.value| - |q|..] == q
            && !IsWhiteSpace(r.value[|r.value| - 1])
  {
    var r := BuildPrompt(template, StringArg(s)).value;
    var t, q := Trim(template), Trim(s);
    assert r[|r| - |q|..] == q;
  }

  /** Surrounding white space on the input does not change the prompt. */
  lemma {:induction false} InputWhiteSpaceIrrelevant(template: string, s: string)
    ensures BuildPrompt(template, StringArg(s)) == BuildPrompt(template, StringArg(Trim(s)))
  {
    TrimIdempotent(s);
  }

  /** Only the template's outer white space goes: its interior, newlines and indentation included, is kept. */
  lemma {:induction false} TemplateInteriorKept(p: string, body: string, q: string, s: string)
    requires AllWhiteSpace(p) && AllWhiteSpace(q) && IsTrimmed(body)
    requires IsNonBlank(StringArg(s))
    ensures BuildPrompt(p + body + q, StringArg(s)) == Success(body + QuestionLine + Trim(s))
  {
    TrimOfPadded(p, body, q);
  }

  /** Non-string and blank inputs are refused with PROMPT.INVALID, whatever the template. */
  lemma BlankInputRejected(template: string, s: string)
    requires AllWhiteSpace(s)
    ensures BuildPrompt(template, StringArg(s)) == Failure(PromptInvalid)
    ensures BuildPrompt(template, NonStringArg) == Failure(PromptInvalid)
  {
    TrimEmptyIff(s);
  }
}
