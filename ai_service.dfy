/**
 * services/ai_service.py: one prompt in, one reply string out. The Gemini call
 * is the parameter `model`; every way it can go wrong is turned into a reply
 * string, so the service never raises.
 */
module AiService {
  import opened Wrappers
  import opened Remote
  import opened Text

  const ModelName := "gemini-1.5-pro-latest"

  /** The reply to an empty or whitespace-only prompt. */
  const NoInput := "(No input provided.)"
  /** The reply when Gemini returns no text, or an empty one. */
  const NoText := "(Error: No AI response text.)"

  /** The reply for an exception raised by the Gemini call, `f"(Error: {e})"`. */
  function ErrorReply(message: string): (r: string)
    ensures |r| == |message| + 9 && r[0] == '(' && r[|r| - 1] == ')'
    ensures r[8..|r| - 1] == message
  {
    "(Error: " + message + ")"
  }

  /** `get_ai_response(prompt)`, where `model(prompt)` is what Gemini does with the prompt. */
  function GetAiResponse(prompt: string, model: string -> ModelReply): (r: string)
    ensures IsBlank(prompt) ==> r == NoInput
    ensures !IsBlank(prompt) && model(prompt).Raised? ==> r == ErrorReply(model(prompt).message)
    ensures !IsBlank(prompt) && model(prompt) in {Replied(None), Replied(Some(""))} ==> r == NoText
    ensures !IsBlank(prompt) && model(prompt).Replied? && model(prompt).text.Some? && model(prompt).text.value != ""
            ==> r == Strip(model(prompt).text.value)
  {
    if Strip(prompt) == [] then
      NoInput
    else
      match model(prompt)
      case Raised(e) => ErrorReply(e)
      case Replied(text) =>
        if text.Some? && text.value != "" then Strip(text.value) else NoText
  }

  /** For a blank prompt the reply is the same whatever Gemini would do: the model is not consulted. */
  lemma BlankPromptSkipsModel(prompt: string, model1: string -> ModelReply, model2: string -> ModelReply)
    requires IsBlank(prompt)
    ensures GetAiResponse(prompt, model1) == GetAiResponse(prompt, model2) == NoInput
  {
  }

  /** The model is consulted on the prompt itself, and on nothing else. */
  lemma ReplyDependsOnlyOnPrompt(prompt: string, model1: string -> ModelReply, model2: string -> ModelReply)
    requires model1(prompt) == model2(prompt)
    ensures GetAiResponse(prompt, model1) == GetAiResponse(prompt, model2)
  {
  }

  /**
   * The reply is empty exactly when the prompt is not blank and Gemini answered
   * with a non-empty text made only of whitespace.
   */
  lemma EmptyReplyOnlyFromBlankText(prompt: string, model: string -> ModelReply)
    ensures GetAiResponse(prompt, model) == "" <==>
              !IsBlank(prompt) && model(prompt).Replied? && model(prompt).text.Some?
              && model(prompt).text.value != "" && IsBlank(model(prompt).text.value)
  {
    assert NoInput != "" && NoText != "";
    if model(prompt).Raised? {
      assert |ErrorReply(model(prompt).message)| >= 8;
    }
  }

  /** Every reply, including an error reply, is already stripped: it neither begins nor ends with whitespace. */
  lemma ReplyIsStripped(prompt: string, model: string -> ModelReply)
    ensures Strip(GetAiResponse(prompt, model)) == GetAiResponse(prompt, model)
  {
    if IsBlank(prompt) {
      StripOfStripped(NoInput);
    } else {
      match model(prompt)
      case Raised(e) =>
        var r := ErrorReply(e);
        assert r[0] == '(' && r[|r| - 1] == ')';
        StripOfStripped(r);
      case Replied(text) =>
        if text.Some? && text.value != "" {
          StripIdempotent(text.value);
        } else {
          StripOfStripped(NoText);
        }
    }
  }
}
