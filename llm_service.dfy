/**
 * services/llm_service.py: the history-aware variant of the Gemini client.
 * It folds the last messages of a role/content history into one prompt and
 * asks the model once. Nothing else in the application calls it.
 */
module LlmService {
  import opened Wrappers
  import opened Remote
  import opened Text

  const ModelName := "gemini-1.5-flash"
  /** The default of `max_messages`. */
  const MaxMessages := 12
  /** The reply given instead of a model call when no Gemini key is configured. */
  const MissingKeyReply := "I couldn't reach the language model because API key is missing."

  /** One entry of the history, `{"role": ..., "content": ...}`. */
  datatype Message = Message(role: string, content: string)

  function Min(a: int, b: int): int { if a <= b then a else b }

  /**
   * Where Python's slice `s[start:]` begins, for a sequence of length `n`:
   * a non-negative start is clipped to the length, and a negative one keeps
   * the last `-start` elements, or all of them when there are fewer.
   */
  function SliceStart(n: nat, start: int): (i: nat)
    ensures i <= n
    ensures start >= 0 ==> i == Min(start, n)
    ensures start < 0 ==> n - i == Min(-start, n)
  {
    if start < 0 then (if n + start < 0 then 0 else n + start)
    else if start > n then n
    else start
  }

  /** `history[-max_messages:] if history else []`. */
  function Trimmed(history: seq<Message>, maxMessages: int): (t: seq<Message>)
    ensures |t| <= |history| && t == history[|history| - |t|..]
    ensures maxMessages > 0 ==> |t| == Min(|history|, maxMessages)
    ensures maxMessages == 0 ==> t == history
  {
    if history == [] then [] else history[SliceStart(|history|, -maxMessages)..]
  }

  /** The label a message gets: "User" for the role "user", "Assistant" for every other role. */
  function Speaker(m: Message): (s: string)
    ensures s == "User" <==> m.role == "user"
    ensures s != "User" ==> s == "Assistant"
  {
    if m.role == "user" then "User" else "Assistant"
  }

  /** `f"{role}: {m['content']}"`. */
  function Line(m: Message): (l: string)
    ensures |l| == |Speaker(m)| + 2 + |m.content|
    ensures l[..|Speaker(m)|] == Speaker(m) && l[|Speaker(m)|..|Speaker(m)| + 2] == ": "
    ensures l[|l| - |m.content|..] == m.content
  {
    Speaker(m) + ": " + m.content
  }

  /**
   * The prompt's lines, the `parts` list `_build_prompt_from_history` fills:
   * one labelled line per kept message, in history order, then the new user
   * line and the bare "Assistant:" cue.
   */
  function PromptLines(history: seq<Message>, newUserText: string, maxMessages: int := MaxMessages): (parts: seq<string>)
    ensures var kept := Trimmed(history, maxMessages);
            && |parts| == |kept| + 2
            && (forall i :: 0 <= i < |kept| ==> parts[i] == Line(kept[i]))
            && parts[|parts| - 2] == "User: " + newUserText
            && parts[|parts| - 1] == "Assistant:"
  {
    var kept := Trimmed(history, maxMessages);
    seq(|kept|, i requires 0 <= i < |kept| => Line(kept[i])) + ["User: " + newUserText, "Assistant:"]
  }

  /** `_build_prompt_from_history(history, new_user_text, max_messages)`. */
  method BuildPromptFromHistory(history: seq<Message>, newUserText: string, maxMessages: int := MaxMessages)
    returns (prompt: string)
    ensures prompt == JoinLines(PromptLines(history, newUserText, maxMessages))
  {
    var trimmed := if history != [] then history[SliceStart(|history|, -maxMessages)..] else [];
    var parts: seq<string> := [];
    for k := 0 to |trimmed|
      invariant |parts| == k
      invariant forall i :: 0 <= i < k ==> parts[i] == Speaker(trimmed[i]) + ": " + trimmed[i].content
    {
      var role := if trimmed[k].role == "user" then "User" else "Assistant";
      parts := parts + [role + ": " + trimmed[k].content];
    }
    parts := parts + ["User: " + newUserText];
    parts := parts + ["Assistant:"];
    assert trimmed == Trimmed(history, maxMessages);
    assert parts == PromptLines(history, newUserText, maxMessages);
    prompt := JoinLines(parts);
  }

  /** The prompt keeps at most the last `max_messages` messages (for a positive bound), in their original order. */
  lemma PromptUsesLastMessages(history: seq<Message>, newUserText: string)
    ensures var parts := PromptLines(history, newUserText);
            && |parts| == Min(|history|, MaxMessages) + 2
            && forall i :: 0 <= i < |parts| - 2 ==>
                 parts[i] == Line(history[|history| - Min(|history|, MaxMessages) + i])
  {
    var kept := Trimmed(history, MaxMessages);
    assert |kept| == Min(|history|, MaxMessages);
    forall i | 0 <= i < |kept| ensures kept[i] == history[|history| - |kept| + i] { }
  }

  /** With no history the prompt is the new user line and the cue. */
  lemma EmptyHistoryPrompt(newUserText: string)
    ensures JoinLines(PromptLines([], newUserText)) == "User: " + newUserText + "\nAssistant:"
  {
    var parts := PromptLines([], newUserText);
    assert parts == ["User: " + newUserText, "Assistant:"];
    assert JoinLines(parts[1..]) == "Assistant:";
  }

  /**
   * When no kept message and not the new user text holds a newline, the
   * prompt splits back into exactly its lines: min(len(history), 12) + 2 of
   * them, the last two being the new user line and the cue.
   */
  lemma PromptLineCount(history: seq<Message>, newUserText: string)
    requires forall m :: m in history ==> '\n' !in m.content
    requires '\n' !in newUserText
    ensures var lines := SplitLines(JoinLines(PromptLines(history, newUserText)));
            && |lines| == Min(|history|, MaxMessages) + 2
            && lines[|lines| - 2] == "User: " + newUserText
            && lines[|lines| - 1] == "Assistant:"
  {
    PromptLinesHaveNoNewline(history, newUserText);
    SplitJoinLines(PromptLines(history, newUserText));
  }

  /** A message whose content has no newline gives a line without one. */
  lemma LineHasNoNewline(m: Message)
    requires '\n' !in m.content
    ensures '\n' !in Line(m)
  {
    assert Line(m) == Speaker(m) + ": " + m.content;
  }

  /** With newline-free messages and input, no prompt line holds a newline. */
  lemma PromptLinesHaveNoNewline(history: seq<Message>, newUserText: string)
    requires forall m :: m in history ==> '\n' !in m.content
    requires '\n' !in newUserText
    ensures var parts := PromptLines(history, newUserText);
      forall i :: 0 <= i < |parts| ==> '\n' !in parts[i]
  {
    var kept := Trimmed(history, MaxMessages);
    forall i | 0 <= i < |kept| ensures '\n' !in Line(kept[i]) {
      assert kept[i] == history[|history| - |kept| + i];
      LineHasNoNewline(kept[i]);
    }
    assert '\n' !in "User: " + newUserText;
  }

  /**
   * `generate_ai_response(history, user_text)`: with no key, the fixed
   * explanation; otherwise the model is asked once with the built prompt and
   * its text (None read as "") comes back stripped. An exception from the
   * model propagates to the caller as a Failure.
   */
  function GenerateAiResponse(keyPresent: bool, history: seq<Message>, userText: string, model: string -> ModelReply)
    : (r: Result<string, string>)
    ensures !keyPresent ==> r == Success(MissingKeyReply)
    ensures keyPresent ==> var reply := model(JoinLines(PromptLines(history, userText)));
            && (reply.Raised? ==> r == Failure(reply.message))
            && (reply.Replied? ==> r == Success(Strip(reply.text.GetOr(""))))
  {
    if !keyPresent then
      Success(MissingKeyReply)
    else
      match model(JoinLines(PromptLines(history, userText)))
      case Raised(e) => Failure(e)
      case Replied(text) => Success(Strip(text.GetOr("")))
  }

  /** Without a key the reply does not depend on the history, the text or the model: no prompt is built and no call made. */
  lemma MissingKeySkipsModel(history1: seq<Message>, history2: seq<Message>, text1: string, text2: string,
                             model1: string -> ModelReply, model2: string -> ModelReply)
    ensures GenerateAiResponse(false, history1, text1, model1) == GenerateAiResponse(false, history2, text2, model2)
  {
  }

  /** A successful reply is the model's text stripped, so it is empty exactly when that text is None or blank. */
  lemma ReplyEmptyIffBlankText(history: seq<Message>, userText: string, model: string -> ModelReply)
    requires model(JoinLines(PromptLines(history, userText))).Replied?
    ensures var text := model(JoinLines(PromptLines(history, userText))).text;
            GenerateAiResponse(true, history, userText, model) == Success("") <==> IsBlank(text.GetOr(""))
  {
  }
}
