# AI voice agent: turn pipeline, in Dafny

This project models the backend of a browser voice-chat agent. A client posts an audio clip for a session. The backend does three things in turn:

1. It transcribes the clip with AssemblyAI: upload, submit a job, then poll the job.
2. It sends the transcript to Gemini.
3. It asks Murf to speak Gemini's reply.

It returns the transcript, the reply, the audio URL and the session's accumulated history. Each stage absorbs its own failure:
- a failed transcription becomes the text `(Error: could not get transcript)`;
- a failed synthesis becomes a null audio URL.

So a turn always completes, and it always appends one `{transcript, ai_response}` record to the process-wide `chat_history` map.

The modules follow the source files:

| module | file | models |
|---|---|---|
| `VoiceAgent` | voice_agent.dfy | `main.py`: the `chat_history` store as class `Agent` (a `map` field), `agent_chat`, `clear_history`, and the stage functions that specify a turn |
| `SttService` | stt_service.dfy | `services/stt_service.py`: the polling loop as a `while` method proved against a reference function, and the upload → submit → poll sequence with the requests it sends |
| `AiService` | ai_service.dfy | `services/ai_service.py`: the blank-prompt guard and the mapping from Gemini's outcome to a reply string |
| `LlmService` | llm_service.dfy | `services/llm_service.py`: the history-folding prompt builder (a `for` loop proved against a pure definition) and the missing-key fallback |
| `TtsService` | tts_service.dfy | `services/tts_service.py`: the key check, the empty-text fallback, the 3000-character truncation and the mapping of Murf's reply |
| `Text` | text.dfy | Python's `str.strip()` (with the `str.isspace` character set), `"\n".join` and `str.split("\n")` |
| `Remote`, `Wrappers` | remote.dfy, wrappers.dfy | abstract replies of the remote services; Option and Result |

The remote services are parameters, not behaviour:
- Gemini is a function from prompt to `ModelReply`: an exception, or a reply whose text is None or a string.
- Murf is a function from the JSON payload to an `HttpReply`.
- AssemblyAI is a record of three things: the upload reply, a function from job request to reply, and a function from job id and poll number to reply.

Environment variables are inputs. Each key is a boolean saying whether it is set, and `MURF_VOICE_ID` is an `Option`. `time.sleep(interval)` becomes one step of the `elapsed` counter.

A JSON field is `Missing`, `Null` or `Present`. The difference matters in one place: `data.get("text", "")` gives `""` for an absent transcript but `None` for a null one. That is why the transcript is an `Option<string>` and why `main.py` passes `transcript_text or ""` to generation.

## Model

| member | source | states |
|---|---|---|
| `VoiceAgent.Agent.constructor` | main.py:26-27 | the store starts as an empty map |
| `VoiceAgent.Agent.AgentChat` | main.py:49-97 | each stage output is the one the stage functions define, whatever failed before it; the new store is `Appended(old store, session, {transcript, ai_response})`; the returned history is the session's full list and ends with the record just appended |
| `VoiceAgent.Agent.ClearHistory` | main.py:106-113 | `ok` holds exactly when the session had an entry; then the entry is removed and there is no error; otherwise the error is "No history found" and the store is unchanged |
| `VoiceAgent.Agent.StoreRecord` | main.py:85-90 | the store becomes `Appended(old store, session, record)`: the entry is created empty when absent, then the record is appended |
| `VoiceAgent.Appended` | main.py:84-90 | the session's entry, created empty if absent, is the old history plus the record, one element longer; the keys gain only the session; every other entry is unchanged |
| `VoiceAgent.Cleared` | main.py:108-110 | afterwards the session's history reads as empty; exactly that key is gone; other entries are unchanged |
| `VoiceAgent.TurnsAccumulate` | main.py:84-90 | after N turns of a session, its history is the old history followed by the N records in turn order, and no other session's history changed |
| `VoiceAgent.HistoryOf` | main.py:85-86 | a session's list of records; a session with no entry reads as empty, as the entry `agent_chat` creates before appending |
| `VoiceAgent.TranscriptStage` | main.py:62-68 | a missing AssemblyAI key or a failed `transcribe_audio` gives the sentinel "(Error: could not get transcript)"; otherwise the transcript is what transcription returned |
| `VoiceAgent.ReplyStage` | main.py:70-71 | a null or blank transcript gives "(No input provided.)" without Gemini; otherwise the reply is `get_ai_response` of the transcript |
| `VoiceAgent.AudioStage` | main.py:76-82 | no audio URL without the Murf key or when `text_to_speech` fails; with the key set and a successful `text_to_speech`, the audio URL is exactly what it returned; any URL returned comes from such a success |
| `VoiceAgent.Turn` | main.py:62-82 | the three stages run in order, each fed the previous stage's output: the reply is generated from the transcript and the audio from the reply |
| `VoiceAgent.TranscriptionFailureFeedsSentinel` | main.py:62-71 | a missing AssemblyAI key, or any failure of `transcribe_audio`, gives the transcript sentinel; generation still runs on the sentinel and asks Gemini with it (a Gemini exception then shows in the reply) |
| `VoiceAgent.SentinelIsNotBlank` | main.py:68 | the transcript sentinel is not blank, so the AI service's blank-input guard never swallows it |
| `VoiceAgent.TranscriptReachesGeneration` | main.py:65-71 | a successful transcript is kept as it is, and generation gets `transcript_text or ""` |
| `VoiceAgent.SynthesisFailureOnlyLosesAudio` | main.py:76-82 | a missing Murf key or a failed synthesis gives a null audio URL; the transcript and reply are the same for every Murf key, voice and service |
| `VoiceAgent.SynthesisSpeaksReply` | main.py:76-79 | with the Murf key set and an ok Murf reply, the audio URL is that reply's `audioFile` for the payload built from the AI reply |
| `VoiceAgent.SuccessfulTurn` | main.py:58-90 | when all three services succeed, the turn returns the job's text, Gemini's stripped text and Murf's URL |
| `SttService.UploadFile` | services/stt_service.py:10-19 | succeeds exactly on an ok reply with an `upload_url`, and returns it; a request that raised fails with its message; a non-ok reply fails with its status and body; an ok reply without `upload_url` fails as the missing field (the `KeyError`) |
| `SttService.RequestTranscript` | services/stt_service.py:21-30 | succeeds exactly on an ok reply with an `id`, and returns it; a request that raised fails with its message; a non-ok reply fails with its status and body; an ok reply without `id` fails as the missing field |
| `SttService.TextOf` | services/stt_service.py:42 | `data.get("text", "")`: None exactly for a JSON null, "" for an absent field, the text otherwise |
| `SttService.Classify` | services/stt_service.py:37-44 | a poll reply keeps the loop going exactly when it is ok and its status is neither "completed" nor "error"; a request that raised ends the loop with its message; a non-ok reply fails with its status and body; status "error" fails with `data.get('error')`; it yields a transcript exactly for status "completed", and that transcript is `data.get("text", "")` |
| `SttService.WaitFrom` | services/stt_service.py:35-47 | from round k, a poll is sent exactly when time is left; the wait fails only with a raised request, a non-ok poll, a job error or a timeout |
| `SttService.Wait` | services/stt_service.py:32-47 | no poll at all is sent exactly when the timeout is not positive; the wait fails only with a raised request, a non-ok poll, a job error or a timeout |
| `SttService.Transcribe` | services/stt_service.py:49-59 | no request is sent exactly when the key is missing, which is also exactly when the outcome is the missing-key error; otherwise the first request is the upload |
| `SttService.WaitForTranscript` | services/stt_service.py:32-47 | the loop returns what the reference definition `Wait` gives, with the same poll count; at most `PollLimit` polls are sent, and exactly that many on a timeout |
| `SttService.PollLimit` | services/stt_service.py:35-36 | the number of rounds is the least n with n × interval ≥ timeout |
| `SttService.DefaultPollLimit` | services/stt_service.py:32 | with timeout 90 and interval 2, the budget is 45 polls |
| `SttService.RoundWithinBudget` | services/stt_service.py:35-46 | round k runs, with `elapsed` = k × interval below the timeout, exactly when k < PollLimit |
| `SttService.WaitFromBound` | services/stt_service.py:35-47 | the loop never polls more than PollLimit times; a timeout happens only after exactly PollLimit polls |
| `SttService.WaitFromFirstDecisive` | services/stt_service.py:36-44 | the first reply that is not pending decides the outcome if it comes within the budget; no later poll is sent |
| `SttService.WaitFromAllPending` | services/stt_service.py:36-47 | when every reply within the budget is pending, the loop polls exactly PollLimit times and raises the timeout |
| `SttService.NeverFinishingJob` | services/stt_service.py:32-47 | under the defaults, a job that never reaches "completed" or "error" is polled exactly 45 times, then times out |
| `SttService.WaitStopsAtFirstVerdict` | services/stt_service.py:37-44 | the first non-pending reply among the first 45 ends the loop after exactly that poll: a request that raised ends it with that exception; non-ok raises with status and body; "completed" returns the text ("" when absent); "error" raises with the remote detail |
| `SttService.WaitLastReplyDecides` | services/stt_service.py:36-44 | any outcome other than a timeout is the verdict of the last reply read |
| `SttService.TranscribeAudio` | services/stt_service.py:49-59 | the outcome and the requests sent are those of the reference definition `Transcribe` |
| `SttService.TranscribeCallOrder` | services/stt_service.py:54-58 | no key means KeyMissing and no request at all; otherwise the upload is sent first, then one job for the uploaded URL with language "en_us", then at most 45 polls of the returned job id; each step runs only after the previous one succeeded |
| `SttService.TranscribeProgress` | services/stt_service.py:56-59 | with the key set, each step that succeeds leads to the next: a failed upload ends with the upload's error after one request; a successful one is followed by the job for its URL; a failed submission ends with its error; a successful one is followed by polling the returned id, whose outcome is the call's outcome, with one request per poll |
| `SttService.TranscriptOnlyFromCompletedJob` | services/stt_service.py:40-58 | a transcript is returned only after the key check, the upload and the job submission all succeeded, within the 45-poll budget, and it is the verdict of the last poll's reply |
| `AiService.ErrorReply` | services/ai_service.py:39-41 | `f"(Error: {e})"`: the reply is bracketed by "(" and ")" and the message can be read back from it |
| `AiService.GetAiResponse` | services/ai_service.py:21-41 | blank prompt gives "(No input provided.)"; an exception gives "(Error: <message>)"; no text or empty text gives "(Error: No AI response text.)"; a non-empty text comes back stripped |
| `AiService.BlankPromptSkipsModel` | services/ai_service.py:25-32 | for a blank prompt the reply is the same for every model, so the model is not consulted |
| `AiService.ReplyDependsOnlyOnPrompt` | services/ai_service.py:30-32 | the model is asked about the prompt and nothing else |
| `AiService.EmptyReplyOnlyFromBlankText` | services/ai_service.py:25-38 | the reply is empty if and only if the prompt is not blank and Gemini's text is non-empty whitespace |
| `AiService.ReplyIsStripped` | services/ai_service.py:25-41 | every reply, error replies included, has no whitespace at either end |
| `LlmService.Trimmed` | services/llm_service.py:13 | the kept messages are a suffix of the history in original order; for a positive bound they are the last min(len, bound); a bound of 0 keeps the whole history, as Python's `history[-0:]` does |
| `LlmService.SliceStart` | services/llm_service.py:13 | where `history[-max_messages:]` starts: a non-negative start is clipped to the length, and a negative one keeps the last `-start` elements, or all when there are fewer |
| `LlmService.Speaker` | services/llm_service.py:16 | the label is "User" exactly for role "user", and "Assistant" for every other role |
| `LlmService.Line` | services/llm_service.py:17 | `f"{role}: {m['content']}"`: the label, then ": ", then the content, which can be read back from the end of the line |
| `LlmService.PromptLines` | services/llm_service.py:14-19 | one line per kept message, labelled "User" for role "user" and "Assistant" for any other role, then "User: <text>" and "Assistant:" |
| `LlmService.BuildPromptFromHistory` | services/llm_service.py:9-20 | the loop-built prompt is the newline-join of `PromptLines` |
| `LlmService.PromptUsesLastMessages` | services/llm_service.py:13-17 | with the default bound the prompt has min(len(history), 12) + 2 lines, the first ones being the last 12 messages' lines in order |
| `LlmService.EmptyHistoryPrompt` | services/llm_service.py:13-20 | empty history gives exactly "User: <text>\nAssistant:" |
| `LlmService.PromptLineCount` | services/llm_service.py:18-20 | when no content has a newline, splitting the prompt on "\n" gives min(len(history), 12) + 2 lines, and the last two are "User: <text>" and "Assistant:" |
| `LlmService.GenerateAiResponse` | services/llm_service.py:22-28 | no key gives the fixed missing-key message; otherwise a model exception propagates, and a reply's text (None read as "") comes back stripped |
| `LlmService.MissingKeySkipsModel` | services/llm_service.py:23-25 | without a key the result is the same for every history, text and model: no prompt is built and no call made |
| `LlmService.ReplyEmptyIffBlankText` | services/llm_service.py:27-28 | a successful reply is "" if and only if the model's text is None, empty or whitespace |
| `TtsService.SpeechText` | services/tts_service.py:15-19 | the text sent is never empty and at most 3000 characters; empty input becomes the fallback phrase; otherwise it is a prefix of the input, the whole input when that has at most 3000 characters, and exactly 3000 characters when the input is longer |
| `TtsService.VoiceId` | services/tts_service.py:5 | `MURF_VOICE_ID` when it is set, "en-IN-rohan" otherwise |
| `TtsService.TextToSpeech` | services/tts_service.py:8-28 | a missing key fails before any request; otherwise one request carries the configured (or default) voice and the normalised text; a request that raised fails with its message; non-ok gives ApiError(status, body); ok gives the `audioFile` field, None when absent or null |
| `TtsService.MissingKeySkipsRequest` | services/tts_service.py:13-14 | without a key the outcome is the same for every text and every Murf behaviour |
| `TtsService.OnlyNormalisedTextIsSent` | services/tts_service.py:15-24 | two inputs with the same normalised text give the same outcome |
| `TtsService.SpeechTextIdempotent` | services/tts_service.py:15-19 | normalising a sent text leaves it unchanged |
| `TtsService.DefaultVoice` | services/tts_service.py:5-22 | with `MURF_VOICE_ID` unset, the request uses voice "en-IN-rohan" |
| `Wrappers.Option.GetOr` | main.py:71 | `x or ""`: the value when there is one, the default for None |
| `Remote.Field.Get` | services/tts_service.py:27-28 | `data.get(key)` reads an absent key and a JSON null alike as None |
| `Text.IsSpace` | services/ai_service.py:25 | the characters Python's `str.isspace()` accepts, which `str.strip()` removes (definition) |
| `Text.IsBlank` | services/ai_service.py:25 | `not prompt.strip()`: empty or only whitespace (definition) |
| `Text.Strip` | services/ai_service.py:25 | `str.strip()` returns the part of `s` that starts at the first non-whitespace character and is followed only by whitespace: what it removes before and after is blank; the result is "" exactly for blank strings, and a non-empty result has no whitespace at either end |
| `Text.StripIdempotent` | services/ai_service.py:35 | stripping twice is stripping once |
| `Text.JoinLines` | services/llm_service.py:20 | `"\n".join`: no parts give "", one part gives that part |
| `Text.SplitLines` | services/llm_service.py:20 | `str.split("\n")` gives at least one piece and no piece holds a newline |
| `Text.SplitJoinLines` | services/llm_service.py:20 | splitting a `"\n".join` of newline-free lines on "\n" gives the lines back |

Two client methods use only the class's contracts:
- `VoiceAgent.FirstTurn` replays one end-to-end turn: session "s1", transcript "hello", reply "hi there", audio "http://audio/1.mp3", and a one-record history. It relies on `VoiceAgent.HappyServicesTurn`, which works out a turn against scripted services.
- `VoiceAgent.ClearTwice` clears a session twice. The first clear succeeds and the second reports "No history found".

## Left out

- The FastAPI application is not modelled: CORS, the static mount, `root`, `get_audio` and the HTTP routing (main.py:29-46, 100-103).
- Writing the upload to a temporary file and logging are not modelled (main.py:51-56). The audio bytes never reach the model, because the upload is an abstract reply.
- Real HTTP requests, the Gemini SDK and JSON decoding are outside the model. Each service is a parameter that maps the request to an abstract reply. A request that raises (a connection error, a timeout) is represented, as `HttpReply.Exception`; a reply whose body is not JSON (which makes `r.json()` raise) is not.
- `upload_url` and `id` are modelled as present-or-absent only. The model assumes that, when present, they are strings. A JSON null there is not represented.
- The AI fallback at main.py:72-74 ("(Error: could not get AI response)") is not modelled as a reachable path. `get_ai_response` catches every exception, and its guard `prompt.strip()` cannot raise on a string, so that branch never runs in the model. `AgentChat` calls the AI service directly.
- Loading `.env` and the import-time `RuntimeError` for a missing `GEMINI_API_KEY` (services/ai_service.py:12-14) are not modelled. The application does not start without that key, so every modelled turn has it.
- The transcript is assumed to be a string or JSON null, as AssemblyAI documents it. A `text` of another JSON type is not represented. A truthy non-string value would make `prompt.strip()` (services/ai_service.py:25, outside its `try`) raise, and main.py:72-74 would then give "(Error: could not get AI response)".
- The AssemblyAI key is read twice, once by `main.py` and once by the service module. Both read the same environment, so the model has one boolean for it.
- `MURF_API_KEY` is also read twice: by `main.py` at request time (main.py:77) and by the service module at import time (services/tts_service.py:4, checked at :13). The model has one boolean for it too, so `TtsService.TextToSpeech`'s `KeyMissing` branch cannot be reached from `AgentChat`. A key set or unset between import and request is not represented.
- Concurrent turns racing on `chat_history` are not modelled. The model has one sequential caller.
- A `get history` operation is not modelled: the source has no such endpoint. The model's `HistoryOf` only reads the store.
- `static/script.js` (browser UI) and `schemas.py` (an unused pydantic class) are not part of this model.
- `SttService.WaitForTranscript` requires `interval > 0`. With interval 0 or less the source loops forever on a pending job. The only caller uses the default interval, 2.
- `LlmService.GenerateAiResponse` takes the history as a list. The source's `if history` also accepts None, which it treats like an empty list; None is not modelled.
- `LlmService.GenerateAiResponse` reports a model exception as a Failure carrying the message. It does not model the exception's type.
- Nothing calls `services/llm_service.py` from `main.py`, so `VoiceAgent` does not use `LlmService`.
