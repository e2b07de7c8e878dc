/**
 * main.py: the turn orchestrator and the in-memory session history store.
 * A turn runs transcription, generation and synthesis in that order; each
 * stage absorbs its own failure by substituting a fixed value, so the turn
 * always completes and appends one record to its session's history.
 */
module VoiceAgent {
  import opened Wrappers
  import opened Remote
  import Text
  import SttService
  import AiService
  import TtsService

  /** The transcript used when transcription is impossible or fails. */
  const TranscriptError := "(Error: could not get transcript)"

  /** One entry of a session's history, `{"transcript": ..., "ai_response": ...}`. */
  datatype TurnRecord = TurnRecord(transcript: Option<string>, aiResponse: string)

  /** The JSON body returned for a turn. */
  datatype TurnResult = TurnResult(transcript: Option<string>, aiResponse: string, audioUrl: Option<string>,
                                   history: seq<TurnRecord>)

  /** The JSON body returned by the clear endpoint, `{"ok": ..., "error"?: ...}`. */
  datatype ClearReply = ClearReply(ok: bool, error: Option<string>)

  /** The environment a turn reads: whether each key is set, and `MURF_VOICE_ID` if it is set. */
  datatype Config = Config(assemblyKey: bool, murfKey: bool, murfVoice: Option<string>)

  /** The three remote services as seen by one turn. */
  datatype Services = Services(
    assembly: SttService.Assembly,
    gemini: string -> ModelReply,
    murf: TtsService.Payload -> HttpReply<Field<string>>)

  /** The three stage outputs of a turn. */
  datatype TurnOutputs = TurnOutputs(transcript: Option<string>, aiResponse: string, audioUrl: Option<string>)

  /** The value of `chat_history`: session id to that session's records, oldest first. */
  type Store = map<string, seq<TurnRecord>>

  /** A session's history, empty for a session with no entry. */
  function HistoryOf(store: Store, sessionId: string): (h: seq<TurnRecord>)
    ensures sessionId in store ==> h == store[sessionId]
    ensures sessionId !in store ==> h == []
  {
    if sessionId in store then store[sessionId] else []
  }

  /**
   * The store after a turn of `sessionId` recorded `record`: the session's
   * entry, created empty if absent, gains the record at its end; every other
   * entry is unchanged.
   */
  function Appended(store: Store, sessionId: string, record: TurnRecord): (after: Store)
    ensures sessionId in after && after[sessionId] == HistoryOf(store, sessionId) + [record]
    ensures |after[sessionId]| == |HistoryOf(store, sessionId)| + 1
    ensures after.Keys == store.Keys + {sessionId}
    ensures forall other :: other in store && other != sessionId ==> after[other] == store[other]
  {
    store[sessionId := HistoryOf(store, sessionId) + [record]]
  }

  /** The store after clearing `sessionId`: that entry gone, every other entry unchanged. */
  function Cleared(store: Store, sessionId: string): (after: Store)
    ensures HistoryOf(after, sessionId) == []
    ensures after.Keys == store.Keys - {sessionId}
    ensures forall other :: other in after ==> after[other] == store[other]
  {
    store - {sessionId}
  }

  /** Transcription: the sentinel when the key is missing or `transcribe_audio` raises. */
  function TranscriptStage(config: Config, assembly: SttService.Assembly): (t: Option<string>)
    ensures !config.assemblyKey || SttService.Transcribe(true, assembly).0.Failure? ==> t == Some(TranscriptError)
    ensures config.assemblyKey && SttService.Transcribe(true, assembly).0.Success?
            ==> t == SttService.Transcribe(true, assembly).0.value
  {
    if !config.assemblyKey then Some(TranscriptError)
    else match SttService.Transcribe(config.assemblyKey, assembly).0
         case Success(text) => text
         case Failure(_) => Some(TranscriptError)
  }

  /** Generation: `get_ai_response(transcript_text or "")`, which cannot raise. */
  function ReplyStage(transcript: Option<string>, gemini: string -> ModelReply): (r: string)
    ensures transcript.None? || Text.IsBlank(transcript.value) ==> r == AiService.NoInput
    ensures transcript.Some? ==> r == AiService.GetAiResponse(transcript.value, gemini)
  {
    AiService.GetAiResponse(transcript.GetOr(""), gemini)
  }

  /** Synthesis: None when the key is missing or `text_to_speech` raises. */
  function AudioStage(config: Config, aiText: string, murf: TtsService.Payload -> HttpReply<Field<string>>): (a: Option<string>)
    ensures !config.murfKey ==> a == None
    ensures config.murfKey && TtsService.TextToSpeech(true, config.murfVoice, aiText, murf).Failure? ==> a == None
    ensures config.murfKey && TtsService.TextToSpeech(true, config.murfVoice, aiText, murf).Success?
            ==> a == TtsService.TextToSpeech(true, config.murfVoice, aiText, murf).value
    ensures a.Some? ==> config.murfKey && TtsService.TextToSpeech(true, config.murfVoice, aiText, murf) == Success(a)
  {
    if !config.murfKey then None
    else match TtsService.TextToSpeech(config.murfKey, config.murfVoice, aiText, murf)
         case Success(url) => url
         case Failure(_) => None
  }

  /** The stage outputs of a turn: each stage is fed the previous one's output. */
  function Turn(config: Config, services: Services): (o: TurnOutputs)
    ensures o.transcript == TranscriptStage(config, services.assembly)
    ensures o.aiResponse == ReplyStage(o.transcript, services.gemini)
    ensures o.audioUrl == AudioStage(config, o.aiResponse, services.murf)
  {
    var transcript := TranscriptStage(config, services.assembly);
    var aiText := ReplyStage(transcript, services.gemini);
    TurnOutputs(transcript, aiText, AudioStage(config, aiText, services.murf))
  }

  /**
   * A missing AssemblyAI key or any transcription failure yields the
   * transcript sentinel, and generation still runs, on the sentinel: since
   * the sentinel is not blank, Gemini is asked with exactly that text.
   */
  lemma TranscriptionFailureFeedsSentinel(config: Config, services: Services)
    requires !config.assemblyKey || SttService.Transcribe(true, services.assembly).0.Failure?
    ensures Turn(config, services).transcript == Some(TranscriptError)
    ensures Turn(config, services).aiResponse == AiService.GetAiResponse(TranscriptError, services.gemini)
    ensures services.gemini(TranscriptError).Raised?
            ==> Turn(config, services).aiResponse == AiService.ErrorReply(services.gemini(TranscriptError).message)
  {
    SentinelIsNotBlank();
  }

  /** The transcript sentinel is not blank, so the AI service does consult the model on it. */
  lemma SentinelIsNotBlank()
    ensures !Text.IsBlank(TranscriptError)
  {
    assert TranscriptError[0] == '(';
  }

  /**
   * A successful transcription is passed on as it is, with a null text read
   * as "": generation gets `transcript_text or ""`.
   */
  lemma TranscriptReachesGeneration(config: Config, services: Services)
    requires config.assemblyKey && SttService.Transcribe(true, services.assembly).0.Success?
    ensures var text := SttService.Transcribe(true, services.assembly).0.value;
            && Turn(config, services).transcript == text
            && Turn(config, services).aiResponse == AiService.GetAiResponse(text.GetOr(""), services.gemini)
  {
  }

  /**
   * A missing Murf key or a synthesis failure only loses the audio: the
   * transcript and the reply are those of a turn whatever Murf's setup.
   */
  lemma SynthesisFailureOnlyLosesAudio(config: Config, services: Services)
    requires !config.murfKey
             || TtsService.TextToSpeech(true, config.murfVoice, Turn(config, services).aiResponse, services.murf).Failure?
    ensures Turn(config, services).audioUrl == None
    ensures forall murfKey, voice, murf {:trigger Turn(Config(config.assemblyKey, murfKey, voice), Services(services.assembly, services.gemini, murf))} ::
              var other := Turn(Config(config.assemblyKey, murfKey, voice), Services(services.assembly, services.gemini, murf));
              other.transcript == Turn(config, services).transcript
              && other.aiResponse == Turn(config, services).aiResponse
  {
  }

  /** With every service succeeding, the audio URL is Murf's `audioFile` for the reply. */
  lemma SynthesisSpeaksReply(config: Config, services: Services)
    requires config.murfKey
    ensures var out := Turn(config, services);
            var payload := TtsService.Payload(TtsService.VoiceId(config.murfVoice), TtsService.SpeechText(out.aiResponse));
            services.murf(payload).Okay? ==> out.audioUrl == services.murf(payload).json.Get()
  {
  }

  /** Records appended by successive turns of one session, in order. */
  function AppendAll(store: Store, sessionId: string, records: seq<TurnRecord>): Store
    decreases |records|
  {
    if records == [] then store
    else AppendAll(Appended(store, sessionId, records[0]), sessionId, records[1..])
  }

  /**
   * After N turns of a session, its history is the old one followed by the
   * N records in turn order, and no other session changed.
   */
  lemma {:induction false} TurnsAccumulate(store: Store, sessionId: string, records: seq<TurnRecord>)
    ensures HistoryOf(AppendAll(store, sessionId, records), sessionId) == HistoryOf(store, sessionId) + records
    ensures forall other :: other != sessionId ==>
              HistoryOf(AppendAll(store, sessionId, records), other) == HistoryOf(store, other)
    decreases |records|
  {
    if records != [] {
      var next := Appended(store, sessionId, records[0]);
      TurnsAccumulate(next, sessionId, records[1..]);
      assert HistoryOf(store, sessionId) + [records[0]] + records[1..] == HistoryOf(store, sessionId) + records;
      forall other | other != sessionId
        ensures HistoryOf(next, other) == HistoryOf(store, other)
      {
      }
    }
  }

  /** The process-wide `chat_history` and the two endpoints that change it. */
  class Agent {
    var chatHistory: Store

    constructor ()
      ensures chatHistory == map[]
    {
      chatHistory := map[];
    }

    /** `agent_chat(session_id, audio)`: one turn, which always completes. */
    method AgentChat(sessionId: string, config: Config, services: Services) returns (result: TurnResult)
      modifies this
      ensures var out := Turn(config, services);
              && result.transcript == out.transcript
              && result.aiResponse == out.aiResponse
              && result.audioUrl == out.audioUrl
      ensures chatHistory == Appended(old(chatHistory), sessionId, TurnRecord(result.transcript, result.aiResponse))
      ensures result.history == chatHistory[sessionId]
      ensures result.history[|result.history| - 1] == TurnRecord(result.transcript, result.aiResponse)
    {
      var transcriptText: Option<string> := None;
      var aiText: string;
      var audioUrl: Option<string> := None;

      if !config.assemblyKey {
        transcriptText := Some(TranscriptError);
      } else {
        var outcome, _ := SttService.TranscribeAudio(config.assemblyKey, services.assembly);
        transcriptText := if outcome.Success? then outcome.value else Some(TranscriptError);
      }
      assert transcriptText == TranscriptStage(config, services.assembly);

      // get_ai_response turns every exception into a reply string, so the AI sentinel is never needed here
      aiText := AiService.GetAiResponse(transcriptText.GetOr(""), services.gemini);

      if !config.murfKey {
        audioUrl := None;
      } else {
        var spoken := TtsService.TextToSpeech(config.murfKey, config.murfVoice, aiText, services.murf);
        audioUrl := if spoken.Success? then spoken.value else None;
      }
      assert audioUrl == AudioStage(config, aiText, services.murf);

      var record := TurnRecord(transcriptText, aiText);
      StoreRecord(sessionId, record);
      result := TurnResult(transcriptText, aiText, audioUrl, chatHistory[sessionId]);
    }

    /** The store step of a turn: create the session's entry if absent, then append the record to it. */
    method StoreRecord(sessionId: string, record: TurnRecord)
      modifies this
      ensures chatHistory == Appended(old(chatHistory), sessionId, record)
    {
      if sessionId !in chatHistory {
        chatHistory := chatHistory[sessionId := []];
      }
      assert chatHistory[sessionId] == HistoryOf(old(chatHistory), sessionId);
      chatHistory := chatHistory[sessionId := chatHistory[sessionId] + [record]];
    }

    /** `clear_history(session_id)`: delete the session's entry, reporting whether there was one. */
    method ClearHistory(sessionId: string) returns (reply: ClearReply)
      modifies this
      ensures reply.ok == (sessionId in old(chatHistory))
      ensures reply.ok ==> reply.error == None && chatHistory == Cleared(old(chatHistory), sessionId)
      ensures !reply.ok ==> reply.error == Some("No history found") && chatHistory == old(chatHistory)
    {
      if sessionId in chatHistory {
        chatHistory := chatHistory - {sessionId};
        return ClearReply(true, None);
      }
      return ClearReply(false, Some("No history found"));
    }
  }

  /** Services for which a turn succeeds end to end with the given texts. */
  function HappyServices(heard: string, said: string, audio: string): Services {
    Services(
      SttService.Assembly(
        Okay(Some("upload-1")),
        _ => Okay(Some("job-1")),
        _ => _ => Okay(SttService.PollBody(Present("completed"), Present(heard), Missing))),
      _ => Replied(Some(said)),
      _ => Okay(Present(audio)))
  }

  /**
   * A turn in which every service succeeds: the transcript is the job's
   * text, the reply is Gemini's text for it, stripped, and the audio URL is
   * Murf's `audioFile` for that reply.
   */
  lemma SuccessfulTurn(config: Config, services: Services, heard: string, said: string, audio: string)
    requires config.assemblyKey && config.murfKey
    requires SttService.Transcribe(true, services.assembly).0 == Success(Some(heard))
    requires !Text.IsBlank(heard)
    requires services.gemini(heard) == Replied(Some(said)) && said != ""
    requires TtsService.TextToSpeech(true, config.murfVoice, Text.Strip(said), services.murf) == Success(Some(audio))
    ensures Turn(config, services) == TurnOutputs(Some(heard), Text.Strip(said), Some(audio))
  {
  }

  /**
   * With the scripted services, a turn returns the heard text, the said
   * text stripped, and the audio URL, whatever the texts are.
   */
  lemma HappyServicesTurn(heard: string, said: string, audio: string)
    requires !Text.IsBlank(heard) && said != ""
    ensures Turn(Config(true, true, None), HappyServices(heard, said, audio))
            == TurnOutputs(Some(heard), Text.Strip(said), Some(audio))
  {
    var services := HappyServices(heard, said, audio);
    var replies := services.assembly.poll("job-1");
    assert SttService.Classify(replies(0)) == SttService.Done(Success(Some(heard)));
    SttService.DefaultPollLimit();
    SttService.WaitFromFirstDecisive(replies, SttService.DefaultTimeout, SttService.DefaultInterval, 0, 0);
    SuccessfulTurn(Config(true, true, None), services, heard, said, audio);
  }

  /** Session "s1" takes one turn in which AssemblyAI hears "hello", Gemini says "hi there" and Murf hosts the audio. */
  method FirstTurn() {
    var heard, said, audio := "hello", "hi there", "http://audio/1.mp3";
    var agent := new Agent();
    assert !Text.IsSpace(heard[0]);
    HappyServicesTurn(heard, said, audio);
    Text.StripOfStripped(said);
    var result := agent.AgentChat("s1", Config(true, true, None), HappyServices(heard, said, audio));
    assert result.transcript == Some("hello") && result.aiResponse == "hi there";
    assert result.audioUrl == Some("http://audio/1.mp3");
    assert result.history == [TurnRecord(Some("hello"), "hi there")];
  }

  /** Clearing a session with history succeeds and empties the store; clearing it again reports no history. */
  method ClearTwice() {
    var agent := new Agent();
    agent.StoreRecord("s1", TurnRecord(Some("hello"), "hi there"));
    var cleared := agent.ClearHistory("s1");
    assert cleared.ok;
    assert agent.chatHistory.Keys == {};
    cleared := agent.ClearHistory("s1");
    assert !cleared.ok && cleared.error == Some("No history found");
  }
}
