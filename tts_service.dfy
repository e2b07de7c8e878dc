/**
 * services/tts_service.py: text in, Murf-hosted audio URL out. The POST to
 * Murf is the parameter `murf`, from the JSON payload sent to the reply.
 */
module TtsService {
  import opened Wrappers
  import opened Remote

  /** The voice used when `MURF_VOICE_ID` is not set. */
  const DefaultVoiceId := "en-IN-rohan"
  /** The text spoken instead of an empty one. */
  const FallbackText := "I'm having trouble connecting right now."
  /** Murf's limit on the text of one request, in characters. */
  const MaxChars := 3000

  /** The JSON body of the request, `{"voiceId": ..., "text": ...}`. */
  datatype Payload = Payload(voiceId: string, text: string)

  datatype TtsError =
    | KeyMissing                          // MURF_API_KEY is not set
    | RequestRaised(message: string)      // `requests.post` itself raised
    | ApiError(status: int, body: string) // Murf answered with a non-ok status

  /** `os.getenv("MURF_VOICE_ID", "en-IN-rohan")`, given the variable's value if it is set. */
  function VoiceId(configured: Option<string>): (v: string)
    ensures configured.None? ==> v == DefaultVoiceId
    ensures configured.Some? ==> v == configured.value
  {
    configured.GetOr(DefaultVoiceId)
  }

  /** The text after the fallback and the truncation, which is what is sent. */
  function SpeechText(text: string): (sent: string)
    ensures 0 < |sent| <= MaxChars
    ensures text == "" ==> sent == FallbackText
    ensures text != "" ==> |sent| <= |text| && sent == text[..|sent|]
    ensures text != "" && |text| <= MaxChars ==> sent == text
    ensures |text| > MaxChars ==> |sent| == MaxChars
  {
    var t := if text == "" then FallbackText else text;
    if |t| > MaxChars then t[..MaxChars] else t
  }

  /**
   * `text_to_speech(text)`: fails before anything else when the key is
   * missing; otherwise sends exactly one request whose payload carries the
   * configured (or default) voice and the normalised text, and maps a
   * request that raised to RequestRaised, a non-ok reply to ApiError and an
   * ok one to its `audioFile` field, which
   * is None when the field is absent or null.
   */
  function TextToSpeech(keyPresent: bool, voiceSetting: Option<string>, text: string,
                        murf: Payload -> HttpReply<Field<string>>): (r: Result<Option<string>, TtsError>)
    ensures !keyPresent ==> r == Failure(KeyMissing)
    ensures keyPresent ==> var reply := murf(Payload(VoiceId(voiceSetting), SpeechText(text)));
            && (reply.Exception? ==> r == Failure(RequestRaised(reply.message)))
            && (reply.NotOk? ==> r == Failure(ApiError(reply.status, reply.body)))
            && (reply.Okay? ==> r == Success(reply.json.Get()))
  {
    if !keyPresent then
      Failure(KeyMissing)
    else
      var payload := Payload(VoiceId(voiceSetting), SpeechText(text));
      match murf(payload)
      case Exception(message) => Failure(RequestRaised(message))
      case NotOk(status, body) => Failure(ApiError(status, body))
      case Okay(data) => Success(data.Get())
  }

  /** Without a key the outcome is the same whatever the text and whatever Murf would answer. */
  lemma MissingKeySkipsRequest(voiceSetting: Option<string>, text1: string, text2: string,
                               murf1: Payload -> HttpReply<Field<string>>, murf2: Payload -> HttpReply<Field<string>>)
    ensures TextToSpeech(false, voiceSetting, text1, murf1) == TextToSpeech(false, voiceSetting, text2, murf2)
  {
  }

  /** Two texts that normalise alike are spoken alike: only the normalised text reaches Murf. */
  lemma OnlyNormalisedTextIsSent(voiceSetting: Option<string>, text1: string, text2: string,
                                 murf: Payload -> HttpReply<Field<string>>)
    requires SpeechText(text1) == SpeechText(text2)
    ensures TextToSpeech(true, voiceSetting, text1, murf) == TextToSpeech(true, voiceSetting, text2, murf)
  {
  }

  /** Normalising is idempotent: a sent text would be sent unchanged. */
  lemma SpeechTextIdempotent(text: string)
    ensures SpeechText(SpeechText(text)) == SpeechText(text)
  {
    var sent := SpeechText(text);
    assert sent != "" && |sent| <= MaxChars;
  }

  /** With no voice configured, every request asks for the default voice. */
  lemma DefaultVoice(text: string, murf: Payload -> HttpReply<Field<string>>)
    requires murf(Payload(DefaultVoiceId, SpeechText(text))).Okay?
    ensures TextToSpeech(true, None, text, murf) == Success(murf(Payload(DefaultVoiceId, SpeechText(text))).json.Get())
  {
  }
}
