/**
 * services/stt_service.py: the AssemblyAI client. Upload the audio, submit a
 * transcription job for the uploaded file, then poll the job until it
 * completes, fails, or the time budget is spent. The three endpoints are
 * parameters; `time.sleep(interval)` becomes a step of the `elapsed` counter.
 */
module SttService {
  import opened Wrappers
  import opened Remote

  /** The default `timeout` and `interval` of `_wait_for_transcript`, in seconds. */
  const DefaultTimeout := 90
  const DefaultInterval := 2
  /** The language every job is submitted with. */
  const LanguageCode := "en_us"

  /** The JSON body of a poll reply, `{status, text?, error?}`. */
  datatype PollBody = PollBody(status: Field<string>, text: Field<string>, error: Field<string>)

  /** The JSON body of the job submission, `{"audio_url": ..., "language_code": ...}`. */
  datatype JobRequest = JobRequest(audioUrl: string, languageCode: string)

  /**
   * AssemblyAI as seen from this client: the reply to the upload (its
   * `upload_url` field, None when absent), the reply to a job submission
   * (its `id` field), and the reply to the k-th poll (counting from 0) of a job.
   */
  datatype Assembly = Assembly(
    upload: HttpReply<Option<string>>,
    submit: JobRequest -> HttpReply<Option<string>>,
    poll: string -> nat -> HttpReply<PollBody>)

  /** The requests the client sends, in the order sent. */
  datatype Call = Upload | Submit(request: JobRequest) | Poll(transcriptId: string)

  /** The exceptions the client raises. */
  datatype SttError =
    | KeyMissing                                   // ASSEMBLYAI_API_KEY is not set
    | RequestRaised(message: string)               // `requests.post`/`requests.get` itself raised
    | UploadFailed(status: int, body: string)      // non-ok reply to the upload
    | RequestFailed(status: int, body: string)     // non-ok reply to the job submission
    | PollFailed(status: int, body: string)        // non-ok reply to a poll
    | JobFailed(detail: Option<string>)            // the job reported status "error"
    | MissingField(name: string)                   // the KeyError of `r.json()[name]`
    | TimedOut                                     // the TimeoutError after the time budget

  /**
   * A transcript: the `text` of a completed job, which is "" when the field is
   * absent and None when it is a JSON null.
   */
  type Transcript = Option<string>

  /** What one poll reply tells the loop: keep polling, or stop with this outcome. */
  datatype Verdict = Pending | Done(outcome: Result<Transcript, SttError>)

  /** `data.get("text", "")`: "" when the field is absent, None when it is null. */
  function TextOf(text: Field<string>): (t: Transcript)
    ensures t.None? <==> text.Null?
    ensures text.Missing? ==> t == Some("")
    ensures text.Present? ==> t == Some(text.value)
  {
    match text
    case Missing => Some("")
    case Null => None
    case Present(t) => Some(t)
  }

  /** `_wait_for_transcript`'s reading of one poll reply. */
  function Classify(reply: HttpReply<PollBody>): (v: Verdict)
    ensures v.Pending? <==> reply.Okay? && reply.json.status != Present("completed") && reply.json.status != Present("error")
    ensures reply.Exception? ==> v == Done(Failure(RequestRaised(reply.message)))
    ensures reply.NotOk? ==> v == Done(Failure(PollFailed(reply.status, reply.body)))
    ensures reply.Okay? && reply.json.status == Present("error") ==> v == Done(Failure(JobFailed(reply.json.error.Get())))
    ensures v.Done? && v.outcome.Success? <==> reply.Okay? && reply.json.status == Present("completed")
    ensures v.Done? && v.outcome.Success? ==> v.outcome.value == TextOf(reply.json.text)
  {
    match reply
    case Exception(message) => Done(Failure(RequestRaised(message)))
    case NotOk(status, body) => Done(Failure(PollFailed(status, body)))
    case Okay(data) =>
      if data.status == Present("completed") then
        Done(Success(TextOf(data.text)))
      else if data.status == Present("error") then
        Done(Failure(JobFailed(data.error.Get())))
      else
        Pending
  }

  /** The outcome of polling, and how many polls were sent. */
  datatype WaitOutcome = WaitOutcome(outcome: Result<Transcript, SttError>, polls: nat)

  /**
   * The polling loop from its k-th round on, where `elapsed` seconds have
   * been slept so far: the reference definition `WaitForTranscript` follows.
   */
  function WaitFrom(replies: nat -> HttpReply<PollBody>, timeout: int, interval: int, k: nat, elapsed: int): (w: WaitOutcome)
    requires interval > 0
    ensures k <= w.polls
    ensures w.polls == k <==> elapsed >= timeout
    ensures w.outcome.Failure? ==> w.outcome.error.RequestRaised? || w.outcome.error.PollFailed? || w.outcome.error.JobFailed?
                                   || w.outcome.error.TimedOut?
    decreases timeout - elapsed
  {
    if elapsed < timeout then
      match Classify(replies(k))
      case Done(outcome) => WaitOutcome(outcome, k + 1)
      case Pending => WaitFrom(replies, timeout, interval, k + 1, elapsed + interval)
    else
      WaitOutcome(Failure(TimedOut), k)
  }

  /** `_wait_for_transcript(transcript_id, timeout, interval)`, with the poll replies given in order. */
  function Wait(replies: nat -> HttpReply<PollBody>, timeout: int, interval: int): (w: WaitOutcome)
    requires interval > 0
    ensures w.polls == 0 <==> timeout <= 0
    ensures w.outcome.Failure? ==> w.outcome.error.RequestRaised? || w.outcome.error.PollFailed? || w.outcome.error.JobFailed?
                                   || w.outcome.error.TimedOut?
  {
    WaitFrom(replies, timeout, interval, 0, 0)
  }

  /** How many rounds fit in the time budget: the least n with n * interval >= timeout. */
  function PollLimit(timeout: int, interval: int): (n: nat)
    requires interval > 0
    ensures n * interval >= timeout
    ensures n == 0 || (n - 1) * interval < timeout
  {
    if timeout <= 0 then 0 else (timeout + interval - 1) / interval
  }

  /** With the defaults, the budget allows 45 polls. */
  lemma DefaultPollLimit()
    ensures PollLimit(DefaultTimeout, DefaultInterval) == 45
  {
  }

  /** Round k of the loop runs only while k * interval < timeout, that is, while k < PollLimit. */
  lemma RoundWithinBudget(k: nat, timeout: int, interval: int)
    requires interval > 0
    ensures k * interval < timeout <==> k < PollLimit(timeout, interval)
  {
  }

  /** The loop never polls more often than the budget allows. */
  lemma {:induction false} WaitFromBound(replies: nat -> HttpReply<PollBody>, timeout: int, interval: int, k: nat)
    requires interval > 0
    requires k <= PollLimit(timeout, interval)
    ensures var w := WaitFrom(replies, timeout, interval, k, k * interval);
            && k <= w.polls <= PollLimit(timeout, interval)
            && (w.outcome == Failure(TimedOut) ==> w.polls == PollLimit(timeout, interval))
    decreases PollLimit(timeout, interval) - k
  {
    RoundWithinBudget(k, timeout, interval);
    if k * interval < timeout && Classify(replies(k)).Pending? {
      assert (k + 1) * interval == k * interval + interval;
      WaitFromBound(replies, timeout, interval, k + 1);
    }
  }

  /**
   * The first reply that is not pending decides the outcome, provided it
   * arrives within the budget; the polls sent are exactly those up to it.
   */
  lemma {:induction false} WaitFromFirstDecisive(replies: nat -> HttpReply<PollBody>, timeout: int, interval: int,
                                                 k: nat, n: nat)
    requires interval > 0
    requires k <= n < PollLimit(timeout, interval)
    requires forall j :: k <= j < n ==> Classify(replies(j)) == Pending
    requires Classify(replies(n)).Done?
    ensures WaitFrom(replies, timeout, interval, k, k * interval) == WaitOutcome(Classify(replies(n)).outcome, n + 1)
    decreases n - k
  {
    RoundWithinBudget(k, timeout, interval);
    if k < n {
      assert (k + 1) * interval == k * interval + interval;
      WaitFromFirstDecisive(replies, timeout, interval, k + 1, n);
    }
  }

  /** If every reply within the budget is pending, the loop polls exactly PollLimit times and times out. */
  lemma {:induction false} WaitFromAllPending(replies: nat -> HttpReply<PollBody>, timeout: int, interval: int, k: nat)
    requires interval > 0
    requires k <= PollLimit(timeout, interval)
    requires forall j :: k <= j < PollLimit(timeout, interval) ==> Classify(replies(j)) == Pending
    ensures WaitFrom(replies, timeout, interval, k, k * interval) == WaitOutcome(Failure(TimedOut), PollLimit(timeout, interval))
    decreases PollLimit(timeout, interval) - k
  {
    var n := PollLimit(timeout, interval);
    RoundWithinBudget(k, timeout, interval);
    if k < n {
      assert (k + 1) * interval == k * interval + interval;
      WaitFromAllPending(replies, timeout, interval, k + 1);
    }
  }

  /** A job that neither completes nor fails is polled 45 times under the defaults, then times out. */
  lemma NeverFinishingJob(replies: nat -> HttpReply<PollBody>)
    requires forall j :: 0 <= j < 45 ==> Classify(replies(j)) == Pending
    ensures Wait(replies, DefaultTimeout, DefaultInterval) == WaitOutcome(Failure(TimedOut), 45)
  {
    DefaultPollLimit();
    WaitFromAllPending(replies, DefaultTimeout, DefaultInterval, 0);
  }

  /**
   * Under the defaults, the first poll reply (among the first 45) that is
   * not pending ends the loop, with no further poll: a request that raised
   * ends it with that exception, a non-ok reply raises with its status and
   * body, "completed" returns the job's text ("" when absent), and "error"
   * raises with the job's `error` detail.
   */
  lemma WaitStopsAtFirstVerdict(replies: nat -> HttpReply<PollBody>, n: nat)
    requires n < 45
    requires forall j :: 0 <= j < n ==> Classify(replies(j)) == Pending
    ensures var w := Wait(replies, DefaultTimeout, DefaultInterval);
            && (replies(n).Exception? ==>
                  w == WaitOutcome(Failure(RequestRaised(replies(n).message)), n + 1))
            && (replies(n).NotOk? ==>
                  w == WaitOutcome(Failure(PollFailed(replies(n).status, replies(n).body)), n + 1))
            && (replies(n).Okay? && replies(n).json.status == Present("completed") ==>
                  w == WaitOutcome(Success(TextOf(replies(n).json.text)), n + 1))
            && (replies(n).Okay? && replies(n).json.status == Present("error") ==>
                  w == WaitOutcome(Failure(JobFailed(replies(n).json.error.Get())), n + 1))
  {
    DefaultPollLimit();
    if Classify(replies(n)).Done? {
      WaitFromFirstDecisive(replies, DefaultTimeout, DefaultInterval, 0, n);
    }
  }

  /**
   * `_wait_for_transcript(transcript_id, timeout, interval)`, where
   * `replies(k)` is the reply to the k-th GET of the job's status.
   */
  method WaitForTranscript(replies: nat -> HttpReply<PollBody>, timeout: int := DefaultTimeout,
                           interval: int := DefaultInterval)
    returns (outcome: Result<Transcript, SttError>, polls: nat)
    requires interval > 0
    ensures WaitOutcome(outcome, polls) == Wait(replies, timeout, interval)
    ensures polls <= PollLimit(timeout, interval)
    ensures outcome == Failure(TimedOut) ==> polls == PollLimit(timeout, interval)
  {
    var elapsed := 0;
    polls := 0;
    while elapsed < timeout
      invariant elapsed == polls * interval
      invariant polls <= PollLimit(timeout, interval)
      invariant Wait(replies, timeout, interval) == WaitFrom(replies, timeout, interval, polls, elapsed)
      decreases timeout - elapsed
    {
      RoundWithinBudget(polls, timeout, interval);
      var r := replies(polls);
      polls := polls + 1;
      match r {
        case Exception(message) =>
          return Failure(RequestRaised(message)), polls;
        case NotOk(status, body) =>
          return Failure(PollFailed(status, body)), polls;
        case Okay(data) =>
          if data.status == Present("completed") {
            return Success(TextOf(data.text)), polls;
          }
          if data.status == Present("error") {
            return Failure(JobFailed(data.error.Get())), polls;
          }
      }
      elapsed := elapsed + interval;
      assert elapsed == polls * interval by { assert polls * interval == (polls - 1) * interval + interval; }
    }
    RoundWithinBudget(polls, timeout, interval);
    return Failure(TimedOut), polls;
  }

  /** `_upload_file`: the `upload_url` of an ok reply. */
  function UploadFile(reply: HttpReply<Option<string>>): (r: Result<string, SttError>)
    ensures r.Success? <==> reply.Okay? && reply.json.Some?
    ensures r.Success? ==> r.value == reply.json.value
    ensures reply.NotOk? ==> r == Failure(UploadFailed(reply.status, reply.body))
    ensures reply.Exception? ==> r == Failure(RequestRaised(reply.message))
    ensures reply.Okay? && reply.json.None? ==> r == Failure(MissingField("upload_url"))
  {
    match reply
    case Exception(message) => Failure(RequestRaised(message))
    case NotOk(status, body) => Failure(UploadFailed(status, body))
    case Okay(None) => Failure(MissingField("upload_url"))
    case Okay(Some(url)) => Success(url)
  }

  /** `_request_transcript`: the job `id` of an ok reply. */
  function RequestTranscript(reply: HttpReply<Option<string>>): (r: Result<string, SttError>)
    ensures r.Success? <==> reply.Okay? && reply.json.Some?
    ensures r.Success? ==> r.value == reply.json.value
    ensures reply.NotOk? ==> r == Failure(RequestFailed(reply.status, reply.body))
    ensures reply.Exception? ==> r == Failure(RequestRaised(reply.message))
    ensures reply.Okay? && reply.json.None? ==> r == Failure(MissingField("id"))
  {
    match reply
    case Exception(message) => Failure(RequestRaised(message))
    case NotOk(status, body) => Failure(RequestFailed(status, body))
    case Okay(None) => Failure(MissingField("id"))
    case Okay(Some(id)) => Success(id)
  }

  /** The polls sent for one job. */
  function Polls(id: string, n: nat): (calls: seq<Call>)
    ensures |calls| == n && forall i :: 0 <= i < n ==> calls[i] == Poll(id)
  {
    seq(n, _ => Poll(id))
  }

  /** The outcome of `transcribe_audio` and the requests it sends: the reference definition of TranscribeAudio. */
  function Transcribe(keyPresent: bool, service: Assembly): (res: (Result<Transcript, SttError>, seq<Call>))
    ensures res.1 == [] <==> res.0 == Failure(KeyMissing)
    ensures res.1 == [] <==> !keyPresent
    ensures res.1 != [] ==> res.1[0] == Upload
  {
    if !keyPresent then
      (Failure(KeyMissing), [])
    else
      match UploadFile(service.upload)
      case Failure(e) => (Failure(e), [Upload])
      case Success(url) =>
        var job := JobRequest(url, LanguageCode);
        match RequestTranscript(service.submit(job))
        case Failure(e) => (Failure(e), [Upload, Submit(job)])
        case Success(id) =>
          var w := Wait(service.poll(id), DefaultTimeout, DefaultInterval);
          (w.outcome, [Upload, Submit(job)] + Polls(id, w.polls))
  }

  /**
   * `transcribe_audio(file_path)`: checks the key, then uploads, submits a
   * job for the uploaded file and polls that job, each step fed the
   * previous one's result. Also returns the requests sent, in order.
   */
  method TranscribeAudio(keyPresent: bool, service: Assembly) returns (outcome: Result<Transcript, SttError>, calls: seq<Call>)
    ensures (outcome, calls) == Transcribe(keyPresent, service)
  {
    if !keyPresent {
      return Failure(KeyMissing), [];
    }
    var uploaded := UploadFile(service.upload);
    if uploaded.Failure? {
      return Failure(uploaded.error), [Upload];
    }
    var job := JobRequest(uploaded.value, LanguageCode);
    calls := [Upload, Submit(job)];
    var requested := RequestTranscript(service.submit(job));
    if requested.Failure? {
      return Failure(requested.error), calls;
    }
    var polls: nat;
    outcome, polls := WaitForTranscript(service.poll(requested.value));
    calls := calls + Polls(requested.value, polls);
  }

  /**
   * The order of the requests: none without a key; otherwise the upload
   * first, then a job for the uploaded URL, then at most 45 polls of the
   * job's id, each step only after the previous one succeeded.
   */
  lemma TranscribeCallOrder(keyPresent: bool, service: Assembly)
    ensures var (outcome, calls) := Transcribe(keyPresent, service);
            && (!keyPresent ==> outcome == Failure(KeyMissing) && calls == [])
            && (keyPresent ==> |calls| >= 1 && calls[0] == Upload)
            && (|calls| >= 2 ==>
                  && UploadFile(service.upload).Success?
                  && calls[1] == Submit(JobRequest(UploadFile(service.upload).value, LanguageCode)))
            && (|calls| >= 3 ==>
                  var id := RequestTranscript(service.submit(calls[1].request));
                  && id.Success? && |calls| <= 2 + 45
                  && forall i :: 2 <= i < |calls| ==> calls[i] == Poll(id.value))
  {
    DefaultPollLimit();
    if keyPresent && UploadFile(service.upload).Success? {
      var job := JobRequest(UploadFile(service.upload).value, LanguageCode);
      var id := RequestTranscript(service.submit(job));
      if id.Success? {
        WaitFromBound(service.poll(id.value), DefaultTimeout, DefaultInterval, 0);
      }
    }
  }

  /**
   * Each step that succeeds leads to the next: a failed upload ends the call
   * with the upload's error; a successful one is followed by the job
   * submission for its URL; a failed submission ends the call with its error;
   * a successful one is followed by the polling of the returned id, whose
   * outcome is the call's outcome.
   */
  lemma TranscribeProgress(service: Assembly)
    ensures var (outcome, calls) := Transcribe(true, service);
            var uploaded := UploadFile(service.upload);
            && (uploaded.Failure? ==> outcome == Failure(uploaded.error) && calls == [Upload])
            && (uploaded.Success? ==>
                  var job := JobRequest(uploaded.value, LanguageCode);
                  var id := RequestTranscript(service.submit(job));
                  && |calls| >= 2 && calls[..2] == [Upload, Submit(job)]
                  && (id.Failure? ==> outcome == Failure(id.error) && calls == [Upload, Submit(job)])
                  && (id.Success? ==>
                        var w := Wait(service.poll(id.value), DefaultTimeout, DefaultInterval);
                        outcome == w.outcome && calls == [Upload, Submit(job)] + Polls(id.value, w.polls)))
  {
    var uploaded := UploadFile(service.upload);
    if uploaded.Success? {
      var job := JobRequest(uploaded.value, LanguageCode);
      var id := RequestTranscript(service.submit(job));
      if id.Success? {
        var w := Wait(service.poll(id.value), DefaultTimeout, DefaultInterval);
        assert ([Upload, Submit(job)] + Polls(id.value, w.polls))[..2] == [Upload, Submit(job)];
      }
    }
  }

  /** A transcript comes back only from a completed job, polled within the budget. */
  lemma TranscriptOnlyFromCompletedJob(keyPresent: bool, service: Assembly)
    requires Transcribe(keyPresent, service).0.Success?
    ensures var (outcome, calls) := Transcribe(keyPresent, service);
            && keyPresent && 3 <= |calls| <= 2 + 45
            && var id := calls[|calls| - 1].transcriptId;
               Classify(service.poll(id)(|calls| - 3)) == Done(outcome)
  {
    DefaultPollLimit();
    var url := UploadFile(service.upload).value;
    var id := RequestTranscript(service.submit(JobRequest(url, LanguageCode))).value;
    var replies := service.poll(id);
    WaitFromBound(replies, DefaultTimeout, DefaultInterval, 0);
    WaitLastReplyDecides(replies, DefaultTimeout, DefaultInterval, 0);
  }

  /** When the loop ends with an outcome other than a timeout, that outcome is the verdict of the last reply read. */
  lemma {:induction false} WaitLastReplyDecides(replies: nat -> HttpReply<PollBody>, timeout: int, interval: int, k: nat)
    requires interval > 0
    requires WaitFrom(replies, timeout, interval, k, k * interval).outcome != Failure(TimedOut)
    ensures var w := WaitFrom(replies, timeout, interval, k, k * interval);
            w.polls > k && Classify(replies(w.polls - 1)) == Done(w.outcome)
    decreases timeout - k * interval
  {
    if k * interval < timeout && Classify(replies(k)).Pending? {
      assert (k + 1) * interval == k * interval + interval;
      WaitLastReplyDecides(replies, timeout, interval, k + 1);
    }
  }
}
