/** The video generation service (services/geminiService.ts): one call submits
    a generation request, polls the long-running operation until it is done
    or the attempt budget runs out, and turns the finished operation into a
    playable object URL, reporting progress strings along the way.

    The remote service is an oracle: the reply to the submission, the reply
    to each status query in order, and the reply to the final download are
    parameters. The ten-second wait between queries is not a clock here; the
    model counts the milliseconds that would have been waited. */
module GeminiService {
  import opened Types
  import opened Text

  /** The attempt budget: 60 queries at 10 s each, ten minutes in all. */
  const MaxPollingAttempts: nat := 60
  const PollingIntervalMs: nat := 10000

  /** The status strings shown while a video is being made, in order. */
  const ProgressMessages: seq<string> := [
    "Initializing neural engines...",
    "Analyzing visual descriptors...",
    "Synthesizing motion dynamics...",
    "Refining spatial consistency...",
    "Rendering cinematic textures...",
    "Color grading the sequences...",
    "Polishing final frames...",
    "Wrapping up high-fidelity pixels..."
  ]

  const VideoModel: string := "veo-3.1-fast-generate-preview"
  const ImageMimeType: string := "image/png"

  /** The phrase in a failed status query that means the job can no longer
      be found, which happens when the API key was changed mid-flight. */
  const EntityNotFoundMarker: string := "Requested entity was not found"

  /** The error messages the service raises itself. */
  const ApiKeyReset: string := "API_KEY_RESET"
  const TimedOutMessage: string := "Generation timed out. Please try again."
  const NoLinkMessage: string := "Could not retrieve video link."

  /** The long-running operation as last reported: still running, or done
      with the `response.generatedVideos[0].video.uri`, when there is one. */
  datatype Operation = Pending | Done(uri: Option<string>)

  /** A reply of the remote service: a value, or the message of the error
      the call threw. */
  datatype Remote<T> = Answer(value: T) | Thrown(message: string)

  /** The `image` part of a request. `imageBytes` is `undefined` (None) when
      the data URL has no comma. */
  datatype ImageInput = ImageInput(imageBytes: Option<string>, mimeType: string)

  datatype GenerationParams = GenerationParams(
    numberOfVideos: nat,
    resolution: Resolution,
    aspectRatio: AspectRatio)

  /** The request handed to `generateVideos`. */
  datatype VideoRequest = VideoRequest(
    model: string,
    prompt: string,
    config: GenerationParams,
    image: Option<ImageInput>)

  /** How the returned promise settles: with an object URL, or rejected with
      an error message. */
  datatype Outcome = Resolved(objectUrl: string) | Rejected(message: string)

  /** How the polling loop ends, with the number of queries it made. */
  datatype LoopExit = Finished(op: Operation, attempts: nat) | Aborted(message: string, attempts: nat)

  /** Everything one call does that can be observed: the request it sent, how
      it settled, how many status queries it made, the progress strings it
      emitted in order, the time it waited, and the URL it downloaded from. */
  datatype Run = Run(
    request: VideoRequest,
    outcome: Outcome,
    polls: nat,
    progress: seq<string>,
    waitedMs: nat,
    fetchUrl: Option<string>)

  /** The `k`-th progress emission (0-based) of a call. */
  function ProgressAt(k: nat): (msg: string)
    ensures msg in ProgressMessages
  {
    ProgressMessages[k % |ProgressMessages|]
  }

  /** The first `n` progress emissions of a call. */
  function ProgressLog(n: nat): (log: seq<string>)
    ensures |log| == n
    ensures forall k :: 0 <= k < n ==> log[k] == ProgressMessages[k % |ProgressMessages|]
  {
    if n == 0 then [] else ProgressLog(n - 1) + [ProgressAt(n - 1)]
  }

  /** The one rule that tells a lost job (a reset API key) from any other
      failure of a status query. */
  predicate IsEntityNotFound(message: string)
    ensures IsEntityNotFound(message) <==> exists i :: OccursAt(message, EntityNotFoundMarker, i)
  {
    ContainsIffOccurs(message, EntityNotFoundMarker);
    Contains(message, EntityNotFoundMarker)
  }

  /** The error a failed status query is rethrown as: the page reads
      API_KEY_RESET exactly when the job was lost (or the service itself
      said API_KEY_RESET); every other message comes through as it was. */
  function PollErrorMessage(message: string): (rethrown: string)
    ensures rethrown == ApiKeyReset <==> IsEntityNotFound(message) || message == ApiKeyReset
    ensures rethrown != ApiKeyReset ==> rethrown == message
  {
    if IsEntityNotFound(message) then ApiKeyReset else message
  }

  /** The request built from a configuration: one video, resolution and
      aspect ratio as given, and the reference image only when one is set
      and non-empty, its bytes being the second comma-separated field of
      the data URL. */
  function RequestFor(config: VideoConfig): (req: VideoRequest)
    ensures req.image.Some? ==>
      config.image.Some? && (req.image.value.imageBytes.Some? <==> ',' in config.image.value)
    ensures req.image.Some? && req.image.value.imageBytes.Some? ==> ',' !in req.image.value.imageBytes.value
  {
    VideoRequest(
      VideoModel,
      config.prompt,
      GenerationParams(1, config.resolution, config.aspectRatio),
      if config.image.Some? && config.image.value != ""
      then
        CountOfPositive(config.image.value, ',');
        Some(ImageInput(FieldAt(config.image.value, ',', 1), ImageMimeType))
      else None)
  }

  /** The download link of an operation, when it is done and has a
      non-empty one. */
  function LinkOf(op: Operation): (link: Option<string>)
    ensures link.Some? ==> op == Done(link) && link.value != ""
    ensures link.None? ==> op.Pending? || op.uri.None? || op.uri.value == ""
  {
    if op.Done? && op.uri.Some? && op.uri.value != "" then op.uri else None
  }

  /** The URL the video bytes are fetched from: the link with the key. */
  function DownloadUrl(link: string, apiKey: string): (url: string)
    ensures |url| == |link| + 5 + |apiKey| && url[..|link|] == link
    ensures url[|link|..|link| + 5] == "&key=" && url[|link| + 5..] == apiKey
  {
    link + "&key=" + apiKey
  }

  /** The polling loop from `attempts` queries already made: stop when the
      operation is done or the budget is spent; otherwise make query number
      `attempts + 1`, whose reply is `polls[attempts]`. */
  function PollLoop(op: Operation, polls: seq<Remote<Operation>>, attempts: nat): (exit: LoopExit)
    requires attempts <= MaxPollingAttempts <= |polls|
    ensures attempts <= exit.attempts <= MaxPollingAttempts
    ensures exit.Finished? ==> exit.op.Done? || exit.attempts == MaxPollingAttempts
    ensures exit.Aborted? ==> exit.attempts > attempts && polls[exit.attempts - 1].Thrown?
    decreases MaxPollingAttempts - attempts
  {
    if op.Done? || attempts == MaxPollingAttempts then Finished(op, attempts)
    else
      match polls[attempts]
      case Answer(next) => PollLoop(next, polls, attempts + 1)
      case Thrown(m) => Aborted(PollErrorMessage(m), attempts + 1)
  }

  /** How a call settles once the loop has stopped: with the error that
      stopped it, with the timeout, with the missing link, or with the
      download of the link. */
  function Settle(request: VideoRequest, exit: LoopExit, apiKey: string, fetch: Remote<string>): Run {
    var n := exit.attempts;
    match exit
    case Aborted(m, _) => Run(request, Rejected(m), n, ProgressLog(n + 1), n * PollingIntervalMs, None)
    case Finished(op, _) =>
      if op.Pending? then
        Run(request, Rejected(TimedOutMessage), n, ProgressLog(n + 1), n * PollingIntervalMs, None)
      else if LinkOf(op).None? then
        Run(request, Rejected(NoLinkMessage), n, ProgressLog(n + 1), n * PollingIntervalMs, None)
      else
        var url := DownloadUrl(LinkOf(op).value, apiKey);
        var outcome := match fetch
          case Answer(h) => Resolved(h)
          case Thrown(m) => Rejected(m);
        Run(request, outcome, n, ProgressLog(n + 1), n * PollingIntervalMs, Some(url))
  }

  /** What `generateAIVideo` does, as a function of the service's replies. */
  function Generate(config: VideoConfig, apiKey: string, submit: Remote<Operation>,
                    polls: seq<Remote<Operation>>, fetch: Remote<string>): (r: Run)
    requires MaxPollingAttempts <= |polls|
    ensures r.polls <= MaxPollingAttempts
    ensures |r.progress| == r.polls + 1
    ensures forall k :: 0 <= k < |r.progress| ==> r.progress[k] == ProgressMessages[k % |ProgressMessages|]
    ensures r.waitedMs == r.polls * PollingIntervalMs
    ensures r.outcome.Resolved? ==> r.fetchUrl.Some? && fetch == Answer(r.outcome.objectUrl)
  {
    var request := RequestFor(config);
    match submit
    case Thrown(m) => Run(request, Rejected(m), 0, ProgressLog(1), 0, None)
    case Answer(op0) => Settle(request, PollLoop(op0, polls, 0), apiKey, fetch)
  }

  /** The polling loop of `generateAIVideo`, entered after the first progress
      string: while the operation is not done and fewer than 60 queries were
      made, wait, emit the next progress string and query the operation; a
      query that throws ends the loop with its error rethrown. */
  method PollOperation(op0: Operation, polls: seq<Remote<Operation>>, emitted: seq<string>)
    returns (exit: LoopExit, progress: seq<string>, waitedMs: nat)
    requires MaxPollingAttempts <= |polls| && emitted == ProgressLog(1)
    ensures exit == PollLoop(op0, polls, 0)
    ensures progress == ProgressLog(exit.attempts + 1) && waitedMs == exit.attempts * PollingIntervalMs
  {
    var operation := op0;
    var attempts: nat := 0;
    var messageIndex: nat := 1;
    progress, waitedMs := emitted, 0;
    while !operation.Done? && attempts < MaxPollingAttempts
      invariant attempts <= MaxPollingAttempts
      invariant messageIndex == attempts + 1 && progress == ProgressLog(messageIndex)
      invariant waitedMs == attempts * PollingIntervalMs
      invariant PollLoop(operation, polls, attempts) == PollLoop(op0, polls, 0)
      decreases MaxPollingAttempts - attempts
    {
      waitedMs := waitedMs + PollingIntervalMs;
      attempts := attempts + 1;
      progress := progress + [ProgressMessages[messageIndex % |ProgressMessages|]];
      messageIndex := messageIndex + 1;
      var reply := polls[attempts - 1];
      if reply.Thrown? {
        var message := if IsEntityNotFound(reply.message) then ApiKeyReset else reply.message;
        return Aborted(message, attempts), progress, waitedMs;
      }
      operation := reply.value;
    }
    exit := Finished(operation, attempts);
  }

  /** The request `generateAIVideo` builds: the image goes in only when one
      is set and non-empty. */
  method BuildRequest(config: VideoConfig) returns (request: VideoRequest)
    ensures request == RequestFor(config)
  {
    request := VideoRequest(VideoModel, config.prompt,
                            GenerationParams(1, config.resolution, config.aspectRatio), None);
    if config.image.Some? && config.image.value != "" {
      request := request.(image := Some(ImageInput(FieldAt(config.image.value, ',', 1), ImageMimeType)));
    }
  }

  /** The end of `generateAIVideo` once the loop has stopped: reject on a
      pending operation or a missing link, otherwise download the link with
      the key appended. */
  method FinishRun(request: VideoRequest, exit: LoopExit, progress: seq<string>, waitedMs: nat,
                   apiKey: string, fetch: Remote<string>) returns (run: Run)
    requires progress == ProgressLog(exit.attempts + 1) && waitedMs == exit.attempts * PollingIntervalMs
    ensures run == Settle(request, exit, apiKey, fetch)
  {
    if exit.Aborted? {
      return Run(request, Rejected(exit.message), exit.attempts, progress, waitedMs, None);
    }
    var operation, attempts := exit.op, exit.attempts;
    if !operation.Done? {
      return Run(request, Rejected(TimedOutMessage), attempts, progress, waitedMs, None);
    }
    var link := operation.uri;
    if link.None? || link.value == "" {
      return Run(request, Rejected(NoLinkMessage), attempts, progress, waitedMs, None);
    }
    var url := link.value + "&key=" + apiKey;
    var outcome := if fetch.Answer? then Resolved(fetch.value) else Rejected(fetch.message);
    run := Run(request, outcome, attempts, progress, waitedMs, Some(url));
  }

  /** `generateAIVideo`: emit the first progress string, build and submit the
      request, poll the operation, and turn a finished one into a download. */
  method GenerateAIVideo(config: VideoConfig, apiKey: string, submit: Remote<Operation>,
                         polls: seq<Remote<Operation>>, fetch: Remote<string>) returns (run: Run)
    requires MaxPollingAttempts <= |polls|
    ensures run == Generate(config, apiKey, submit, polls, fetch)
    ensures run.polls <= MaxPollingAttempts && |run.progress| == run.polls + 1
  {
    // updateProgress()
    var progress: seq<string> := [ProgressMessages[0 % |ProgressMessages|]];
    assert progress == ProgressLog(1);
    var request := BuildRequest(config);
    if submit.Thrown? {
      return Run(request, Rejected(submit.message), 0, progress, 0, None);
    }
    var exit, waited;
    exit, progress, waited := PollOperation(submit.value, polls, progress);
    run := FinishRun(request, exit, progress, waited, apiKey, fetch);
  }

  // ---------------------------------------------------------------------
  // How a call ends

  /** Queries that answer "still running" only move the loop forward. */
  lemma {:induction false} PendingPrefix(polls: seq<Remote<Operation>>, lo: nat, hi: nat)
    requires lo <= hi <= MaxPollingAttempts <= |polls|
    requires forall j :: lo <= j < hi ==> polls[j] == Answer(Pending)
    ensures PollLoop(Pending, polls, lo) == PollLoop(Pending, polls, hi)
    decreases hi
  {
    if lo < hi {
      PendingPrefix(polls, lo, hi - 1);
    }
  }

  /** The loop reads no reply past the last query it makes. */
  lemma {:induction false} PollLoopReadsOnlyItsQueries(op: Operation, polls: seq<Remote<Operation>>,
                                                       other: seq<Remote<Operation>>, attempts: nat)
    requires attempts <= MaxPollingAttempts <= |polls| && MaxPollingAttempts <= |other|
    requires forall j :: attempts <= j < PollLoop(op, polls, attempts).attempts ==> other[j] == polls[j]
    ensures PollLoop(op, other, attempts) == PollLoop(op, polls, attempts)
    decreases MaxPollingAttempts - attempts
  {
    if !op.Done? && attempts < MaxPollingAttempts && polls[attempts].Answer? {
      PollLoopReadsOnlyItsQueries(polls[attempts].value, polls, other, attempts + 1);
    }
  }

  /** A call is decided by the queries it makes: replacing every reply after
      the last query it made changes nothing, so no query happens after the
      loop stops, whatever budget remains. */
  lemma RunReadsOnlyItsQueries(config: VideoConfig, apiKey: string, submit: Remote<Operation>,
                               polls: seq<Remote<Operation>>, other: seq<Remote<Operation>>,
                               fetch: Remote<string>)
    requires MaxPollingAttempts <= |polls| && MaxPollingAttempts <= |other|
    requires forall j :: 0 <= j < Generate(config, apiKey, submit, polls, fetch).polls ==> other[j] == polls[j]
    ensures Generate(config, apiKey, submit, other, fetch) == Generate(config, apiKey, submit, polls, fetch)
  {
    if submit.Answer? {
      PollLoopReadsOnlyItsQueries(submit.value, polls, other, 0);
    }
  }

  /** A failed submission rejects with its own message, before any query. */
  lemma SubmitErrorPropagates(config: VideoConfig, apiKey: string, message: string,
                              polls: seq<Remote<Operation>>, fetch: Remote<string>)
    requires MaxPollingAttempts <= |polls|
    ensures var r := Generate(config, apiKey, Thrown(message), polls, fetch);
      r.outcome == Rejected(message) && r.polls == 0 && r.progress == [ProgressMessages[0]] &&
      r.fetchUrl == None
  {
  }

  /** An operation already done at submission is never queried: one progress
      string, no wait, and the link check and the download follow at once. */
  lemma DoneAtSubmission(config: VideoConfig, apiKey: string, uri: Option<string>,
                         polls: seq<Remote<Operation>>, fetch: Remote<string>)
    requires MaxPollingAttempts <= |polls|
    ensures var r := Generate(config, apiKey, Answer(Done(uri)), polls, fetch);
      r.polls == 0 && |r.progress| == 1 && r.waitedMs == 0 &&
      (uri.None? || uri.value == "" ==> r.outcome == Rejected(NoLinkMessage) && r.fetchUrl == None) &&
      (uri.Some? && uri.value != "" ==>
         r.fetchUrl == Some(uri.value + "&key=" + apiKey) &&
         r.outcome == (if fetch.Answer? then Resolved(fetch.value) else Rejected(fetch.message)))
  {
  }

  /** An operation that never finishes times out after exactly 60 queries,
      61 progress strings and ten minutes of waiting. */
  lemma NeverDoneTimesOut(config: VideoConfig, apiKey: string,
                          polls: seq<Remote<Operation>>, fetch: Remote<string>)
    requires MaxPollingAttempts <= |polls|
    requires forall j :: 0 <= j < MaxPollingAttempts ==> polls[j] == Answer(Pending)
    ensures var r := Generate(config, apiKey, Answer(Pending), polls, fetch);
      r.outcome == Rejected(TimedOutMessage) && r.polls == MaxPollingAttempts &&
      |r.progress| == MaxPollingAttempts + 1 && r.waitedMs == 600000 && r.fetchUrl == None
  {
    PendingPrefix(polls, 0, MaxPollingAttempts);
  }

  /** If query number `n + 1` fails with the not-found phrase, the call
      rejects with `API_KEY_RESET` right there, after `n + 1` queries. */
  lemma EntityNotFoundResetsKey(config: VideoConfig, apiKey: string, polls: seq<Remote<Operation>>,
                                fetch: Remote<string>, n: nat, message: string)
    requires n < MaxPollingAttempts <= |polls|
    requires forall j :: 0 <= j < n ==> polls[j] == Answer(Pending)
    requires polls[n] == Thrown(message) && IsEntityNotFound(message)
    ensures var r := Generate(config, apiKey, Answer(Pending), polls, fetch);
      r.outcome == Rejected(ApiKeyReset) && r.polls == n + 1 && |r.progress| == n + 2 &&
      r.fetchUrl == None
  {
    PendingPrefix(polls, 0, n);
  }

  /** Any other failed query rejects with its message unchanged, at once. */
  lemma OtherPollErrorPropagates(config: VideoConfig, apiKey: string, polls: seq<Remote<Operation>>,
                                 fetch: Remote<string>, n: nat, message: string)
    requires n < MaxPollingAttempts <= |polls|
    requires forall j :: 0 <= j < n ==> polls[j] == Answer(Pending)
    requires polls[n] == Thrown(message) && !IsEntityNotFound(message)
    ensures var r := Generate(config, apiKey, Answer(Pending), polls, fetch);
      r.outcome == Rejected(message) && r.polls == n + 1 && r.fetchUrl == None
  {
    PendingPrefix(polls, 0, n);
  }

  /** The service's own phrasing of a lost job is recognised wherever it
      stands in the message. */
  lemma NotFoundPhraseRecognised(before: string, after: string)
    ensures IsEntityNotFound(before + EntityNotFoundMarker + after)
    ensures PollErrorMessage(before + EntityNotFoundMarker + after) == ApiKeyReset
  {
    ContainsEmbedded(before, EntityNotFoundMarker, after);
  }

  /** If query number `n + 1` reports the operation done, the loop stops
      there: without a link the call rejects with "Could not retrieve video
      link." and fetches nothing; with one it fetches the link plus the key
      and settles as the download does. */
  lemma DoneAtQuery(config: VideoConfig, apiKey: string, polls: seq<Remote<Operation>>,
                    fetch: Remote<string>, n: nat, uri: Option<string>)
    requires n < MaxPollingAttempts <= |polls|
    requires forall j :: 0 <= j < n ==> polls[j] == Answer(Pending)
    requires polls[n] == Answer(Done(uri))
    ensures var r := Generate(config, apiKey, Answer(Pending), polls, fetch);
      r.polls == n + 1 && |r.progress| == n + 2 &&
      (uri.None? || uri.value == "" ==> r.outcome == Rejected(NoLinkMessage) && r.fetchUrl == None) &&
      (uri.Some? && uri.value != "" ==>
         r.fetchUrl == Some(uri.value + "&key=" + apiKey) &&
         r.outcome == (if fetch.Answer? then Resolved(fetch.value) else Rejected(fetch.message)))
  {
    PendingPrefix(polls, 0, n);
  }

  /** Every reply to the queries a run made was an answer. */
  predicate AnsweredUpTo(polls: seq<Remote<Operation>>, n: nat)
    requires n <= |polls|
  {
    forall j :: 0 <= j < n ==> polls[j].Answer?
  }

  /** The operation as last reported after `n` answered queries. */
  function FinalOperation(op0: Operation, polls: seq<Remote<Operation>>, n: nat): Operation
    requires n <= |polls| && AnsweredUpTo(polls, n)
  {
    if n == 0 then op0 else polls[n - 1].value
  }

  /** A finished loop read only answers, and ends on the operation the last
      of them (or the submission) reported. */
  lemma {:induction false} FinishedReadsAnswers(op: Operation, polls: seq<Remote<Operation>>, attempts: nat)
    requires attempts <= MaxPollingAttempts <= |polls|
    ensures var exit := PollLoop(op, polls, attempts);
      exit.Finished? ==>
        (forall j :: attempts <= j < exit.attempts ==> polls[j].Answer?) &&
        exit.op == (if exit.attempts == attempts then op else polls[exit.attempts - 1].value)
    decreases MaxPollingAttempts - attempts
  {
    if !op.Done? && attempts < MaxPollingAttempts && polls[attempts].Answer? {
      FinishedReadsAnswers(polls[attempts].value, polls, attempts + 1);
    }
  }

  /** Each way a run can reject, with its cause: the submission threw; the
      last query threw (its message, or API_KEY_RESET in its place); every
      query answered and the 60th still reported the job running (timeout);
      every query answered and the job was done without a link; or the
      download threw. So no error is swallowed into another message, and no
      message is made up. */
  lemma RejectionsAreAccountedFor(config: VideoConfig, apiKey: string, submit: Remote<Operation>,
                                  polls: seq<Remote<Operation>>, fetch: Remote<string>)
    requires MaxPollingAttempts <= |polls|
    ensures var r := Generate(config, apiKey, submit, polls, fetch);
      r.outcome.Rejected? ==>
        (submit.Thrown? && r.polls == 0 && r.outcome.message == submit.message) ||
        (submit.Answer? && r.polls > 0 && polls[r.polls - 1].Thrown? && r.fetchUrl.None? &&
         r.outcome.message == PollErrorMessage(polls[r.polls - 1].message)) ||
        (submit.Answer? && AnsweredUpTo(polls, r.polls) && r.polls == MaxPollingAttempts &&
         FinalOperation(submit.value, polls, r.polls).Pending? && r.fetchUrl.None? &&
         r.outcome.message == TimedOutMessage) ||
        (submit.Answer? && AnsweredUpTo(polls, r.polls) &&
         FinalOperation(submit.value, polls, r.polls).Done? &&
         LinkOf(FinalOperation(submit.value, polls, r.polls)).None? && r.fetchUrl.None? &&
         r.outcome.message == NoLinkMessage) ||
        (submit.Answer? && AnsweredUpTo(polls, r.polls) &&
         LinkOf(FinalOperation(submit.value, polls, r.polls)).Some? &&
         r.fetchUrl == Some(DownloadUrl(LinkOf(FinalOperation(submit.value, polls, r.polls)).value, apiKey)) &&
         fetch.Thrown? && r.outcome.message == fetch.message)
  {
    if submit.Answer? {
      var exit := PollLoop(submit.value, polls, 0);
      assert Generate(config, apiKey, submit, polls, fetch) == Settle(RequestFor(config), exit, apiKey, fetch);
      if exit.Aborted? {
        AbortCarriesLastQuery(submit.value, polls, 0);
      } else {
        FinishedReadsAnswers(submit.value, polls, 0);
        assert AnsweredUpTo(polls, exit.attempts);
        assert FinalOperation(submit.value, polls, exit.attempts) == exit.op;
      }
    }
  }

  /** An aborted loop carries the rethrown error of its last query. */
  lemma {:induction false} AbortCarriesLastQuery(op: Operation, polls: seq<Remote<Operation>>, attempts: nat)
    requires attempts <= MaxPollingAttempts <= |polls|
    ensures var exit := PollLoop(op, polls, attempts);
      exit.Aborted? ==> exit.message == PollErrorMessage(polls[exit.attempts - 1].message)
    decreases MaxPollingAttempts - attempts
  {
    if !op.Done? && attempts < MaxPollingAttempts && polls[attempts].Answer? {
      AbortCarriesLastQuery(polls[attempts].value, polls, attempts + 1);
    }
  }

  // ---------------------------------------------------------------------
  // Progress and the request

  /** The progress strings cycle: emission `k + 8` repeats emission `k`, so
      the ninth emission is the first message again. */
  lemma ProgressCycles(n: nat, k: nat)
    requires k + |ProgressMessages| < n
    ensures ProgressLog(n)[k + |ProgressMessages|] == ProgressLog(n)[k]
    ensures ProgressLog(n)[8] == ProgressMessages[0]
  {
    var log := ProgressLog(n);
    assert |ProgressMessages| == 8;
    assert (k + 8) % 8 == k % 8;
    assert log[k + 8] == ProgressMessages[k % 8];
    assert log[8] == ProgressMessages[8 % 8];
  }

  /** Every request asks for one video with the configured resolution and
      aspect ratio, and carries an image exactly when a non-empty one is
      configured, always typed as PNG. */
  lemma RequestCarriesConfig(config: VideoConfig)
    ensures var req := RequestFor(config);
      req.prompt == config.prompt && req.config.numberOfVideos == 1 &&
      req.config.resolution == config.resolution && req.config.aspectRatio == config.aspectRatio &&
      (req.image.Some? <==> config.image.Some? && config.image.value != "") &&
      (req.image.Some? ==> req.image.value.mimeType == ImageMimeType)
  {
  }

  /** A data URL `prefix,payload` sends exactly its payload as the image
      bytes, the prefix dropped. */
  lemma DataUrlSendsPayload(config: VideoConfig, prefix: string, payload: string)
    requires config.image == Some(prefix + "," + payload)
    requires ',' !in prefix && ',' !in payload
    ensures RequestFor(config).image == Some(ImageInput(Some(payload), ImageMimeType))
  {
    SplitAtFirst(prefix, ',', payload);
    SplitWithoutSeparator(payload, ',');
    assert prefix + "," + payload == prefix + [','] + payload;
  }

  /** An image string with no comma sends `undefined` image bytes. */
  lemma NoCommaSendsNoBytes(config: VideoConfig)
    requires config.image.Some? && config.image.value != "" && ',' !in config.image.value
    ensures RequestFor(config).image == Some(ImageInput(None, ImageMimeType))
  {
    SplitWithoutSeparator(config.image.value, ',');
  }
}
