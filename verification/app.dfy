/** The studio page (App.tsx): the history gallery, the busy flag, the
    progress line and the API-key flag, and the handlers that change them.

    Browser storage is one cell holding the saved history list (the JSON
    encoding is not modelled); a fresh id and the current time are passed in
    where the page draws them from `crypto.randomUUID` and `Date.now`; the
    alerts the page raises are recorded in order. */
module App {
  import opened Types
  import GeminiService

  /** The progress line shown before the service reports anything. */
  const StartingMessage: string := "Starting generation..."
  const FailurePrefix: string := "Generation failed: "

  /** The characters JavaScript's `String.prototype.trim` removes. */
  predicate IsTrimmed(c: char) {
    c == ' ' || c == '\t' || c == '\n' || c == '\r' || c == '\U{000B}' || c == '\U{000C}' ||
    c == '\U{00A0}' || c == '\U{1680}' || ('\U{2000}' <= c <= '\U{200A}') ||
    c == '\U{2028}' || c == '\U{2029}' || c == '\U{202F}' || c == '\U{205F}' ||
    c == '\U{3000}' || c == '\U{FEFF}'
  }

  /** `s.trimStart()`: `s` without its leading white space. */
  function TrimStart(s: string): (r: string)
    ensures |r| <= |s| && r == s[|s| - |r|..]
    ensures forall i :: 0 <= i < |s| - |r| ==> IsTrimmed(s[i])
    ensures r != [] ==> !IsTrimmed(r[0])
  {
    if s != [] && IsTrimmed(s[0]) then TrimStart(s[1..]) else s
  }

  /** `s.trimEnd()`: `s` without its trailing white space. */
  function TrimEnd(s: string): (r: string)
    ensures |r| <= |s| && r == s[..|r|]
    ensures forall i :: |r| <= i < |s| ==> IsTrimmed(s[i])
    ensures r != [] ==> !IsTrimmed(r[|r| - 1])
  {
    if s != [] && IsTrimmed(s[|s| - 1]) then TrimEnd(s[..|s| - 1]) else s
  }

  /** `s.trim()`. */
  function Trim(s: string): string {
    TrimEnd(TrimStart(s))
  }

  /** `!s.trim()`: the trimmed prompt is empty, which is to say the prompt is
      nothing but white space. The form refuses to submit such a prompt
      (components/VideoGenerator.tsx). */
  predicate IsBlank(s: string)
    ensures IsBlank(s) <==> forall i :: 0 <= i < |s| ==> IsTrimmed(s[i])
  {
    Trim(s) == []
  }

  /** `prev.filter(v => v.id !== id)`. */
  function WithoutId(prev: seq<GeneratedVideo>, id: string): (r: seq<GeneratedVideo>)
    ensures |r| <= |prev|
    ensures forall k :: 0 <= k < |r| ==> r[k].id != id
  {
    if prev == [] then []
    else if prev[0].id != id then [prev[0]] + WithoutId(prev[1..], id)
    else WithoutId(prev[1..], id)
  }

  /** No entry carries `id`. */
  predicate Absent(prev: seq<GeneratedVideo>, id: string) {
    forall k :: 0 <= k < |prev| ==> prev[k].id != id
  }

  /** Deleting keeps exactly the entries with another id. */
  lemma {:induction false} WithoutIdKeepsOthers(prev: seq<GeneratedVideo>, id: string, v: GeneratedVideo)
    ensures v in WithoutId(prev, id) <==> v in prev && v.id != id
  {
    if prev != [] {
      WithoutIdKeepsOthers(prev[1..], id, v);
      assert v in prev <==> v == prev[0] || v in prev[1..];
    }
  }

  /** Deleting keeps the order: it works piece by piece. */
  lemma {:induction false} WithoutIdConcat(a: seq<GeneratedVideo>, b: seq<GeneratedVideo>, id: string)
    ensures WithoutId(a + b, id) == WithoutId(a, id) + WithoutId(b, id)
  {
    if a != [] {
      assert (a + b)[1..] == a[1..] + b;
      WithoutIdConcat(a[1..], b, id);
    } else {
      assert a + b == b;
    }
  }

  /** Deleting an id that no entry carries leaves the list as it was. */
  lemma {:induction false} WithoutAbsentId(prev: seq<GeneratedVideo>, id: string)
    requires Absent(prev, id)
    ensures WithoutId(prev, id) == prev
  {
    if prev != [] {
      WithoutAbsentId(prev[1..], id);
      assert [prev[0]] + prev[1..] == prev;
    }
  }

  /** Deleting the entry just saved, under a fresh id, restores the list
      from before the save. */
  lemma DeleteUndoesSave(prev: seq<GeneratedVideo>, video: GeneratedVideo)
    requires Absent(prev, video.id)
    ensures WithoutId([video] + prev, video.id) == prev
  {
    assert ([video] + prev)[1..] == prev;
    WithoutAbsentId(prev, video.id);
  }

  /** The page's state. `hasApiKey` is None until the key check answers
      (`null` in the source); `storage` is the saved history cell. */
  class Studio {
    var history: seq<GeneratedVideo>
    var isGenerating: bool
    var progressMessage: string
    var hasApiKey: Option<bool>
    var storage: Option<seq<GeneratedVideo>>
    var alerts: seq<string>

    /** A page opened with `saved` in storage, before its mount effect. */
    constructor (saved: Option<seq<GeneratedVideo>>)
      ensures history == [] && !isGenerating && progressMessage == ""
      ensures hasApiKey == None && storage == saved && alerts == []
    {
      history := [];
      isGenerating := false;
      progressMessage := "";
      hasApiKey := None;
      storage := saved;
      alerts := [];
    }

    /** The mount effect's first half: show the saved history, if any. */
    method RestoreHistory()
      modifies this
      ensures history == if old(storage).Some? then old(storage).value else old(history)
      ensures storage == old(storage) && isGenerating == old(isGenerating)
      ensures progressMessage == old(progressMessage) && hasApiKey == old(hasApiKey) && alerts == old(alerts)
    {
      if storage.Some? {
        history := storage.value;
      }
    }

    /** `checkApiKey`: `studioAnswer` is what the studio's key hook reports,
        or None when the page runs without that hook, in which case a key is
        assumed. */
    method CheckApiKey(studioAnswer: Option<bool>)
      modifies this
      ensures hasApiKey == Some(if studioAnswer.Some? then studioAnswer.value else true)
      ensures history == old(history) && storage == old(storage) && isGenerating == old(isGenerating)
      ensures progressMessage == old(progressMessage) && alerts == old(alerts)
    {
      if studioAnswer.Some? {
        hasApiKey := Some(studioAnswer.value);
      } else {
        hasApiKey := Some(true);
      }
    }

    /** `handleApiKeySuccess`: a key was picked. */
    method HandleApiKeySuccess()
      modifies this
      ensures hasApiKey == Some(true)
      ensures history == old(history) && storage == old(storage) && isGenerating == old(isGenerating)
      ensures progressMessage == old(progressMessage) && alerts == old(alerts)
    {
      hasApiKey := Some(true);
    }

    /** `saveToHistory`: the new video goes first, the rest keep their
        order, and storage holds the new list. */
    method SaveToHistory(video: GeneratedVideo)
      modifies this
      ensures history == [video] + old(history) && storage == Some(history)
      ensures isGenerating == old(isGenerating) && progressMessage == old(progressMessage)
      ensures hasApiKey == old(hasApiKey) && alerts == old(alerts)
    {
      var updated := [video] + history;
      storage := Some(updated);
      history := updated;
    }

    /** `deleteVideo`: drop every entry with `id`, and store the new list. */
    method DeleteVideo(id: string)
      modifies this
      ensures history == WithoutId(old(history), id) && storage == Some(history)
      ensures isGenerating == old(isGenerating) && progressMessage == old(progressMessage)
      ensures hasApiKey == old(hasApiKey) && alerts == old(alerts)
    {
      var updated := WithoutId(history, id);
      storage := Some(updated);
      history := updated;
    }

    /** The first steps of `handleGenerate`: busy, with the starting line. */
    method StartGeneration()
      modifies this
      ensures isGenerating && progressMessage == StartingMessage
      ensures history == old(history) && storage == old(storage)
      ensures hasApiKey == old(hasApiKey) && alerts == old(alerts)
    {
      isGenerating := true;
      progressMessage := StartingMessage;
    }

    /** The end of `handleGenerate`, once the generator's promise has settled
        as `run` says: the progress line keeps the last string emitted; on
        success a record made from the result and the configuration is saved
        under the fresh `id` and `timestamp`; on failure the key flag is
        cleared when the message is exactly API_KEY_RESET and an alert is
        raised otherwise; in every case the page ends not busy. */
    method FinishGeneration(config: VideoConfig, id: string, timestamp: int, run: GeminiService.Run)
      requires |run.progress| >= 1
      modifies this
      ensures !isGenerating && progressMessage == run.progress[|run.progress| - 1]
      ensures match run.outcome
        case Resolved(url) =>
          history == [GeneratedVideo(id, url, config.prompt, timestamp, config.aspectRatio, config.resolution)]
                     + old(history) &&
          storage == Some(history) && hasApiKey == old(hasApiKey) && alerts == old(alerts)
        case Rejected(message) =>
          history == old(history) && storage == old(storage) &&
          (message == GeminiService.ApiKeyReset ==> hasApiKey == Some(false) && alerts == old(alerts)) &&
          (message != GeminiService.ApiKeyReset ==>
             hasApiKey == old(hasApiKey) && alerts == old(alerts) + [FailurePrefix + message])
    {
      // each progress emission overwrites the line; the last one stays
      progressMessage := run.progress[|run.progress| - 1];
      match run.outcome
      case Resolved(videoUrl) =>
        var newVideo := GeneratedVideo(id, videoUrl, config.prompt, timestamp,
                                       config.aspectRatio, config.resolution);
        SaveToHistory(newVideo);
        isGenerating := false;
      case Rejected(message) =>
        if message == GeminiService.ApiKeyReset {
          hasApiKey := Some(false);
        } else {
          alerts := alerts + [FailurePrefix + message];
        }
        isGenerating := false;
    }

    /** `handleGenerate`: go busy with the starting line, run the generator,
        and settle the page as `FinishGeneration` does with the run the
        generator's specification gives. */
    method HandleGenerate(config: VideoConfig, id: string, timestamp: int, apiKey: string,
                          submit: GeminiService.Remote<GeminiService.Operation>,
                          polls: seq<GeminiService.Remote<GeminiService.Operation>>,
                          fetch: GeminiService.Remote<string>)
      requires !IsBlank(config.prompt)
      requires GeminiService.MaxPollingAttempts <= |polls|
      modifies this
      ensures var run := GeminiService.Generate(config, apiKey, submit, polls, fetch);
        !isGenerating && progressMessage == run.progress[|run.progress| - 1] &&
        match run.outcome
        case Resolved(url) =>
          history == [GeneratedVideo(id, url, config.prompt, timestamp, config.aspectRatio, config.resolution)]
                     + old(history) &&
          storage == Some(history) && hasApiKey == old(hasApiKey) && alerts == old(alerts)
        case Rejected(message) =>
          history == old(history) && storage == old(storage) &&
          (message == GeminiService.ApiKeyReset ==> hasApiKey == Some(false) && alerts == old(alerts)) &&
          (message != GeminiService.ApiKeyReset ==>
             hasApiKey == old(hasApiKey) && alerts == old(alerts) + [FailurePrefix + message])
    {
      StartGeneration();
      var run := GeminiService.GenerateAIVideo(config, apiKey, submit, polls, fetch);
      FinishGeneration(config, id, timestamp, run);
    }
  }
}
