/**
 * `download_transcript_via_supadata` of main_supadata.py: one request for a
 * transcript, and on HTTP 202 up to thirty polls of the queued job, ending in
 * one of a small set of outcomes.
 *
 * The network, the environment variable holding the key and the file system
 * are inputs: the key, the reply to the first request, the replies to the
 * polls in order, and whether the output file can be opened for writing.
 * Sleeps are counted, not taken.
 */
module SupadataApi {
  import opened Wrappers
  import opened Text
  import opened Json

  /** `max_attempts`: how many times a queued job is polled. */
  const MaxAttempts: nat := 30
  /** `poll_interval`: seconds slept before each poll. */
  const PollInterval: nat := 3

  /** What `requests.get` raises: a `RequestException` or anything else. */
  datatype ExceptionKind = RequestException | OtherException

  /** The body of a reply as `response.json()` sees it. */
  datatype Body = NotJson(detail: string) | Parsed(value: Json)

  /** The result of one `requests.get` call. */
  datatype Reply =
    | Raised(kind: ExceptionKind, detail: string)
    | Http(status: int, text: string, body: Body)

  /** A request the function sends, with its `x-api-key` header. */
  datatype Request =
    | TranscriptRequest(apiKey: string, url: string, text: string, lang: Option<string>)
    | JobStatusRequest(apiKey: string, jobId: Json)

  /** Everything the function reads from outside. */
  datatype Env = Env(
    videoId: string,
    nativeLang: Option<string>,
    apiKey: Option<string>,        // `os.getenv("SUPADATA_API_KEY")`
    initial: Reply,                // the reply to the transcript request
    polls: seq<Reply>,             // the replies to the job-status requests, in order
    writeError: Option<string>)    // the `IOError` that opening the output file raises, if any

  /** How a call ends; every outcome but `Written` is a failure. */
  datatype Outcome =
    | Written
    | MissingApiKey
    | WriteFailed(detail: string)
    | NoJobId
    | EmptyContent
    | UnexpectedContentType(typeName: string)
    | JobFailed
    | TimedOut
    | PollingError(detail: string)
    | UpstreamError(status: int, body: string)
    | NetworkError(detail: string)
    | UnexpectedError(detail: string)

  /** The outcome, the requests sent, the sleeps taken and what the output file holds afterwards (`None`: not opened). */
  datatype Run = Run(outcome: Outcome, requests: seq<Request>, sleeps: nat, file: Option<string>)

  /** The error string the function returns beside `False`; `None` beside `True`. */
  function Message(o: Outcome): (m: Option<string>)
    ensures m.None? <==> o == Written
  {
    match o
    case Written => None
    case MissingApiKey => Some("SUPADATA_API_KEY not found in .env file")
    case WriteFailed(d) => Some("Failed to write file: " + d)
    case NoJobId => Some("Received 202 but no jobId in response")
    case EmptyContent => Some("Job completed but no content in response")
    case UnexpectedContentType(t) => Some("Unexpected content type: <class '" + t + "'>")
    case JobFailed => Some("Supadata job failed")
    case TimedOut => Some("Job timed out after 90 seconds")
    case PollingError(d) => Some("Error polling job: " + d)
    case UpstreamError(st, b) => Some("Supadata API error: " + Decimal(st) + " - " + b)
    case NetworkError(d) => Some("Network error: " + d)
    case UnexpectedError(d) => Some("Unexpected error: " + d)
  }

  /** `if not api_key`: an unset or empty variable counts as missing. */
  predicate HasKey(env: Env)
  {
    env.apiKey.Some? && env.apiKey.value != ""
  }

  /** `params["lang"]` is set only when `native_lang` is truthy. */
  function LangParam(lang: Option<string>): (r: Option<string>)
    ensures r.Some? <==> lang.Some? && lang.value != ""
    ensures r.Some? ==> r == lang
  {
    if lang.Some? && lang.value != "" then lang else None
  }

  /** The transcript request for a video. */
  function FirstRequest(env: Env): Request
    requires HasKey(env)
  {
    TranscriptRequest(env.apiKey.value, "https://www.youtube.com/watch?v=" + env.videoId, "true", LangParam(env.nativeLang))
  }

  /** The reply to poll number `i`; a reply past the end of the sequence is an exception. */
  function PollAt(polls: seq<Reply>, i: nat): Reply
  {
    if i < |polls| then polls[i] else Raised(OtherException, "")
  }

  /** `n` copies of the job-status request. */
  function Repeat(r: Request, n: nat): (s: seq<Request>)
    ensures |s| == n && forall i :: 0 <= i < n ==> s[i] == r
  {
    if n == 0 then [] else Repeat(r, n - 1) + [r]
  }

  /** The value of `status` in a parsed poll reply. */
  function JobStatus(fields: seq<(string, Json)>): Json
  {
    Get(fields, "status", JNull)
  }

  /**
   * A poll reply that ends the loop: an exception, or a 200 reply that is not a
   * JSON object or whose status is "completed" or "failed". Anything else
   * (another status code, "queued", "active", no status) means: poll again.
   */
  predicate Terminal(p: Reply)
  {
    match p
    case Raised(_, _) => true
    case Http(st, _, body) =>
      st == 200 &&
      match body
      case NotJson(_) => true
      case Parsed(j) => !j.JObj? || JobStatus(j.fields) == JStr("completed") || JobStatus(j.fields) == JStr("failed")
  }

  /** The first terminal poll at or after attempt `i`, or `MaxAttempts` if none comes in time. */
  function FirstTerminal(polls: seq<Reply>, i: nat): (k: nat)
    requires i <= MaxAttempts
    ensures i <= k <= MaxAttempts
    ensures forall j :: i <= j < k ==> !Terminal(PollAt(polls, j))
    ensures k < MaxAttempts ==> Terminal(PollAt(polls, k))
    decreases MaxAttempts - i
  {
    if i == MaxAttempts then i
    else if Terminal(PollAt(polls, i)) then i
    else FirstTerminal(polls, i + 1)
  }

  /** The line written for one entry of list content: `f"{entry.get('text', '')}\n"`. */
  function EntryLine(e: Json): string
    requires e.JObj?
  {
    Str(Get(e.fields, "text", JStr(""))) + "\n"
  }

  /** Every entry is a dictionary. */
  predicate AllObjects(items: seq<Json>)
  {
    forall i :: 0 <= i < |items| ==> items[i].JObj?
  }

  /** The text written for a list of entries, one line per entry, in order. */
  function Lines(items: seq<Json>): string
    requires AllObjects(items)
  {
    if items == [] then "" else Lines(items[..|items| - 1]) + EntryLine(items[|items| - 1])
  }

  /** The position of the first entry that is not a dictionary, or the length. */
  function FirstNonObject(items: seq<Json>): (k: nat)
    ensures k <= |items| && AllObjects(items[..k])
    ensures k < |items| ==> !items[k].JObj?
  {
    if items == [] then 0
    else if !items[0].JObj? then 0
    else
      var k := FirstNonObject(items[1..]);
      assert items[..k + 1] == [items[0]] + items[1..][..k];
      k + 1
  }

  /** How a "completed" job ends, given its `content` and whether the file opens. */
  function Completed(content: Json, writeError: Option<string>): (r: (Outcome, Option<string>))
  {
    if !Truthy(content) then (EmptyContent, None)
    else if writeError.Some? then (WriteFailed(writeError.value), None)
    else match content
      case JStr(s) => (Written, Some(s))
      case JArr(items) =>
        var k := FirstNonObject(items);
        if k < |items| then (PollingError(NoGetMessage(items[k])), Some(Lines(items[..k])))
        else assert items[..k] == items; (Written, Some(Lines(items)))
      case _ => (UnexpectedContentType(TypeName(content)), Some(""))
  }

  /** How a terminal poll reply ends the call. */
  function Verdict(p: Reply, writeError: Option<string>): (Outcome, Option<string>)
    requires Terminal(p)
  {
    match p
    case Raised(_, d) => (PollingError(d), None)
    case Http(_, _, NotJson(d)) => (PollingError(d), None)
    case Http(_, _, Parsed(j)) =>
      if !j.JObj? then (PollingError(NoGetMessage(j)), None)
      else if JobStatus(j.fields) == JStr("completed") then Completed(Get(j.fields, "content", JNull), writeError)
      else (JobFailed, None)
  }

  /** The queued path, once a truthy `jobId` is known. */
  function Queued(env: Env, jobId: Json): Run
    requires HasKey(env)
  {
    var poll := JobStatusRequest(env.apiKey.value, jobId);
    var k := FirstTerminal(env.polls, 0);
    if k == MaxAttempts then Run(TimedOut, [FirstRequest(env)] + Repeat(poll, k), k, None)
    else
      var v := Verdict(PollAt(env.polls, k), env.writeError);
      Run(v.0, [FirstRequest(env)] + Repeat(poll, k + 1), k + 1, v.1)
  }

  /** The first reply is a 202 whose JSON object carries a truthy `jobId`: the call goes on to poll. */
  predicate Queues(env: Env)
  {
    HasKey(env) && env.initial.Http? && env.initial.status == 202 &&
    env.initial.body.Parsed? && env.initial.body.value.JObj? &&
    Truthy(Get(env.initial.body.value.fields, "jobId", JNull))
  }

  /** The `jobId` of a queued call. */
  function JobId(env: Env): Json
    requires Queues(env)
  {
    Get(env.initial.body.value.fields, "jobId", JNull)
  }

  /**
   * How a call with a key ends when its first reply does not queue a job:
   * the request raised, the reply was written, the job could not be read, or
   * the service refused. Which case applies is read off the first reply in
   * the order the function checks it; a 202 carrying a JSON object reaches
   * the end only without a truthy `jobId`.
   */
  function Immediate(initial: Reply, writeError: Option<string>, first: Request): Run
  {
    match initial
    case Raised(RequestException, d) => Run(NetworkError(d), [first], 0, None)
    case Raised(OtherException, d) => Run(UnexpectedError(d), [first], 0, None)
    case Http(st, text, body) =>
      if st == 200 then
        if writeError.Some? then Run(WriteFailed(writeError.value), [first], 0, None)
        else Run(Written, [first], 0, Some(text))
      else if st == 202 then
        match body
        case NotJson(d) => Run(PollingError(d), [first], 0, None)
        case Parsed(j) =>
          if !j.JObj? then Run(PollingError(NoGetMessage(j)), [first], 0, None)
          else Run(NoJobId, [first], 0, None)
      else Run(UpstreamError(st, text), [first], 0, None)
  }

  /** The whole call, as a function of what it reads from outside. */
  function Fetch(env: Env): Run
  {
    if !HasKey(env) then Run(MissingApiKey, [], 0, None)
    else if Queues(env) then Queued(env, JobId(env))
    else Immediate(env.initial, env.writeError, FirstRequest(env))
  }

  lemma {:induction false} FirstTerminalIs(polls: seq<Reply>, i: nat, k: nat)
    requires i <= k <= MaxAttempts
    requires forall j :: i <= j < k ==> !Terminal(PollAt(polls, j))
    requires k < MaxAttempts ==> Terminal(PollAt(polls, k))
    ensures FirstTerminal(polls, i) == k
    decreases k - i
  {
    if i < k {
      FirstTerminalIs(polls, i + 1, k);
    }
  }

  lemma {:induction false} FirstNonObjectIs(items: seq<Json>, k: nat)
    requires k <= |items| && AllObjects(items[..k])
    requires k < |items| ==> !items[k].JObj?
    ensures FirstNonObject(items) == k
  {
    if k > 0 {
      assert items[0] == items[..k][0];
      assert items[1..][..k - 1] == items[1..k];
      FirstNonObjectIs(items[1..], k - 1);
    }
  }

  /**
   * The loop `for entry in content`: one line per entry until an entry is not
   * a dictionary, where `.get` raises. Returns what was written and the
   * offending entry, if any.
   */
  method WriteEntries(items: seq<Json>) returns (written: string, bad: Option<Json>)
    ensures FirstNonObject(items) < |items| ==> bad == Some(items[FirstNonObject(items)])
    ensures FirstNonObject(items) == |items| ==> bad == None
    ensures written == Lines(items[..FirstNonObject(items)])
  {
    written := "";
    var i := 0;
    while i < |items|
      invariant 0 <= i <= |items| && AllObjects(items[..i])
      invariant written == Lines(items[..i])
    {
      var entry := items[i];
      if !entry.JObj? {
        FirstNonObjectIs(items, i);
        return written, Some(entry);
      }
      var text := Get(entry.fields, "text", JStr(""));
      LinesSnoc(items, i);
      written := written + Str(text) + "\n";
      i := i + 1;
    }
    assert items[..i] == items;
    FirstNonObjectIs(items, i);
    bad := None;
  }

  /** One more dictionary entry adds its line. */
  lemma LinesSnoc(items: seq<Json>, i: nat)
    requires i < |items| && AllObjects(items[..i]) && items[i].JObj?
    ensures AllObjects(items[..i + 1])
    ensures Lines(items[..i + 1]) == Lines(items[..i]) + EntryLine(items[i])
  {
    assert items[..i + 1][..i] == items[..i];
  }

  /**
   * The `completed` branch: check the content, open the file (which truncates
   * it) and write the content as it comes.
   */
  method WriteContent(content: Json, writeError: Option<string>) returns (outcome: Outcome, file: Option<string>)
    ensures (outcome, file) == Completed(content, writeError)
  {
    if !Truthy(content) {
      return EmptyContent, None;
    }
    if writeError.Some? {
      return WriteFailed(writeError.value), None;
    }
    file := Some("");
    if content.JStr? {
      return Written, Some(content.s);
    } else if content.JArr? {
      var written, bad := WriteEntries(content.items);
      if bad.Some? {
        return PollingError(NoGetMessage(bad.value)), Some(written);
      }
      assert content.items[..FirstNonObject(content.items)] == content.items;
      return Written, Some(written);
    } else {
      return UnexpectedContentType(TypeName(content)), file;
    }
  }

  /**
   * The polling loop: up to `MaxAttempts` rounds of sleeping and asking for
   * the job's status; non-200 replies and unfinished jobs go round again.
   */
  method PollJob(env: Env, jobId: Json) returns (outcome: Outcome, requests: seq<Request>, sleeps: nat, file: Option<string>)
    requires HasKey(env)
    ensures Run(outcome, requests, sleeps, file) == Queued(env, jobId)
  {
    var poll := JobStatusRequest(env.apiKey.value, jobId);
    requests, sleeps, file := [FirstRequest(env)], 0, None;
    var attempt := 0;
    while attempt < MaxAttempts
      invariant 0 <= attempt <= MaxAttempts
      invariant forall j :: 0 <= j < attempt ==> !Terminal(PollAt(env.polls, j))
      invariant requests == [FirstRequest(env)] + Repeat(poll, attempt) && sleeps == attempt && file == None
    {
      sleeps := sleeps + 1;
      RepeatSnoc(FirstRequest(env), poll, attempt);
      requests := requests + [poll];
      var jobResponse := PollAt(env.polls, attempt);
      if jobResponse.Raised? {
        QueuedEndsAt(env, jobId, attempt);
        return PollingError(jobResponse.detail), requests, sleeps, file;
      }
      if jobResponse.status != 200 {
        attempt := attempt + 1;
        continue;
      }
      if jobResponse.body.NotJson? {
        QueuedEndsAt(env, jobId, attempt);
        return PollingError(jobResponse.body.detail), requests, sleeps, file;
      }
      var jobResult := jobResponse.body.value;
      if !jobResult.JObj? {
        QueuedEndsAt(env, jobId, attempt);
        return PollingError(NoGetMessage(jobResult)), requests, sleeps, file;
      }
      var status := Get(jobResult.fields, "status", JNull);
      if status == JStr("completed") {
        QueuedEndsAt(env, jobId, attempt);
        outcome, file := WriteContent(Get(jobResult.fields, "content", JNull), env.writeError);
        return;
      } else if status == JStr("failed") {
        QueuedEndsAt(env, jobId, attempt);
        return JobFailed, requests, sleeps, file;
      }
      attempt := attempt + 1;
    }
    FirstTerminalIs(env.polls, 0, MaxAttempts);
    outcome := TimedOut;
  }

  /** One more job-status request. */
  lemma RepeatSnoc(first: Request, poll: Request, n: nat)
    ensures [first] + Repeat(poll, n) + [poll] == [first] + Repeat(poll, n + 1)
  {
  }

  /** The polling loop ends at attempt `k` when that is the first terminal poll. */
  lemma QueuedEndsAt(env: Env, jobId: Json, k: nat)
    requires HasKey(env) && k < MaxAttempts && Terminal(PollAt(env.polls, k))
    requires forall j :: 0 <= j < k ==> !Terminal(PollAt(env.polls, j))
    ensures var v := Verdict(PollAt(env.polls, k), env.writeError);
      Queued(env, jobId) == Run(v.0, [FirstRequest(env)] + Repeat(JobStatusRequest(env.apiKey.value, jobId), k + 1), k + 1, v.1)
  {
    FirstTerminalIs(env.polls, 0, k);
  }

  /**
   * `download_transcript_via_supadata(video_id, output_filename, native_lang)`:
   * returns `(success, error)`, and also the requests it sent, the sleeps it
   * took and what it left in the output file.
   */
  method DownloadTranscriptViaSupadata(env: Env)
    returns (success: bool, error: Option<string>, requests: seq<Request>, sleeps: nat, file: Option<string>)
    ensures success <==> Fetch(env).outcome == Written
    ensures error == Message(Fetch(env).outcome)
    ensures requests == Fetch(env).requests && sleeps == Fetch(env).sleeps && file == Fetch(env).file
  {
    var outcome;
    outcome, requests, sleeps, file := Download(env);
    success, error := outcome == Written, Message(outcome);
  }

  /** The body of the function, reporting its outcome rather than the message. */
  method Download(env: Env) returns (outcome: Outcome, requests: seq<Request>, sleeps: nat, file: Option<string>)
    ensures Run(outcome, requests, sleeps, file) == Fetch(env)
  {
    requests, sleeps, file := [], 0, None;
    if !HasKey(env) {
      return MissingApiKey, requests, sleeps, file;
    }
    var request := TranscriptRequest(env.apiKey.value, "https://www.youtube.com/watch?v=" + env.videoId, "true", None);
    if env.nativeLang.Some? && env.nativeLang.value != "" {
      request := request.(lang := env.nativeLang);
    }
    requests := [request];
    var response := env.initial;
    if response.Raised? {
      if response.kind == RequestException {
        return NetworkError(response.detail), requests, sleeps, file;
      }
      return UnexpectedError(response.detail), requests, sleeps, file;
    }
    if response.status == 200 {
      if env.writeError.Some? {
        return WriteFailed(env.writeError.value), requests, sleeps, file;
      }
      return Written, requests, sleeps, Some(response.text);
    } else if response.status == 202 {
      if response.body.NotJson? {
        return PollingError(response.body.detail), requests, sleeps, file;
      }
      var jobData := response.body.value;
      if !jobData.JObj? {
        return PollingError(NoGetMessage(jobData)), requests, sleeps, file;
      }
      var jobId := Get(jobData.fields, "jobId", JNull);
      if !Truthy(jobId) {
        return NoJobId, requests, sleeps, file;
      }
      outcome, requests, sleeps, file := PollJob(env, jobId);
    } else {
      return UpstreamError(response.status, response.text), requests, sleeps, file;
    }
  }
}
