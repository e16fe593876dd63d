/**
 * Properties of `download_transcript_via_supadata` as modelled by
 * `SupadataApi.Fetch`: which requests it sends, when it gives up, which poll
 * replies matter and what ends up in the file.
 */
module SupadataApiFacts {
  import opened Wrappers
  import opened Text
  import opened Json
  import opened SupadataApi

  /**
   * The requests: none without a key; otherwise the transcript request for
   * the video first, with `lang` exactly when `native_lang` is truthy, then
   * one job-status request per sleep, at most thirty.
   */
  lemma RequestShape(env: Env)
    ensures var r := Fetch(env);
      (r.requests == [] <==> !HasKey(env)) &&
      (HasKey(env) ==>
        |r.requests| == r.sleeps + 1 && r.sleeps <= MaxAttempts &&
        r.requests[0].TranscriptRequest? &&
        r.requests[0].apiKey == env.apiKey.value &&
        r.requests[0].url == "https://www.youtube.com/watch?v=" + env.videoId &&
        (r.requests[0].lang.Some? <==> env.nativeLang.Some? && env.nativeLang.value != "") &&
        forall i :: 1 <= i < |r.requests| ==> r.requests[i].JobStatusRequest? && r.requests[i].apiKey == env.apiKey.value)
  {
    if Queues(env) {
      var k := FirstTerminal(env.polls, 0);
      var poll := JobStatusRequest(env.apiKey.value, JobId(env));
      var n := if k == MaxAttempts then k else k + 1;
      assert Fetch(env).requests == [FirstRequest(env)] + Repeat(poll, n);
    }
  }

  /** Only a queued call polls: any other call sends one request at most and never sleeps. */
  lemma PollsOnlyWhenQueued(env: Env)
    ensures !Queues(env) ==> |Fetch(env).requests| <= 1 && Fetch(env).sleeps == 0
    ensures Queues(env) ==> Fetch(env).sleeps >= 1
  {
    if Queues(env) {
      QueuedFetch(env);
    } else {
      Unqueued(env);
    }
  }

  /** What a call that is not queued does: at most the first request, no sleep, no time-out. */
  lemma Unqueued(env: Env)
    requires !Queues(env)
    ensures Fetch(env).requests == (if HasKey(env) then [FirstRequest(env)] else [])
    ensures Fetch(env).sleeps == 0 && Fetch(env).outcome != TimedOut
  {
  }

  /** A terminal poll never reads as a time-out. */
  lemma VerdictNotTimedOut(p: Reply, writeError: Option<string>)
    requires Terminal(p)
    ensures Verdict(p, writeError).0 != TimedOut
  {
  }

  /**
   * The call times out exactly when the job was queued and none of the thirty
   * polls ended it; it has then slept thirty times and sent thirty-one
   * requests.
   */
  lemma TimedOutIff(env: Env)
    ensures Fetch(env).outcome == TimedOut <==>
      Queues(env) && forall i :: 0 <= i < MaxAttempts ==> !Terminal(PollAt(env.polls, i))
    ensures Fetch(env).outcome == TimedOut ==>
      Fetch(env).sleeps == MaxAttempts && |Fetch(env).requests| == MaxAttempts + 1
  {
    if Queues(env) {
      QueuedFetch(env);
      var k := FirstTerminal(env.polls, 0);
      if k < MaxAttempts {
        VerdictNotTimedOut(PollAt(env.polls, k), env.writeError);
      }
    } else {
      Unqueued(env);
    }
  }

  /** A poll reporting "failed" stops the polling at once. */
  lemma {:induction false} FailedStopsAtOnce(env: Env, k: nat)
    requires Queues(env) && k < MaxAttempts
    requires forall j :: 0 <= j < k ==> !Terminal(PollAt(env.polls, j))
    requires PollAt(env.polls, k).Http? && PollAt(env.polls, k).status == 200
    requires PollAt(env.polls, k).body.Parsed? && PollAt(env.polls, k).body.value.JObj?
    requires JobStatus(PollAt(env.polls, k).body.value.fields) == JStr("failed")
    ensures Fetch(env).outcome == JobFailed
    ensures Fetch(env).sleeps == k + 1 && |Fetch(env).requests| == k + 2
    ensures Fetch(env).file == None
  {
    FirstTerminalIs(env.polls, 0, k);
  }

  /**
   * An exception while polling, even a network error, is reported as a polling
   * error: `Network error` only ever comes from the first request.
   */
  lemma {:induction false} PollExceptionIsPollingError(env: Env, k: nat, kind: ExceptionKind, d: string)
    requires Queues(env) && k < MaxAttempts
    requires forall j :: 0 <= j < k ==> !Terminal(PollAt(env.polls, j))
    requires PollAt(env.polls, k) == Raised(kind, d)
    ensures Fetch(env).outcome == PollingError(d)
    ensures Fetch(env).sleeps == k + 1 && |Fetch(env).requests| == k + 2
  {
    FirstTerminalIs(env.polls, 0, k);
  }

  lemma NetworkErrorOnlyFirst(env: Env)
    ensures Fetch(env).outcome.NetworkError? <==>
      HasKey(env) && env.initial.Raised? && env.initial.kind == RequestException
    ensures Fetch(env).outcome.NetworkError? ==> |Fetch(env).requests| == 1
  {
    if Queues(env) {
      var k := FirstTerminal(env.polls, 0);
      if k < MaxAttempts {
        var p := PollAt(env.polls, k);
        if p.Http? && p.body.Parsed? && p.body.value.JObj? && JobStatus(p.body.value.fields) == JStr("completed") {
          assert !Completed(Get(p.body.value.fields, "content", JNull), env.writeError).0.NetworkError?;
        }
      }
    }
  }

  /** Replies after the first terminal poll are never asked for, so changing them changes nothing. */
  lemma {:induction false} LaterPollsIgnored(env: Env, polls: seq<Reply>)
    requires forall i :: 0 <= i <= FirstTerminal(env.polls, 0) && i < MaxAttempts ==> PollAt(env.polls, i) == PollAt(polls, i)
    ensures Fetch(env.(polls := polls)) == Fetch(env)
  {
    var e := env.(polls := polls);
    if Queues(env) {
      var k := FirstTerminal(env.polls, 0);
      FirstTerminalIs(polls, 0, k);
      QueuedSame(env, e, JobId(env));
      QueuedFetch(env);
      QueuedFetch(e);
    } else {
      UnqueuedSame(env, e);
    }
  }

  /** A call that is not queued never looks at the polls. */
  lemma UnqueuedSame(env: Env, e: Env)
    requires !Queues(env) && e == env.(polls := e.polls)
    ensures Fetch(e) == Fetch(env)
  {
  }

  /** A queued call is its polling loop. */
  lemma QueuedFetch(env: Env)
    requires Queues(env)
    ensures Fetch(env) == Queued(env, JobId(env))
  {
  }

  /** The polling loop sees the polls only up to the first terminal one. */
  lemma QueuedSame(env: Env, e: Env, jobId: Json)
    requires HasKey(env) && e == env.(polls := e.polls)
    requires FirstTerminal(e.polls, 0) == FirstTerminal(env.polls, 0)
    requires FirstTerminal(env.polls, 0) < MaxAttempts ==>
      PollAt(e.polls, FirstTerminal(env.polls, 0)) == PollAt(env.polls, FirstTerminal(env.polls, 0))
    ensures Queued(e, jobId) == Queued(env, jobId)
  {
  }

  /**
   * A 200 reply is written as it is and counts as a success, whatever its
   * body, the empty body included.
   */
  lemma ImmediateReply(env: Env, text: string, body: Body)
    requires HasKey(env) && env.initial == Http(200, text, body) && env.writeError == None
    ensures Fetch(env) == Run(Written, [FirstRequest(env)], 0, Some(text))
  {
  }

  /** The output file is only ever opened when it can be, and a success always leaves it behind. */
  lemma FileOnlyWhenOpened(env: Env)
    ensures Fetch(env).file.Some? ==> HasKey(env) && env.writeError == None
    ensures Fetch(env).outcome == Written ==> Fetch(env).file.Some?
    ensures Fetch(env).outcome.WriteFailed? ==> Fetch(env).outcome == WriteFailed(env.writeError.value) && Fetch(env).file == None
  {
    if Queues(env) {
      var k := FirstTerminal(env.polls, 0);
      if k < MaxAttempts {
        var p := PollAt(env.polls, k);
        if p.Http? && p.body.Parsed? && p.body.value.JObj? && JobStatus(p.body.value.fields) == JStr("completed") {
          var c := Get(p.body.value.fields, "content", JNull);
          assert Fetch(env).outcome == Completed(c, env.writeError).0;
        }
      }
    }
  }

  /** The happy queued path: polls that do not end the job, then "completed" with text content. */
  lemma {:induction false} QueuedThenCompleted(env: Env, k: nat, reply: seq<(string, Json)>, text: string)
    requires Queues(env) && k < MaxAttempts && env.writeError == None
    requires forall j :: 0 <= j < k ==> !Terminal(PollAt(env.polls, j))
    requires PollAt(env.polls, k) == Http(200, "", Parsed(JObj(reply)))
    requires JobStatus(reply) == JStr("completed") && Get(reply, "content", JNull) == JStr(text) && text != ""
    ensures Fetch(env) == Run(Written, [FirstRequest(env)] + Repeat(JobStatusRequest(env.apiKey.value, JobId(env)), k + 1), k + 1, Some(text))
  {
    FirstTerminalIs(env.polls, 0, k);
  }

  /** A call without a truthy key fails with the missing-key message, and only such a call does. */
  lemma MissingKeyIff(env: Env)
    ensures Fetch(env).outcome == MissingApiKey <==> !HasKey(env)
    ensures !HasKey(env) ==> Message(Fetch(env).outcome) == Some("SUPADATA_API_KEY not found in .env file")
  {
    if Queues(env) {
      QueuedOutcome(env);
    }
  }

  /** A queued call ends as its first terminal poll says, or times out when none comes. */
  lemma QueuedVerdict(env: Env)
    requires Queues(env)
    ensures var k := FirstTerminal(env.polls, 0);
      (k == MaxAttempts ==> Fetch(env).outcome == TimedOut && Fetch(env).file == None) &&
      (k < MaxAttempts ==> (Fetch(env).outcome, Fetch(env).file) == Verdict(PollAt(env.polls, k), env.writeError))
  {
    QueuedFetch(env);
    var k := FirstTerminal(env.polls, 0);
    if k < MaxAttempts {
      QueuedEndsAt(env, JobId(env), k);
    }
  }

  /** The outcomes a queued call can never have: they all come from the key or the first reply. */
  lemma QueuedOutcome(env: Env)
    requires Queues(env)
    ensures var o := Fetch(env).outcome;
      !o.MissingApiKey? && !o.NoJobId? && !o.UpstreamError? && !o.NetworkError? && !o.UnexpectedError?
  {
    QueuedVerdict(env);
    var k := FirstTerminal(env.polls, 0);
    if k < MaxAttempts {
      var p := PollAt(env.polls, k);
      if p.Http? && p.body.Parsed? && p.body.value.JObj? && JobStatus(p.body.value.fields) == JStr("completed") {
        var c := Get(p.body.value.fields, "content", JNull);
        assert Verdict(p, env.writeError) == Completed(c, env.writeError);
        CompletedNeverEarly(c, env.writeError);
      }
    }
  }

  /** The content checks never produce an outcome that belongs to the first reply. */
  lemma CompletedNeverEarly(content: Json, writeError: Option<string>)
    ensures var o := Completed(content, writeError).0;
      !o.MissingApiKey? && !o.NoJobId? && !o.UpstreamError? && !o.NetworkError? && !o.UnexpectedError?
  {
  }

  /**
   * A status other than 200 or 202 fails at once, after the one request,
   * with the status code and the reply text in the message.
   */
  lemma UpstreamReply(env: Env, st: int, text: string, body: Body)
    requires HasKey(env) && env.initial == Http(st, text, body) && st != 200 && st != 202
    ensures Fetch(env) == Run(UpstreamError(st, text), [FirstRequest(env)], 0, None)
    ensures Message(Fetch(env).outcome) == Some("Supadata API error: " + Decimal(st) + " - " + text)
  {
    assert !Queues(env);
    assert Fetch(env) == Immediate(env.initial, env.writeError, FirstRequest(env));
  }

  /** The service's refusal is reported exactly for a first reply whose status is neither 200 nor 202. */
  lemma UpstreamErrorIff(env: Env)
    ensures Fetch(env).outcome.UpstreamError? <==>
      HasKey(env) && env.initial.Http? && env.initial.status != 200 && env.initial.status != 202
    ensures Fetch(env).outcome.UpstreamError? ==>
      Fetch(env).outcome == UpstreamError(env.initial.status, env.initial.text)
  {
    if Queues(env) {
      QueuedOutcome(env);
    }
  }

  /** A rate-limited reply puts its status code, 429, into the message. */
  lemma RateLimited(env: Env, text: string, body: Body)
    requires HasKey(env) && env.initial == Http(429, text, body)
    ensures Message(Fetch(env).outcome) == Some("Supadata API error: 429 - " + text)
  {
    UpstreamReply(env, 429, text, body);
    Decimal429();
    assert "Supadata API error: " + "429" + " - " == "Supadata API error: 429 - ";
  }

  lemma Decimal429()
    ensures Decimal(429) == "429"
  {
    assert DigitChar(4) == '4' && DigitChar(2) == '2' && DigitChar(9) == '9';
    assert Natural(4) == ['4'];
    assert Natural(42) == Natural(4) + [DigitChar(2)] == ['4', '2'];
    assert Decimal(429) == Natural(42) + [DigitChar(9)] == "429";
  }

  /** A 202 reply fails with "no jobId" exactly when its JSON object has no truthy `jobId`. */
  lemma NoJobIdIff(env: Env)
    ensures Fetch(env).outcome == NoJobId <==>
      HasKey(env) && env.initial.Http? && env.initial.status == 202 &&
      env.initial.body.Parsed? && env.initial.body.value.JObj? &&
      !Truthy(Get(env.initial.body.value.fields, "jobId", JNull))
  {
    if Queues(env) {
      QueuedOutcome(env);
    }
  }

  /** The `content` of the poll that ends a queued call with "completed", if that is how it ends. */
  function CompletedContent(env: Env): Option<Json>
  {
    if !Queues(env) || FirstTerminal(env.polls, 0) == MaxAttempts then None
    else
      var p := PollAt(env.polls, FirstTerminal(env.polls, 0));
      if p.Http? && p.body.Parsed? && p.body.value.JObj? && JobStatus(p.body.value.fields) == JStr("completed")
      then Some(Get(p.body.value.fields, "content", JNull))
      else None
  }

  /** A call ending in "completed" ends as its content says; any other call never reaches the content checks. */
  lemma CompletedIs(env: Env)
    ensures CompletedContent(env).Some? ==>
      (Fetch(env).outcome, Fetch(env).file) == Completed(CompletedContent(env).value, env.writeError)
    ensures CompletedContent(env).None? ==> !Fetch(env).outcome.EmptyContent? && !Fetch(env).outcome.UnexpectedContentType?
  {
    if Queues(env) {
      QueuedVerdict(env);
      var k := FirstTerminal(env.polls, 0);
      if k < MaxAttempts {
        var p := PollAt(env.polls, k);
        if p.Http? && p.body.Parsed? && p.body.value.JObj? && JobStatus(p.body.value.fields) == JStr("completed") {
          assert Verdict(p, env.writeError) == Completed(Get(p.body.value.fields, "content", JNull), env.writeError);
        } else {
          VerdictNotContent(p, env.writeError);
        }
      }
    } else {
      ImmediateNotContent(env);
    }
  }

  /** A terminal poll that is not "completed" never fails on the content. */
  lemma VerdictNotContent(p: Reply, writeError: Option<string>)
    requires Terminal(p)
    requires !(p.Http? && p.body.Parsed? && p.body.value.JObj? && JobStatus(p.body.value.fields) == JStr("completed"))
    ensures !Verdict(p, writeError).0.EmptyContent? && !Verdict(p, writeError).0.UnexpectedContentType?
  {
  }

  /** A call that is not queued never fails on the content. */
  lemma ImmediateNotContent(env: Env)
    requires !Queues(env)
    ensures !Fetch(env).outcome.EmptyContent? && !Fetch(env).outcome.UnexpectedContentType?
  {
  }

  /** Falsy content (absent, `null`, `""`, `[]`, `{}`, `0`, `false`) fails as empty, and nothing else does. */
  lemma CompletedEmptyIff(content: Json, writeError: Option<string>)
    ensures Completed(content, writeError).0 == EmptyContent <==> !Truthy(content)
    ensures !Truthy(content) ==> Completed(content, writeError).1 == None
  {
    if Truthy(content) && writeError.None? && content.JArr? {
      var k := FirstNonObject(content.items);
      assert k == |content.items| ==> content.items[..k] == content.items;
    }
  }

  /**
   * Truthy content that is neither a string nor a list fails with its type
   * once the file is opened; only such content does, and the file is left empty.
   */
  lemma CompletedUnexpectedIff(content: Json, writeError: Option<string>)
    ensures Completed(content, writeError).0.UnexpectedContentType? <==>
      Truthy(content) && writeError.None? && !content.JStr? && !content.JArr?
    ensures Completed(content, writeError).0.UnexpectedContentType? ==>
      Completed(content, writeError) == (UnexpectedContentType(TypeName(content)), Some(""))
  {
    if Truthy(content) && writeError.None? && content.JArr? {
      var k := FirstNonObject(content.items);
      assert k == |content.items| ==> content.items[..k] == content.items;
    }
  }

  /** A whole call fails as empty exactly when the job completed with falsy content. */
  lemma EmptyContentIff(env: Env)
    ensures Fetch(env).outcome == EmptyContent <==>
      CompletedContent(env).Some? && !Truthy(CompletedContent(env).value)
    ensures Fetch(env).outcome == EmptyContent ==>
      Message(Fetch(env).outcome) == Some("Job completed but no content in response") && Fetch(env).file == None
  {
    CompletedIs(env);
    if CompletedContent(env).Some? {
      CompletedEmptyIff(CompletedContent(env).value, env.writeError);
    }
  }

  /** A whole call fails on the content type exactly when the job completed with truthy content that is neither a string nor a list. */
  lemma UnexpectedContentTypeIff(env: Env)
    ensures Fetch(env).outcome.UnexpectedContentType? <==>
      CompletedContent(env).Some? && Truthy(CompletedContent(env).value) && env.writeError.None? &&
      !CompletedContent(env).value.JStr? && !CompletedContent(env).value.JArr?
    ensures Fetch(env).outcome.UnexpectedContentType? ==>
      Fetch(env).outcome == UnexpectedContentType(TypeName(CompletedContent(env).value))
  {
    CompletedIs(env);
    if CompletedContent(env).Some? {
      CompletedUnexpectedIff(CompletedContent(env).value, env.writeError);
    }
  }

  /** A transcript entry `{"text": t}`. */
  function TextEntry(t: string): Json
  {
    JObj([("text", JStr(t))])
  }

  /** The entries of a structured transcript with the given texts. */
  function TextEntries(ts: seq<string>): (items: seq<Json>)
    ensures |items| == |ts| && AllObjects(items)
  {
    seq(|ts|, i requires 0 <= i < |ts| => TextEntry(ts[i]))
  }

  /** The texts, one per line, each line ended by a newline. */
  function JoinLines(ts: seq<string>): string
  {
    if ts == [] then "" else ts[0] + "\n" + JoinLines(ts[1..])
  }

  lemma {:induction false} JoinLinesSnoc(ts: seq<string>, t: string)
    ensures JoinLines(ts + [t]) == JoinLines(ts) + t + "\n"
  {
    if ts != [] {
      assert (ts + [t])[1..] == ts[1..] + [t];
      JoinLinesSnoc(ts[1..], t);
    } else {
      assert [t][1..] == [];
    }
  }

  /** Each entry gives its own text on a line of its own, in order. */
  lemma {:induction false} LinesOfTexts(ts: seq<string>)
    ensures Lines(TextEntries(ts)) == JoinLines(ts)
  {
    if ts != [] {
      var n := |ts| - 1;
      assert TextEntries(ts)[..n] == TextEntries(ts[..n]);
      assert ts == ts[..n] + [ts[n]];
      LinesOfTexts(ts[..n]);
      JoinLinesSnoc(ts[..n], ts[n]);
      assert Lookup([("text", JStr(ts[n]))], "text") == Some(JStr(ts[n]));
    }
  }

  /** Structured content is written one text per line, in order. */
  lemma StructuredContent(ts: seq<string>)
    requires ts != []
    ensures Completed(JArr(TextEntries(ts)), None) == (Written, Some(JoinLines(ts)))
  {
    LinesOfTexts(ts);
  }

  /** What an entry puts on its line: `str(entry.get("text", ""))`. */
  function EntryText(e: Json): string
    requires e.JObj?
  {
    Str(Get(e.fields, "text", JStr("")))
  }

  /** The texts of a list of entries, in order. */
  function EntryTexts(items: seq<Json>): (ts: seq<string>)
    requires AllObjects(items)
    ensures |ts| == |items|
  {
    seq(|items|, i requires 0 <= i < |items| => EntryText(items[i]))
  }

  /**
   * The text of an entry: nothing when it has no `text` member, the string
   * itself for a string, and `repr` of any other value.
   */
  lemma EntryTextCases(fields: seq<(string, Json)>)
    ensures Lookup(fields, "text").None? ==> EntryText(JObj(fields)) == ""
    ensures Lookup(fields, "text").Some? && Lookup(fields, "text").value.JStr? ==>
      EntryText(JObj(fields)) == Lookup(fields, "text").value.s
    ensures Lookup(fields, "text").Some? && !Lookup(fields, "text").value.JStr? ==>
      EntryText(JObj(fields)) == Repr(Lookup(fields, "text").value)
  {
  }

  /** An entry without a `text` member writes an empty line. */
  lemma MissingTextLine(fields: seq<(string, Json)>)
    requires forall i :: 0 <= i < |fields| ==> fields[i].0 != "text"
    ensures EntryLine(JObj(fields)) == "\n"
  {
  }

  /** Any list of dictionaries is written as each entry's text followed by a newline, in order. */
  lemma {:induction false} LinesOfEntries(items: seq<Json>)
    requires AllObjects(items)
    ensures Lines(items) == JoinLines(EntryTexts(items))
  {
    if items != [] {
      var n := |items| - 1;
      assert AllObjects(items[..n]);
      assert EntryTexts(items)[..n] == EntryTexts(items[..n]);
      assert EntryTexts(items) == EntryTexts(items[..n]) + [EntryText(items[n])];
      LinesOfEntries(items[..n]);
      JoinLinesSnoc(EntryTexts(items[..n]), EntryText(items[n]));
    }
  }

  /** Non-empty list content made only of dictionaries is written line by line and is a success. */
  lemma StructuredEntries(items: seq<Json>)
    requires items != [] && AllObjects(items)
    ensures Completed(JArr(items), None) == (Written, Some(JoinLines(EntryTexts(items))))
  {
    FirstNonObjectIs(items, |items|);
    assert items[..|items|] == items;
    LinesOfEntries(items);
  }

  /** A `text` that is itself an object with a repeated key is written as the dictionary Python builds: `{'a': 2}`. */
  lemma RepeatedKeyText()
    ensures Completed(JArr([JObj([("text", JObj([("a", JInt(1)), ("a", JInt(2))]))])]), None) == (Written, Some("{'a': 2}\n"))
  {
    var items := [JObj([("text", JObj([("a", JInt(1)), ("a", JInt(2))]))])];
    StructuredEntries(items);
    RepeatedKey();
    assert Lookup([("text", JObj([("a", JInt(1)), ("a", JInt(2))]))], "text") == Some(JObj([("a", JInt(1)), ("a", JInt(2))]));
    var t := "{'a': 2}";
    assert EntryTexts(items) == [t];
    assert [t][1..] == [];
    assert JoinLines([t]) == t + "\n";
    assert t + "\n" == "{'a': 2}\n";
  }

  /**
   * An entry that is not a dictionary stops the writing there: the file keeps
   * the lines before it and the call fails with the `AttributeError` message.
   */
  lemma StructuredContentBadEntry(ts: seq<string>, bad: Json, rest: seq<Json>)
    requires !bad.JObj?
    ensures Completed(JArr(TextEntries(ts) + [bad] + rest), None) ==
      (PollingError("'" + TypeName(bad) + "' object has no attribute 'get'"), Some(JoinLines(ts)))
  {
    var items := TextEntries(ts) + [bad] + rest;
    FirstNonObjectIs(items, |ts|);
    assert items[..|ts|] == TextEntries(ts);
    LinesOfTexts(ts);
  }
}
