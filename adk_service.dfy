/** `ADKService`: the runner it sets up once, and `get_agent_response`,
    which asks the root agent and turns its final text into an
    `AlumniRecord`, keeping the token counts whenever the call returned. */
module AdkService {
  import opened Wrappers
  import opened Text
  import opened AgentUtils
  import opened OutputSchema
  import opened AgentFactory

  /** `APP_NAME`. */
  const AppName := "Yale Alumni Assistant"

  /** The ValueError raised when no runner has been created yet. */
  const NotInitializedMessage := "ADKService not initialized. Call initialize() first."

  // ---------------------------------------------------------------------
  // Finding the JSON object in the response text

  /** The two ValueErrors raised while looking for a JSON object: there is
      no '{' at all (the message quotes the first 100 characters), or no
      '}' at or after the first '{'. */
  datatype ExtractError = NoJsonStart(preview: string) | NoJsonEnd

  /** `s[:n]`. */
  function Take(s: string, n: nat): (r: string)
    ensures |r| <= n && |r| <= |s| && r == s[..|r|]
    ensures |s| <= n ==> r == s
    ensures |s| > n ==> r == s[..n]
  {
    if |s| <= n then s else s[..n]
  }

  /** The text handed to `json.loads`: the stripped response when it starts
      with '{', otherwise the slice from its first '{' to its last '}'. */
  function ExtractJson(text: string): (r: Result<string, ExtractError>)
    ensures r.Success? ==> r.value != [] && r.value[0] == '{'
    ensures r.Success? && !StartsWith(Strip(text), "{") ==> r.value[|r.value| - 1] == '}'
    ensures StartsWith(Strip(text), "{") ==> r == Success(Strip(text))
    ensures var t := Strip(text);
      r.Success? && !StartsWith(t, "{") ==>
        0 <= Find(t, '{') < RFind(t, '}') + 1 && r.value == t[Find(t, '{')..RFind(t, '}') + 1]
  {
    ExtractStripped(Strip(text))
  }

  /** The extraction once the text is stripped. */
  function ExtractStripped(t: string): (r: Result<string, ExtractError>)
    ensures r.Success? ==> r.value != [] && r.value[0] == '{'
    ensures r.Success? && !StartsWith(t, "{") ==> r.value[|r.value| - 1] == '}'
    ensures StartsWith(t, "{") ==> r == Success(t)
    ensures r.Success? && !StartsWith(t, "{") ==>
      0 <= Find(t, '{') < RFind(t, '}') + 1 && r.value == t[Find(t, '{')..RFind(t, '}') + 1]
  {
    if StartsWith(t, "{") then
      assert t[..1][0] == t[0];
      Success(t)
    else
      var jsonStart := Find(t, '{');
      if jsonStart >= 0 then
        var jsonEnd := RFind(t, '}') + 1;
        if jsonEnd > jsonStart then Success(t[jsonStart..jsonEnd]) else Failure(NoJsonEnd)
      else Failure(NoJsonStart(Take(t, 100)))
  }

  /** The failures of the extraction, exactly: there is no '{' anywhere in
      the text; or the stripped text does not start with '{' and no '}'
      comes at or after its first '{'. */
  lemma ExtractJsonFailures(text: string)
    ensures ExtractJson(text).Failure? && ExtractJson(text).error.NoJsonStart? <==> '{' !in text
    ensures var t := Strip(text);
      ExtractJson(text) == Failure(NoJsonEnd) <==>
        !StartsWith(t, "{") && '{' in t && '}' !in t[Find(t, '{')..]
  {
    StripKeepsNonSpace(text, '{');
    StrippedFailures(Strip(text));
  }

  lemma StrippedFailures(t: string)
    ensures ExtractStripped(t).Failure? && ExtractStripped(t).error.NoJsonStart? <==> '{' !in t
    ensures ExtractStripped(t) == Failure(NoJsonEnd) <==>
      !StartsWith(t, "{") && '{' in t && '}' !in t[Find(t, '{')..]
  {
    if StartsWith(t, "{") {
      assert t[..1][0] == t[0];
      assert t[0] in t;
    } else if '{' in t {
      NoEndAfterStart(t, Find(t, '{'), RFind(t, '}'));
    }
  }

  /** The last '}' comes before index `start` exactly when none comes at or after it. */
  lemma NoEndAfterStart(t: string, start: nat, r: int)
    requires start < |t| && r == RFind(t, '}')
    ensures r < start <==> '}' !in t[start..]
  {
    if r >= start {
      assert t[start..][r - start] == '}';
    } else {
      assert forall i :: start <= i < |t| ==> t[start..][i - start] == t[i];
      assert r >= 0 ==> forall i :: r < i < |t| ==> t[r + 1..][i - r - 1] == t[i];
    }
  }

  /** A JSON object behind prose: when the text before the object holds
      something other than white space and no '{', and the text after it
      holds no '}', exactly the braced part reaches the parser. */
  lemma ExtractBracedAfterProse(prefix: string, body: string, suffix: string)
    requires '{' !in prefix && '}' !in suffix
    requires exists i :: 0 <= i < |prefix| && !IsSpace(prefix[i])
    ensures ExtractJson(prefix + "{" + body + "}" + suffix) == Success("{" + body + "}")
  {
    var b := "{" + body + "}";
    var text := prefix + b + suffix;
    assert text == prefix + "{" + body + "}" + suffix;
    var i :| 0 <= i < |prefix| && !IsSpace(prefix[i]);
    var k, m := StripAround(text, prefix, b, suffix, i);
    var p, s := prefix[k..], suffix[..m];
    assert forall j :: 0 <= j < |p| ==> p[j] == prefix[k + j];
    assert forall j :: 0 <= j < |s| ==> s[j] == suffix[j];
    ExtractWrapped(p, b, s);
  }

  /** Stripping `text == prefix + middle + suffix`, where the prefix holds
      something other than white space at `i` and the middle ends in
      something other than white space, cuts only into the prefix and the
      suffix. */
  lemma StripAround(text: string, prefix: string, middle: string, suffix: string, i: nat) returns (k: nat, m: nat)
    requires text == prefix + middle + suffix
    requires i < |prefix| && !IsSpace(prefix[i])
    requires middle != [] && !IsSpace(middle[|middle| - 1])
    ensures k < |prefix| && m <= |suffix|
    ensures Strip(text) == prefix[k..] + middle + suffix[..m]
  {
    var last := |prefix| + |middle| - 1;
    assert text[i] == prefix[i];
    assert text[last] == middle[|middle| - 1];
    var n;
    k, n := StripBetween(text, i, last);
    m := n - |prefix| - |middle|;
    SliceAround(prefix, middle, suffix, k, n);
  }

  /** The extraction from a stripped text that starts with prose: the
      part from the first '{' to the last '}'. */
  lemma ExtractWrapped(p: string, w: string, s: string)
    requires p != [] && '{' !in p && '}' !in s
    requires w != [] && w[0] == '{' && w[|w| - 1] == '}'
    ensures ExtractStripped(p + w + s) == Success(w)
  {
    var t := p + w + s;
    assert t[0] == p[0];
    assert t[..|p|] == p;
    FindFirst(t, '{', |p|);
    assert t[|p| + |w|..] == s;
    RFindLast(t, '}', |p| + |w| - 1);
    assert t[|p|..|p| + |w|] == w;
  }

  /** A JSON object with only white space around it reaches the parser
      without that white space. */
  lemma ExtractBracedAlone(prefix: string, body: string, suffix: string)
    requires forall i :: 0 <= i < |prefix| ==> IsSpace(prefix[i])
    requires forall i :: 0 <= i < |suffix| ==> IsSpace(suffix[i])
    ensures ExtractJson(prefix + "{" + body + "}" + suffix) == Success("{" + body + "}")
  {
    var b := "{" + body + "}";
    assert prefix + "{" + body + "}" + suffix == prefix + b + suffix;
    StripPadded(prefix, b, suffix);
  }

  /** A response that starts with the object is handed over whole: prose
      after the closing '}' stays in the text given to the parser. */
  lemma LeadingBraceKeepsTrailingText(prefix: string, body: string, suffix: string)
    requires forall i :: 0 <= i < |prefix| ==> IsSpace(prefix[i])
    requires suffix != [] && !IsSpace(suffix[|suffix| - 1])
    ensures ExtractJson(prefix + "{" + body + "}" + suffix) == Success("{" + body + "}" + suffix)
  {
    var w := "{" + body + "}" + suffix;
    assert prefix + "{" + body + "}" + suffix == prefix + w + "";
    StripPadded(prefix, w, "");
    assert w[..1] == "{";
  }

  /** Extracting again from an extracted object changes nothing. */
  lemma ExtractIdempotent(text: string)
    requires ExtractJson(text).Success?
    ensures ExtractJson(ExtractJson(text).value) == ExtractJson(text)
  {
    var v := ExtractJson(text).value;
    if StartsWith(Strip(text), "{") {
      StripIdempotent(text);
    } else {
      StripTrimmed(v);
    }
    assert v[..1][0] == v[0];
    assert StartsWith(Strip(v), "{");
  }

  // ---------------------------------------------------------------------
  // From the agent's answer to the reply

  /** What `get_agent_response` records about one call, one case per
      branch: the record was parsed; the response text was empty; the
      extraction raised a ValueError; `json.loads` raised JSONDecodeError;
      building the record failed (pydantic's ValidationError, caught as a
      ValueError, or the TypeError of `**` on a value that is not a
      mapping); the agent call itself raised. */
  datatype Diagnostic =
    | Parsed
    | NoResponseText
    | NotJson(reason: ExtractError)
    | DecodeFailed
    | SchemaFailed(schemaError: SchemaError)
    | AgentCallFailed

  /** The pair `(parsed_response, token_counts)` and the diagnostic that is
      logged with it. */
  datatype Reply = Reply(parsed: Option<AlumniRecord>, tokenCounts: Option<Accumulated>, diagnostic: Diagnostic)

  /** `json.loads`: the decoded value, or None when it raises. */
  type Loads = string -> Option<Json>

  /** How `call_root_agent_async` ended: it raised, or it returned the
      final response text and the accumulated counts. */
  datatype CallOutcome = CallRaised | CallReturned(responseText: Option<string>, tokenCounts: Accumulated)

  /** The body of the outer `try` of `get_agent_response` and its handlers.
      Every failure after the call returned keeps the counts; only an
      exception from the call loses them; a record comes back exactly when
      the diagnostic says it was parsed. */
  function Respond(call: CallOutcome, loads: Loads): (r: Reply)
    ensures r.parsed.Some? <==> r.diagnostic.Parsed?
    ensures call.CallRaised? ==> r == Reply(None, None, AgentCallFailed)
    ensures call.CallRaised? <==> r.tokenCounts.None?
    ensures call.CallReturned? ==> r.tokenCounts == Some(call.tokenCounts)
    ensures r.diagnostic.NotJson? ==>
      call.CallReturned? && call.responseText.Some? && ExtractJson(call.responseText.value) == Failure(r.diagnostic.reason)
    ensures call.CallReturned? && (call.responseText.None? || call.responseText.value == "") ==>
      r == Reply(None, Some(call.tokenCounts), NoResponseText)
    ensures (call.CallReturned? && call.responseText.Some? && call.responseText.value != ""
             && ExtractJson(call.responseText.value).Failure?) ==>
      r == Reply(None, Some(call.tokenCounts), NotJson(ExtractJson(call.responseText.value).error))
    ensures (call.CallReturned? && call.responseText.Some? && call.responseText.value != ""
             && ExtractJson(call.responseText.value).Success?
             && loads(ExtractJson(call.responseText.value).value).None?) ==>
      r == Reply(None, Some(call.tokenCounts), DecodeFailed)
    ensures (call.CallReturned? && call.responseText.Some? && call.responseText.value != ""
             && ExtractJson(call.responseText.value).Success?
             && loads(ExtractJson(call.responseText.value).value).Some?
             && Validate(loads(ExtractJson(call.responseText.value).value).value).Failure?) ==>
      r == Reply(None, Some(call.tokenCounts),
        SchemaFailed(Validate(loads(ExtractJson(call.responseText.value).value).value).error))
    ensures r.parsed.Some? ==>
      call.CallReturned? && call.responseText.Some? && call.responseText.value != ""
      && ExtractJson(call.responseText.value).Success? && loads(ExtractJson(call.responseText.value).value).Some?
      && Validate(loads(ExtractJson(call.responseText.value).value).value) == Success(r.parsed.value)
  {
    match call
    case CallRaised => Reply(None, None, AgentCallFailed)
    case CallReturned(text, counts) =>
      if text.None? || text.value == "" then Reply(None, Some(counts), NoResponseText)
      else
        match ExtractJson(text.value)
        case Failure(e) => Reply(None, Some(counts), NotJson(e))
        case Success(json) =>
          match loads(json)
          case None => Reply(None, Some(counts), DecodeFailed)
          case Some(v) =>
            match Validate(v)
            case Failure(e) => Reply(None, Some(counts), SchemaFailed(e))
            case Success(record) => Reply(Some(record), Some(counts), Parsed)
  }

  /** An empty or missing response text is not parsed at all. */
  lemma EmptyTextNotParsed(counts: Accumulated, loads: Loads)
    ensures Respond(CallReturned(None, counts), loads) == Reply(None, Some(counts), NoResponseText)
    ensures Respond(CallReturned(Some(""), counts), loads) == Reply(None, Some(counts), NoResponseText)
  {
  }

  /** A text without '{' is refused before the parser is reached, whatever
      the parser would say. */
  lemma NoBraceRefused(text: string, counts: Accumulated, loads: Loads)
    requires text != "" && '{' !in text
    ensures Respond(CallReturned(Some(text), counts), loads)
      == Reply(None, Some(counts), NotJson(NoJsonStart(Take(Strip(text), 100))))
  {
    ExtractJsonFailures(text);
  }

  /** A text from which a valid record is extracted, decoded and built
      comes back as that record, with the counts. */
  lemma ParsedWhenValid(text: string, counts: Accumulated, loads: Loads, v: Json, record: AlumniRecord)
    requires text != "" && ExtractJson(text).Success?
    requires loads(ExtractJson(text).value) == Some(v) && Validate(v) == Success(record)
    ensures Respond(CallReturned(Some(text), counts), loads) == Reply(Some(record), Some(counts), Parsed)
  {
  }

  /** A record written as a JSON object behind some prose comes back whole,
      with the counts. */
  lemma RecordAfterProseRecovered(
    prefix: string, body: string, suffix: string, counts: Accumulated, loads: Loads, record: AlumniRecord)
    requires '{' !in prefix && '}' !in suffix
    requires exists i :: 0 <= i < |prefix| && !IsSpace(prefix[i])
    requires loads("{" + body + "}") == Some(ToJson(record))
    ensures Respond(CallReturned(Some(prefix + "{" + body + "}" + suffix), counts), loads)
      == Reply(Some(record), Some(counts), Parsed)
  {
    var text := prefix + "{" + body + "}" + suffix;
    ExtractBracedAfterProse(prefix, body, suffix);
    RoundTrip(record);
    ParsedWhenValid(text, counts, loads, ToJson(record), record);
  }

  // ---------------------------------------------------------------------
  // The service

  /** The `Runner` the service creates: the root agent and the app name. */
  datatype RunnerConfig = RunnerConfig(agent: RootAgent, appName: string)

  /** What the service talks to: creating a session (Some(message) when it
      raises), running the agent on a runner, and `json.loads`. */
  datatype Backend = Backend(
    createSession: (string, string) -> Option<string>,
    execute: (RunnerConfig, string, string, Content) -> EventStream,
    loads: Loads)

  /** `get_agent_response` for a service in the given state: Failure(message)
      when it raises, otherwise the reply. */
  function AgentResponse(runner: Option<RunnerConfig>, userId: string, query: string, sessionId: string, backend: Backend)
    : (r: Result<Reply, string>)
    ensures runner.None? ==> r == Failure(NotInitializedMessage)
    ensures r.Success? ==> r.value.tokenCounts.Some?
  {
    if runner.None? then Failure(NotInitializedMessage)
    else
      match backend.createSession(userId, sessionId)
      case Some(message) => Failure(message)
      case None =>
        var es := backend.execute(runner.value, userId, sessionId, UserContent(query, None, None)).events;
        Success(Respond(CallReturned(LastFinalText(es), Accumulate(es)), backend.loads))
  }

  /** When the last final text of the run is a record behind some prose,
      the caller gets that record and the counts summed over the run. */
  lemma AgentAnswerRecovered(
    runner: RunnerConfig, userId: string, query: string, sessionId: string, backend: Backend,
    prefix: string, body: string, suffix: string, record: AlumniRecord)
    requires backend.createSession(userId, sessionId).None?
    requires var es := backend.execute(runner, userId, sessionId, UserContent(query, None, None)).events;
      LastFinalText(es) == Some(prefix + "{" + body + "}" + suffix)
    requires '{' !in prefix && '}' !in suffix
    requires exists i :: 0 <= i < |prefix| && !IsSpace(prefix[i])
    requires backend.loads("{" + body + "}") == Some(ToJson(record))
    ensures var es := backend.execute(runner, userId, sessionId, UserContent(query, None, None)).events;
      AgentResponse(Some(runner), userId, query, sessionId, backend)
        == Success(Reply(Some(record), Some(Accumulate(es)), Parsed))
  {
    var es := backend.execute(runner, userId, sessionId, UserContent(query, None, None)).events;
    RecordAfterProseRecovered(prefix, body, suffix, Accumulate(es), backend.loads, record);
  }

  class ADKService {
    const userId: string
    const agentMode: string
    /** Set by `Initialize`, reused for every query. */
    var runner: Option<RunnerConfig>

    constructor(userId: string, agentMode: string)
      ensures this.userId == userId && this.agentMode == agentMode
      ensures runner == None
    {
      this.userId := userId;
      this.agentMode := agentMode;
      runner := None;
    }

    /** `initialize`: creates the runner for the configured mode; when the
        factory raises, the error is returned and nothing changes. */
    method Initialize() returns (raised: Option<FactoryError>)
      modifies this
      ensures GetRootAgent(agentMode).Success? ==>
        raised == None && runner == Some(RunnerConfig(GetRootAgent(agentMode).value, AppName))
      ensures GetRootAgent(agentMode).Failure? ==>
        raised == Some(GetRootAgent(agentMode).error) && runner == old(runner)
    {
      var rootAgent := GetRootAgent(agentMode);
      if rootAgent.Failure? {
        return Some(rootAgent.error);
      }
      runner := Some(RunnerConfig(rootAgent.value, AppName));
      raised := None;
    }

    /** `get_agent_response(query)` with a fresh session id. */
    method GetAgentResponse(query: string, sessionId: string, backend: Backend) returns (r: Result<Reply, string>)
      ensures r == AgentResponse(runner, userId, query, sessionId, backend)
    {
      if runner.None? {
        return Failure(NotInitializedMessage);
      }
      var sessionError := backend.createSession(userId, sessionId);
      if sessionError.Some? {
        return Failure(sessionError.value);
      }
      var cfg := runner.value;
      var run := (u: string, s: string, c: Content) => backend.execute(cfg, u, s, c);
      var responseText, tokenCounts := CallRootAgent(run, userId, sessionId, query, None, None);
      r := Success(Respond(CallReturned(responseText, tokenCounts), backend.loads));
    }
  }
}
