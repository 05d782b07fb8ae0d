/** The client-side decisions of `project/src/services/api.js`: the response
    interceptor's classification of a failed request, the health and status
    reports built from the backend's answers, the context sent to `/chat`,
    and the `retryRequest` loop. The HTTP calls themselves are parameters:
    a body when the request succeeded, nothing when it failed. */
module Api {
  import opened Options

  /** A JavaScript value used as a string field: absent, or a string.
      It is falsy when absent or empty. */
  predicate Falsy(o: Option<string>) {
    o.None? || o.value == ""
  }

  // ---------------------------------------------------------------------
  // The response interceptor

  /** `error.response.data`: `null` or `undefined` (reading a field of it
      throws), or an object whose `error` and `details` fields may be
      absent. A `Blob` body, as `/speak` returns, has neither field. */
  datatype Body = Missing | Fields(error: Option<string>, details: Option<string>)

  datatype Response = Response(status: int, data: Body)

  /** What the interceptor sees of an axios error. */
  datatype AxiosError = AxiosError(code: Option<string>, response: Option<Response>)

  /** How the interceptor ends: it throws a new `Error` with a message, it
      rethrows the error it was given, or reading the body of a 500 throws
      a `TypeError`. */
  datatype Raised = Thrown(message: string) | Rethrown | ReadOfMissingBody

  const NotRunning := "Backend server is not running. Starting backend..."
  const TimedOut := "Request timeout. The server took too long to respond."
  const GeminiKey := "Gemini API key not configured"
  const ElevenLabsKey := "ElevenLabs API key not configured"
  const NoKey := "Demo mode: API key validation needed"
  const QuotaExceeded := "API quota exceeded. Using demo mode."
  const NoEndpoint := "API endpoint not found. Please check backend."

  predicate HasStatus(e: AxiosError, status: int) {
    e.response.Some? && e.response.value.status == status
  }

  /** `errorData.details || errorData.error || 'Unknown server error'` */
  function ServerDetail(details: Option<string>, error: Option<string>): (d: string)
    ensures !Falsy(details) ==> d == details.value
    ensures Falsy(details) && !Falsy(error) ==> d == error.value
    ensures d != ""
  {
    if !Falsy(details) then details.value
    else if !Falsy(error) then error.value
    else "Unknown server error"
  }

  /** The message a 500 response turns into. */
  function ServerFault(data: Body): Raised {
    match data
    case Missing => ReadOfMissingBody
    case Fields(error, details) =>
      if error == Some(GeminiKey) then Thrown("Demo mode: " + GeminiKey)
      else if error == Some(ElevenLabsKey) then Thrown("Demo mode: " + ElevenLabsKey)
      else Thrown("Server error: " + ServerDetail(details, error))
  }

  /** The interceptor's `if` chain, in the source's order. */
  function Classify(e: AxiosError): Raised {
    if e.code == Some("ECONNREFUSED") || e.code == Some("ERR_NETWORK") then Thrown(NotRunning)
    else if e.code == Some("ECONNABORTED") then Thrown(TimedOut)
    else if HasStatus(e, 500) then ServerFault(e.response.value.data)
    else if HasStatus(e, 401) then Thrown(NoKey)
    else if HasStatus(e, 429) then Thrown(QuotaExceeded)
    else if HasStatus(e, 404) then Thrown(NoEndpoint)
    else Rethrown
  }

  /** The same chain as a table of rules, each with the condition it tests
      and what it throws. */
  datatype Rule = Network | Timeout | Server | Unauthorized | Quota | NotFound

  const Rules: seq<Rule> := [Network, Timeout, Server, Unauthorized, Quota, NotFound]

  predicate Applies(rule: Rule, e: AxiosError) {
    match rule
    case Network => e.code == Some("ECONNREFUSED") || e.code == Some("ERR_NETWORK")
    case Timeout => e.code == Some("ECONNABORTED")
    case Server => HasStatus(e, 500)
    case Unauthorized => HasStatus(e, 401)
    case Quota => HasStatus(e, 429)
    case NotFound => HasStatus(e, 404)
  }

  function Outcome(rule: Rule, e: AxiosError): Raised
    requires Applies(rule, e)
  {
    match rule
    case Network => Thrown(NotRunning)
    case Timeout => Thrown(TimedOut)
    case Server => ServerFault(e.response.value.data)
    case Unauthorized => Thrown(NoKey)
    case Quota => Thrown(QuotaExceeded)
    case NotFound => Thrown(NoEndpoint)
  }

  /** The position of the first rule of `rules` that applies to `e`, or
      `|rules|` when none does. */
  function FirstApplying(rules: seq<Rule>, e: AxiosError): (k: nat)
    ensures k <= |rules|
    ensures k < |rules| ==> Applies(rules[k], e)
    ensures forall j :: 0 <= j < k ==> !Applies(rules[j], e)
  {
    if rules == [] then 0
    else if Applies(rules[0], e) then 0
    else 1 + FirstApplying(rules[1..], e)
  }

  /** The reference reading: the first rule that applies decides, and an
      error no rule applies to is rethrown unchanged. */
  function ByRules(e: AxiosError): Raised {
    var k := FirstApplying(Rules, e);
    if k < |Rules| then Outcome(Rules[k], e) else Rethrown
  }

  /** The chain is the rule table read in order: exactly one branch
      decides, the first whose condition holds. */
  lemma ClassifyFollowsRules(e: AxiosError)
    ensures Classify(e) == ByRules(e)
  {
    var k := FirstApplying(Rules, e);
    if k < |Rules| {
      assert forall j :: 0 <= j < k ==> !Applies(Rules[j], e);
      assert Applies(Rules[k], e);
      if k == 0 {
      } else if k == 1 {
        assert !Applies(Rules[0], e);
      } else if k == 2 {
        assert !Applies(Rules[0], e) && !Applies(Rules[1], e);
      } else if k == 3 {
        assert !Applies(Rules[0], e) && !Applies(Rules[1], e) && !Applies(Rules[2], e);
      } else if k == 4 {
        assert !Applies(Rules[0], e) && !Applies(Rules[1], e) && !Applies(Rules[2], e) && !Applies(Rules[3], e);
      } else {
        assert !Applies(Rules[0], e) && !Applies(Rules[1], e) && !Applies(Rules[2], e) && !Applies(Rules[3], e);
        assert !Applies(Rules[4], e);
      }
    } else {
      assert forall j :: 0 <= j < |Rules| ==> !Applies(Rules[j], e);
      assert !Applies(Rules[0], e) && !Applies(Rules[1], e) && !Applies(Rules[2], e);
      assert !Applies(Rules[3], e) && !Applies(Rules[4], e) && !Applies(Rules[5], e);
    }
  }

  /** An error is rethrown unchanged exactly when it has none of the three
      codes and none of the four statuses. */
  lemma RethrownIff(e: AxiosError)
    ensures Classify(e) == Rethrown <==>
      (forall rule :: rule in Rules ==> !Applies(rule, e))
  {
    ClassifyFollowsRules(e);
    var k := FirstApplying(Rules, e);
    if k < |Rules| {
      assert Rules[k] in Rules;
      OutcomeNotRethrown(Rules[k], e);
    } else {
      forall rule | rule in Rules
        ensures !Applies(rule, e)
      {
        var j :| 0 <= j < |Rules| && Rules[j] == rule;
      }
    }
  }

  lemma OutcomeNotRethrown(rule: Rule, e: AxiosError)
    requires Applies(rule, e)
    ensures Outcome(rule, e) != Rethrown
  {
  }

  /** A network code wins over any status: a refused connection that also
      carries a 500 response reports the backend as not running. */
  lemma CodeBeforeStatus(e: AxiosError)
    requires e.code == Some("ERR_NETWORK") && HasStatus(e, 500)
    ensures Classify(e) == Thrown(NotRunning)
  {
  }

  /** A 500 whose body is a `Blob` carries no `error` field, so it reports
      an unknown server error; one without a body throws a `TypeError`. */
  lemma ServerFaultBodies()
    ensures Classify(AxiosError(None, Some(Response(500, Fields(None, None))))) ==
      Thrown("Server error: Unknown server error")
    ensures Classify(AxiosError(None, Some(Response(500, Missing)))) == ReadOfMissingBody
  {
  }

  // ---------------------------------------------------------------------
  // Health and status

  /** What a GET to the backend came back with: no answer (axios rejected),
      or the JSON body, which is `null` when the backend answered `null`. */
  datatype Reply<T> = Failed | Answered(data: Option<T>)

  /** The body `/health` answers with; `services` and `uptime` may be absent
      (an `uptime` of 0 reads the same as an absent one). */
  datatype HealthBody = HealthBody(status: Option<string>, services: Option<map<string, bool>>, uptime: Option<int>)

  /** The body `getHealth` resolves with when the request failed. */
  const DemoHealth := HealthBody(Some("demo"), Some(map["gemini" := false, "elevenlabs" := false]), None)

  /** `apiService.getHealth()`: the body as the backend sent it (`None` for
      `null`), or the demo body when the request failed. It never rejects. */
  function GetHealth(reply: Reply<HealthBody>): (h: Option<HealthBody>)
    ensures reply.Answered? ==> h == reply.data
    ensures reply.Failed? ==> h.Some? && h.value.status == Some("demo") && h.value.uptime.None?
    ensures reply.Failed? ==> h.value.services == Some(map["gemini" := false, "elevenlabs" := false])
  {
    match reply
    case Answered(data) => data
    case Failed => Some(DemoHealth)
  }

  datatype HealthReport = HealthReport(healthy: bool, degraded: bool, services: map<string, bool>, uptime: int, message: string)

  const AllWorking := "All services working"
  const SomeIssues := "Some services have issues"
  const DemoActive := "Demo mode active"
  const NotWorking := "Services not working"
  const LimitedDemo := "Demo mode - limited functionality"

  /** `connectionUtils.checkHealth()` on what `getHealth` resolved with.
      Reading `status` of a `null` body throws a `TypeError`, and the
      `catch` branch answers with the limited demo report. */
  function CheckHealth(h: Option<HealthBody>): (r: HealthReport)
    ensures h.None? ==> r == HealthReport(false, true, map[], 0, LimitedDemo)
    ensures h.Some? ==> (r.healthy <==> h.value.status == Some("healthy"))
    ensures h.Some? ==> (r.degraded <==> h.value.status == Some("degraded") || h.value.status == Some("demo"))
    ensures h.Some? && h.value.services.None? ==> r.services == map[]
    ensures h.Some? && h.value.services.Some? ==> r.services == h.value.services.value
    ensures h.Some? && h.value.uptime.None? ==> r.uptime == 0
    ensures h.Some? && h.value.uptime.Some? ==> r.uptime == h.value.uptime.value
  {
    match h
    case None => HealthReport(false, true, map[], 0, LimitedDemo)
    case Some(body) =>
      HealthReport(
        body.status == Some("healthy"),
        body.status == Some("degraded") || body.status == Some("demo"),
        if body.services.Some? then body.services.value else map[],
        if body.uptime.Some? then body.uptime.value else 0,
        if body.status == Some("healthy") then AllWorking
        else if body.status == Some("degraded") then SomeIssues
        else if body.status == Some("demo") then DemoActive
        else NotWorking)
  }

  /** The flags never both hold, and the message agrees with them: it says
      all is working exactly when healthy, one of the three degraded
      messages exactly when degraded, and that nothing works otherwise. */
  lemma HealthMessageAgrees(h: Option<HealthBody>)
    ensures !(CheckHealth(h).healthy && CheckHealth(h).degraded)
    ensures CheckHealth(h).message == AllWorking <==> CheckHealth(h).healthy
    ensures CheckHealth(h).message in {SomeIssues, DemoActive, LimitedDemo} <==> CheckHealth(h).degraded
    ensures CheckHealth(h).message == NotWorking <==> !CheckHealth(h).healthy && !CheckHealth(h).degraded
    ensures CheckHealth(h).message == DemoActive <==> h.Some? && h.value.status == Some("demo")
    ensures CheckHealth(h).message == LimitedDemo <==> h.None?
  {
  }

  /** An unreachable backend is reported as degraded with the demo message
      and both services down; a backend answering `null` gets the `catch`
      branch's report. */
  lemma UnreachableHealth()
    ensures CheckHealth(GetHealth(Failed)) ==
      HealthReport(false, true, map["gemini" := false, "elevenlabs" := false], 0, DemoActive)
    ensures CheckHealth(GetHealth(Answered(None))) == HealthReport(false, true, map[], 0, LimitedDemo)
  {
  }

  /** The body `/status` answers with. */
  datatype StatusBody = StatusBody(status: Option<string>, message: Option<string>, timestamp: Option<string>)

  /** `apiService.getStatus()`: the body as the backend sent it (`None` for
      `null`), or the demo body stamped with `now`, the ISO time, when the
      request failed. It never rejects. */
  function GetStatus(reply: Reply<StatusBody>, now: string): (b: Option<StatusBody>)
    ensures reply.Failed? ==> b == Some(StatusBody(Some("demo"), Some("Running in demo mode"), Some(now)))
    ensures reply.Answered? ==> b == reply.data
  {
    match reply
    case Answered(data) => data
    case Failed => Some(StatusBody(Some("demo"), Some("Running in demo mode"), Some(now)))
  }

  /** `details` is `null` in the `catch` branch. */
  datatype StatusReport = StatusReport(connected: bool, message: string, details: Option<StatusBody>)

  const NotConnected := "Demo mode - backend not connected"

  /** `connectionUtils.checkBackendStatus()` on what `getStatus` resolved
      with. Reading `status` of a `null` body throws a `TypeError`, and the
      `catch` branch reports the backend as not connected. */
  function CheckBackendStatus(b: Option<StatusBody>): (r: StatusReport)
    ensures b.None? ==> r == StatusReport(false, NotConnected, None)
    ensures b.Some? ==> (r.connected <==> b.value.status != Some("demo"))
    ensures b.Some? ==> r.details == b
  {
    match b
    case None => StatusReport(false, NotConnected, None)
    case Some(body) =>
      StatusReport(body.status != Some("demo"),
        if body.status == Some("demo") then "Running in demo mode" else "Backend is running",
        b)
  }

  /** Each of the three messages goes with one connection state: the demo
      message and the `catch` message exactly when not connected; an
      unreachable backend and a `null` body are not connected. */
  lemma StatusMessageAgrees(b: Option<StatusBody>, reply: Reply<StatusBody>, now: string)
    ensures CheckBackendStatus(b).message in {"Running in demo mode", NotConnected} <==> !CheckBackendStatus(b).connected
    ensures CheckBackendStatus(b).message == "Backend is running" <==> CheckBackendStatus(b).connected
    ensures CheckBackendStatus(b).message == NotConnected <==> b.None?
    ensures !CheckBackendStatus(GetStatus(Failed, now)).connected
    ensures !CheckBackendStatus(GetStatus(Answered(None), now)).connected
    ensures reply.Answered? && reply.data.Some? ==>
      CheckBackendStatus(GetStatus(reply, now)).connected == (reply.data.value.status != Some("demo"))
  {
  }

  // ---------------------------------------------------------------------
  // `/chat`

  const AnswerPrefix := "The correct answer is: "

  /** The `context` field `apiService.chat` posts: the prefixed answer, or
      `''` when the context is empty. */
  function ChatContext(context: string): (c: string)
    ensures c == "" <==> context == ""
    ensures context != "" ==> |c| == |AnswerPrefix| + |context| && c[..|AnswerPrefix|] == AnswerPrefix && c[|AnswerPrefix|..] == context
  {
    if context == "" then "" else AnswerPrefix + context
  }

  /** The answer can be read back from a non-empty context. */
  lemma ChatContextRoundTrip(context: string)
    ensures ChatContext(context) == "" || ChatContext(context)[|AnswerPrefix|..] == context
    ensures forall other: string :: ChatContext(other) == ChatContext(context) ==> other == context
  {
    forall other: string | ChatContext(other) == ChatContext(context)
      ensures other == context
    {
      if context != "" {
        assert other != "";
        assert other == ChatContext(other)[|AnswerPrefix|..];
      }
    }
  }

  // ---------------------------------------------------------------------
  // `connectionUtils.retryRequest`

  /** How one call of `requestFn` settles. */
  datatype Attempt<T, E> = Resolved(value: T) | Rejected(error: E)

  /** How `retryRequest` settles: with a value, by rethrowing an error, or
      with `undefined` when the loop never ran. */
  datatype Retried<T, E> = Returned(value: T) | Threw(error: E) | Undefined

  /** `retryRequest(requestFn, maxRetries, delay)`. Call `i` of `requestFn`
      settles as `attempts[i]`. Returns how it settled, how many calls were
      made and the delays waited, in order. */
  method RetryRequest<T, E>(attempts: seq<Attempt<T, E>>, maxRetries: int, delay: int)
      returns (r: Retried<T, E>, calls: nat, waits: seq<int>)
    requires maxRetries <= |attempts|
    ensures r.Undefined? <==> maxRetries <= 0
    ensures r.Undefined? ==> calls == 0 && waits == []
    ensures !r.Undefined? ==> 1 <= calls <= maxRetries && |waits| == calls - 1
    ensures forall i :: 0 <= i < calls - 1 ==> attempts[i].Rejected?
    ensures r.Returned? ==> attempts[calls - 1] == Resolved(r.value)
    ensures r.Threw? ==> calls == maxRetries && attempts[calls - 1] == Rejected(r.error)
    ensures forall i :: 0 <= i < |waits| ==> waits[i] == delay * (i + 1)
  {
    calls, waits := 0, [];
    var i := 0;
    while i < maxRetries
      invariant 0 <= i && (maxRetries > 0 ==> i < maxRetries) && (maxRetries <= 0 ==> i == 0)
      invariant calls == i && |waits| == i
      invariant forall j :: 0 <= j < i ==> attempts[j].Rejected?
      invariant forall j :: 0 <= j < |waits| ==> waits[j] == delay * (j + 1)
    {
      calls := calls + 1;
      match attempts[i]
      case Resolved(value) =>
        return Returned(value), calls, waits;
      case Rejected(error) =>
        if i == maxRetries - 1 {
          return Threw(error), calls, waits;
        }
        waits := waits + [delay * (i + 1)];
      i := i + 1;
    }
    r := Undefined;
  }

  /** `retryRequest`'s result as a function of the outcomes: the first
      resolved call among the allowed ones, else the last allowed error. */
  function FirstResolved<T, E>(attempts: seq<Attempt<T, E>>, n: nat): (k: nat)
    requires n <= |attempts|
    ensures k <= n
    ensures k < n ==> attempts[k].Resolved?
    ensures forall j :: 0 <= j < k ==> attempts[j].Rejected?
  {
    if n == 0 then 0
    else
      var k := FirstResolved(attempts, n - 1);
      if k < n - 1 then k else if attempts[n - 1].Resolved? then n - 1 else n
  }

  /** The method returns a value exactly when some allowed call resolves,
      and then it is the first such call's value; otherwise, when the loop
      ran at all, it rethrows the last allowed call's error. */
  method RetryAgreesWithFirst<T, E>(attempts: seq<Attempt<T, E>>, maxRetries: int, delay: int)
      returns (r: Retried<T, E>)
    requires 0 < maxRetries <= |attempts|
    ensures var k := FirstResolved(attempts, maxRetries);
      if k < maxRetries then r == Returned(attempts[k].value)
      else r == Threw(attempts[maxRetries - 1].error)
  {
    var calls, waits;
    r, calls, waits := RetryRequest(attempts, maxRetries, delay);
    var k := FirstResolved(attempts, maxRetries);
    if r.Returned? {
      assert k == calls - 1;
    } else {
      assert r.Threw?;
      assert forall j :: 0 <= j < maxRetries ==> attempts[j].Rejected?;
    }
  }
}
