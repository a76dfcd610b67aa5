/** The HTTP client that hands a job to the MoDS agent and waits for its outputs
    (`Agent_Bridge`). The agent is a parameter: `Server` gives the reply to the k-th request
    the bridge sends, from the request's URL. Waiting is recorded, not performed: the bridge
    counts the seconds it would have slept. */
module Bridge {
  import opened Wrappers
  import opened Seqs
  import opened Json
  import opened Url

  /** The bridge's settings (`MoDSWrapperSettings`). */
  datatype Settings = Settings(
    baseUrl: string,
    pollInterval: nat,
    maxAttempts: int,
    submissionPart: string,
    outputPart: string)

  /** The values the settings take when the environment sets none. */
  const Defaults: Settings :=
    Settings("http://localhost:5000/", 10, 60, "/request?query=", "/output/request?query=")

  /** An HTTP reply: its status code and its body, already parsed as JSON. */
  datatype Response = Response(status: int, body: Json)

  type Server = (nat, string) -> Response

  /** The decimal digits of a natural number. */
  function Digits(n: nat): (r: string)
    ensures |r| >= 1 && forall i :: 0 <= i < |r| ==> '0' <= r[i] <= '9'
  {
    var d := ('0' as int + n % 10) as char;
    if n < 10 then [d] else Digits(n / 10) + [d]
  }

  /** `str(j)` for a job id: a string is itself, None, booleans and integers are spelled out. */
  function IdText(j: Json): string
  {
    match j
    case Str(s) => s
    case Null => NoneText
    case Bool(b) => if b then "True" else "False"
    case Int(i) => if i < 0 then "-" + Digits(-i) else Digits(i)
    case _ => ""
  }

  /** The JSON text that asks for the outputs of a job. */
  function OutputQuery(jobId: Json): string
  {
    "{\"jobID\":\"" + IdText(jobId) + "\"}"
  }

  /** `buildSubmissionURL`. */
  function SubmissionUrl(s: Settings, json: string): string
  {
    s.baseUrl + s.submissionPart + Quote(json)
  }

  /** `buildOutputURL`. */
  function OutputUrl(s: Settings, jobId: Json): string
  {
    s.baseUrl + s.outputPart + Quote(OutputQuery(jobId))
  }

  /** A submission URL is the base and the submission part followed by a query the agent can
      decode back into the JSON text that was submitted. */
  lemma SubmissionUrlCarries(s: Settings, json: string)
    ensures IsPrefix(s.baseUrl + s.submissionPart, SubmissionUrl(s, json))
    ensures Unquote(SubmissionUrl(s, json)[|s.baseUrl + s.submissionPart|..]) == Some(json)
  {
    var head := s.baseUrl + s.submissionPart;
    assert SubmissionUrl(s, json)[..|head|] == head;
    assert SubmissionUrl(s, json)[|head|..] == Quote(json);
    QuoteRoundTrip(json);
  }

  /** An output URL carries the job id in a query the agent decodes back into the JSON text
      naming that job. */
  lemma OutputUrlCarries(s: Settings, jobId: Json)
    ensures IsPrefix(s.baseUrl + s.outputPart, OutputUrl(s, jobId))
    ensures Unquote(OutputUrl(s, jobId)[|s.baseUrl + s.outputPart|..]) == Some(OutputQuery(jobId))
  {
    var head := s.baseUrl + s.outputPart;
    assert OutputUrl(s, jobId)[..|head|] == head;
    assert OutputUrl(s, jobId)[|head|..] == Quote(OutputQuery(jobId));
    QuoteRoundTrip(OutputQuery(jobId));
  }

  /** `is_final_result`: the agent answered the submission with the results themselves. */
  function IsFinalResult(m: Json): Result<bool, PyError>
  {
    var hasJob :- Contains(m, "jobID");
    if !hasJob then Ok(false)
    else
      var hasType :- Contains(m, "SimulationType");
      if !hasType then Ok(false)
      else match Len(m)
        case None => Err(TypeError)
        case Some(n) => Ok(n > 2)
  }

  /** A submission reply that is a JSON object is final exactly when it holds `jobID`,
      `SimulationType` and at least one more key. */
  lemma IsFinalResultMeaning(m: Json)
    requires m.Obj?
    ensures IsFinalResult(m).Ok?
    ensures IsFinalResult(m).value <==>
              "jobID" in Keys(m.fields) && "SimulationType" in Keys(m.fields) &&
              exists k :: k in Keys(m.fields) && k != "jobID" && k != "SimulationType"
  {
    var ks := Keys(m.fields);
    FirstSeenSpec(ks);
    if "jobID" in ks && "SimulationType" in ks {
      var d := DictKeys(m.fields);
      assert "jobID" in d && "SimulationType" in d;
      if |d| > 2 {
        var i :| 0 <= i < |d| && d[i] != "jobID" && d[i] != "SimulationType" by {
          ThirdKey(d);
        }
        assert d[i] in ks;
      }
      if exists k :: k in ks && k != "jobID" && k != "SimulationType" {
        var k :| k in ks && k != "jobID" && k != "SimulationType";
        assert k in d;
        TwoKeys(d, k);
      }
    }
  }

  /** Three distinct keys are more than two. */
  lemma TwoKeys(d: seq<string>, k: string)
    requires Distinct(d) && "jobID" in d && "SimulationType" in d && k in d
    requires k != "jobID" && k != "SimulationType"
    ensures |d| > 2
  {
    var a :| 0 <= a < |d| && d[a] == "jobID";
    var b :| 0 <= b < |d| && d[b] == "SimulationType";
    var c :| 0 <= c < |d| && d[c] == k;
    assert a != b && b != c && a != c;
  }

  /** Among more than two distinct keys one is neither of the two named ones. */
  lemma ThirdKey(d: seq<string>)
    requires Distinct(d) && |d| > 2
    ensures exists i :: 0 <= i < |d| && d[i] != "jobID" && d[i] != "SimulationType"
  {
    if d[0] == "jobID" || d[0] == "SimulationType" {
      if d[1] == "jobID" || d[1] == "SimulationType" {
        assert d[2] != d[0] && d[2] != d[1];
      }
    }
  }

  /** What waiting for the outputs comes to: the reply body (None on failure), how many
      requests were sent and how many times the bridge slept. */
  datatype Polled = Polled(result: Option<Json>, requests: nat, naps: nat)

  /** `__getJobResults(url, attempt)`, the k-th request of the session being the first it sends:
      a 204 reply means the job is still running, so the bridge sleeps and asks again, up to
      attempt `max - 1`; a 200 reply carries the outputs; anything else is a failure. */
  function Poll(server: Server, k: nat, url: string, attempt: int, max: int): Polled
    decreases max - attempt
  {
    if attempt >= max then Polled(None, 0, 0)
    else
      var reply := server(k, url);
      if reply.status == 204 then
        var p := Poll(server, k + 1, url, attempt + 1, max);
        Polled(p.result, p.requests + 1, p.naps + 1)
      else if reply.status != 200 then Polled(None, 1, 0)
      else Polled(Some(reply.body), 1, 0)
  }

  /** After n replies of 204, polling from `attempt` as the k-th request is what is left of
      polling from `attempt + n` as the (k + n)-th, plus those n requests and naps. */
  predicate Resumes(server: Server, k: nat, url: string, attempt: int, max: int, n: nat)
  {
    var rest := Poll(server, k + n, url, attempt + n, max);
    Poll(server, k, url, attempt, max) == Polled(rest.result, rest.requests + n, rest.naps + n)
  }

  /** One more 204 reply. */
  lemma ResumesNext(server: Server, k: nat, url: string, attempt: int, max: int, n: nat)
    ensures Resumes(server, k, url, attempt, max, n) && attempt + n < max && server(k + n, url).status == 204 ==>
              Resumes(server, k, url, attempt, max, n + 1)
  {
  }

  /** A reply other than 204 ends polling with its outcome. */
  lemma ResumesLast(server: Server, k: nat, url: string, attempt: int, max: int, n: nat)
    ensures var reply := server(k + n, url);
      Resumes(server, k, url, attempt, max, n) && attempt + n < max && reply.status != 204 ==>
        Poll(server, k, url, attempt, max) ==
          Polled(if reply.status == 200 then Some(reply.body) else None, n + 1, n)
  {
  }

  /** How many requests polling from `attempt` may send. */
  function Budget(attempt: int, max: int): nat
  {
    if attempt < max then max - attempt else 0
  }

  /** Polling sends at most the budgeted requests; every reply but the last was a 204; it
      stops early only on a reply other than 204; it succeeds exactly when the last reply was a
      200, with that reply's body; and it slept once per 204 reply. */
  lemma {:induction false} PollMeaning(server: Server, k: nat, url: string, attempt: int, max: int)
    ensures var p := Poll(server, k, url, attempt, max);
      && p.requests <= Budget(attempt, max)
      && (forall j :: k <= j < k + p.requests - 1 ==> server(j, url).status == 204)
      && (p.requests < Budget(attempt, max) ==> p.requests > 0 && server(k + p.requests - 1, url).status != 204)
      && (p.result.Some? <==> p.requests > 0 && server(k + p.requests - 1, url).status == 200)
      && (p.result.Some? ==> p.result.value == server(k + p.requests - 1, url).body)
      && p.naps == (if p.requests > 0 && server(k + p.requests - 1, url).status != 204
                    then p.requests - 1 else p.requests)
    decreases max - attempt
  {
    if attempt < max && server(k, url).status == 204 {
      PollMeaning(server, k + 1, url, attempt + 1, max);
      var q := Poll(server, k + 1, url, attempt + 1, max);
      if q.requests > 0 {
        assert k + (q.requests + 1) - 1 == (k + 1) + q.requests - 1;
      }
    }
  }

  /** `requestOutputs` once the reply is in: no reply, or a reply whose body is the JSON `null`
      (which `json.loads` turns into None), and a reply whose `message` mentions an error all
      count as no outputs. */
  function Checked(result: Option<Json>): Result<Option<Json>, PyError>
  {
    match result
    case None => Ok(None)
    case Some(Null) => Ok(None)
    case Some(res) =>
      var hasMessage :- Contains(res, "message");
      if !hasMessage then Ok(Some(res))
      else
        var message :- Key(res, "message");
        match message
        case Str(m) => if Occurs("error", m) then Ok(None) else Ok(Some(res))
        case _ => Err(AttributeError)
  }

  /** For a reply that is a JSON object: it is dropped exactly when its `message` is a string
      containing "error", passed on when it has no `message` or one without "error", and a
      `message` that is not a string raises. */
  lemma CheckedMeaning(res: Json)
    requires res.Obj?
    ensures Checked(Some(res)) == Ok(None) <==>
              Lookup(res.fields, "message").Some? && Lookup(res.fields, "message").value.Str? &&
              Occurs("error", Lookup(res.fields, "message").value.s)
    ensures Checked(Some(res)) == Ok(Some(res)) <==>
              Lookup(res.fields, "message").None? ||
              (Lookup(res.fields, "message").value.Str? && !Occurs("error", Lookup(res.fields, "message").value.s))
    ensures Checked(Some(res)).Err? <==>
              Lookup(res.fields, "message").Some? && !Lookup(res.fields, "message").value.Str?
  {
    LookupSome(res.fields, "message");
  }

  /** Whatever the reply: no reply and a `null` body give no outputs, outputs passed on are the
      reply itself and never `null`, and a reply that is neither an object nor `null` is refused by
      the `in` test or the subscript that follows it. */
  lemma CheckedPassesOn(result: Option<Json>)
    ensures result.None? || result == Some(Null) ==> Checked(result) == Ok(None)
    ensures Checked(result).Ok? && Checked(result).value.Some? ==>
              result.Some? && Checked(result).value.value == result.value && result.value != Null
    ensures result.Some? && result.value != Null && !result.value.Obj? ==>
              (Checked(result).Err? <==> Contains(result.value, "message") != Ok(false))
  {
  }

  /** Checking a reply never raises a KeyError: `message` is read only once it is known to be
      there. */
  lemma CheckedNoKeyError(result: Option<Json>)
    ensures Checked(result) != Err(LookupError)
  {
    if result.Some? && result.value.Obj? {
      LookupSome(result.value.fields, "message");
    }
  }

  /** One call of `runJob`: what it returns (or raises), the URLs it requested in order, how
      many times it slept, and the job id the bridge holds afterwards. */
  datatype Run = Run(result: Result<Option<Json>, PyError>, urls: seq<string>, naps: nat, jobId: Json)

  /** `runJob(json)` on a bridge holding `jobId` whose first request is the session's k-th. */
  function RunOf(s: Settings, server: Server, k: nat, jobId: Json, json: string): Run
  {
    var submitUrl := SubmissionUrl(s, json);
    var reply := server(k, submitUrl);
    if reply.status != 200 then Run(Ok(None), [submitUrl], 0, jobId)
    else match Key(reply.body, "jobID")
      case Err(e) => Run(Err(e), [submitUrl], 0, jobId)
      case Ok(id) =>
        match IsFinalResult(reply.body)
        case Err(e) => Run(Err(e), [submitUrl], 0, id)
        case Ok(final) =>
          if final then Run(Ok(Some(reply.body)), [submitUrl], 0, id)
          else
            var url := OutputUrl(s, id);
            var p := Poll(server, k + 1, url, 1, s.maxAttempts);
            Run(Checked(p.result), [submitUrl] + Repeat(url, p.requests), 1 + p.naps, id)
  }

  function Repeat(url: string, n: nat): (r: seq<string>)
    ensures |r| == n && forall i :: 0 <= i < n ==> r[i] == url
  {
    if n == 0 then [] else Repeat(url, n - 1) + [url]
  }

  /** One more request for url after n of them. */
  lemma RepeatStep(before: seq<string>, url: string, n: nat)
    ensures before + Repeat(url, n) + [url] == before + Repeat(url, n + 1)
  {
    assert Repeat(url, n + 1) == Repeat(url, n) + [url];
  }

  /** One more nap of `interval` after n of them. */
  lemma ScaleStep(interval: int, n: nat)
    ensures interval * (n + 1) == interval * n + interval
  {
  }

  /** A job run sends at most `max_attemps` requests (one submission and at most
      `max_attemps - 1` polls), all after the first to the output URL of the job id the
      submission reply named, which the bridge keeps; a submission the agent refuses changes
      nothing and returns None; a final submission reply is returned as it is, without
      polling. */
  lemma RunMeaning(s: Settings, server: Server, k: nat, jobId: Json, json: string)
    ensures var run := RunOf(s, server, k, jobId, json);
      var reply := server(k, SubmissionUrl(s, json));
      && 1 <= |run.urls| <= (if s.maxAttempts > 1 then s.maxAttempts else 1)
      && run.urls[0] == SubmissionUrl(s, json)
      && (reply.status != 200 ==> run == Run(Ok(None), [SubmissionUrl(s, json)], 0, jobId))
      && (reply.status == 200 && Key(reply.body, "jobID").Ok? ==>
            run.jobId == Key(reply.body, "jobID").value &&
            forall i :: 1 <= i < |run.urls| ==> run.urls[i] == OutputUrl(s, run.jobId))
      && (reply.status == 200 && Key(reply.body, "jobID").Err? ==>
            run.result == Err(Key(reply.body, "jobID").error) && run.jobId == jobId)
      && (reply.status == 200 && Key(reply.body, "jobID").Ok? && IsFinalResult(reply.body) == Ok(true) ==>
            run == Run(Ok(Some(reply.body)), [SubmissionUrl(s, json)], 0, Key(reply.body, "jobID").value))
  {
    var reply := server(k, SubmissionUrl(s, json));
    if reply.status == 200 && Key(reply.body, "jobID").Ok? {
      var id := Key(reply.body, "jobID").value;
      if IsFinalResult(reply.body) == Ok(false) {
        var url := OutputUrl(s, id);
        PollMeaning(server, k + 1, url, 1, s.maxAttempts);
        var p := Poll(server, k + 1, url, 1, s.maxAttempts);
        assert RunOf(s, server, k, jobId, json).urls == [SubmissionUrl(s, json)] + Repeat(url, p.requests);
      }
    }
  }

  /** Outputs a job run returns are the body of a 200 reply to one of its requests. */
  lemma RunOutputsFrom(s: Settings, server: Server, k: nat, jobId: Json, json: string)
    requires var run := RunOf(s, server, k, jobId, json);
      run.result.Ok? && run.result.value.Some?
    ensures var run := RunOf(s, server, k, jobId, json);
      exists i :: 0 <= i < |run.urls| && server(k + i, run.urls[i]) == Response(200, run.result.value.value)
  {
    var reply := server(k, SubmissionUrl(s, json));
    var run := RunOf(s, server, k, jobId, json);
    var id := Key(reply.body, "jobID").value;
    if IsFinalResult(reply.body) == Ok(false) {
      var url := OutputUrl(s, id);
      PollMeaning(server, k + 1, url, 1, s.maxAttempts);
      var p := Poll(server, k + 1, url, 1, s.maxAttempts);
      assert run.urls == [SubmissionUrl(s, json)] + Repeat(url, p.requests);
      var i := p.requests;
      assert run.urls[i] == url;
      assert server(k + i, run.urls[i]) == server(k + 1 + p.requests - 1, url);
    } else {
      assert server(k + 0, run.urls[0]) == Response(200, run.result.value.value);
    }
  }

  /** A job run never hands back the JSON `null` as outputs: a poll answered 200 with a `null`
      body, like every other reply that carries no outputs, ends the run with None. */
  /** A poll answered 200 with a `null` body is the last one, and polling gives that `null`. */
  lemma {:induction false} PollNull(server: Server, k: nat, url: string, attempt: int, max: int)
    ensures var p := Poll(server, k, url, attempt, max);
      forall j :: k <= j < k + p.requests && server(j, url) == Response(200, Null) ==> p.result == Some(Null)
    decreases max - attempt
  {
    if attempt < max && server(k, url).status == 204 {
      PollNull(server, k + 1, url, attempt + 1, max);
    }
  }

  /** The run whose i-th request was a poll answered 200 with a `null` body: its outputs are None. */
  lemma RunNullAt(s: Settings, server: Server, k: nat, jobId: Json, json: string, i: nat)
    requires var run := RunOf(s, server, k, jobId, json);
      1 <= i < |run.urls| && server(k + i, run.urls[i]) == Response(200, Null)
    ensures RunOf(s, server, k, jobId, json).result == Ok(None)
  {
    RunNullOutputs(s, server, k, jobId, json);
  }

  lemma RunNullOutputs(s: Settings, server: Server, k: nat, jobId: Json, json: string)
    ensures var run := RunOf(s, server, k, jobId, json);
      && (run.result.Ok? && run.result.value.Some? ==> run.result.value.value != Null)
      && (forall i :: 1 <= i < |run.urls| && server(k + i, run.urls[i]) == Response(200, Null) ==>
            run.result == Ok(None))
  {
    var reply := server(k, SubmissionUrl(s, json));
    var run := RunOf(s, server, k, jobId, json);
    if reply.status == 200 && Key(reply.body, "jobID").Ok? && IsFinalResult(reply.body) == Ok(false) {
      var id := Key(reply.body, "jobID").value;
      var url := OutputUrl(s, id);
      var p := Poll(server, k + 1, url, 1, s.maxAttempts);
      assert run == Run(Checked(p.result), [SubmissionUrl(s, json)] + Repeat(url, p.requests), 1 + p.naps, id);
      CheckedPassesOn(p.result);
      PollNull(server, k + 1, url, 1, s.maxAttempts);
      forall i | 1 <= i < |run.urls| && server(k + i, run.urls[i]) == Response(200, Null)
        ensures run.result == Ok(None)
      {
        assert run.urls[i] == url;
      }
    }
  }

  /** A job whose outputs came from polling slept once before the first poll and once after
      each 204 reply: every poll but the last was answered 204. */
  lemma RunSleeps(s: Settings, server: Server, k: nat, jobId: Json, json: string)
    requires var run := RunOf(s, server, k, jobId, json);
      run.result.Ok? && run.result.value.Some? && |run.urls| > 1
    ensures var run := RunOf(s, server, k, jobId, json);
      && run.naps == |run.urls| - 1
      && forall i :: 1 <= i < |run.urls| - 1 ==> server(k + i, run.urls[i]).status == 204
  {
    var reply := server(k, SubmissionUrl(s, json));
    var id := Key(reply.body, "jobID").value;
    var url := OutputUrl(s, id);
    PollMeaning(server, k + 1, url, 1, s.maxAttempts);
    var p := Poll(server, k + 1, url, 1, s.maxAttempts);
    var run := RunOf(s, server, k, jobId, json);
    assert run.urls == [SubmissionUrl(s, json)] + Repeat(url, p.requests);
    forall i | 1 <= i < |run.urls| - 1 ensures server(k + i, run.urls[i]).status == 204 {
      assert run.urls[i] == url;
      assert k + 1 <= k + i < k + 1 + p.requests - 1;
    }
  }

  /** The client object: its settings, the agent it talks to, the job id it holds and a
      record of its requests and sleeps. */
  class AgentBridge {
    const settings: Settings
    const server: Server
    var jobId: Json
    var sent: seq<string>
    var slept: nat

    constructor(settings: Settings, server: Server)
      ensures this.settings == settings && this.server == server
      ensures jobId == Null && sent == [] && slept == 0
    {
      this.settings := settings;
      this.server := server;
      jobId := Null;
      sent := [];
      slept := 0;
    }

    /** `requests.get(url)`. */
    method Get(url: string) returns (reply: Response)
      modifies this
      ensures reply == server(|old(sent)|, url)
      ensures sent == old(sent) + [url] && slept == old(slept) && jobId == old(jobId)
    {
      reply := server(|sent|, url);
      sent := sent + [url];
    }

    /** `time.sleep(poll_intervall)`. */
    method Sleep()
      modifies this
      ensures slept == old(slept) + settings.pollInterval
      ensures sent == old(sent) && jobId == old(jobId)
    {
      slept := slept + settings.pollInterval;
    }

    /** `submitJob`: a refused submission returns None and keeps the job id; an accepted one
        stores the `jobID` the agent sent, or raises when it sent none. */
    method SubmitJob(json: string) returns (r: Result<Option<Json>, PyError>)
      modifies this
      ensures var reply := server(|old(sent)|, SubmissionUrl(settings, json));
        && sent == old(sent) + [SubmissionUrl(settings, json)] && slept == old(slept)
        && (reply.status != 200 ==> r == Ok(None) && jobId == old(jobId))
        && (reply.status == 200 && Key(reply.body, "jobID").Err? ==>
              r == Err(Key(reply.body, "jobID").error) && jobId == old(jobId))
        && (reply.status == 200 && Key(reply.body, "jobID").Ok? ==>
              r == Ok(Some(reply.body)) && jobId == Key(reply.body, "jobID").value)
    {
      var url := SubmissionUrl(settings, json);
      var reply := Get(url);
      if reply.status != 200 {
        return Ok(None);
      }
      var id := Key(reply.body, "jobID");
      if id.Err? {
        return Err(id.error);
      }
      jobId := id.value;
      return Ok(Some(reply.body));
    }

    /** `__getJobResults(url, attempt)`, its retry on 204 written as a loop over the attempt
        counter: the requests, sleeps and result are those `Poll` describes. */
    method GetJobResults(url: string, attempt: int) returns (result: Option<Json>)
      modifies this
      ensures var p := Poll(server, |old(sent)|, url, attempt, settings.maxAttempts);
        && result == p.result
        && sent == old(sent) + Repeat(url, p.requests)
        && slept == old(slept) + settings.pollInterval * p.naps
        && jobId == old(jobId)
    {
      var a := attempt;
      ghost var n: nat := 0;
      ghost var k0 := |sent|;
      while a < settings.maxAttempts
        invariant a == attempt + n
        invariant sent == old(sent) + Repeat(url, n)
        invariant slept == old(slept) + settings.pollInterval * n
        invariant jobId == old(jobId)
        invariant Resumes(server, k0, url, attempt, settings.maxAttempts, n)
        decreases settings.maxAttempts - a
      {
        var reply := Get(url);
        RepeatStep(old(sent), url, n);
        if reply.status == 204 {
          ResumesNext(server, k0, url, attempt, settings.maxAttempts, n);
          Sleep();
          ScaleStep(settings.pollInterval, n);
          a := a + 1;
          n := n + 1;
        } else {
          ResumesLast(server, k0, url, attempt, settings.maxAttempts, n);
          return if reply.status != 200 then None else Some(reply.body);
        }
      }
      return None;
    }

    /** `requestOutputs`. */
    method RequestOutputs() returns (r: Result<Option<Json>, PyError>)
      modifies this
      ensures var url := OutputUrl(settings, old(jobId));
        var p := Poll(server, |old(sent)|, url, 1, settings.maxAttempts);
        && r == Checked(p.result)
        && sent == old(sent) + Repeat(url, p.requests)
        && slept == old(slept) + settings.pollInterval * p.naps
        && jobId == old(jobId)
    {
      var url := OutputUrl(settings, jobId);
      var result := GetJobResults(url, 1);
      if result.None? || result.value == Null {
        return Ok(None);
      }
      var res := result.value;
      var hasMessage := Contains(res, "message");
      if hasMessage.Err? {
        return Err(hasMessage.error);
      }
      if hasMessage.value {
        var message := Key(res, "message");
        if message.Err? {
          return Err(message.error);
        }
        if !message.value.Str? {
          return Err(AttributeError);
        }
        if Occurs("error", message.value.s) {
          return Ok(None);
        }
      }
      return Ok(Some(res));
    }

    /** `runJob`. */
    method RunJob(json: string) returns (r: Result<Option<Json>, PyError>)
      modifies this
      ensures var run := RunOf(settings, server, |old(sent)|, old(jobId), json);
        && r == run.result
        && jobId == run.jobId
        && sent == old(sent) + run.urls
        && slept == old(slept) + settings.pollInterval * run.naps
    {
      var submitted := SubmitJob(json);
      if submitted.Err? {
        return submitted;
      }
      if submitted.value.None? {
        return Ok(None);
      }
      var message := submitted.value.value;
      var final := IsFinalResult(message);
      if final.Err? {
        return Err(final.error);
      }
      if final.value {
        return Ok(Some(message));
      }
      Sleep();
      ghost var p := Poll(server, |sent|, OutputUrl(settings, jobId), 1, settings.maxAttempts);
      assert settings.pollInterval * (1 + p.naps) == settings.pollInterval + settings.pollInterval * p.naps;
      r := RequestOutputs();
    }
  }
}
