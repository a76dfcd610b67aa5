/** The stand-in MoDS agent shipped beside the wrapper: it answers every well-formed
    submission with six constant output series named after the first six inputs, and hands
    them back when asked. A job id is the uuid the agent draws, here a parameter. */
module ProductionAgent {
  import opened Wrappers
  import opened Seqs
  import opened Json
  import opened Bridge
  import opened MockAgents

  /** The constant each of the six output series repeats. */
  const Constants: seq<Json> := [Int(2), Int(1), Int(5), Int(7), Int(1), Float(0.1)]

  /** `[x] * n`. */
  function Copies(x: Json, n: nat): (r: seq<Json>)
    ensures |r| == n && forall i :: 0 <= i < n ==> r[i] == x
  {
    seq(n, i => x)
  }

  /** `inputs[i]["name"]`. */
  function NameAt(inputs: Json, i: nat): Result<Json, PyError>
  {
    var input :- Idx(inputs, i);
    Key(input, "name")
  }

  function NameOf(inputs: Json): nat -> Result<Json, PyError>
  {
    (i: nat) => NameAt(inputs, i)
  }

  /** The names of the first six inputs, read in order; the first one missing raises. */
  function SixNames(inputs: Json): (r: Result<seq<Json>, PyError>)
    ensures r.Ok? <==> forall i :: 0 <= i < 6 ==> NameAt(inputs, i).Ok?
    ensures r.Ok? ==> |r.value| == 6 && forall i :: 0 <= i < 6 ==> r.value[i] == NameAt(inputs, i).value
  {
    MapAllOk(NameOf(inputs), Range(6));
    assert forall i :: 0 <= i < 6 ==> NameOf(inputs)(Range(6)[i]) == NameAt(inputs, i);
    MapAll(NameOf(inputs), Range(6))
  }

  /** The outputs of a job with n values per input: an entry per constant, named after the
      input at the same position, repeating the constant n times. */
  function SixOutputs(names: seq<Json>, n: nat): Json
    requires |names| == 6
  {
    Obj([("Outputs", Arr(seq(6, i requires 0 <= i < 6 => Entry(names[i], Copies(Constants[i], n)))))])
  }

  /** `runSimulation` on a decoded query, the drawn id being `id`, with the reply the agent
      sends back: the reply is `{key: id}`, the agent writing `"jobId"`. */
  function SimulateWith(query: Json, id: string, key: string): Result<Handled, PyError>
  {
    var inputs :- Key(query, "Inputs");
    var count :- InputCount(inputs);
    if count.None? then Ok(Rejected)
    else
      var names :- SixNames(inputs);
      Ok(Handled(Response(200, Obj([(key, Str(id))])), Some(SixOutputs(names, count.value))))
  }

  /** `runSimulation` as written. */
  function Simulate(query: Json, id: string): Result<Handled, PyError>
  {
    SimulateWith(query, id, "jobId")
  }

  /** `runSimulation` with the reply under the `jobID` key the bridge reads. */
  function CorrectedSimulate(query: Json, id: string): Result<Handled, PyError>
  {
    SimulateWith(query, id, "jobID")
  }

  /** Whatever the reply's key, the agent refuses exactly the queries whose first input has no
      values list, storing nothing; otherwise it answers 200 naming the job under that key,
      and stores six entries, named after the first six inputs in order, each repeating its
      constant once per value of the first input. */
  lemma SimulateMeaning(query: Json, id: string, key: string)
    requires SimulateWith(query, id, key).Ok?
    ensures var h := SimulateWith(query, id, key).value;
      && Key(query, "Inputs").Ok?
      && (h == Rejected <==> InputCount(Key(query, "Inputs").value) == Ok(None))
      && (h != Rejected ==>
            var inputs := Key(query, "Inputs").value;
            var n := InputCount(inputs).value.value;
            && h.reply == Response(200, Obj([(key, Str(id))]))
            && Key(h.reply.body, key) == Ok(Str(id))
            && h.stored.Some?
            && Key(h.stored.value, "Outputs").Ok? && Key(h.stored.value, "Outputs").value.Arr?
            && |Key(h.stored.value, "Outputs").value.items| == 6
            && forall i :: 0 <= i < 6 ==>
                 var entry := Key(h.stored.value, "Outputs").value.items[i];
                 && NameAt(inputs, i).Ok?
                 && Key(entry, "name") == NameAt(inputs, i)
                 && Key(entry, "values").Ok? && Key(entry, "values").value.Arr?
                 && |Key(entry, "values").value.items| == n
                 && forall j :: 0 <= j < n ==> Key(entry, "values").value.items[j] == Constants[i])
  {
    var h := SimulateWith(query, id, key).value;
    if h != Rejected {
      var inputs := Key(query, "Inputs").value;
      var n := InputCount(inputs).value.value;
      var names := SixNames(inputs).value;
      var entries := seq(6, i requires 0 <= i < 6 => Entry(names[i], Copies(Constants[i], n)));
      assert h.stored == Some(Obj([("Outputs", Arr(entries))]));
      forall i | 0 <= i < 6
        ensures Key(entries[i], "name") == Ok(names[i])
        ensures Key(entries[i], "values") == Ok(Arr(Copies(Constants[i], n)))
      {
        EntryRead(names[i], Copies(Constants[i], n));
      }
    }
  }

  /** The agent as written cannot serve the bridge: its reply has no `jobID`, so a bridge
      that submits to it raises a KeyError and never polls. */
  lemma JobIdKeyMismatch(s: Settings, server: Server, k: nat, jobId: Json, json: string,
                         query: Json, id: string)
    requires Simulate(query, id).Ok? && Simulate(query, id).value != Rejected
    requires server(k, SubmissionUrl(s, json)) == Simulate(query, id).value.reply
    ensures RunOf(s, server, k, jobId, json) == Run(Err(LookupError), [SubmissionUrl(s, json)], 0, jobId)
  {
    SimulateMeaning(query, id, "jobId");
    var reply := Simulate(query, id).value.reply;
    assert Keys(reply.body.fields) == ["jobId"];
    KeyAbsent(reply.body, "jobID");
  }

  /** With the reply under `jobID`, a bridge that submits to the agent keeps the job's id and
      polls the output URL for that id, and the agent's table, asked for that id, gives back
      the stored outputs. */
  lemma CorrectedJobIdServes(s: Settings, server: Server, k: nat, jobId: Json, json: string,
                             query: Json, id: string, jobs: map<string, Json>)
    requires CorrectedSimulate(query, id).Ok? && CorrectedSimulate(query, id).value != Rejected
    requires server(k, SubmissionUrl(s, json)) == CorrectedSimulate(query, id).value.reply
    ensures var run := RunOf(s, server, k, jobId, json);
      && run.jobId == Str(id)
      && run.result != Err(LookupError)
      && forall i :: 1 <= i < |run.urls| ==> run.urls[i] == OutputUrl(s, Str(id))
    ensures var h := CorrectedSimulate(query, id).value;
      CorrectedOutputs(Record(jobs, id, h), Obj([("jobID", Str(id))])) == Ok(Response(200, h.stored.value))
  {
    SimulateMeaning(query, id, "jobID");
    var h := CorrectedSimulate(query, id).value;
    RunMeaning(s, server, k, jobId, json);
    assert Key(h.reply.body, "jobID") == Ok(Str(id));
    IsFinalResultMeaning(h.reply.body);
    assert Keys(h.reply.body.fields) == ["jobID"];
    var q := Obj([("jobID", Str(id))]);
    assert Key(q, "jobID") == Ok(Str(id));
    var url := OutputUrl(s, Str(id));
    CheckedNoKeyError(Poll(server, k + 1, url, 1, s.maxAttempts).result);
  }

  /** `getOutputs` as written: the id is read from the query's `jobId`. */
  function Outputs(jobs: map<string, Json>, query: Json): Result<Response, PyError>
  {
    OutputsFor(jobs, query, "jobId")
  }

  /** `getOutputs` reading the `jobID` key the bridge sends. */
  function CorrectedOutputs(jobs: map<string, Json>, query: Json): Result<Response, PyError>
  {
    OutputsFor(jobs, query, "jobID")
  }

  /** The output query the bridge sends has no `jobId`, so `getOutputs` as written raises a
      KeyError on it, whatever the table holds. */
  lemma OutputsKeyMismatch(jobs: map<string, Json>, id: Json)
    ensures Outputs(jobs, Obj([("jobID", id)])) == Err(LookupError)
  {
    KeyAbsent(Obj([("jobID", id)]), "jobId");
  }

  /** The agent's table of jobs (`JOB_INPUTS`) and its two routes, as written. */
  class MockAgent {
    var jobs: map<string, Json>

    constructor()
      ensures jobs == map[]
    {
      jobs := map[];
    }

    /** `runSimulation`, the drawn uuid being `id`: the reply, or the exception that escapes;
        an accepted job's outputs are kept under its id. */
    method RunSimulation(query: Json, id: string) returns (r: Result<Response, PyError>)
      modifies this
      ensures Simulate(query, id).Err? ==> r == Err(Simulate(query, id).error) && jobs == old(jobs)
      ensures Simulate(query, id).Ok? ==>
                r == Ok(Simulate(query, id).value.reply) &&
                jobs == Record(old(jobs), id, Simulate(query, id).value)
    {
      var h :- Simulate(query, id);
      jobs := Record(jobs, id, h);
      r := Ok(h.reply);
    }

    /** `getOutputs`: the outputs of the job the query names under `jobId`. */
    method GetOutputs(query: Json) returns (r: Result<Response, PyError>)
      ensures r == Outputs(jobs, query)
    {
      r := Outputs(jobs, query);
    }
  }
}
