/** The MoDS agent stand-in the test suite runs: it answers a submitted job at once, keeps a
    made-up set of outputs for it, and hands them back when asked. A job id is the uuid the
    agent draws for the request, here a parameter. */
module TestAgent {
  import opened Wrappers
  import opened Seqs
  import opened Json
  import opened Bridge
  import opened MockAgents

  /** The type of the algorithm each simulation type treats as its primary one. */
  const PrimaryAlgorithms: map<string, string> := map[
    "MOOonly" := "MOO", "MOO" := "MOO", "HDMR" := "GenSurrogateAlg",
    "Sensitivity" := "GenSurrogateAlg", "Evaluate" := "SamplingAlg", "MCDM" := "MCDM"
  ]

  /** Whether `algorithm["type"] == PRIMARY_ALGORITHMS[simType]` holds. */
  predicate IsPrimary(simType: string, algorithm: Json)
  {
    simType in PrimaryAlgorithms && Key(algorithm, "type").Ok? &&
    PyEq(Key(algorithm, "type").value, Str(PrimaryAlgorithms[simType]))
  }

  /** The filter of `get_primary_algorithm` on one algorithm: its type is read first, then the
      simulation type is looked up. */
  function Matching(simType: string, algorithm: Json): (r: Result<seq<Json>, PyError>)
    ensures r.Ok? ==> (r.value == [algorithm] <==> IsPrimary(simType, algorithm))
    ensures r.Ok? ==> (r.value == [] <==> !IsPrimary(simType, algorithm))
    ensures r.Ok? <==> Key(algorithm, "type").Ok? && simType in PrimaryAlgorithms
  {
    var t :- Key(algorithm, "type");
    if simType !in PrimaryAlgorithms then Err(LookupError)
    else if PyEq(t, Str(PrimaryAlgorithms[simType])) then Ok([algorithm])
    else Ok([])
  }

  function Keep(simType: string): Json -> Result<seq<Json>, PyError>
  {
    a => Matching(simType, a)
  }

  /** `get_primary_algorithm(query)`: the first algorithm whose type is the primary one; a
      LookupError when there is none. */
  function PrimaryAlgorithm(query: Json, simType: string): Result<Json, PyError>
  {
    var algorithms :- Key(query, "Algorithms");
    var xs :- Elements(algorithms);
    var kept :- FlatMapAll(Keep(simType), xs);
    if kept == [] then Err(LookupError) else Ok(kept[0])
  }

  /** The filter succeeds on every algorithm, and keeps nothing exactly when none is primary. */
  lemma {:induction false} KeptNone(simType: string, xs: seq<Json>)
    requires FlatMapAll(Keep(simType), xs).Ok?
    ensures forall i :: 0 <= i < |xs| ==> Matching(simType, xs[i]).Ok?
    ensures FlatMapAll(Keep(simType), xs).value == [] <==>
              forall i :: 0 <= i < |xs| ==> !IsPrimary(simType, xs[i])
  {
    if xs != [] {
      var init := xs[..|xs| - 1];
      assert forall i :: 0 <= i < |init| ==> init[i] == xs[i];
      assert Keep(simType)(xs[|xs| - 1]) == Matching(simType, xs[|xs| - 1]);
      KeptNone(simType, init);
    }
  }

  /** What the filter keeps first is the first primary algorithm. */
  lemma {:induction false} KeptFirst(simType: string, xs: seq<Json>)
    requires FlatMapAll(Keep(simType), xs).Ok? && FlatMapAll(Keep(simType), xs).value != []
    ensures exists i :: 0 <= i < |xs| && IsPrimary(simType, xs[i]) &&
              FlatMapAll(Keep(simType), xs).value[0] == xs[i] &&
              forall j :: 0 <= j < i ==> !IsPrimary(simType, xs[j])
  {
    var init := xs[..|xs| - 1];
    var last := xs[|xs| - 1];
    assert forall i :: 0 <= i < |init| ==> init[i] == xs[i];
    assert Keep(simType)(last) == Matching(simType, last);
    var before := FlatMapAll(Keep(simType), init).value;
    if before != [] {
      KeptFirst(simType, init);
      var i :| 0 <= i < |init| && IsPrimary(simType, init[i]) && before[0] == init[i] &&
               forall j :: 0 <= j < i ==> !IsPrimary(simType, init[j]);
      assert FlatMapAll(Keep(simType), xs).value[0] == xs[i];
    } else {
      KeptNone(simType, init);
      assert FlatMapAll(Keep(simType), xs).value[0] == xs[|xs| - 1];
    }
  }

  /** The primary algorithm exists only for a known simulation type, and is the first
      algorithm of the query whose type is the one that simulation type names, every earlier
      algorithm having a type that is not. */
  lemma PrimaryAlgorithmMeaning(query: Json, simType: string)
    requires PrimaryAlgorithm(query, simType).Ok?
    ensures simType in PrimaryAlgorithms
    ensures Key(query, "Algorithms").Ok? && Elements(Key(query, "Algorithms").value).Ok?
    ensures var xs := Elements(Key(query, "Algorithms").value).value;
      exists i :: 0 <= i < |xs| && xs[i] == PrimaryAlgorithm(query, simType).value &&
        IsPrimary(simType, xs[i]) &&
        forall j :: 0 <= j < i ==> Key(xs[j], "type").Ok? && !IsPrimary(simType, xs[j])
  {
    var xs := Elements(Key(query, "Algorithms").value).value;
    KeptNone(simType, xs);
    KeptFirst(simType, xs);
  }

  /** The filter of a variable list on one variable: its type is read first, then, when the
      type is the one asked for, its name. */
  function NameIf(kind: string, variable: Json): Result<seq<Json>, PyError>
  {
    var t :- Key(variable, "type");
    if PyEq(t, Str(kind)) then
      var name :- Key(variable, "name");
      Ok([name])
    else Ok([])
  }

  function Named(kind: string): Json -> Result<seq<Json>, PyError>
  {
    v => NameIf(kind, v)
  }

  /** `[variable["name"] for variable in algorithm["variables"] if variable["type"] == kind]`. */
  function VariableNames(algorithm: Json, kind: string): Result<seq<Json>, PyError>
  {
    var variables :- Key(algorithm, "variables");
    var xs :- Elements(variables);
    FlatMapAll(Named(kind), xs)
  }

  /** The names listed are exactly the names of the variables of that type: every variable
      has a type, every one of the kind asked for has a name that is listed, and every name
      listed is that of such a variable. */
  lemma VariableNamesMeaning(algorithm: Json, kind: string)
    requires VariableNames(algorithm, kind).Ok?
    ensures Key(algorithm, "variables").Ok? && Elements(Key(algorithm, "variables").value).Ok?
    ensures var xs := Elements(Key(algorithm, "variables").value).value;
      var names := VariableNames(algorithm, kind).value;
      && (forall i :: 0 <= i < |xs| ==> Key(xs[i], "type").Ok?)
      && (forall i :: 0 <= i < |xs| && PyEq(Key(xs[i], "type").value, Str(kind)) ==>
            Key(xs[i], "name").Ok? && Key(xs[i], "name").value in names)
      && (forall n :: n in names ==>
            exists i :: 0 <= i < |xs| && PyEq(Key(xs[i], "type").value, Str(kind)) &&
              Key(xs[i], "name") == Ok(n))
  {
    var xs := Elements(Key(algorithm, "variables").value).value;
    var f := Named(kind);
    FlatMapAllOk(f, xs);
    assert forall i :: 0 <= i < |xs| ==> f(xs[i]) == NameIf(kind, xs[i]);
    forall i | 0 <= i < |xs| && PyEq(Key(xs[i], "type").value, Str(kind))
      ensures Key(xs[i], "name").Ok? && Key(xs[i], "name").value in VariableNames(algorithm, kind).value
    {
      FlatMapAllContains(f, xs, i, Key(xs[i], "name").value);
    }
    var P := n => exists i :: 0 <= i < |xs| && Key(xs[i], "type").Ok? &&
                   PyEq(Key(xs[i], "type").value, Str(kind)) && Key(xs[i], "name") == Ok(n);
    forall i | 0 <= i < |xs| && f(xs[i]).Ok? ensures forall n :: n in f(xs[i]).value ==> P(n) {
    }
    FlatMapAllEach(f, xs, P);
  }

  /** `a + " and " + b` for two variable names; anything but two strings is a TypeError. */
  function Joined(a: Json, b: Json): (r: Result<Json, PyError>)
    ensures r.Ok? <==> a.Str? && b.Str?
    ensures r.Ok? ==> r.value == Str(a.s + " and " + b.s)
  {
    if a.Str? && b.Str? then Ok(Str(a.s + " and " + b.s)) else Err(TypeError)
  }

  function JoinedTo(a: Json): Json -> Result<Json, PyError>
  {
    b => Joined(a, b)
  }

  /** The second-order labels `names[i] + " and " + names[j]` for i < j, row by row. */
  function Pairs(names: seq<Json>): Result<seq<Json>, PyError>
  {
    if names == [] then Ok([])
    else
      var row :- MapAll(JoinedTo(names[0]), names[1..]);
      var rest :- Pairs(names[1..]);
      Ok(row + rest)
  }

  /** Pairing succeeds exactly when there are fewer than two names or all are strings. */
  lemma {:induction false} PairsOk(names: seq<Json>)
    ensures Pairs(names).Ok? <==> |names| < 2 || forall i :: 0 <= i < |names| ==> names[i].Str?
  {
    if names != [] {
      var rest := names[1..];
      var f := JoinedTo(names[0]);
      PairsOk(rest);
      MapAllOk(f, rest);
      assert forall k :: 0 <= k < |rest| ==> f(rest[k]) == Joined(names[0], rest[k]);
      assert forall k :: 0 <= k < |rest| ==> rest[k] == names[k + 1];
      if |names| >= 2 {
        if forall i :: 0 <= i < |names| ==> names[i].Str? {
          assert forall k :: 0 <= k < |rest| ==> rest[k].Str?;
        }
        if Pairs(names).Ok? {
          forall i | 0 <= i < |names| ensures names[i].Str? {
            assert f(rest[0]).Ok?;
            if i > 0 {
              assert f(rest[i - 1]).Ok?;
            }
          }
        }
      }
    }
  }

  /** n names give n(n-1)/2 labels. */
  lemma {:induction false} PairsCount(names: seq<Json>)
    requires Pairs(names).Ok?
    ensures 2 * |Pairs(names).value| == |names| * (|names| - 1)
  {
    if names != [] {
      var rest := names[1..];
      PairsCount(rest);
      var row := MapAll(JoinedTo(names[0]), rest).value;
      assert |Pairs(names).value| == |row| + |Pairs(rest).value|;
      assert |names| * (|names| - 1) == 2 * (|names| - 1) + (|names| - 1) * (|names| - 2);
    }
  }

  /** Every pair i < j of names has its label among the labels. */
  lemma {:induction false} PairsComplete(names: seq<Json>)
    requires Pairs(names).Ok?
    ensures forall i, j :: 0 <= i < j < |names| ==>
              Joined(names[i], names[j]).Ok? && Joined(names[i], names[j]).value in Pairs(names).value
  {
    if names != [] {
      var rest := names[1..];
      var f := JoinedTo(names[0]);
      PairsComplete(rest);
      MapAllOk(f, rest);
      var row := MapAll(f, rest).value;
      assert Pairs(names).value == row + Pairs(rest).value;
      forall i, j | 0 <= i < j < |names|
        ensures Joined(names[i], names[j]).Ok? && Joined(names[i], names[j]).value in Pairs(names).value
      {
        if i == 0 {
          assert rest[j - 1] == names[j];
          assert f(rest[j - 1]) == Joined(names[0], names[j]);
          assert row[j - 1] == Joined(names[0], names[j]).value;
        } else {
          assert rest[i - 1] == names[i] && rest[j - 1] == names[j];
        }
      }
    }
  }

  /** Every label is the label of some pair i < j of names. */
  lemma {:induction false} PairsSound(names: seq<Json>)
    requires Pairs(names).Ok?
    ensures forall l :: l in Pairs(names).value ==>
              exists i, j :: 0 <= i < j < |names| && Joined(names[i], names[j]) == Ok(l)
  {
    if names != [] {
      var rest := names[1..];
      var f := JoinedTo(names[0]);
      PairsSound(rest);
      MapAllOk(f, rest);
      var row := MapAll(f, rest).value;
      assert Pairs(names).value == row + Pairs(rest).value;
      forall l | l in Pairs(names).value
        ensures exists i, j :: 0 <= i < j < |names| && Joined(names[i], names[j]) == Ok(l)
      {
        if l in row {
          var k :| 0 <= k < |row| && row[k] == l;
          assert rest[k] == names[k + 1];
          assert f(rest[k]) == Joined(names[0], names[k + 1]);
          assert 0 <= 0 < k + 1 < |names| && Joined(names[0], names[k + 1]) == Ok(l);
        } else {
          assert l in Pairs(rest).value;
          var i, j :| 0 <= i < j < |rest| && Joined(rest[i], rest[j]) == Ok(l);
          assert rest[i] == names[i + 1] && rest[j] == names[j + 1];
          assert 0 <= i + 1 < j + 1 < |names| && Joined(names[i + 1], names[j + 1]) == Ok(l);
        }
      }
    }
  }

  /** The entries `{"name": n, "values": values}` for each name, in order. */
  function Entries(names: seq<Json>, values: seq<Json>): (r: seq<Json>)
    ensures |r| == |names|
    ensures forall i :: 0 <= i < |r| ==>
              Key(r[i], "name") == Ok(names[i]) && Key(r[i], "values") == Ok(Arr(values))
  {
    EntriesRead(names, values);
    seq(|names|, i requires 0 <= i < |names| => Entry(names[i], values))
  }

  lemma EntriesRead(names: seq<Json>, values: seq<Json>)
    ensures forall i :: 0 <= i < |names| ==>
              Key(Entry(names[i], values), "name") == Ok(names[i]) &&
              Key(Entry(names[i], values), "values") == Ok(Arr(values))
  {
    forall i | 0 <= i < |names| {
      EntryRead(names[i], values);
    }
  }

  /** The status of a job: its id and simulation type. */
  function StatusFields(id: string, simType: string): seq<(string, Json)>
  {
    [("jobID", Str(id)), ("SimulationType", Str(simType))]
  }

  /** A job accepted with 200: the reply is the status, and the job's outputs are stored. */
  function Accept(status: seq<(string, Json)>, outputs: seq<(string, Json)>): Handled
  {
    Handled(Response(200, Obj(status)), Some(Obj(outputs)))
  }

  /** The outputs of an Evaluate job: the query's inputs followed by an entry of n counted
      values for each output variable of the query's second algorithm. */
  function EvaluateOutputs(query: Json, inputs: Json, n: nat): (r: Result<Json, PyError>)
    ensures r.Ok? ==> Key(query, "Algorithms").Ok? && Idx(Key(query, "Algorithms").value, 1).Ok? &&
                      VariableNames(Idx(Key(query, "Algorithms").value, 1).value, "output").Ok?
    ensures r.Ok? ==>
      var second := Idx(Key(query, "Algorithms").value, 1).value;
      var names := VariableNames(second, "output").value;
      && inputs.Arr? && r.value.Arr?
      && |r.value.items| == |inputs.items| + |names|
      && r.value.items[..|inputs.items|] == inputs.items
      && forall i :: 0 <= i < |names| ==>
           Key(r.value.items[|inputs.items| + i], "name") == Ok(names[i]) &&
           Key(r.value.items[|inputs.items| + i], "values") == Ok(Arr(Counting(n)))
  {
    var algorithms :- Key(query, "Algorithms");
    var second :- Idx(algorithms, 1);
    var names :- VariableNames(second, "output");
    match inputs
    case Arr(xs) => Ok(Arr(xs + Entries(names, Counting(n))))
    case _ => Err(AttributeError)
  }

  /** The outputs of an optimisation job: an entry of `maxNumberOfResults` counted values for
      each variable. */
  function OptimisationOutputs(primary: Json, variables: seq<Json>): (r: Result<Json, PyError>)
    ensures r.Ok? <==> Key(primary, "maxNumberOfResults").Ok? && IntOf(Key(primary, "maxNumberOfResults").value).Ok?
    ensures r.Ok? ==>
      var k := IntOf(Key(primary, "maxNumberOfResults").value).value;
      && r.value.Arr? && |r.value.items| == |variables|
      && forall i :: 0 <= i < |variables| ==>
           Key(r.value.items[i], "name") == Ok(variables[i]) &&
           Key(r.value.items[i], "values") == Ok(Arr(Counting(k)))
  {
    var m :- Key(primary, "maxNumberOfResults");
    var k :- IntOf(m);
    Ok(Arr(Entries(variables, Counting(k))))
  }

  /** `{"order": order, "values": values}`. */
  function Ordered(order: int, values: seq<Json>): Json
  {
    Obj([("order", Int(order)), ("values", Arr(values))])
  }

  /** The sensitivities of one output variable. */
  function Block(name: Json, labels: Json, values: Json): Json
  {
    Obj([("name", name), ("labels", labels), ("values", values)])
  }

  /** The three keys of a block read back. */
  lemma BlockRead(name: Json, labels: Json, values: Json)
    ensures Key(Block(name, labels, values), "name") == Ok(name)
    ensures Key(Block(name, labels, values), "labels") == Ok(labels)
    ensures Key(Block(name, labels, values), "values") == Ok(values)
  {
    var fs := Block(name, labels, values).fields;
    assert fs[..2] == [("name", name), ("labels", labels)];
    assert fs[..2][..1] == [("name", name)];
    assert Lookup(fs, "labels") == Lookup(fs[..2], "labels") == Some(labels);
    assert Lookup(fs, "name") == Lookup(fs[..2], "name") == Lookup(fs[..2][..1], "name") == Some(name);
  }

  /** The sensitivities of a Sensitivity job: for each output variable, the first- and
      second-order labels of the inputs and as many counted values as there are labels of each
      order. Labelling fails when a pair of inputs is not two strings. */
  function Sensitivities(inputs: seq<Json>, outputs: seq<Json>): (r: Result<Json, PyError>)
    ensures r.Ok? <==> Pairs(inputs).Ok?
    ensures r.Ok? ==>
      var pairs := Pairs(inputs).value;
      && r.value.Arr? && |r.value.items| == |outputs|
      && forall i :: 0 <= i < |outputs| ==>
           Key(r.value.items[i], "name") == Ok(outputs[i]) &&
           Key(r.value.items[i], "labels") == Ok(Arr([Ordered(1, inputs), Ordered(2, pairs)])) &&
           Key(r.value.items[i], "values") ==
             Ok(Arr([Ordered(1, Counting(|inputs|)), Ordered(2, Counting(|pairs|))]))
  {
    var pairs :- Pairs(inputs);
    var labels := Arr([Ordered(1, inputs), Ordered(2, pairs)]);
    var values := Arr([Ordered(1, Counting(|inputs|)), Ordered(2, Counting(|pairs|))]);
    BlocksRead(outputs, labels, values);
    Ok(Arr(seq(|outputs|, i requires 0 <= i < |outputs| => Block(outputs[i], labels, values))))
  }

  lemma BlocksRead(outputs: seq<Json>, labels: Json, values: Json)
    ensures forall i :: 0 <= i < |outputs| ==>
              Key(Block(outputs[i], labels, values), "name") == Ok(outputs[i]) &&
              Key(Block(outputs[i], labels, values), "labels") == Ok(labels) &&
              Key(Block(outputs[i], labels, values), "values") == Ok(values)
  {
    forall i | 0 <= i < |outputs| {
      BlockRead(outputs[i], labels, values);
    }
  }

  /** The labels of a Sensitivity job's second order: n(n-1)/2 of them for n inputs, one for
      each pair of inputs i < j and no other. */
  lemma SensitivityLabels(inputs: seq<Json>, outputs: seq<Json>)
    requires Sensitivities(inputs, outputs).Ok?
    ensures var pairs := Pairs(inputs).value;
      && 2 * |pairs| == |inputs| * (|inputs| - 1)
      && (forall i, j :: 0 <= i < j < |inputs| ==>
            Joined(inputs[i], inputs[j]).Ok? && Joined(inputs[i], inputs[j]).value in pairs)
      && (forall l :: l in pairs ==>
            exists i, j :: 0 <= i < j < |inputs| && Joined(inputs[i], inputs[j]) == Ok(l))
  {
    PairsCount(inputs);
    PairsComplete(inputs);
    PairsSound(inputs);
  }

  /** `run_simulation` on a decoded query, the job's id being `id`: what the agent answers and
      what it stores, or the exception that escapes. */
  function Simulate(query: Json, id: string): Result<Handled, PyError>
  {
    var simulation :- Key(query, "SimulationType");
    var simType :- if simulation.Str? then Ok(simulation.s) else Err(TypeError);
    var primary :- PrimaryAlgorithm(query, simType);
    var outputs :- VariableNames(primary, "output");
    var inputs :- VariableNames(primary, "input");
    Answer(query, id, simType, primary, inputs, outputs)
  }

  /** The part of `run_simulation` after the variables are listed: the branch on the
      simulation type. */
  function Answer(query: Json, id: string, simType: string, primary: Json, inputs: seq<Json>,
                  outputs: seq<Json>): Result<Handled, PyError>
  {
    var status := StatusFields(id, simType);
    if simType == "Evaluate" then
      var given :- Key(query, "Inputs");
      var count :- InputCount(given);
      if count.None? then Ok(Rejected)
      else
        var outs :- EvaluateOutputs(query, given, count.value);
        Ok(Accept(status, status + [("Outputs", outs)]))
    else if simType == "MOOonly" || simType == "MOO" || simType == "MCDM" then
      var outs :- OptimisationOutputs(primary, inputs + outputs);
      Ok(Accept(if simType == "MCDM" then status + [("Outputs", outs)] else status,
                status + [("Outputs", outs)]))
    else if simType == "HDMR" then Ok(Accept(status, status))
    else if simType == "Sensitivity" then
      var sens :- Sensitivities(inputs, outputs);
      Ok(Accept(status + [("Sensitivities", sens)], status + [("Sensitivities", sens)]))
    else Ok(Rejected)
  }
  /** A status reads back its job id and simulation type whatever follows them, and is a
      final result exactly when something follows them. */
  lemma StatusRead(id: string, simType: string, extra: seq<(string, Json)>)
    requires forall p :: p in extra ==> p.0 != "jobID" && p.0 != "SimulationType"
    ensures Key(Obj(StatusFields(id, simType) + extra), "jobID") == Ok(Str(id))
    ensures Key(Obj(StatusFields(id, simType) + extra), "SimulationType") == Ok(Str(simType))
    ensures IsFinalResult(Obj(StatusFields(id, simType) + extra)) == Ok(extra != [])
  {
    var fs := StatusFields(id, simType);
    KeysAppend(fs, extra);
    assert "jobID" !in Keys(extra) && "SimulationType" !in Keys(extra);
    LookupAppend(fs, extra, "jobID");
    LookupAppend(fs, extra, "SimulationType");
    assert fs[..1] == [("jobID", Str(id))];
    assert Lookup(fs, "jobID") == Lookup(fs[..1], "jobID");
    IsFinalResultMeaning(Obj(fs + extra));
    assert Keys(fs) == ["jobID", "SimulationType"];
    if extra != [] {
      assert extra[0] in extra;
      assert Keys(fs + extra)[2] == extra[0].0;
      assert Keys(fs + extra)[2] in Keys(fs + extra);
    }
  }

  /** The simulation type of a query the agent answers. */
  function SimType(query: Json): string
  {
    var t := Key(query, "SimulationType");
    if t.Ok? && t.value.Str? then t.value.s else ""
  }

  /** Whatever the agent answers, it answered a query whose simulation type it knows: an
      unknown type raises in `get_primary_algorithm` before the branch for it is reached. */
  lemma SimulateKnownType(query: Json, id: string)
    requires Simulate(query, id).Ok?
    ensures Key(query, "SimulationType").Ok? && Key(query, "SimulationType").value.Str?
    ensures SimType(query) in PrimaryAlgorithms
  {
    PrimaryAlgorithmMeaning(query, SimType(query));
  }

  /** The agent either refuses the request, which happens only for an Evaluate job whose
      inputs have no values list, or accepts it with 200, replying with a status that names
      the job and its simulation type and storing outputs that do too. The status is a final
      result, as the bridge judges it, exactly for MCDM and Sensitivity jobs, and then it is
      the stored outputs themselves; for an HDMR job the outputs are the bare status. */
  lemma SimulateReplies(query: Json, id: string)
    requires Simulate(query, id).Ok?
    ensures var h := Simulate(query, id).value;
      var simType := SimType(query);
      && (h == Rejected <==>
            simType == "Evaluate" && Key(query, "Inputs").Ok? &&
            InputCount(Key(query, "Inputs").value) == Ok(None))
      && (h != Rejected ==> Accepted(h, id, simType))
  {
    SimulateKnownType(query, id);
    var simType := SimType(query);
    var primary := PrimaryAlgorithm(query, simType).value;
    var outputs := VariableNames(primary, "output").value;
    var inputs := VariableNames(primary, "input").value;
    AnswerReplies(query, id, simType, primary, inputs, outputs);
  }

  /** What an accepted job looks like: a 200 reply, a status naming the job and its type,
      stored outputs doing the same; the status is final for MCDM and Sensitivity jobs, and
      it is the stored outputs for those and for HDMR jobs. */
  predicate Accepted(h: Handled, id: string, simType: string)
  {
    && h.reply.status == 200 && h.stored.Some?
    && Key(h.reply.body, "jobID") == Ok(Str(id))
    && Key(h.reply.body, "SimulationType") == Ok(Str(simType))
    && Key(h.stored.value, "jobID") == Ok(Str(id))
    && Key(h.stored.value, "SimulationType") == Ok(Str(simType))
    && IsFinalResult(h.reply.body) == Ok(simType == "MCDM" || simType == "Sensitivity")
    && (simType in {"MCDM", "Sensitivity", "HDMR"} ==> h.stored == Some(h.reply.body))
  }

  lemma AnswerReplies(query: Json, id: string, simType: string, primary: Json, inputs: seq<Json>,
                      outputs: seq<Json>)
    requires simType in PrimaryAlgorithms
    requires Answer(query, id, simType, primary, inputs, outputs).Ok?
    ensures var h := Answer(query, id, simType, primary, inputs, outputs).value;
      && (h == Rejected <==>
            simType == "Evaluate" && Key(query, "Inputs").Ok? &&
            InputCount(Key(query, "Inputs").value) == Ok(None))
      && (h != Rejected ==> Accepted(h, id, simType))
  {
    var h := Answer(query, id, simType, primary, inputs, outputs).value;
    var status := StatusFields(id, simType);
    assert status + [] == status;
    if simType == "Evaluate" {
      if h != Rejected {
        var outs := EvaluateOutputs(query, Key(query, "Inputs").value,
                                    InputCount(Key(query, "Inputs").value).value.value).value;
        assert h == Accept(status + [], status + [("Outputs", outs)]);
        AcceptedShape(id, simType, [], [("Outputs", outs)]);
      }
    } else if simType == "MOOonly" || simType == "MOO" || simType == "MCDM" {
      var outs := OptimisationOutputs(primary, inputs + outputs).value;
      var shown := if simType == "MCDM" then [("Outputs", outs)] else [];
      assert h == Accept(status + shown, status + [("Outputs", outs)]);
      AcceptedShape(id, simType, shown, [("Outputs", outs)]);
    } else if simType == "HDMR" {
      assert h == Accept(status + [], status + []);
      AcceptedShape(id, simType, [], []);
    } else {
      var sens := Sensitivities(inputs, outputs).value;
      AcceptedShape(id, simType, [("Sensitivities", sens)], [("Sensitivities", sens)]);
    }
  }

  lemma AcceptedShape(id: string, simType: string, shown: seq<(string, Json)>, kept: seq<(string, Json)>)
    requires forall p :: p in shown ==> p.0 != "jobID" && p.0 != "SimulationType"
    requires forall p :: p in kept ==> p.0 != "jobID" && p.0 != "SimulationType"
    requires (shown != []) == (simType == "MCDM" || simType == "Sensitivity")
    requires simType in {"MCDM", "Sensitivity", "HDMR"} ==> shown == kept
    ensures Accepted(Accept(StatusFields(id, simType) + shown, StatusFields(id, simType) + kept), id, simType)
  {
    StatusRead(id, simType, shown);
    StatusRead(id, simType, kept);
  }

  /** A job the agent accepted can be fetched back: asked with the id its status names, as the
      bridge asks, `getOutputs` answers 200 with the outputs stored for it. */
  lemma AcceptedJobRetrieved(jobs: map<string, Json>, query: Json, id: string)
    requires Simulate(query, id).Ok? && Simulate(query, id).value != Rejected
    ensures var h := Simulate(query, id).value;
      && Key(h.reply.body, "jobID").Ok?
      && OutputsFor(Record(jobs, id, h), Obj([("jobID", Key(h.reply.body, "jobID").value)]), "jobID") ==
           Ok(Response(200, h.stored.value))
  {
    SimulateReplies(query, id);
  }

  /** The agent's table of jobs (`JOB_INPUTS`) and its two routes. */
  class MockAgent {
    var jobs: map<string, Json>

    constructor()
      ensures jobs == map[]
    {
      jobs := map[];
    }

    /** `run_simulation`, the request's uuid being `id`: the reply, or the exception that
        escapes; an accepted job's outputs are kept under its id. */
    method RunSimulation(query: Json, id: string) returns (r: Result<Response, PyError>)
      modifies this
      ensures Simulate(query, id).Err? ==> r == Err(Simulate(query, id).error) && jobs == old(jobs)
      ensures Simulate(query, id).Ok? ==>
                r == Ok(Simulate(query, id).value.reply) &&
                jobs == Record(old(jobs), id, Simulate(query, id).value)
    {
      var h :- Simulate(query, id);
      jobs := Record(jobs, id, h);
      r := Ok(h.reply);
    }

    /** `getOutputs`: the outputs of the job the query names under `jobID`. */
    method GetOutputs(query: Json) returns (r: Result<Response, PyError>)
      ensures r == OutputsFor(jobs, query, "jobID")
    {
      r := OutputsFor(jobs, query, "jobID");
    }
  }
}
