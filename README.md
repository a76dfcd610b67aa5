# MoDS wrapper: a Dafny model

This project models the core of the MoDS interface. The interface is a SimPhoNy wrapper that
sends a simulation request, held as a CUDS graph, to a remote MoDS agent, and writes the answer
back into the graph. The model covers these parts:

- **The codec** (`CUDS_Adaptor`).
  - `toJSON` walks the Algorithm, Variable, DataPoint, File and ModelInput objects of the graph
    and builds the request document. It pivots row-shaped data points into `{name, values}`
    columns.
  - `toCUDS` builds one result object per simulation template and adds it to the simulation
    node. The result objects are a ParetoFront of ranked rows, an OutputData of rows, or a
    SensitivityDataSet. It then adds a JobID.
  - The graph is an in-memory store. It holds a sequence of nodes with a class, attributes and
    labelled edges. A search is a depth-first walk. `add` appends a detached object's nodes and
    gives the parent one edge.
  - JSON is a small datatype that carries Python's subscript, iteration, length, truthiness and
    equality rules.
- **The job client** (`Agent_Bridge`).
  - It is a class that holds the job id, a log of the URLs it requested, and the seconds it
    would have slept.
  - The agent is a parameter: a function from (request number, URL) to the reply.
  - The recursive retry on 204 is a loop over the attempt counter, proved equal to a recursive
    specification `Poll`.
  - The URL builders use `quote`. It is modelled over full Unicode: UTF-8 (RFC 3629, section 3)
    followed by percent-encoding (RFC 3986, section 2.1). It is proved to round-trip.
- **The engine and the session** (`MoDS_Engine`, `MoDS_Session`).
  - Template detection is first-match.
  - The engine's fields are `Option`s, because Python leaves `executed` and `successful`
    unassigned until they are first set.
  - `_run` is proved equal to a function `SessionRun`. Lemmas state the order of its steps and
    that a run only adds to the graph.
- **The two stand-in agents.** The test agent answers every simulation type. The shipped agent
  always answers with six constant series. Each is a function from the decoded query to the
  reply and the stored outputs, plus a class holding the `JOB_INPUTS` table.
- **The web-app helpers** in `app/main.py`: the parsing half of `get_deps` and the MIME check
  of `get_body`. Python's `strip`, `split(':')`, `split('|')` and `replace("()", "")` are
  modelled character by character.

Exceptions become `Err` values. The encoder keeps its error kinds apart: which `ValueError`,
or the `IndexError` of `[0]` on an empty search. Elsewhere the Python exception class is kept
(`PyError`).

Behaviour worth noting:

- **Detection order.** Detection is first-match in the order MOO, MOOonly, HDMR, DKL,
  Evaluate, Sensitivity. A graph with two kinds of simulation is not an error.
  - Source: `mods_engine.py:60-73`.
- **Number of polls.** Polling starts at attempt 1 and stops when `attempt >= max_attemps`. So
  at most `max_attemps - 1` polls are sent.
  - Source: `agent_bridge.py:135, 206-209`.
- **A `null` reply.** A poll answered 200 with the body `null` parses to None. `requestOutputs`
  then returns None, as for a failed job. `_run` passes None to `parseResults`, which adds
  nothing, and the engine is still marked successful.
  - Source: `agent_bridge.py:136-138, 225-232`, `mods_session.py:50-54`, `mods_engine.py:89-96`.
- **Default settings.** The default interval is 10 seconds and the default ceiling is 60
  attempts.
  - Source: `settings.py:9-15`.
- **Empty Inputs.** The `Inputs` key is absent, not empty, when there are no input columns,
  because `defaultdict(list)` creates a key only on append. `Outputs` behaves the same way for
  SampleSRM.
- **SampleSRM JobID.** For SampleSRM, the JobID goes to the SampleSRM node, not to the
  simulation node, because `simulation` is rebound at `cuds_adaptor.py:363-364`.
- **`executed`.** It is never set to true, so `hasExecuted` never answers true.
- **Content-Type parameters.** `get_body` compares the whole `Content-Type` header. A header
  with parameters, such as `text/turtle; charset=utf-8`, is refused.
- **`replace("()", "")` is one pass.** It can leave a `()` behind: `"(())"` becomes `"()"`.
  `called` is decided before the replacement.

## Model

| member | source | states |
|---|---|---|
| Encoder.ToJson | osp/wrappers/sim_cmcl_mods_wrapper/cuds_adaptor.py:38-76 | The loop-built request is the request `Request` describes, with the steps raising in the order the encoder runs them. |
| Encoder.RequestMeaning | osp/wrappers/sim_cmcl_mods_wrapper/cuds_adaptor.py:38-76 | A template outside the seven (DKL) gives `{}`. A graph with no Algorithm fails with MissingAlgorithm. A successful request is an object with distinct keys in the order RequestKeys gives. Its SimulationType is the template's name and its Algorithms are the algorithm entries. |
| Encoder.RequestDocument | osp/wrappers/sim_cmcl_mods_wrapper/cuds_adaptor.py:49-73 | A successful request has the keys SimulationType, Algorithms, Inputs (only with input columns), and for SampleSRM Outputs (only with output columns), Files and ModelInputs, each once. |
| Encoder.RequestOk | osp/wrappers/sim_cmcl_mods_wrapper/cuds_adaptor.py:51-73 | A successful request implies that every section it runs succeeded, and it is made of those sections in that order. |
| Encoder.EncodeAlgorithms | osp/wrappers/sim_cmcl_mods_wrapper/cuds_adaptor.py:80-93 | The loop over the algorithms equals AlgorithmsOf, and stops at the first failing entry. |
| Encoder.AlgorithmsMeaning | osp/wrappers/sim_cmcl_mods_wrapper/cuds_adaptor.py:80-144 | No algorithm gives MissingAlgorithm. Otherwise the result succeeds exactly when every entry does, and then it holds one entry per algorithm, in search order. |
| Encoder.EncodeAlgorithm | osp/wrappers/sim_cmcl_mods_wrapper/cuds_adaptor.py:93-142 | The entry built with the variable loop equals AlgorithmEntry. |
| Encoder.AlgorithmEntryMeaning | osp/wrappers/sim_cmcl_mods_wrapper/cuds_adaptor.py:94-142 | An entry fails, with MissingVariable, exactly when the algorithm has no variables and its surrogateToLoad is unset. maxNumberOfResults, saveSurrogate, surrogateToLoad and modelToLoad are null exactly when unset and copied otherwise. `variables` is present exactly when there are variables, with one entry per variable in order. |
| Encoder.EncodeVariable | osp/wrappers/sim_cmcl_mods_wrapper/cuds_adaptor.py:106-135 | The entry built for a variable equals VariableEntry. |
| Encoder.OptionalFields | osp/wrappers/sim_cmcl_mods_wrapper/cuds_adaptor.py:110-113 | The loop over OPTIONAL_ATTRS gives exactly the set optional attributes, in order. |
| Encoder.OptionalsMeaning | osp/wrappers/sim_cmcl_mods_wrapper/cuds_adaptor.py:110-113 | An optional attribute is written exactly when its value is not "None", with its own value, and at most once. |
| Encoder.VariableEntryMeaning | osp/wrappers/sim_cmcl_mods_wrapper/cuds_adaptor.py:106-135 | A variable entry always has name and type. Each optional attribute is readable exactly when set, and is never null. initialReadDetail and workingReadDetail are present exactly when such a child exists, and then describe the first one. |
| Encoder.VariableKeys | osp/wrappers/sim_cmcl_mods_wrapper/cuds_adaptor.py:107-134 | The keys of a variable entry are name, type, the set optional attributes, then the read details, each once. |
| Encoder.VariableLookup | osp/wrappers/sim_cmcl_mods_wrapper/cuds_adaptor.py:107-134 | Reading a key of a variable entry finds it among the read details, the optional attributes, or name and type, and otherwise raises a KeyError. |
| Encoder.OptionalUnset | osp/wrappers/sim_cmcl_mods_wrapper/cuds_adaptor.py:110-113 | An unset optional attribute is absent from the entry: reading it is a KeyError, not null. |
| Encoder.OptionalSet | osp/wrappers/sim_cmcl_mods_wrapper/cuds_adaptor.py:110-113 | A set optional attribute reads back as its own value. |
| Encoder.InitialDetailFileName | osp/wrappers/sim_cmcl_mods_wrapper/cuds_adaptor.py:114-126 | The initial read detail carries the `file` attribute under the key "file_name", and has no "file" key. |
| Encoder.PivotDataPoints | osp/wrappers/sim_cmcl_mods_wrapper/cuds_adaptor.py:167-183 | The `defaultdict(list)` loop over data points equals PivotOf. A data point without items fails. |
| Encoder.AddDataPoint | osp/wrappers/sim_cmcl_mods_wrapper/cuds_adaptor.py:168-180 | After one more data point, the dict holds the pivot of every item seen so far. |
| Encoder.AppendItems | osp/wrappers/sim_cmcl_mods_wrapper/cuds_adaptor.py:179-180 | Appending a data point's items keeps the dict equal to the pivot of the items seen. |
| Encoder.EntriesJson | osp/wrappers/sim_cmcl_mods_wrapper/cuds_adaptor.py:182-183 | Reading the dict out gives one `{name, values}` entry per column, in key order. |
| Encoder.PivotOfUniform | osp/wrappers/sim_cmcl_mods_wrapper/cuds_adaptor.py:167-183 | N data points that share K distinct names give K entries in name order, and entry k lists the k-th value of every data point in data-point order. |
| Encoder.UniformEntry | osp/wrappers/sim_cmcl_mods_wrapper/cuds_adaptor.py:179-183 | Entry k of such a pivot is name k with the k-th value of each data point. |
| Encoder.PivotOfMissing | osp/wrappers/sim_cmcl_mods_wrapper/cuds_adaptor.py:169-177 | A data point without items makes the pivot fail with MissingDataPointItem. |
| Encoder.PivotOfNothing | osp/wrappers/sim_cmcl_mods_wrapper/cuds_adaptor.py:167-183 | No data points give no columns. |
| Encoder.DatasetMeaning | osp/wrappers/sim_cmcl_mods_wrapper/cuds_adaptor.py:148-183 | A data section fails with MissingDataPoint exactly when there are no data points and the first algorithm's raw surrogateToLoad is falsy. With no data points and a truthy value, including "None", it is empty. With data points it fails with MissingDataPointItem exactly when some data point has no items. |
| Encoder.EncodeDataset | osp/wrappers/sim_cmcl_mods_wrapper/cuds_adaptor.py:146-222 | The Inputs or Outputs section built by the loops equals DatasetOf. |
| Encoder.FilesOf | osp/wrappers/sim_cmcl_mods_wrapper/cuds_adaptor.py:225-235 | Files fails, with MissingFiles, exactly when there is no File node. Otherwise it lists every File's `file`, in search order. |
| Encoder.ModelInputsMeaning | osp/wrappers/sim_cmcl_mods_wrapper/cuds_adaptor.py:238-276 | No model input gives MissingModelInput. Otherwise the section succeeds exactly when every model input does, with one `{path, data}` entry per model input, in order. |
| Encoder.EncodeModelInput | osp/wrappers/sim_cmcl_mods_wrapper/cuds_adaptor.py:249-276 | One model input's entry, built with the pivot loop, equals ModelInputEntry. |
| Encoder.EncodeModelInputs | osp/wrappers/sim_cmcl_mods_wrapper/cuds_adaptor.py:238-276 | The loop over the model inputs equals ModelInputsOf. |
| Pivot.PushStep | osp/wrappers/sim_cmcl_mods_wrapper/cuds_adaptor.py:180 | One `json_items[name].append(value)` keeps the dict equal to the pivot of the items seen, with keys in first-seen order. |
| Pivot.PivotTableNames | osp/wrappers/sim_cmcl_mods_wrapper/cuds_adaptor.py:179-183 | Pivoting a table with distinct names and at least one row gives back its header as the column names. |
| Pivot.PivotTableColumn | osp/wrappers/sim_cmcl_mods_wrapper/cuds_adaptor.py:179-183 | In a pivoted table with distinct names, the column of name c is value c of every row, in row order. |
| Pivot.RoundTrip | examples/DriveCycle/drive_cycle.py:54-65 | Building data points from a header and rows, as `populateDataset` does, and then pivoting and un-pivoting, gives back the header and the rows. |
| Seqs.FirstSeenSpec | osp/wrappers/sim_cmcl_mods_wrapper/cuds_adaptor.py:182 | The keys of a dict filled from a sequence are its elements, each once. |
| Graph.WalkDistinct | osp/wrappers/sim_cmcl_mods_wrapper/cuds_adaptor.py:80-82 | A search never yields the same object twice. |
| Graph.AttachedClosed | osp/wrappers/sim_cmcl_mods_wrapper/cuds_adaptor.py:405-407 | Adding a detached object whose links point into the graph keeps every edge inside the graph. It changes no node but the parent, which gains exactly one edge, to the new object. |
| Graph.AttachedExtends | osp/wrappers/sim_cmcl_mods_wrapper/cuds_adaptor.py:326 | Adding an object only adds: every old node keeps its class and attributes, and its old edges come first. |
| Graph.Store.Add | osp/wrappers/sim_cmcl_mods_wrapper/cuds_adaptor.py:407 | `parent.add(t)` appends t's nodes and returns the index of t's own node. |
| Decoder.ToCuds | osp/wrappers/sim_cmcl_mods_wrapper/cuds_adaptor.py:294-409 | The graph and the exception left by `toCUDS` are those Decode gives, and a well-formed graph stays well-formed. |
| Decoder.DecodeMeaning | osp/wrappers/sim_cmcl_mods_wrapper/cuds_adaptor.py:301-306 | Falsy results (None or `{}`) change nothing. Without a Simulation child the call fails with the graph unchanged, and so does a failure while building the branch's object. |
| Decoder.DecodeFinishes | osp/wrappers/sim_cmcl_mods_wrapper/cuds_adaptor.py:305-407 | A call that does not raise found a simulation and built its branch without error. For HDMR, and for DKL, which no branch handles, there is no object to add. |
| Decoder.FinishAddsJob | osp/wrappers/sim_cmcl_mods_wrapper/cuds_adaptor.py:405-407 | A call that does not raise ends with exactly one JobID whose JobIDItem is named `jsonResults["jobID"]`. With no branch object, the JobID and its item are the only new nodes. |
| Decoder.DecodeClosed | osp/wrappers/sim_cmcl_mods_wrapper/cuds_adaptor.py:294-409 | `toCUDS` keeps every edge inside the graph and every old node with its class and attributes. It only adds. |
| Decoder.FrontMeaning | osp/wrappers/sim_cmcl_mods_wrapper/cuds_adaptor.py:309-326 | An empty Outputs list gives an empty front. Otherwise there are n rows, n being the length of the first output's values, and row i is a RankedDataPoint ranked i + 1 that holds one item per output, taking value i. |
| Decoder.EvaluateMeaning | osp/wrappers/sim_cmcl_mods_wrapper/cuds_adaptor.py:328-359 | Without an InputData the call fails. Otherwise output row i holds row i's items and is `isDerivedFrom` input data point i, so there are no more rows than input data points. |
| Decoder.SampleMeaning | osp/wrappers/sim_cmcl_mods_wrapper/cuds_adaptor.py:361-382 | The rows go to the root's first SampleSRM node, as one plain DataPoint per value of the first output. |
| Decoder.SensitivitiesMeaning | osp/wrappers/sim_cmcl_mods_wrapper/cuds_adaptor.py:387-403 | There is one Sensitivity per entry of "Sensitivities", in order, named after its entry. |
| Decoder.LabelItemsMeaning | osp/wrappers/sim_cmcl_mods_wrapper/cuds_adaptor.py:393-399 | Every item a label block yields is a SensitivityItem carrying that block's order. |
| Decoder.ZippedMeaning | osp/wrappers/sim_cmcl_mods_wrapper/cuds_adaptor.py:397-399 | zip stops at the shorter list. Item k pairs label k with value k. |
| Decoder.RowItemsMeaning | osp/wrappers/sim_cmcl_mods_wrapper/cuds_adaptor.py:315-322 | Row i holds one item per output, named after it and carrying its value i. It fails exactly when some output lacks a name or a value i. |
| Decoder.PointsMeaning | osp/wrappers/sim_cmcl_mods_wrapper/cuds_adaptor.py:313-324 | There are n rows, in order, each built from row i's items. |
| Decoder.BuildRowItems | osp/wrappers/sim_cmcl_mods_wrapper/cuds_adaptor.py:315-322 | The inner loop over outputs equals RowItems. |
| Decoder.BuildPoints | osp/wrappers/sim_cmcl_mods_wrapper/cuds_adaptor.py:313-324 | The outer loop over row indices equals Points. |
| Decoder.BuildZipped | osp/wrappers/sim_cmcl_mods_wrapper/cuds_adaptor.py:397-399 | The zip loop equals Zipped. |
| Decoder.BuildMatch | osp/wrappers/sim_cmcl_mods_wrapper/cuds_adaptor.py:396-399 | Matching one values block against a label block equals MatchValues. |
| Decoder.BuildLabelItems | osp/wrappers/sim_cmcl_mods_wrapper/cuds_adaptor.py:394-399 | The loop over values blocks equals LabelItems. |
| Decoder.BuildSensitivity | osp/wrappers/sim_cmcl_mods_wrapper/cuds_adaptor.py:390-401 | One Sensitivity built by the label loop equals SensitivityOf. |
| Decoder.BuildSensitivities | osp/wrappers/sim_cmcl_mods_wrapper/cuds_adaptor.py:388-403 | The SensitivityDataSet loop equals SensitivitiesOf. |
| Decoder.BuildRows | osp/wrappers/sim_cmcl_mods_wrapper/cuds_adaptor.py:337-380 | The Evaluate and SampleSRM rows are as many as the first output has values. |
| Decoder.BuildBranch | osp/wrappers/sim_cmcl_mods_wrapper/cuds_adaptor.py:309-403 | The per-template branch equals BranchOf: where its object goes, and the object. |
| Url.QuoteRoundTrip | osp/wrappers/sim_cmcl_mods_wrapper/agent_bridge.py:181-190 | Unquoting a quoted text gives the text back. |
| Url.QuoteAlphabet | osp/wrappers/sim_cmcl_mods_wrapper/agent_bridge.py:190 | A quoted text holds only unreserved characters, `/`, `%` and hexadecimal digits. |
| Url.QuoteIdentity | osp/wrappers/sim_cmcl_mods_wrapper/agent_bridge.py:190 | Quoting leaves a text unchanged exactly when every character is safe, and never shortens it. |
| Url.BytesOfQuote | osp/wrappers/sim_cmcl_mods_wrapper/agent_bridge.py:190 | The bytes a quoted text stands for are the UTF-8 encoding of the text. |
| Bridge.SubmissionUrlCarries | osp/wrappers/sim_cmcl_mods_wrapper/agent_bridge.py:151-162 | A submission URL is the base URL and the submission part, followed by a query that decodes back to the submitted JSON text. |
| Bridge.OutputUrlCarries | osp/wrappers/sim_cmcl_mods_wrapper/agent_bridge.py:164-179 | An output URL is the base URL and the output part, followed by a query that decodes back to `{"jobID":"<id>"}`. |
| Bridge.IsFinalResultMeaning | osp/wrappers/sim_cmcl_mods_wrapper/agent_bridge.py:115-120 | A reply object is final exactly when it holds `jobID`, `SimulationType` and at least one more key. |
| Bridge.PollMeaning | osp/wrappers/sim_cmcl_mods_wrapper/agent_bridge.py:192-232 | Polling sends at most `max - attempt` requests. Every reply but the last was a 204, and polling stops early only on a reply other than 204. It succeeds exactly when the last reply was a 200, with that reply's body. It sleeps once per 204. |
| Bridge.CheckedMeaning | osp/wrappers/sim_cmcl_mods_wrapper/agent_bridge.py:136-149 | A result is dropped exactly when its `message` is a string containing "error". It is passed on unchanged when there is no message or the message does not contain "error". A message that is not a string raises. |
| Bridge.CheckedPassesOn | osp/wrappers/sim_cmcl_mods_wrapper/agent_bridge.py:136-149 | No reply and a `null` body both give None. Whatever is passed on is the reply itself and never `null`. A reply that is neither a dict nor `null` raises exactly when the `in` test on it raises or finds a message. |
| Bridge.CheckedNoKeyError | osp/wrappers/sim_cmcl_mods_wrapper/agent_bridge.py:141-142 | Checking a result never raises a KeyError. |
| Bridge.RunMeaning | osp/wrappers/sim_cmcl_mods_wrapper/agent_bridge.py:37-77 | A job run sends at most `max_attemps` requests. Every request after the first goes to the output URL of the job id the submission named, which the bridge keeps. A refused submission returns None and changes nothing. A final submission reply is returned as it is, without polling. |
| Bridge.RunOutputsFrom | osp/wrappers/sim_cmcl_mods_wrapper/agent_bridge.py:37-77 | Outputs a run returns are the body of a 200 reply to one of its requests. |
| Bridge.RunSleeps | osp/wrappers/sim_cmcl_mods_wrapper/agent_bridge.py:65-68 | A run whose outputs came from polling slept once before the first poll and once after each 204. Every poll but the last was answered 204. |
| Bridge.PollNull | osp/wrappers/sim_cmcl_mods_wrapper/agent_bridge.py:206-232 | A poll answered 200 with a `null` body ends the polling, and the polling gives that `null`. |
| Bridge.RunNullOutputs | osp/wrappers/sim_cmcl_mods_wrapper/agent_bridge.py:225-232 | A job never ends with the outputs `null`: a poll answered 200 with a `null` body makes the run's result None. |
| Bridge.AgentBridge.constructor | osp/wrappers/sim_cmcl_mods_wrapper/agent_bridge.py:32-35 | A new bridge holds no job id and has sent nothing. |
| Bridge.AgentBridge.SubmitJob | osp/wrappers/sim_cmcl_mods_wrapper/agent_bridge.py:79-113 | A non-200 reply returns None and keeps the job id. A 200 reply stores its `jobID` and returns the body, or raises when the reply has no `jobID`. |
| Bridge.AgentBridge.GetJobResults | osp/wrappers/sim_cmcl_mods_wrapper/agent_bridge.py:192-232 | The retry loop sends the requests, sleeps and result that Poll describes. |
| Bridge.AgentBridge.RequestOutputs | osp/wrappers/sim_cmcl_mods_wrapper/agent_bridge.py:122-149 | It polls the output URL of the held job id from attempt 1. No reply or a `null` body gives None; otherwise the result's message is checked. |
| Bridge.AgentBridge.RunJob | osp/wrappers/sim_cmcl_mods_wrapper/agent_bridge.py:37-77 | The result, the job id, the URLs requested and the time slept are those RunOf gives, so a poll answered 200 with `null` ends the job with None. |
| Engine.Detect | osp/wrappers/sim_cmcl_mods_wrapper/mods_engine.py:60-73 | Detection never chooses MCDM or SampleSRM. |
| Engine.DetectFirstMatch | osp/wrappers/sim_cmcl_mods_wrapper/mods_engine.py:36-73 | Detection picks the template of the first class in priority order that is present, every earlier class being absent. It raises exactly when none is present. |
| Engine.ModsEngine.constructor | osp/wrappers/sim_cmcl_mods_wrapper/mods_engine.py:17-23 | A new engine holds MOO, and has assigned neither `executed` nor `successful`. |
| Engine.ModsEngine.DetermineTemplate | osp/wrappers/sim_cmcl_mods_wrapper/mods_engine.py:33-77 | It sets the detected template. When nothing matches it raises UnsupportedSimulationType and keeps the old template. |
| Engine.ModsEngine.GenerateJson | osp/wrappers/sim_cmcl_mods_wrapper/mods_engine.py:79-87 | It sets `executed` to false and returns the request for the current template. |
| Engine.ModsEngine.ParseResults | osp/wrappers/sim_cmcl_mods_wrapper/mods_engine.py:89-96 | It writes the results for the current template. It sets `successful` to true unless that raised, including for None results. |
| Engine.ModsEngine.HasExecuted | osp/wrappers/sim_cmcl_mods_wrapper/mods_engine.py:98-100 | It raises an AttributeError before `generateJSON`, and never answers true. |
| Engine.ModsEngine.WasSuccessful | osp/wrappers/sim_cmcl_mods_wrapper/mods_engine.py:102-104 | It raises an AttributeError before a completed `parseResults`, and never answers false. |
| Session.Handed | osp/wrappers/sim_cmcl_mods_wrapper/mods_session.py:50-54 | The bridge's result is passed on unchanged, and None is passed on as a falsy value. |
| Session.RunOrder | osp/wrappers/sim_cmcl_mods_wrapper/mods_session.py:32-56 | The steps run in order, each only after the previous one succeeded. A failed detection changes nothing. A failed encoding leaves the graph as it was. The graph changes only after the bridge has answered. |
| Session.NoOutputsNoChange | osp/wrappers/sim_cmcl_mods_wrapper/mods_session.py:50-54 | A job that produced no outputs leaves the graph unchanged and still marks the engine successful. |
| Session.NullOutputsNoChange | osp/wrappers/sim_cmcl_mods_wrapper/mods_session.py:50-54 | A job whose poll is answered 200 with a `null` body leaves the graph unchanged and marks the engine successful. |
| Session.RunExtends | osp/wrappers/sim_cmcl_mods_wrapper/mods_session.py:32-56 | A run on a well-formed graph keeps it well-formed and only adds to it. |
| Session.ModsSession.constructor | osp/wrappers/sim_cmcl_mods_wrapper/mods_session.py:15-26 | Without an engine argument, the session holds a new engine. |
| Session.ModsSession.Run | osp/wrappers/sim_cmcl_mods_wrapper/mods_session.py:32-56 | The graph, template, engine flags and failure after `_run` are those SessionRun gives, using a new bridge that holds no job id. |
| Session.ModsSession.LoadFromBackend | osp/wrappers/sim_cmcl_mods_wrapper/mods_session.py:85-97 | For each uid in order, the result is its registered object, or None. |
| MockAgents.InputCount | mods_mock_agent/api/routes/public.py:22-26 | Returns the number of values of the first input, or None where a LookupError was caught. |
| MockAgents.OutputsFor | tests/mods_mock_agent/api/routes/public.py:109-120 | The reply is a 200 or a 400, never a 204. It is a 200 exactly when the query names a stored string id, and then it carries that job's outputs. A 400 carries `{}`. |
| MockAgents.Record | tests/mods_mock_agent/api/routes/public.py:99 | An accepted job's outputs are stored under its id, and nothing else changes. |
| Json.IntOf | tests/mods_mock_agent/api/routes/public.py:64 | `int()` keeps an integer as it is and truncates a float toward zero. |
| Json.PyEqRefl | osp/wrappers/sim_cmcl_mods_wrapper/cuds_adaptor.py:396 | Python's `==` as modelled holds between any JSON value and itself, lists and dicts included, so a label block always matches a values block of the same order. |
| Json.PyEqSym | osp/wrappers/sim_cmcl_mods_wrapper/cuds_adaptor.py:396 | Python's `==` as modelled is symmetric, numbers across bool, int and float, lists element by element and dicts whatever their key order. |
| MockAgents.Counting | tests/mods_mock_agent/api/routes/public.py:57-58 | `[float(i) for i in range(n)]` has max(n, 0) elements, and element i is i. |
| TestAgent.Matching | tests/mods_mock_agent/api/routes/public.py:104-105 | One algorithm is kept exactly when its type is the primary one. The filter fails exactly when the algorithm has no type or the simulation type is unknown. |
| TestAgent.KeptNone | tests/mods_mock_agent/api/routes/public.py:104-105 | When the filter succeeds, it succeeded on every algorithm, and it keeps nothing exactly when no algorithm is primary. |
| TestAgent.KeptFirst | tests/mods_mock_agent/api/routes/public.py:104-105 | What the filter keeps first is the first primary algorithm. |
| TestAgent.PrimaryAlgorithmMeaning | tests/mods_mock_agent/api/routes/public.py:103-105 | The primary algorithm exists only for a known simulation type. It is the first algorithm whose type the simulation type names. |
| TestAgent.VariableNamesMeaning | tests/mods_mock_agent/api/routes/public.py:36-39 | The names listed are exactly those of the variables of the type asked for, in order. |
| TestAgent.Joined | tests/mods_mock_agent/api/routes/public.py:80 | `a + " and " + b` succeeds exactly when both are strings, and joins them. |
| TestAgent.PairsOk | tests/mods_mock_agent/api/routes/public.py:79-82 | Labelling pairs succeeds exactly when there are fewer than two inputs or all are strings. |
| TestAgent.PairsCount | tests/mods_mock_agent/api/routes/public.py:79-82 | n inputs give n(n-1)/2 second-order labels. |
| TestAgent.PairsComplete | tests/mods_mock_agent/api/routes/public.py:79-82 | Every pair i < j has its label `a and b` among the labels. |
| TestAgent.PairsSound | tests/mods_mock_agent/api/routes/public.py:79-82 | Every label is that of some pair i < j. |
| TestAgent.Entries | tests/mods_mock_agent/api/routes/public.py:55-71 | There is one `{name, values}` entry per name, in order, each carrying the given values. |
| TestAgent.SensitivityLabels | tests/mods_mock_agent/api/routes/public.py:76-94 | A Sensitivity job's second-order labels are one per pair of inputs i < j, n(n-1)/2 in all. |
| TestAgent.Sensitivities | tests/mods_mock_agent/api/routes/public.py:76-94 | There is one block per output variable. Each block has the order-1 and order-2 labels and as many counted values as each order has labels. |
| TestAgent.EvaluateOutputs | tests/mods_mock_agent/api/routes/public.py:50-61 | Evaluate outputs are the query's inputs followed by one entry per output variable of `Algorithms[1]`, each counting 0.0 to n-1. |
| TestAgent.OptimisationOutputs | tests/mods_mock_agent/api/routes/public.py:64-71 | There is one entry per variable, each counting 0.0 to `int(maxNumberOfResults)`-1. It fails exactly when that attribute is missing or not an integer. |
| TestAgent.StatusRead | tests/mods_mock_agent/api/routes/public.py:31 | A status reads back its job id and simulation type, and is final exactly when it has more keys. |
| TestAgent.SimulateKnownType | tests/mods_mock_agent/api/routes/public.py:27-34 | The agent answers only queries whose simulation type it knows, so the 400 branch for an unknown type is unreachable. |
| TestAgent.SimulateReplies | tests/mods_mock_agent/api/routes/public.py:21-100 | The agent refuses only an Evaluate job whose inputs have no values list. It accepts everything else with 200 and a status naming the job and its type. The status is final exactly for MCDM and Sensitivity, and then it equals the stored outputs. HDMR stores the bare status. |
| TestAgent.AnswerReplies | tests/mods_mock_agent/api/routes/public.py:42-100 | The branch on a known simulation type refuses only an Evaluate job without a values list, and otherwise accepts the job as SimulateReplies describes. |
| TestAgent.AcceptedJobRetrieved | tests/mods_mock_agent/api/routes/public.py:99-120 | An accepted job can be fetched back with the id its status names, and `getOutputs` answers 200 with its outputs. |
| TestAgent.MockAgent.constructor | tests/mods_mock_agent/api/routes/public.py:16 | The agent starts with no stored jobs. |
| TestAgent.MockAgent.RunSimulation | tests/mods_mock_agent/api/routes/public.py:20-100 | It returns the reply or the escaping exception, and stores an accepted job's outputs under its id. |
| TestAgent.MockAgent.GetOutputs | tests/mods_mock_agent/api/routes/public.py:109-120 | It looks up the job the query names under `jobID`. |
| ProductionAgent.Copies | mods_mock_agent/api/routes/public.py:32-37 | `[x] * n` has n elements, each x. |
| ProductionAgent.SixNames | mods_mock_agent/api/routes/public.py:32-37 | Reading the names of the first six inputs succeeds exactly when all six have a name, and gives them in order. |
| ProductionAgent.SimulateMeaning | mods_mock_agent/api/routes/public.py:17-42 | The agent refuses exactly the queries whose first input has no values list, and then stores nothing. Otherwise it answers 200 naming the job and stores six entries. Entry i is named after input i and repeats constant i (2, 1, 5, 7, 1, 0.1) once per value of the first input. |
| ProductionAgent.JobIdKeyMismatch | mods_mock_agent/api/routes/public.py:42 | A bridge submitting to the agent as written raises a KeyError and never polls. |
| ProductionAgent.OutputsKeyMismatch | mods_mock_agent/api/routes/public.py:50 | `getOutputs` as written raises a KeyError on the query the bridge sends. |
| ProductionAgent.CorrectedJobIdServes | mods_mock_agent/api/routes/public.py:40-57 | With `jobID` as the key, a bridge keeps the agent's job id and polls for it, and `getOutputs` returns the stored outputs. |
| ProductionAgent.MockAgent.constructor | mods_mock_agent/api/routes/public.py:12 | The agent starts with no stored jobs. |
| ProductionAgent.MockAgent.RunSimulation | mods_mock_agent/api/routes/public.py:17-42 | It returns the reply or the escaping exception, and stores an accepted job's outputs under its id. |
| ProductionAgent.MockAgent.GetOutputs | mods_mock_agent/api/routes/public.py:46-57 | It returns the outputs of the job the query names under `jobId`. |
| App.StripMeaning | app/main.py:33 | `strip()` removes whitespace at the two ends and nothing else. What is left neither starts nor ends with whitespace. |
| App.StripIdempotent | app/main.py:33 | Stripping twice strips nothing more. |
| App.SplitShape | app/main.py:33-34 | A split has one piece more than there are separators, and no piece holds a separator. |
| App.JoinSplit | app/main.py:33-34 | Joining the pieces of a split gives back the string. |
| App.SplitJoin | app/main.py:33-34 | Splitting a join of pieces that hold no separator gives back the pieces. |
| App.DropCallsChanges | app/main.py:37-38 | `replace("()", "")` changes a name exactly when it holds `()`. |
| App.DropCallsKeeps | app/main.py:37 | The replacement keeps every character other than a parenthesis, in order. |
| App.DropCallsCounts | app/main.py:37 | The replacement removes as many `(` as `)`, two characters per pair. |
| App.ParseSegment | app/main.py:33-41 | A segment parses exactly when, stripped, it holds exactly one `:`. The module is the text before it and the class the text after it. `called` is true exactly when the class text holds `()`, and then the class has `()` removed. |
| App.DependenciesMeaning | app/main.py:31-55 | No setting, or an empty one, gives no dependencies. Otherwise there is one dependency per `|`-separated segment, in order, each parsed from its own segment. It fails exactly when some segment does not hold exactly one `:`. |
| App.Body | app/main.py:59-66 | The body is accepted exactly when the Content-Type is "text/turtle" or "application/ld+json". Otherwise the answer is a 400. |

## Left out

- The osp-core graph engine and the ontology are not part of this model. The graph is a
  sequence of nodes. `IsA` encodes only the part of the class hierarchy the searches need: every
  simulation kind is a Simulation, and a RankedDataPoint is a DataPoint. Whether a SampleSRM or
  MCDM object matches the detection searches depends on an ontology that is not shown.
- HTTP, `json.loads`, `json.dumps` and `time.sleep`.
  - Replies come from the `Server` parameter, with bodies already parsed.
  - `json.dumps` is the `dumps` parameter of a session run.
  - Sleeping adds `poll_intervall` to a counter.
  - The plain-text 400 body of the stand-in agents is kept as a JSON string.
- Malformed JSON and transport errors from the libraries are not modelled. A request either gets
  a reply or the model has nothing to say about it.
- `uuid.uuid4()` is the `id` parameter of the agents' routes.
- Bridge.IdText: `str(jobID)` is spelled out for strings, None, booleans and integers. Other
  job ids (floats, lists, objects) are given the empty text, because Python's `repr` of those
  is not modelled.
- Json.IntOf: `int()` of a string does not accept surrounding whitespace or `_` digit
  separators, because the model's numeral reader is plain decimal.
- Json: floats are exact reals. The 0.1 the shipped agent repeats is the real 1/10, and no
  rounding is modelled.
- Bridge.AgentBridge: `poll_intervall` is a natural number. A negative interval, which makes
  `time.sleep` raise, is not modelled.
- `get_deps` from `import_module` onwards (`app/main.py:42-49`): importing modules, looking up
  classes and building `Depends` need a Python runtime. The model stops at the parsed
  (module, class, called) triples.
- The FastAPI plumbing around `get_body`, and `await request.body()`, which is the `body`
  parameter.
- `inputAnalyticModelCUDStoJSON` (`cuds_adaptor.py:278-292`): `toJSON` never calls it.
- The `_apply_added`, `_apply_updated` and `_apply_deleted` methods of the session have an empty
  body, so there is nothing to model.
- Logging and the settings' environment variables. `Bridge.Defaults` holds the defaults from
  `settings.py`.

## Findings

| source | as written | input that shows it | evidently intended | confidence | as-written member | corrected member |
|---|---|---|---|---|---|---|
| mods_mock_agent/api/routes/public.py:42 | `runSimulation` replies `{"jobId": id}`, but the bridge reads `jobID` (agent_bridge.py:110) | any query whose first six inputs have names and whose first input has a values list | reply `{"jobID": id}` | not executed | ProductionAgent.JobIdKeyMismatch | ProductionAgent.CorrectedJobIdServes |
| mods_mock_agent/api/routes/public.py:50 | `getOutputs` reads `query["jobId"]`, but the bridge sends `{"jobID": ...}` (agent_bridge.py:176) | the output query `{"jobID": "<id>"}` for any id | read `query["jobID"]` | not executed | ProductionAgent.OutputsKeyMismatch | ProductionAgent.CorrectedJobIdServes |
