/** The wrapper session (`MoDS_Session`): one run detects the template, encodes the graph, hands
    the request to a new bridge, and writes what comes back into the graph. `json.dumps` is a
    parameter of a run, since the model keeps requests as JSON values. */
module Session {
  import opened Wrappers
  import opened Json
  import opened Graph
  import opened Templates
  import opened Encoder
  import opened Decoder
  import opened Bridge
  import opened Engine

  /** Why a run stopped early: detection found no supported simulation, the encoder raised, or
      the bridge or the result parser raised. */
  datatype Failure = Unsupported | Encoding(cause: EncodeError) | Raised(exception: PyError)

  /** The results handed to `parseResults`: the bridge's None is passed on as is. */
  function Handed(result: Option<Json>): (j: Json)
    ensures result.None? ==> !Truthy(j)
    ensures result.Some? ==> j == result.value
  {
    match result
    case None => Null
    case Some(v) => v
  }

  /** What a run leaves behind: the graph, the engine's template, whether `generateJSON` and a
      completed `parseResults` happened, and the failure, if any. */
  datatype Step = Step(nodes: seq<Node>, template: Template, generated: bool, parsed: bool,
                       failure: Option<Failure>)

  /** `_run(root)` on a graph, with an engine holding `template`, against an agent that answers
      as `server` does. */
  function SessionRun(nodes: seq<Node>, root: nat, template: Template, s: Settings, server: Server,
                 dumps: Json -> string): Step
  {
    match Detect(nodes, root)
    case None => Step(nodes, template, false, false, Some(Unsupported))
    case Some(t) =>
      match Request(nodes, root, t)
      case Err(e) => Step(nodes, t, true, false, Some(Encoding(e)))
      case Ok(doc) =>
        var run := Bridge.RunOf(s, server, 0, Null, dumps(doc));
        match run.result
        case Err(e) => Step(nodes, t, true, false, Some(Raised(e)))
        case Ok(results) =>
          var out := Decode(nodes, root, Handed(results), t);
          Step(out.nodes, t, true, out.error.None?, if out.error.None? then None else Some(Raised(out.error.value)))
  }

  /** The steps run in order, each only after the previous one succeeded: the graph changes only
      once the bridge has answered; detection failing leaves everything as it was; the engine
      ends with the detected template whenever there is one. */
  lemma RunOrder(nodes: seq<Node>, root: nat, template: Template, s: Settings, server: Server,
                 dumps: Json -> string)
    ensures var step := SessionRun(nodes, root, template, s, server, dumps);
      && (step.failure == Some(Unsupported) <==> Detect(nodes, root).None?)
      && (step.generated <==> Detect(nodes, root).Some?)
      && (step.parsed ==> step.generated && step.failure.None?)
      && (Detect(nodes, root).None? ==> step.nodes == nodes && step.template == template)
      && (Detect(nodes, root).Some? ==> step.template == Detect(nodes, root).value)
      && (step.nodes != nodes ==>
            Detect(nodes, root).Some? && Request(nodes, root, Detect(nodes, root).value).Ok? &&
            Bridge.RunOf(s, server, 0, Null, dumps(Request(nodes, root, Detect(nodes, root).value).value)).result.Ok?)
      && (Detect(nodes, root).Some? && Request(nodes, root, Detect(nodes, root).value).Err? ==>
            step.nodes == nodes && step.failure == Some(Encoding(Request(nodes, root, Detect(nodes, root).value).error)))
  {
    match Detect(nodes, root)
    case None =>
    case Some(t) =>
      match Request(nodes, root, t)
      case Err(e) =>
      case Ok(doc) =>
  }

  /** A job that produced no outputs leaves the graph unchanged and still counts as a success. */
  lemma NoOutputsNoChange(nodes: seq<Node>, root: nat, template: Template, s: Settings, server: Server,
                          dumps: Json -> string)
    requires Detect(nodes, root).Some? && Request(nodes, root, Detect(nodes, root).value).Ok?
    requires Bridge.RunOf(s, server, 0, Null, dumps(Request(nodes, root, Detect(nodes, root).value).value)).result == Ok(None)
    ensures SessionRun(nodes, root, template, s, server, dumps) ==
              Step(nodes, Detect(nodes, root).value, true, true, None)
  {
    DecodeMeaning(nodes, root, Null, Detect(nodes, root).value);
  }

  /** A poll the agent answers 200 with a `null` body is a job without outputs: `_run` passes
      None to `parseResults`, which changes nothing and marks the engine successful. */
  lemma NullOutputsNoChange(nodes: seq<Node>, root: nat, template: Template, s: Settings, server: Server,
                            dumps: Json -> string, i: nat)
    requires Detect(nodes, root).Some? && Request(nodes, root, Detect(nodes, root).value).Ok?
    requires var run := Bridge.RunOf(s, server, 0, Null, dumps(Request(nodes, root, Detect(nodes, root).value).value));
      1 <= i < |run.urls| && server(i, run.urls[i]) == Bridge.Response(200, Null)
    ensures SessionRun(nodes, root, template, s, server, dumps) ==
              Step(nodes, Detect(nodes, root).value, true, true, None)
  {
    var json := dumps(Request(nodes, root, Detect(nodes, root).value).value);
    Bridge.RunNullAt(s, server, 0, Null, json, i);
    NoOutputsNoChange(nodes, root, template, s, server, dumps);
  }

  /** A run only adds to a well-formed graph. */
  lemma RunExtends(nodes: seq<Node>, root: nat, template: Template, s: Settings, server: Server,
                   dumps: Json -> string)
    requires Closed(nodes)
    ensures Closed(SessionRun(nodes, root, template, s, server, dumps).nodes)
    ensures Extends(nodes, SessionRun(nodes, root, template, s, server, dumps).nodes)
  {
    match Detect(nodes, root)
    case None =>
    case Some(t) =>
      match Request(nodes, root, t)
      case Err(e) =>
      case Ok(doc) =>
        var run := Bridge.RunOf(s, server, 0, Null, dumps(doc));
        if run.result.Ok? {
          DecodeClosed(nodes, root, Handed(run.result.value), t);
        } else {
          ExtendsRefl(nodes);
        }
  }

  lemma ExtendsRefl(nodes: seq<Node>)
    ensures Extends(nodes, nodes)
  {
  }

  type Uid = nat

  class ModsSession {
    const engine: ModsEngine
    const settings: Settings
    /** The objects the session has loaded, by uid. */
    var registry: map<Uid, Node>

    /** `MoDS_Session(engine)`: a new engine when none is given. */
    constructor(engine: ModsEngine?, settings: Settings, registry: map<Uid, Node>)
      ensures engine != null ==> this.engine == engine
      ensures engine == null ==> (fresh(this.engine) && this.engine.template == MOO &&
                this.engine.executed == None && this.engine.successful == None)
      ensures this.settings == settings && this.registry == registry
    {
      if engine == null {
        this.engine := new ModsEngine();
      } else {
        this.engine := engine;
      }
      this.settings := settings;
      this.registry := registry;
    }

    /** `_run(root)`: every run talks to the agent through a new bridge, which holds no job id. */
    method Run(store: Store, root: nat, server: Server, dumps: Json -> string) returns (failure: Option<Failure>)
      modifies engine, store
      ensures var step := SessionRun(old(store.nodes), root, old(engine.template), settings, server, dumps);
        && store.nodes == step.nodes
        && engine.template == step.template
        && failure == step.failure
        && engine.executed == (if step.generated then Some(false) else old(engine.executed))
        && engine.successful == (if step.parsed then Some(true) else old(engine.successful))
      ensures old(store.Valid()) ==> store.Valid()
    {
      var detected := engine.DetermineTemplate(store, root);
      if detected.Some? {
        return Some(Unsupported);
      }
      var request := engine.GenerateJson(store, root);
      if request.Err? {
        return Some(Encoding(request.error));
      }
      var bridge := new AgentBridge(settings, server);
      var results := bridge.RunJob(dumps(request.value));
      if results.Err? {
        return Some(Raised(results.error));
      }
      var err := engine.ParseResults(store, root, Handed(results.value));
      failure := if err.None? then None else Some(Raised(err.value));
    }

    /** `_load_from_backend(uids)`: for each uid in order, its registered object or None. */
    method LoadFromBackend(uids: seq<Uid>) returns (loaded: seq<Option<Node>>)
      ensures |loaded| == |uids|
      ensures forall i :: 0 <= i < |uids| ==>
                loaded[i] == if uids[i] in registry then Some(registry[uids[i]]) else None
    {
      loaded := [];
      var i := 0;
      while i < |uids|
        invariant 0 <= i <= |uids| && |loaded| == i
        invariant forall j :: 0 <= j < i ==>
                    loaded[j] == if uids[j] in registry then Some(registry[uids[j]]) else None
      {
        if uids[i] in registry {
          loaded := loaded + [Some(registry[uids[i]])];
        } else {
          loaded := loaded + [None];
        }
        i := i + 1;
      }
    }
  }
}
