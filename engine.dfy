/** The MoDS engine (`MoDS_Engine`): it picks the simulation template from the kinds of
    simulation present in the graph, turns the graph into a request, and writes the results
    back. */
module Engine {
  import opened Wrappers
  import opened Json
  import opened Graph
  import opened Templates
  import opened Encoder
  import opened Decoder

  /** The templates detection tries, in order, with the class whose presence selects each. */
  const Priority: seq<(OClass, Template)> := [
    (MultiObjectiveSimulation, MOO),
    (MultiObjectiveSimulationOnly, MOOonly),
    (HighDimensionalModelRepresentationSimulation, HDMR),
    (DeepKernelLearningSimulation, DKL),
    (EvaluateSurrogate, Evaluate),
    (SensitivityAnalysis, Template.Sensitivity)
  ]

  /** Whether some node of the class is reachable from root. */
  predicate Present(nodes: seq<Node>, root: nat, cls: OClass)
  {
    Find(nodes, cls, root, None) != []
  }

  /** `determineTemplate`'s choice: the first kind of simulation found; None where it raises
      `UnsupportedSimulationType`. It never chooses MCDM or SampleSRM: those are reached only
      through the template the engine already holds. */
  function Detect(nodes: seq<Node>, root: nat): (r: Option<Template>)
    ensures r != Some(MCDM) && r != Some(Template.SampleSRM)
  {
    if Present(nodes, root, MultiObjectiveSimulation) then Some(MOO)
    else if Present(nodes, root, MultiObjectiveSimulationOnly) then Some(MOOonly)
    else if Present(nodes, root, HighDimensionalModelRepresentationSimulation) then Some(HDMR)
    else if Present(nodes, root, DeepKernelLearningSimulation) then Some(DKL)
    else if Present(nodes, root, EvaluateSurrogate) then Some(Evaluate)
    else if Present(nodes, root, SensitivityAnalysis) then Some(Template.Sensitivity)
    else None
  }

  /** Detection picks the template of the first class in `Priority` that is present, every
      earlier one being absent, and raises exactly when none is present. */
  lemma DetectFirstMatch(nodes: seq<Node>, root: nat)
    ensures Detect(nodes, root).None? <==>
              forall i :: 0 <= i < |Priority| ==> !Present(nodes, root, Priority[i].0)
    ensures Detect(nodes, root).Some? ==>
              exists i :: 0 <= i < |Priority| && Priority[i].1 == Detect(nodes, root).value &&
                Present(nodes, root, Priority[i].0) &&
                forall j :: 0 <= j < i ==> !Present(nodes, root, Priority[j].0)
  {
    var p := Priority;
    if Present(nodes, root, p[0].0) {
      assert Detect(nodes, root) == Some(p[0].1);
    } else if Present(nodes, root, p[1].0) {
      assert forall j :: 0 <= j < 1 ==> !Present(nodes, root, p[j].0);
    } else if Present(nodes, root, p[2].0) {
      assert forall j :: 0 <= j < 2 ==> !Present(nodes, root, p[j].0);
    } else if Present(nodes, root, p[3].0) {
      assert forall j :: 0 <= j < 3 ==> !Present(nodes, root, p[j].0);
    } else if Present(nodes, root, p[4].0) {
      assert forall j :: 0 <= j < 4 ==> !Present(nodes, root, p[j].0);
    } else if Present(nodes, root, p[5].0) {
      assert forall j :: 0 <= j < 5 ==> !Present(nodes, root, p[j].0);
    }
  }

  /** What `determineTemplate` raises. */
  datatype EngineError = UnsupportedSimulationType

  class ModsEngine {
    /** `simulation_template`. */
    var template: Template
    /** `executed` and `successful`; None while the attribute has not been assigned. */
    var executed: Option<bool>
    var successful: Option<bool>

    /** The engine never records an execution, and never a failure. */
    ghost predicate Valid()
      reads this
    {
      executed != Some(true) && successful != Some(false)
    }

    constructor()
      ensures template == MOO && executed == None && successful == None
      ensures Valid()
    {
      template := MOO;
      executed := None;
      successful := None;
    }

    /** `determineTemplate(root)`. */
    method DetermineTemplate(store: Store, root: nat) returns (err: Option<EngineError>)
      modifies this
      ensures Detect(store.nodes, root).Some? ==> err == None && template == Detect(store.nodes, root).value
      ensures Detect(store.nodes, root).None? ==> err == Some(UnsupportedSimulationType) && template == old(template)
      ensures executed == old(executed) && successful == old(successful)
    {
      var nodes := store.nodes;
      if Find(nodes, MultiObjectiveSimulation, root, None) != [] {
        template := MOO;
      } else if Find(nodes, MultiObjectiveSimulationOnly, root, None) != [] {
        template := MOOonly;
      } else if Find(nodes, HighDimensionalModelRepresentationSimulation, root, None) != [] {
        template := HDMR;
      } else if Find(nodes, DeepKernelLearningSimulation, root, None) != [] {
        template := DKL;
      } else if Find(nodes, EvaluateSurrogate, root, None) != [] {
        template := Evaluate;
      } else if Find(nodes, SensitivityAnalysis, root, None) != [] {
        template := Template.Sensitivity;
      } else {
        return Some(UnsupportedSimulationType);
      }
      err := None;
    }

    /** `generateJSON(root)`: marks the engine as not executed, then encodes the graph for the
        current template. */
    method GenerateJson(store: Store, root: nat) returns (r: Result<Json, EncodeError>)
      modifies this
      ensures executed == Some(false) && template == old(template) && successful == old(successful)
      ensures r == Request(store.nodes, root, template)
    {
      executed := Some(false);
      r := ToJson(store.nodes, root, template);
    }

    /** `parseResults(root, results)`: writes the results into the graph for the current
        template and, unless that raised, marks the engine successful. */
    method ParseResults(store: Store, root: nat, results: Json) returns (err: Option<PyError>)
      modifies this, store
      ensures Outcome(store.nodes, err) == Decode(old(store.nodes), root, results, template)
      ensures old(store.Valid()) ==> store.Valid()
      ensures template == old(template) && executed == old(executed)
      ensures successful == if err.None? then Some(true) else old(successful)
    {
      err := ToCuds(store, root, results, template);
      if err.None? {
        successful := Some(true);
      }
    }

    /** `hasExecuted()`: an AttributeError until `generateJSON` has run, and never true. */
    method HasExecuted() returns (r: Result<bool, PyError>)
      requires Valid()
      ensures executed.None? <==> r == Err(AttributeError)
      ensures executed.Some? ==> r == Ok(executed.value)
      ensures r != Ok(true)
    {
      if executed.None? {
        return Err(AttributeError);
      }
      return Ok(executed.value);
    }

    /** `wasSuccessful()`: an AttributeError until `parseResults` has completed, and never false. */
    method WasSuccessful() returns (r: Result<bool, PyError>)
      requires Valid()
      ensures successful.None? <==> r == Err(AttributeError)
      ensures successful.Some? ==> r == Ok(successful.value)
      ensures r != Ok(false)
    {
      if successful.None? {
        return Err(AttributeError);
      }
      return Ok(successful.value);
    }
  }
}
