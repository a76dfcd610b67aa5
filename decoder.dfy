/** `toCUDS`: writing the agent's result document back into the graph.

    Every branch first builds a detached result object (a ParetoFront of ranked rows, an
    OutputData of rows, a SensitivityDataSet) and adds it to the simulation node in one step;
    then a JobID naming `jsonResults["jobID"]` is added beside it. A failed subscript anywhere
    before the add leaves the graph as it was; a missing jobID leaves the branch in place. */
module Decoder {
  import opened Wrappers
  import opened Seqs
  import opened Json
  import opened Graph
  import opened Templates

  /** `mods.DataPointItem(name=..., value=...)`. */
  function Item(name: Json, value: Json): Cuds
  {
    Cuds(DataPointItem, map["name" := name, "value" := value], [], [])
  }

  // ----- rows of output values -----

  /** `output["values"][i]`, then `output["name"]`: the item row i gets from one output column. */
  function ItemAt(o: Json, i: nat): Result<(Rel, Cuds), PyError>
  {
    var vs :- Key(o, "values");
    var v :- Idx(vs, i);
    var name :- Key(o, "name");
    Ok((HasPart, Item(name, v)))
  }

  function ItemStep(i: nat): Json -> Result<(Rel, Cuds), PyError>
  {
    (o: Json) => ItemAt(o, i)
  }

  /** The items of row i: one per output column, in column order. */
  function RowItems(outs: seq<Json>, i: nat): Result<seq<(Rel, Cuds)>, PyError>
  {
    MapAll(ItemStep(i), outs)
  }

  /** How a branch wraps a row: a RankedDataPoint ranked from 1 (the Pareto front), a DataPoint
      derived from input data point i (Evaluate), or a plain DataPoint (SampleSRM). */
  datatype RowKind = Ranked | Derived(inputs: seq<nat>) | Plain

  /** Row i as the object its branch adds to the result; for a derived row the link to input data
      point i is subscripted after the items are made. */
  function Point(outs: seq<Json>, kind: RowKind, i: nat): Result<(Rel, Cuds), PyError>
  {
    var items :- RowItems(outs, i);
    match kind
    case Ranked => Ok((ActiveRelationship, Cuds(RankedDataPoint, map["ranking" := Int(i + 1)], items, [])))
    case Derived(dps) =>
      if i < |dps| then Ok((HasPart, Cuds(DataPoint, map[], items, [Edge(IsDerivedFrom, dps[i])])))
      else Err(LookupError)
    case Plain => Ok((HasPart, Cuds(DataPoint, map[], items, [])))
  }

  function PointStep(outs: seq<Json>, kind: RowKind): nat -> Result<(Rel, Cuds), PyError>
  {
    (i: nat) => Point(outs, kind, i)
  }

  /** Rows 0..n-1, in order. */
  function Points(outs: seq<Json>, kind: RowKind, n: nat): Result<seq<(Rel, Cuds)>, PyError>
  {
    MapAll(PointStep(outs, kind), Range(n))
  }

  /** `len(outputs[0]["values"])`: the number of rows. */
  function FirstLength(outsJ: Json): Result<nat, PyError>
  {
    var first :- Idx(outsJ, 0);
    var vs :- Key(first, "values");
    Length(vs)
  }

  /** Row i holds one item per output column, named after the column and carrying the column's
      value i; it fails exactly when some column lacks a name or a value i. */
  lemma RowItemsMeaning(outs: seq<Json>, i: nat)
    ensures RowItems(outs, i).Ok? <==> forall j :: 0 <= j < |outs| ==> ItemAt(outs[j], i).Ok?
    ensures RowItems(outs, i).Ok? ==>
              |RowItems(outs, i).value| == |outs| &&
              forall j :: 0 <= j < |outs| ==>
                RowItems(outs, i).value[j] ==
                  (HasPart, Item(Key(outs[j], "name").value, Idx(Key(outs[j], "values").value, i).value))
  {
    MapAllOk(ItemStep(i), outs);
  }

  /** n rows, in order, each of kind `kind` over row i's items. */
  lemma PointsMeaning(outs: seq<Json>, kind: RowKind, n: nat)
    ensures Points(outs, kind, n).Ok? <==> forall i :: 0 <= i < n ==> Point(outs, kind, i).Ok?
    ensures Points(outs, kind, n).Ok? ==>
              |Points(outs, kind, n).value| == n &&
              forall i :: 0 <= i < n ==> Points(outs, kind, n).value[i] == Point(outs, kind, i).value
  {
    var r := Range(n);
    MapAllOk(PointStep(outs, kind), r);
    forall i | 0 <= i < n ensures PointStep(outs, kind)(r[i]) == Point(outs, kind, i) {
      assert r[i] == i;
    }
  }

  /** Pareto rows: row i is ranked i + 1 and holds row i's items. */
  lemma RankedRows(outs: seq<Json>, n: nat, rows: seq<(Rel, Cuds)>)
    requires Points(outs, Ranked, n) == Ok(rows)
    ensures |rows| == n
    ensures forall i :: 0 <= i < n ==>
              RowItems(outs, i).Ok? &&
              rows[i] == (ActiveRelationship, Cuds(RankedDataPoint, map["ranking" := Int(i + 1)], RowItems(outs, i).value, []))
  {
    PointsMeaning(outs, Ranked, n);
    forall i | 0 <= i < n
      ensures RowItems(outs, i).Ok? &&
              rows[i] == (ActiveRelationship, Cuds(RankedDataPoint, map["ranking" := Int(i + 1)], RowItems(outs, i).value, []))
    {
      assert Point(outs, Ranked, i).Ok?;
    }
  }

  /** Evaluate rows: row i holds row i's items and links to input data point i, so there are no
      more rows than input data points. */
  lemma DerivedRows(outs: seq<Json>, dps: seq<nat>, n: nat, rows: seq<(Rel, Cuds)>)
    requires Points(outs, Derived(dps), n) == Ok(rows)
    ensures |rows| == n && n <= |dps|
    ensures forall i :: 0 <= i < n ==>
              RowItems(outs, i).Ok? &&
              rows[i] == (HasPart, Cuds(DataPoint, map[], RowItems(outs, i).value, [Edge(IsDerivedFrom, dps[i])]))
  {
    PointsMeaning(outs, Derived(dps), n);
    forall i | 0 <= i < n
      ensures i < |dps| && RowItems(outs, i).Ok? &&
              rows[i] == (HasPart, Cuds(DataPoint, map[], RowItems(outs, i).value, [Edge(IsDerivedFrom, dps[i])]))
    {
      assert Point(outs, Derived(dps), i).Ok?;
    }
    if n > 0 {
      assert n - 1 < |dps|;
    }
  }

  /** SampleSRM rows: row i is a plain DataPoint holding row i's items. */
  lemma PlainRows(outs: seq<Json>, n: nat, rows: seq<(Rel, Cuds)>)
    requires Points(outs, Plain, n) == Ok(rows)
    ensures |rows| == n
    ensures forall i :: 0 <= i < n ==>
              RowItems(outs, i).Ok? && rows[i] == (HasPart, Cuds(DataPoint, map[], RowItems(outs, i).value, []))
  {
    PointsMeaning(outs, Plain, n);
    forall i | 0 <= i < n
      ensures RowItems(outs, i).Ok? && rows[i] == (HasPart, Cuds(DataPoint, map[], RowItems(outs, i).value, []))
    {
      assert Point(outs, Plain, i).Ok?;
    }
  }

  // ----- the branches -----

  /** MOO, MOOonly and MCDM: a ParetoFront with one RankedDataPoint per value of the first output
      column (none when there is no output column). */
  function FrontOf(results: Json): Result<Cuds, PyError>
  {
    var outsJ :- Key(results, "Outputs");
    var len :- Length(outsJ);
    var n :- if len == 0 then Ok(0) else FirstLength(outsJ);
    var outs :- Elements(outsJ);
    var points :- Points(outs, Ranked, n);
    Ok(Cuds(ParetoFront, map[], points, []))
  }

  /** Evaluate: an OutputData whose row i is derived from the i-th data point of the simulation's
      first InputData. */
  function EvaluateOf(nodes: seq<Node>, sim: nat, results: Json): Result<Cuds, PyError>
  {
    var ins := Children(nodes, sim, InputData, None);
    if ins == [] then Err(LookupError)
    else
      var dps := Children(nodes, ins[0], DataPoint, Some(HasPart));
      var outsJ :- Key(results, "Outputs");
      var n :- FirstLength(outsJ);
      var outs :- Elements(outsJ);
      var points :- Points(outs, Derived(dps), n);
      Ok(Cuds(OutputData, map[], points, []))
  }

  /** SampleSRM: the result goes to the root's first SampleSRM node, as an OutputData of rows. */
  function SampleOf(nodes: seq<Node>, root: nat, results: Json): (r: Result<(nat, Cuds), PyError>)
    ensures r.Ok? ==> r.value.0 < |nodes|
  {
    var srms := Children(nodes, root, OClass.SampleSRM, None);
    if srms == [] then Err(LookupError)
    else
      var outsJ :- Key(results, "Outputs");
      var n :- FirstLength(outsJ);
      var outs :- Elements(outsJ);
      var points :- Points(outs, Plain, n);
      assert srms[0] in srms;
      Ok((srms[0], Cuds(OutputData, map[], points, [])))
  }

  // ----- sensitivities -----

  /** `mods.SensitivityItem(name=..., value=..., order=...)`. */
  function SensitivityItem(name: Json, value: Json, order: Json): Cuds
  {
    Cuds(OClass.SensitivityItem, map["name" := name, "value" := value, "order" := order], [], [])
  }

  /** `zip(names, values)`: pairs up to the shorter list. */
  function Zipped(names: seq<Json>, values: seq<Json>, order: Json): seq<(Rel, Cuds)>
  {
    var n := if |names| <= |values| then |names| else |values|;
    seq(n, k requires 0 <= k < n => (ActiveRelationship, SensitivityItem(names[k], values[k], order)))
  }

  /** One values block against one label block of the given order: nothing when the orders
      differ, otherwise the zipped items. */
  function MatchValues(labels: Json, order: Json, block: Json): Result<seq<(Rel, Cuds)>, PyError>
  {
    var o :- Key(block, "order");
    if !PyEq(order, o) then Ok([])
    else
      var names :- Key(labels, "values");
      var values :- Key(block, "values");
      var ns :- Elements(names);
      var vs :- Elements(values);
      Ok(Zipped(ns, vs, order))
  }

  function ValuesStep(labels: Json, order: Json): Json -> Result<seq<(Rel, Cuds)>, PyError>
  {
    (block: Json) => MatchValues(labels, order, block)
  }

  /** One label block: its order, matched against every values block of the sensitivity. */
  function LabelItems(sd: Json, labels: Json): Result<seq<(Rel, Cuds)>, PyError>
  {
    var order :- Key(labels, "order");
    var blocksJ :- Key(sd, "values");
    var blocks :- Elements(blocksJ);
    FlatMapAll(ValuesStep(labels, order), blocks)
  }

  function LabelStep(sd: Json): Json -> Result<seq<(Rel, Cuds)>, PyError>
  {
    (labels: Json) => LabelItems(sd, labels)
  }

  /** One `Sensitivity` object with its items, label block by label block. */
  function SensitivityOf(sd: Json): Result<(Rel, Cuds), PyError>
  {
    var name :- Key(sd, "name");
    var labelsJ :- Key(sd, "labels");
    var labels :- Elements(labelsJ);
    var items :- FlatMapAll(LabelStep(sd), labels);
    Ok((ActiveRelationship, Cuds(OClass.Sensitivity, map["name" := name], items, [])))
  }

  function SensitivityStep(): Json -> Result<(Rel, Cuds), PyError>
  {
    (sd: Json) => SensitivityOf(sd)
  }

  /** Sensitivity: a SensitivityDataSet with one Sensitivity per entry of "Sensitivities". */
  function SensitivitiesOf(results: Json): Result<Cuds, PyError>
  {
    var sj :- Key(results, "Sensitivities");
    var sds :- Elements(sj);
    var kids :- MapAll(SensitivityStep(), sds);
    Ok(Cuds(SensitivityDataSet, map[], kids, []))
  }

  /** zip stops at the shorter list: item k pairs label k with value k, under the block's order. */
  lemma ZippedMeaning(names: seq<Json>, values: seq<Json>, order: Json)
    ensures |Zipped(names, values, order)| <= |names| && |Zipped(names, values, order)| <= |values|
    ensures |Zipped(names, values, order)| == |names| || |Zipped(names, values, order)| == |values|
    ensures forall k :: 0 <= k < |Zipped(names, values, order)| ==>
              Zipped(names, values, order)[k].1.cls == OClass.SensitivityItem &&
              Zipped(names, values, order)[k].1.attrs ==
                map["name" := names[k], "value" := values[k], "order" := order]
  {
  }

  /** The Pareto front: an empty output list gives an empty front; otherwise row i (0-based) is a
      RankedDataPoint ranked i + 1 holding row i's items, and there are as many rows as the first
      output column has values. */
  lemma FrontMeaning(results: Json)
    ensures Key(results, "Outputs") == Ok(Arr([])) ==> FrontOf(results) == Ok(Cuds(ParetoFront, map[], [], []))
    ensures FrontOf(results).Ok? ==>
              var outsJ := Key(results, "Outputs").value;
              var n := if Len(outsJ).value == 0 then 0 else FirstLength(outsJ).value;
              var f := FrontOf(results).value;
              f.cls == ParetoFront && |f.kids| == n &&
              forall i :: 0 <= i < n ==>
                RowItems(Iter(outsJ).value, i).Ok? &&
                f.kids[i] == (ActiveRelationship, Cuds(RankedDataPoint, map["ranking" := Int(i + 1)],
                                                       RowItems(Iter(outsJ).value, i).value, []))
  {
    if Key(results, "Outputs") == Ok(Arr([])) {
      assert Range(0) == [];
    }
    if FrontOf(results).Ok? {
      var outsJ := Key(results, "Outputs").value;
      var n := if Len(outsJ).value == 0 then 0 else FirstLength(outsJ).value;
      RankedRows(Iter(outsJ).value, n, FrontOf(results).value.kids);
    }
  }

  /** Evaluate: without an InputData the call fails; otherwise row i holds row i's items and is
      derived from input data point i, so a result with more rows than input data points fails
      (rows beyond the inputs are never linked, and inputs beyond the rows stay unlinked). */
  lemma EvaluateMeaning(nodes: seq<Node>, sim: nat, results: Json)
    ensures Children(nodes, sim, InputData, None) == [] ==> EvaluateOf(nodes, sim, results) == Err(LookupError)
    ensures EvaluateOf(nodes, sim, results).Ok? ==>
              var dps := Children(nodes, Children(nodes, sim, InputData, None)[0], DataPoint, Some(HasPart));
              var outsJ := Key(results, "Outputs").value;
              var n := FirstLength(outsJ).value;
              var out := EvaluateOf(nodes, sim, results).value;
              n <= |dps| && out.cls == OutputData && |out.kids| == n &&
              forall i :: 0 <= i < n ==>
                RowItems(Iter(outsJ).value, i).Ok? &&
                out.kids[i] == (HasPart, Cuds(DataPoint, map[], RowItems(Iter(outsJ).value, i).value,
                                              [Edge(IsDerivedFrom, dps[i])]))
  {
    if EvaluateOf(nodes, sim, results).Ok? {
      var dps := Children(nodes, Children(nodes, sim, InputData, None)[0], DataPoint, Some(HasPart));
      var outsJ := Key(results, "Outputs").value;
      var n := FirstLength(outsJ).value;
      DerivedRows(Iter(outsJ).value, dps, n, EvaluateOf(nodes, sim, results).value.kids);
    }
  }

  /** SampleSRM: the rows go to the root's first SampleSRM node, one plain DataPoint per value of
      the first output column. */
  lemma SampleMeaning(nodes: seq<Node>, root: nat, results: Json)
    ensures Children(nodes, root, OClass.SampleSRM, None) == [] ==> SampleOf(nodes, root, results) == Err(LookupError)
    ensures SampleOf(nodes, root, results).Ok? ==>
              var outsJ := Key(results, "Outputs").value;
              var n := FirstLength(outsJ).value;
              var (target, out) := SampleOf(nodes, root, results).value;
              target == Children(nodes, root, OClass.SampleSRM, None)[0] &&
              out.cls == OutputData && |out.kids| == n &&
              forall i :: 0 <= i < n ==>
                RowItems(Iter(outsJ).value, i).Ok? &&
                out.kids[i] == (HasPart, Cuds(DataPoint, map[], RowItems(Iter(outsJ).value, i).value, []))
  {
    if SampleOf(nodes, root, results).Ok? {
      var outsJ := Key(results, "Outputs").value;
      PlainRows(Iter(outsJ).value, FirstLength(outsJ).value, SampleOf(nodes, root, results).value.1.kids);
    }
  }

  /** Every item a label block yields is a SensitivityItem without sub-objects or links, carrying
      that block's order. */
  lemma LabelItemsMeaning(sd: Json, labels: Json)
    ensures LabelItems(sd, labels).Ok? ==>
              forall y :: y in LabelItems(sd, labels).value ==>
                y.1.cls == OClass.SensitivityItem && y.1.kids == [] && y.1.links == [] &&
                "order" in y.1.attrs && y.1.attrs["order"] == Key(labels, "order").value
  {
    if LabelItems(sd, labels).Ok? {
      var order := Key(labels, "order").value;
      var blocks := Iter(Key(sd, "values").value).value;
      var P := (y: (Rel, Cuds)) => y.1.cls == OClass.SensitivityItem && y.1.kids == [] && y.1.links == [] &&
                                   "order" in y.1.attrs && y.1.attrs["order"] == order;
      forall i | 0 <= i < |blocks| && ValuesStep(labels, order)(blocks[i]).Ok?
        ensures forall y :: y in ValuesStep(labels, order)(blocks[i]).value ==> P(y)
      {
        var r := MatchValues(labels, order, blocks[i]);
        if r.value != [] {
          var ns := Iter(Key(labels, "values").value).value;
          var vs := Iter(Key(blocks[i], "values").value).value;
          assert r.value == Zipped(ns, vs, order);
        }
      }
      FlatMapAllEach(ValuesStep(labels, order), blocks, P);
    }
  }

  /** The sensitivity data set: one Sensitivity per entry, in order, named after the entry. */
  lemma SensitivitiesMeaning(results: Json)
    ensures SensitivitiesOf(results).Ok? ==>
              var sds := Iter(Key(results, "Sensitivities").value).value;
              var set_ := SensitivitiesOf(results).value;
              set_.cls == SensitivityDataSet && |set_.kids| == |sds| &&
              forall k :: 0 <= k < |sds| ==>
                set_.kids[k].1.cls == OClass.Sensitivity &&
                Key(sds[k], "name").Ok? && set_.kids[k].1.attrs == map["name" := Key(sds[k], "name").value]
  {
    if SensitivitiesOf(results).Ok? {
      var sds := Iter(Key(results, "Sensitivities").value).value;
      var kids := SensitivitiesOf(results).value.kids;
      MapAllOk(SensitivityStep(), sds);
      forall k | 0 <= k < |sds|
        ensures kids[k].1.cls == OClass.Sensitivity
        ensures Key(sds[k], "name").Ok? && kids[k].1.attrs == map["name" := Key(sds[k], "name").value]
      {
        assert SensitivityStep()(sds[k]) == SensitivityOf(sds[k]);
        SensitivityShape(sds[k]);
      }
    }
  }

  /** One Sensitivity, named after its entry. */
  lemma SensitivityShape(sd: Json)
    requires SensitivityOf(sd).Ok?
    ensures SensitivityOf(sd).value.1.cls == OClass.Sensitivity
    ensures Key(sd, "name").Ok? && SensitivityOf(sd).value.1.attrs == map["name" := Key(sd, "name").value]
  {
  }

  // ----- the whole call -----

  /** Where the branch's result object (if any) and the JobID are added. */
  datatype Branch = Branch(parent: nat, tree: Option<Cuds>)

  function BranchOf(nodes: seq<Node>, root: nat, sim: nat, results: Json, t: Template): (r: Result<Branch, PyError>)
    requires sim < |nodes|
    ensures r.Ok? ==> r.value.parent < |nodes|
  {
    match t
    case MOO | MOOonly | MCDM =>
      var front :- FrontOf(results);
      Ok(Branch(sim, Some(front)))
    case Evaluate =>
      var out :- EvaluateOf(nodes, sim, results);
      Ok(Branch(sim, Some(out)))
    case SampleSRM =>
      var (target, out) :- SampleOf(nodes, root, results);
      Ok(Branch(target, Some(out)))
    case Sensitivity =>
      var set_ :- SensitivitiesOf(results);
      Ok(Branch(sim, Some(set_)))
    case HDMR | DKL => Ok(Branch(sim, None))
  }

  /** `mods.JobID()` holding `mods.JobIDItem(name=jobID)` under hasPart. */
  function JobTree(jobId: Json): Cuds
  {
    Cuds(JobID, map[], [(HasPart, Cuds(JobIDItem, map["name" := jobId], [], []))], [])
  }

  /** The graph after the call, and the exception it raised, if any. */
  datatype Outcome = Outcome(nodes: seq<Node>, error: Option<PyError>)

  function Decode(nodes: seq<Node>, root: nat, results: Json, t: Template): Outcome
  {
    if !Truthy(results) then Outcome(nodes, None)
    else
      var sims := Children(nodes, root, Simulation, None);
      if sims == [] then Outcome(nodes, Some(LookupError))
      else
        assert sims[0] in sims;
        match BranchOf(nodes, root, sims[0], results, t)
        case Err(e) => Outcome(nodes, Some(e))
        case Ok(b) => Finish(nodes, b, results)
  }

  /** The graph with the branch's object, if any, added under its parent. */
  function WithBranch(nodes: seq<Node>, b: Branch): (g: seq<Node>)
    requires b.parent < |nodes|
    ensures |g| >= |nodes|
  {
    if b.tree.Some? then Attached(nodes, b.parent, ActiveRelationship, b.tree.value) else nodes
  }

  /** The end of the call: the branch's object, if any, is added under its parent, then the
      JobID named after the result's "jobID". */
  function Finish(nodes: seq<Node>, b: Branch, results: Json): Outcome
    requires b.parent < |nodes|
  {
    var g := WithBranch(nodes, b);
    match Key(results, "jobID")
    case Err(e) => Outcome(g, Some(e))
    case Ok(j) => Outcome(Attached(g, b.parent, ActiveRelationship, JobTree(j)), None)
  }

  /** The JobID object occupies two nodes: the JobID, with a hasPart edge to its JobIDItem. */
  lemma JobTreeNodes(jobId: Json, base: nat)
    ensures Flatten(JobTree(jobId), base) ==
              [Node(JobID, map[], [Edge(HasPart, base + 1)]), Node(JobIDItem, map["name" := jobId], [])]
  {
    var t := JobTree(jobId);
    var item := Cuds(JobIDItem, map["name" := jobId], [], []);
    assert t.kids == [(HasPart, item)];
    var noEdges: seq<Edge> := [];
    var noNodes: seq<Node> := [];
    var fi := FlattenFrom(item, 0, base + 2);
    assert fi == (noNodes, noEdges);
    assert fi.1 + item.links == noEdges;
    var itemNode := Node(JobIDItem, map["name" := jobId], noEdges);
    assert Flatten(item, base + 1) == [itemNode] + noNodes;
    assert [itemNode] + noNodes == [itemNode];
    assert FlattenFrom(t, 1, base + 2) == (noNodes, noEdges);
    var ff := FlattenFrom(t, 0, base + 1);
    assert ff == ([itemNode] + noNodes, [Edge(HasPart, base + 1)] + noEdges);
    assert [Edge(HasPart, base + 1)] + noEdges + t.links == [Edge(HasPart, base + 1)];
    assert Flatten(t, base) == [Node(t.cls, t.attrs, ff.1 + t.links)] + ff.0;
  }

  /** Adding the JobID to g: two more nodes, the JobID and its item, last. */
  lemma AddJob(g: seq<Node>, parent: nat, jobId: Json)
    requires parent < |g|
    ensures var g' := Attached(g, parent, ActiveRelationship, JobTree(jobId));
            |g'| == |g| + 2 &&
            g'[|g'| - 2] == Node(JobID, map[], [Edge(HasPart, |g'| - 1)]) &&
            g'[|g'| - 1] == Node(JobIDItem, map["name" := jobId], [])
  {
    JobTreeNodes(jobId, |g|);
  }

  /** Falsy results (None or an empty dict) change nothing; without a simulation node the call
      fails before adding anything, and so does a failure while building the branch's object. */
  lemma DecodeMeaning(nodes: seq<Node>, root: nat, results: Json, t: Template)
    ensures !Truthy(results) ==> Decode(nodes, root, results, t) == Outcome(nodes, None)
    ensures Truthy(results) && Children(nodes, root, Simulation, None) == [] ==>
              Decode(nodes, root, results, t) == Outcome(nodes, Some(LookupError))
    ensures var sims := Children(nodes, root, Simulation, None);
            Truthy(results) && sims != [] && sims[0] < |nodes| && BranchOf(nodes, root, sims[0], results, t).Err? ==>
              Decode(nodes, root, results, t) == Outcome(nodes, Some(BranchOf(nodes, root, sims[0], results, t).error))
  {
    var sims := Children(nodes, root, Simulation, None);
    if Truthy(results) && sims != [] {
      assert sims[0] in sims;
    }
  }

  /** A call that does not raise found a simulation node, built the branch's object without
      error, and finished with it; for HDMR (and DKL, which no branch handles) there is no
      object to add. */
  lemma DecodeFinishes(nodes: seq<Node>, root: nat, results: Json, t: Template)
    requires Truthy(results) && Decode(nodes, root, results, t).error.None?
    ensures var sims := Children(nodes, root, Simulation, None);
      && sims != [] && sims[0] < |nodes|
      && BranchOf(nodes, root, sims[0], results, t).Ok?
      && Decode(nodes, root, results, t) == Finish(nodes, BranchOf(nodes, root, sims[0], results, t).value, results)
      && (t == HDMR || t == DKL ==> BranchOf(nodes, root, sims[0], results, t).value.tree.None?)
  {
    var sims := Children(nodes, root, Simulation, None);
    assert sims[0] in sims;
  }

  /** Finishing without an error adds the JobID last, after the branch's object if there is one. */
  lemma FinishAddsJob(nodes: seq<Node>, b: Branch, results: Json)
    requires b.parent < |nodes| && Finish(nodes, b, results).error.None?
    ensures var g := Finish(nodes, b, results).nodes;
              |g| >= |nodes| + 2 &&
              g[|g| - 2] == Node(JobID, map[], [Edge(HasPart, |g| - 1)]) &&
              g[|g| - 1] == Node(JobIDItem, map["name" := Key(results, "jobID").value], [])
    ensures b.tree.None? ==> |Finish(nodes, b, results).nodes| == |nodes| + 2
  {
    AddJob(WithBranch(nodes, b), b.parent, Key(results, "jobID").value);
  }

  // ----- the graph stays closed -----

  /** A row's only link is to its input data point. */
  lemma PointLinks(outs: seq<Json>, kind: RowKind, i: nat, bound: nat)
    requires kind.Derived? ==> forall x :: x in kind.inputs ==> x < bound
    requires Point(outs, kind, i).Ok?
    ensures LinksBelow(Point(outs, kind, i).value.1, bound)
  {
    var pt := Point(outs, kind, i).value.1;
    var items := RowItems(outs, i).value;
    RowItemsMeaning(outs, i);
    assert pt.kids == items;
    forall j | 0 <= j < |items| ensures LinksBelow(items[j].1, bound) {
      LeafLinksBelow(items[j].1, bound);
    }
    KidsLinksBelowAll(pt, 0, bound);
    if kind.Derived? {
      assert kind.inputs[i] in kind.inputs;
    }
  }

  /** An object whose sub-objects' links all point below bound, and which has no links itself. */
  lemma RowsLinks(outs: seq<Json>, kind: RowKind, n: nat, t: Cuds, bound: nat)
    requires kind.Derived? ==> forall x :: x in kind.inputs ==> x < bound
    requires Points(outs, kind, n) == Ok(t.kids) && t.links == []
    ensures LinksBelow(t, bound)
  {
    PointsMeaning(outs, kind, n);
    forall i | 0 <= i < n ensures LinksBelow(t.kids[i].1, bound) {
      PointLinks(outs, kind, i, bound);
    }
    KidsLinksBelowAll(t, 0, bound);
  }

  lemma SensitivityLinks(sd: Json, bound: nat)
    requires SensitivityOf(sd).Ok?
    ensures LinksBelow(SensitivityOf(sd).value.1, bound)
  {
    var t := SensitivityOf(sd).value.1;
    var labels := Iter(Key(sd, "labels").value).value;
    var P := (y: (Rel, Cuds)) => y.1.kids == [] && y.1.links == [];
    forall i | 0 <= i < |labels| && LabelStep(sd)(labels[i]).Ok?
      ensures forall y :: y in LabelStep(sd)(labels[i]).value ==> P(y)
    {
      LabelItemsMeaning(sd, labels[i]);
    }
    FlatMapAllEach(LabelStep(sd), labels, P);
    assert t.kids == FlatMapAll(LabelStep(sd), labels).value;
    forall j | 0 <= j < |t.kids| ensures LinksBelow(t.kids[j].1, bound) {
      assert P(t.kids[j]);
      LeafLinksBelow(t.kids[j].1, bound);
    }
    KidsLinksBelowAll(t, 0, bound);
  }

  lemma SensitivitiesLinks(results: Json, bound: nat)
    requires SensitivitiesOf(results).Ok?
    ensures LinksBelow(SensitivitiesOf(results).value, bound)
  {
    var t := SensitivitiesOf(results).value;
    var sds := Iter(Key(results, "Sensitivities").value).value;
    MapAllOk(SensitivityStep(), sds);
    forall k | 0 <= k < |sds| ensures LinksBelow(t.kids[k].1, bound) {
      SensitivityLinks(sds[k], bound);
    }
    KidsLinksBelowAll(t, 0, bound);
  }

  lemma FrontLinks(results: Json, bound: nat)
    requires FrontOf(results).Ok?
    ensures LinksBelow(FrontOf(results).value, bound)
  {
    var outsJ := Key(results, "Outputs").value;
    var n := if Len(outsJ).value == 0 then 0 else FirstLength(outsJ).value;
    RowsLinks(Iter(outsJ).value, Ranked, n, FrontOf(results).value, bound);
  }

  lemma EvaluateLinks(nodes: seq<Node>, sim: nat, results: Json)
    requires EvaluateOf(nodes, sim, results).Ok?
    ensures LinksBelow(EvaluateOf(nodes, sim, results).value, |nodes|)
  {
    var ins := Children(nodes, sim, InputData, None);
    var dps := Children(nodes, ins[0], DataPoint, Some(HasPart));
    var outsJ := Key(results, "Outputs").value;
    var n := FirstLength(outsJ).value;
    var outs := Elements(outsJ).value;
    var t := EvaluateOf(nodes, sim, results).value;
    assert Points(outs, Derived(dps), n) == Ok(t.kids) && t.links == [];
    RowsLinks(outs, Derived(dps), n, t, |nodes|);
  }

  lemma SampleLinks(nodes: seq<Node>, root: nat, results: Json, bound: nat)
    requires SampleOf(nodes, root, results).Ok?
    ensures LinksBelow(SampleOf(nodes, root, results).value.1, bound)
  {
    var outsJ := Key(results, "Outputs").value;
    RowsLinks(Iter(outsJ).value, Plain, FirstLength(outsJ).value, SampleOf(nodes, root, results).value.1, bound);
  }

  /** The object a branch adds links only to nodes already in the graph. */
  lemma BranchLinks(nodes: seq<Node>, root: nat, sim: nat, results: Json, t: Template)
    requires sim < |nodes| && BranchOf(nodes, root, sim, results, t).Ok?
    requires BranchOf(nodes, root, sim, results, t).value.tree.Some?
    ensures LinksBelow(BranchOf(nodes, root, sim, results, t).value.tree.value, |nodes|)
  {
    match t
    case MOO | MOOonly | MCDM => FrontLinks(results, |nodes|);
    case Evaluate => EvaluateLinks(nodes, sim, results);
    case SampleSRM => SampleLinks(nodes, root, results, |nodes|);
    case Sensitivity => SensitivitiesLinks(results, |nodes|);
  }

  /** The call keeps every edge of the graph inside the graph, and keeps every node it had, with
      its class and attributes: it only adds nodes and edges. */
  lemma DecodeClosed(nodes: seq<Node>, root: nat, results: Json, t: Template)
    requires Closed(nodes)
    ensures Closed(Decode(nodes, root, results, t).nodes)
    ensures Extends(nodes, Decode(nodes, root, results, t).nodes)
  {
    var sims := Children(nodes, root, Simulation, None);
    if Truthy(results) && sims != [] {
      assert sims[0] in sims;
      var r := BranchOf(nodes, root, sims[0], results, t);
      if r.Ok? {
        assert Decode(nodes, root, results, t) == Finish(nodes, r.value, results);
        if r.value.tree.Some? {
          BranchLinks(nodes, root, sims[0], results, t);
        }
        FinishClosed(nodes, r.value, results);
      }
    }
  }

  /** Adding the branch's object, linked only inside the graph, keeps the graph closed. */
  lemma WithBranchClosed(nodes: seq<Node>, b: Branch)
    requires Closed(nodes) && b.parent < |nodes|
    requires b.tree.Some? ==> LinksBelow(b.tree.value, |nodes|)
    ensures Closed(WithBranch(nodes, b)) && Extends(nodes, WithBranch(nodes, b))
  {
    if b.tree.Some? {
      AttachGrows(nodes, b.parent, b.tree.value);
    }
  }

  /** Finishing adds the branch's object and the JobID, both linked only inside the graph. */
  lemma FinishClosed(nodes: seq<Node>, b: Branch, results: Json)
    requires Closed(nodes) && b.parent < |nodes|
    requires b.tree.Some? ==> LinksBelow(b.tree.value, |nodes|)
    ensures Closed(Finish(nodes, b, results).nodes)
    ensures Extends(nodes, Finish(nodes, b, results).nodes)
  {
    var g := WithBranch(nodes, b);
    WithBranchClosed(nodes, b);
    if Key(results, "jobID").Ok? {
      var job := JobTree(Key(results, "jobID").value);
      JobLinks(job, |g|);
      AttachGrows(g, b.parent, job);
      ExtendsTrans(nodes, g, Attached(g, b.parent, ActiveRelationship, job));
    }
  }

  /** Adding one object whose links point into a closed graph. */
  lemma AttachGrows(nodes: seq<Node>, parent: nat, t: Cuds)
    requires Closed(nodes) && parent < |nodes| && LinksBelow(t, |nodes|)
    ensures Closed(Attached(nodes, parent, ActiveRelationship, t))
    ensures Extends(nodes, Attached(nodes, parent, ActiveRelationship, t))
  {
    AttachedClosed(nodes, parent, ActiveRelationship, t);
    AttachedExtends(nodes, parent, ActiveRelationship, t);
  }

  lemma JobLinks(job: Cuds, bound: nat)
    requires job.links == [] && |job.kids| == 1 && job.kids[0].1.kids == [] && job.kids[0].1.links == []
    ensures LinksBelow(job, bound)
  {
    LeafLinksBelow(job.kids[0].1, bound);
    KidsLinksBelowAll(job, 0, bound);
  }

  // ----- the conversion, step by step -----

  /** The inner loop over the output columns for row i. */
  method BuildRowItems(outs: seq<Json>, i: nat) returns (r: Result<seq<(Rel, Cuds)>, PyError>)
    ensures r == RowItems(outs, i)
  {
    var items: seq<(Rel, Cuds)> := [];
    for j := 0 to |outs|
      invariant MapAll(ItemStep(i), outs[..j]) == Ok(items)
    {
      var item: Result<(Rel, Cuds), PyError>;
      var vs := Key(outs[j], "values");
      if vs.Err? {
        item := Err(vs.error);
      } else {
        var v := Idx(vs.value, i);
        if v.Err? {
          item := Err(v.error);
        } else {
          var name := Key(outs[j], "name");
          item := if name.Err? then Err(name.error) else Ok((HasPart, Item(name.value, v.value)));
        }
      }
      MapAllStep(ItemStep(i), outs, j, items);
      if item.Err? {
        MapAllErrPrefix(ItemStep(i), outs, j + 1);
        return Err(item.error);
      }
      items := items + [item.value];
    }
    assert outs[..|outs|] == outs;
    r := Ok(items);
  }

  /** The outer loop `for i in range(n)`: one row object per index. */
  method BuildPoints(outs: seq<Json>, kind: RowKind, n: nat) returns (r: Result<seq<(Rel, Cuds)>, PyError>)
    ensures r == Points(outs, kind, n)
  {
    var rows: seq<(Rel, Cuds)> := [];
    ghost var idx := Range(n);
    for i := 0 to n
      invariant MapAll(PointStep(outs, kind), idx[..i]) == Ok(rows)
    {
      assert idx[i] == i;
      var items := BuildRowItems(outs, i);
      var row: Result<(Rel, Cuds), PyError>;
      if items.Err? {
        row := Err(items.error);
      } else {
        match kind
        case Ranked =>
          row := Ok((ActiveRelationship, Cuds(RankedDataPoint, map["ranking" := Int(i + 1)], items.value, [])));
        case Derived(dps) =>
          row := if i < |dps| then Ok((HasPart, Cuds(DataPoint, map[], items.value, [Edge(IsDerivedFrom, dps[i])])))
                 else Err(LookupError);
        case Plain =>
          row := Ok((HasPart, Cuds(DataPoint, map[], items.value, [])));
      }
      MapAllStep(PointStep(outs, kind), idx, i, rows);
      if row.Err? {
        MapAllErrPrefix(PointStep(outs, kind), idx, i + 1);
        return Err(row.error);
      }
      rows := rows + [row.value];
    }
    assert idx[..n] == idx;
    r := Ok(rows);
  }

  /** `for name, value in zip(...)`: one SensitivityItem per pair. */
  method BuildZipped(names: seq<Json>, values: seq<Json>, order: Json) returns (items: seq<(Rel, Cuds)>)
    ensures items == Zipped(names, values, order)
  {
    items := [];
    var k := 0;
    while k < |names| && k < |values|
      invariant k <= |names| && k <= |values|
      invariant items == Zipped(names, values, order)[..k]
    {
      items := items + [(ActiveRelationship, SensitivityItem(names[k], values[k], order))];
      k := k + 1;
    }
  }

  /** The loop over the values blocks of one label block. */
  method BuildLabelItems(sd: Json, labels: Json) returns (r: Result<seq<(Rel, Cuds)>, PyError>)
    ensures r == LabelItems(sd, labels)
  {
    var order := Key(labels, "order");
    if order.Err? {
      return Err(order.error);
    }
    var blocksJ := Key(sd, "values");
    if blocksJ.Err? {
      return Err(blocksJ.error);
    }
    var blocks := Elements(blocksJ.value);
    if blocks.Err? {
      return Err(blocks.error);
    }
    var bs := blocks.value;
    var items: seq<(Rel, Cuds)> := [];
    for i := 0 to |bs|
      invariant FlatMapAll(ValuesStep(labels, order.value), bs[..i]) == Ok(items)
    {
      var more := BuildMatch(labels, order.value, bs[i]);
      FlatMapAllStep(ValuesStep(labels, order.value), bs, i, items);
      if more.Err? {
        FlatMapAllErrPrefix(ValuesStep(labels, order.value), bs, i + 1);
        return Err(more.error);
      }
      items := items + more.value;
    }
    assert bs[..|bs|] == bs;
    r := Ok(items);
  }

  /** `if order == values_dict["order"]`, then the zip. */
  method BuildMatch(labels: Json, order: Json, block: Json) returns (r: Result<seq<(Rel, Cuds)>, PyError>)
    ensures r == MatchValues(labels, order, block)
  {
    var o := Key(block, "order");
    if o.Err? {
      return Err(o.error);
    }
    if !PyEq(order, o.value) {
      return Ok([]);
    }
    var names := Key(labels, "values");
    if names.Err? {
      return Err(names.error);
    }
    var values := Key(block, "values");
    if values.Err? {
      return Err(values.error);
    }
    var ns := Elements(names.value);
    if ns.Err? {
      return Err(ns.error);
    }
    var vs := Elements(values.value);
    if vs.Err? {
      return Err(vs.error);
    }
    var items := BuildZipped(ns.value, vs.value, order);
    r := Ok(items);
  }

  /** One Sensitivity object: the loop over its label blocks. */
  method BuildSensitivity(sd: Json) returns (r: Result<(Rel, Cuds), PyError>)
    ensures r == SensitivityOf(sd)
  {
    var name := Key(sd, "name");
    if name.Err? {
      return Err(name.error);
    }
    var labelsJ := Key(sd, "labels");
    if labelsJ.Err? {
      return Err(labelsJ.error);
    }
    var labels := Elements(labelsJ.value);
    if labels.Err? {
      return Err(labels.error);
    }
    var ls := labels.value;
    var items: seq<(Rel, Cuds)> := [];
    for i := 0 to |ls|
      invariant FlatMapAll(LabelStep(sd), ls[..i]) == Ok(items)
    {
      var more := BuildLabelItems(sd, ls[i]);
      FlatMapAllStep(LabelStep(sd), ls, i, items);
      if more.Err? {
        FlatMapAllErrPrefix(LabelStep(sd), ls, i + 1);
        return Err(more.error);
      }
      items := items + more.value;
    }
    assert ls[..|ls|] == ls;
    r := Ok((ActiveRelationship, Cuds(OClass.Sensitivity, map["name" := name.value], items, [])));
  }

  /** The SensitivityDataSet: the loop over "Sensitivities". */
  method BuildSensitivities(results: Json) returns (r: Result<Cuds, PyError>)
    ensures r == SensitivitiesOf(results)
  {
    var sj := Key(results, "Sensitivities");
    if sj.Err? {
      return Err(sj.error);
    }
    var sds := Elements(sj.value);
    if sds.Err? {
      return Err(sds.error);
    }
    var list := sds.value;
    var kids: seq<(Rel, Cuds)> := [];
    for k := 0 to |list|
      invariant MapAll(SensitivityStep(), list[..k]) == Ok(kids)
    {
      var one := BuildSensitivity(list[k]);
      MapAllStep(SensitivityStep(), list, k, kids);
      if one.Err? {
        MapAllErrPrefix(SensitivityStep(), list, k + 1);
        return Err(one.error);
      }
      kids := kids + [one.value];
    }
    assert list[..|list|] == list;
    r := Ok(Cuds(SensitivityDataSet, map[], kids, []));
  }

  /** The per-template branch: where its object goes, and the object. */
  method BuildBranch(nodes: seq<Node>, root: nat, sim: nat, results: Json, t: Template) returns (r: Result<Branch, PyError>)
    requires sim < |nodes|
    ensures r == BranchOf(nodes, root, sim, results, t)
  {
    match t {
      case MOO | MOOonly | MCDM =>
        var outsJ := Key(results, "Outputs");
        if outsJ.Err? {
          return Err(outsJ.error);
        }
        var len := Length(outsJ.value);
        if len.Err? {
          return Err(len.error);
        }
        var n: Result<nat, PyError> := if len.value == 0 then Ok(0) else FirstLength(outsJ.value);
        if n.Err? {
          return Err(n.error);
        }
        var outs := Elements(outsJ.value);
        if outs.Err? {
          return Err(outs.error);
        }
        var rows := BuildPoints(outs.value, Ranked, n.value);
        if rows.Err? {
          return Err(rows.error);
        }
        r := Ok(Branch(sim, Some(Cuds(ParetoFront, map[], rows.value, []))));
      case Evaluate =>
        var ins := Children(nodes, sim, InputData, None);
        if ins == [] {
          return Err(LookupError);
        }
        var dps := Children(nodes, ins[0], DataPoint, Some(HasPart));
        var rows := BuildRows(results, Derived(dps));
        if rows.Err? {
          return Err(rows.error);
        }
        r := Ok(Branch(sim, Some(Cuds(OutputData, map[], rows.value, []))));
      case SampleSRM =>
        var srms := Children(nodes, root, OClass.SampleSRM, None);
        if srms == [] {
          return Err(LookupError);
        }
        var rows := BuildRows(results, Plain);
        if rows.Err? {
          return Err(rows.error);
        }
        r := Ok(Branch(srms[0], Some(Cuds(OutputData, map[], rows.value, []))));
      case Sensitivity =>
        var set_ := BuildSensitivities(results);
        if set_.Err? {
          return Err(set_.error);
        }
        r := Ok(Branch(sim, Some(set_.value)));
      case HDMR | DKL =>
        r := Ok(Branch(sim, None));
    }
  }

  /** The rows of the Evaluate and SampleSRM branches: as many as the first output column has
      values. */
  method BuildRows(results: Json, kind: RowKind) returns (r: Result<seq<(Rel, Cuds)>, PyError>)
    ensures r == (var outsJ :- Key(results, "Outputs");
                  var n :- FirstLength(outsJ);
                  var outs :- Elements(outsJ);
                  Points(outs, kind, n))
  {
    var outsJ := Key(results, "Outputs");
    if outsJ.Err? {
      return Err(outsJ.error);
    }
    var n := FirstLength(outsJ.value);
    if n.Err? {
      return Err(n.error);
    }
    var outs := Elements(outsJ.value);
    if outs.Err? {
      return Err(outs.error);
    }
    r := BuildPoints(outs.value, kind, n.value);
  }

  /** `toCUDS(root, jsonResults, template)` on the graph in store. */
  method ToCuds(store: Store, root: nat, results: Json, t: Template) returns (err: Option<PyError>)
    modifies store
    ensures Outcome(store.nodes, err) == Decode(old(store.nodes), root, results, t)
    ensures old(store.Valid()) ==> store.Valid()
  {
    if store.Valid() {
      DecodeClosed(store.nodes, root, results, t);
    }
    if !Truthy(results) {
      return None;
    }
    var sims := Children(store.nodes, root, Simulation, None);
    if sims == [] {
      return Some(LookupError);
    }
    assert sims[0] in sims;
    var branch := BuildBranch(store.nodes, root, sims[0], results, t);
    if branch.Err? {
      return Some(branch.error);
    }
    var b := branch.value;
    ghost var before := store.nodes;
    assert Decode(before, root, results, t) == Finish(before, b, results);
    if b.tree.Some? {
      var _ := store.Add(b.parent, ActiveRelationship, b.tree.value);
    }
    assert store.nodes == WithBranch(before, b);
    var job := Key(results, "jobID");
    if job.Err? {
      return Some(job.error);
    }
    var _ := store.Add(b.parent, ActiveRelationship, JobTree(job.value));
    err := None;
  }
}
