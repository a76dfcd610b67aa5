/** What the two stand-in MoDS agents share: their replies, the way they count a job's input
    values, and their table of finished jobs. A query is the JSON the agent decodes from the
    request's `query` parameter. */
module MockAgents {
  import opened Wrappers
  import opened Json
  import opened Bridge

  /** The text both agents answer a malformed request with. */
  const ErrorMessage: string := "Incorrect simulation inputs."

  /** A request the agent handled: its reply, and the outputs it stored for the job, if any. */
  datatype Handled = Handled(reply: Response, stored: Option<Json>)

  /** The 400 reply that stores nothing. The body is plain text, kept here as a JSON string. */
  const Rejected: Handled := Handled(Response(400, Str(ErrorMessage)), None)

  /** The job table after a request: the outputs the request stored, if any, under its job id. */
  function Record(jobs: map<string, Json>, id: string, h: Handled): (r: map<string, Json>)
    ensures h.stored.None? ==> r == jobs
    ensures h.stored.Some? ==> r == jobs[id := h.stored.value]
  {
    match h.stored
    case None => jobs
    case Some(outputs) => jobs[id := outputs]
  }

  /** `len(inputs[0]["values"])` inside `try ... except LookupError`: None where a LookupError
      was caught; a TypeError escapes. */
  function InputCount(inputs: Json): (r: Result<Option<nat>, PyError>)
    ensures r == Ok(None) <==>
              ((Idx(inputs, 0).Err? && Idx(inputs, 0).error == LookupError) ||
               (Idx(inputs, 0).Ok? && Key(Idx(inputs, 0).value, "values") == Err(LookupError)))
    ensures r.Ok? && r.value.Some? ==>
              Idx(inputs, 0).Ok? && Key(Idx(inputs, 0).value, "values").Ok? &&
              Len(Key(Idx(inputs, 0).value, "values").value) == Some(r.value.value)
  {
    match Idx(inputs, 0)
    case Err(e) => if e == LookupError then Ok(None) else Err(e)
    case Ok(first) =>
      match Key(first, "values")
      case Err(e) => if e == LookupError then Ok(None) else Err(e)
      case Ok(values) =>
        var n :- Length(values);
        Ok(Some(n))
  }

  /** `{"name": name, "values": values}`. */
  function Entry(name: Json, values: seq<Json>): Json
  {
    Obj([("name", name), ("values", Arr(values))])
  }

  /** Both keys of an entry read back. */
  lemma EntryRead(name: Json, values: seq<Json>)
    ensures Key(Entry(name, values), "name") == Ok(name)
    ensures Key(Entry(name, values), "values") == Ok(Arr(values))
  {
    var fs := Entry(name, values).fields;
    assert fs[|fs| - 1].0 != "name";
    assert fs[..|fs| - 1] == [("name", name)];
    assert Lookup(fs, "name") == Lookup([("name", name)], "name") == Some(name);
  }

  /** `[float(i) for i in range(n)]`. */
  function Counting(n: int): (r: seq<Json>)
    ensures |r| == (if n > 0 then n else 0)
    ensures forall i :: 0 <= i < |r| ==> r[i] == Float(i as real)
  {
    if n <= 0 then [] else Counting(n - 1) + [Float((n - 1) as real)]
  }

  /** `getOutputs`: the outputs stored under the id the query names under `key`, with 200;
      `{}` with 400 for an id never stored; an id that is a list or an object cannot be looked
      up. The route never answers 204, so a bridge polling it asks once. */
  function OutputsFor(jobs: map<string, Json>, query: Json, key: string): (r: Result<Response, PyError>)
    ensures r.Ok? ==> r.value.status in {200, 400}
    ensures (r.Ok? && r.value.status == 200) <==>
              Key(query, key).Ok? && Key(query, key).value.Str? && Key(query, key).value.s in jobs
    ensures r.Ok? && r.value.status == 200 ==> r.value.body == jobs[Key(query, key).value.s]
    ensures r.Ok? && r.value.status == 400 ==> r.value.body == Obj([])
  {
    var id :- Key(query, key);
    match id
    case Str(s) => if s in jobs then Ok(Response(200, jobs[s])) else Ok(Response(400, Obj([])))
    case Arr(_) => Err(TypeError)
    case Obj(_) => Err(TypeError)
    case _ => Ok(Response(400, Obj([])))
  }
}
