/** The request encoder (`CUDS_Adaptor.toJSON` and its helpers): reads the simulation
    request graph and builds the JSON document the MoDS agent expects.

    Each step is a method that walks the graph with loops, proved equal to a function that
    states the same document declaratively; lemmas then say what that document holds.
    Exceptions the encoder raises become `Err` values. */
module Encoder {
  import opened Wrappers
  import opened Seqs
  import opened Json
  import opened Graph
  import opened Pivot
  import opened Templates

  /** The `ValueError`s the encoder raises, and the `IndexError` of `search(...)[0]` on an
      empty search result (NoSuchNode). */
  datatype EncodeError =
    | MissingAlgorithm
    | MissingVariable
    | MissingDataPoint
    | MissingDataPointItem
    | MissingFiles
    | MissingModelInput
    | NoSuchNode

  /** Variable attributes written only when set. */
  const OptionalAttrs: seq<string> := ["objective", "maximum", "minimum", "weight", "path", "nParams"]

  /** Algorithm attributes written as null when unset. */
  const AlgorithmAttrs: seq<string> := ["maxNumberOfResults", "saveSurrogate", "surrogateToLoad", "modelToLoad"]

  /** `v if v != "None" else None` */
  function NullIfNone(v: Json): Json
  {
    if v == Str(NoneText) then Null else v
  }

  // ----- variables -----

  /** The optional attributes among names that are set, with their values, in the order of names. */
  function Optionals(nodes: seq<Node>, v: nat, names: seq<string>): seq<(string, Json)>
  {
    if names == [] then []
    else
      var k := names[|names| - 1];
      Optionals(nodes, v, names[..|names| - 1]) +
      (if Attr(nodes, v, k) != Str(NoneText) then [(k, Attr(nodes, v, k))] else [])
  }

  /** An optional attribute is written exactly when it is set, and then with its own value; each at
      most once. */
  lemma {:induction false} OptionalsMeaning(nodes: seq<Node>, v: nat, names: seq<string>)
    ensures forall k :: k in Keys(Optionals(nodes, v, names)) <==> k in names && Attr(nodes, v, k) != Str(NoneText)
    ensures forall p :: p in Optionals(nodes, v, names) ==> p.1 == Attr(nodes, v, p.0)
    ensures Distinct(names) ==> Distinct(Keys(Optionals(nodes, v, names)))
  {
    if names != [] {
      var init := names[..|names| - 1];
      var k := names[|names| - 1];
      OptionalsMeaning(nodes, v, init);
      var o := Optionals(nodes, v, init);
      var tail := if Attr(nodes, v, k) != Str(NoneText) then [(k, Attr(nodes, v, k))] else [];
      KeysAppend(o, tail);
      assert names == init + [k];
      assert Keys(tail) == if Attr(nodes, v, k) != Str(NoneText) then [k] else [];
      forall k' ensures k' in Keys(o + tail) <==> k' in names && Attr(nodes, v, k') != Str(NoneText) {
        assert k' in names <==> k' in init || k' == k;
      }
      if Distinct(names) {
        assert Distinct(init);
        DistinctConcat(Keys(o), Keys(tail));
      }
    }
  }

  /** The first initial read detail, with the `file` attribute written as "file_name". */
  function InitialDetail(nodes: seq<Node>, d: nat): Json
  {
    Obj([("x_column", Attr(nodes, d, "x_column")), ("y_column", Attr(nodes, d, "y_column")),
         ("x_value", Attr(nodes, d, "x_value")), ("read_function", Attr(nodes, d, "read_function")),
         ("file_name", Attr(nodes, d, "file")),
         ("lb_factor", Attr(nodes, d, "lb_factor")), ("ub_factor", Attr(nodes, d, "ub_factor")),
         ("lb_append", Attr(nodes, d, "lb_append")), ("ub_append", Attr(nodes, d, "ub_append"))])
  }

  function WorkingDetail(nodes: seq<Node>, d: nat): Json
  {
    Obj([("x_column", Attr(nodes, d, "x_column")), ("y_column", Attr(nodes, d, "y_column")),
         ("x_value", Attr(nodes, d, "x_value")), ("read_function", Attr(nodes, d, "read_function"))])
  }

  /** The first initial and the first working read detail, when there are any. */
  function Details(nodes: seq<Node>, v: nat): seq<(string, Json)>
  {
    var ini := Children(nodes, v, InitialReadDetail, None);
    var wrk := Children(nodes, v, WorkingReadDetail, None);
    (if ini != [] then [("initialReadDetail", InitialDetail(nodes, ini[0]))] else []) +
    (if wrk != [] then [("workingReadDetail", WorkingDetail(nodes, wrk[0]))] else [])
  }

  function DetailKeys(nodes: seq<Node>, v: nat): seq<string>
  {
    (if Children(nodes, v, InitialReadDetail, None) != [] then ["initialReadDetail"] else []) +
    (if Children(nodes, v, WorkingReadDetail, None) != [] then ["workingReadDetail"] else [])
  }

  function VariableHead(nodes: seq<Node>, v: nat): seq<(string, Json)>
  {
    [("name", Attr(nodes, v, "name")), ("type", Attr(nodes, v, "type"))]
  }

  /** A variable entry: name, type, the set optional attributes, then the read details. */
  function VariableEntry(nodes: seq<Node>, v: nat): Json
  {
    Obj(VariableHead(nodes, v) + Optionals(nodes, v, OptionalAttrs) + Details(nodes, v))
  }

  lemma DetailsKeys(nodes: seq<Node>, v: nat)
    ensures Keys(Details(nodes, v)) == DetailKeys(nodes, v)
    ensures Distinct(DetailKeys(nodes, v))
    ensures forall k :: k in DetailKeys(nodes, v) ==> k == "initialReadDetail" || k == "workingReadDetail"
  {
  }

  lemma HeadKeysDistinct(nodes: seq<Node>, v: nat)
    ensures Distinct(["name", "type"] + Keys(Optionals(nodes, v, OptionalAttrs)))
    ensures forall k :: k in ["name", "type"] + Keys(Optionals(nodes, v, OptionalAttrs)) ==> k == "name" || k == "type" || k in OptionalAttrs
  {
    var ks := Keys(Optionals(nodes, v, OptionalAttrs));
    OptionalAttrsDistinct();
    OptionalsMeaning(nodes, v, OptionalAttrs);
    forall x | x in ["name", "type"] ensures x !in ks {
      assert x !in OptionalAttrs;
    }
    DistinctConcat(["name", "type"], ks);
  }

  lemma OptionalAttrsDistinct()
    ensures Distinct(OptionalAttrs) && "name" !in OptionalAttrs && "type" !in OptionalAttrs
  {
  }

  lemma VariableKeysConcat(nodes: seq<Node>, v: nat)
    ensures Keys(VariableEntry(nodes, v).fields) ==
              ["name", "type"] + Keys(Optionals(nodes, v, OptionalAttrs)) + Keys(Details(nodes, v))
  {
    var base := VariableHead(nodes, v);
    var o := Optionals(nodes, v, OptionalAttrs);
    KeysAppend(base, o);
    KeysAppend(base + o, Details(nodes, v));
  }

  /** The keys of a variable entry, each once. */
  lemma VariableKeys(nodes: seq<Node>, v: nat)
    ensures Keys(VariableEntry(nodes, v).fields) ==
              ["name", "type"] + Keys(Optionals(nodes, v, OptionalAttrs)) + DetailKeys(nodes, v)
    ensures WellKeyed(VariableEntry(nodes, v))
  {
    DetailsKeys(nodes, v);
    HeadKeysDistinct(nodes, v);
    VariableKeysConcat(nodes, v);
    DistinctConcat(["name", "type"] + Keys(Optionals(nodes, v, OptionalAttrs)), DetailKeys(nodes, v));
  }

  /** Looking a key up in a variable entry: the read details first, then the optional attributes,
      then name and type. */
  lemma VariableLookup(nodes: seq<Node>, v: nat, k: string)
    ensures Key(VariableEntry(nodes, v), k) ==
              match Lookup(Details(nodes, v), k)
              case Some(x) => Ok(x)
              case None =>
                match Lookup(Optionals(nodes, v, OptionalAttrs), k)
                case Some(x) => Ok(x)
                case None => match Lookup(VariableHead(nodes, v), k) case Some(x) => Ok(x) case None => Err(LookupError)
  {
    var base := VariableHead(nodes, v);
    var o := Optionals(nodes, v, OptionalAttrs);
    var d := Details(nodes, v);
    assert VariableEntry(nodes, v).fields == (base + o) + d;
    LookupAppend(base + o, d, k);
    LookupAppend(base, o, k);
    LookupSome(d, k);
    LookupSome(o, k);
  }

  /** An optional attribute is none of the keys every variable entry may carry. */
  lemma OptionalNotFixed(k: string)
    requires k in OptionalAttrs
    ensures k != "name" && k != "type" && k != "initialReadDetail" && k != "workingReadDetail"
  {
  }

  lemma OptionalUnset(nodes: seq<Node>, v: nat, k: string)
    requires k in OptionalAttrs && Attr(nodes, v, k) == Str(NoneText)
    ensures Key(VariableEntry(nodes, v), k) == Err(LookupError)
  {
    OptionalNotFixed(k);
    OptionalsLack(nodes, v, k);
    DetailsLack(nodes, v, k);
    HeadLack(nodes, v, k);
    VariableLookup(nodes, v, k);
  }

  lemma OptionalsLack(nodes: seq<Node>, v: nat, k: string)
    requires Attr(nodes, v, k) == Str(NoneText)
    ensures Lookup(Optionals(nodes, v, OptionalAttrs), k) == None
  {
    OptionalsMeaning(nodes, v, OptionalAttrs);
    LookupAbsent(Optionals(nodes, v, OptionalAttrs), k);
  }

  lemma DetailsLack(nodes: seq<Node>, v: nat, k: string)
    requires k != "initialReadDetail" && k != "workingReadDetail"
    ensures Lookup(Details(nodes, v), k) == None
  {
    DetailsKeys(nodes, v);
    LookupAbsent(Details(nodes, v), k);
  }

  lemma HeadLack(nodes: seq<Node>, v: nat, k: string)
    requires k != "name" && k != "type"
    ensures Lookup(VariableHead(nodes, v), k) == None
  {
    assert Keys(VariableHead(nodes, v)) == ["name", "type"];
    LookupAbsent(VariableHead(nodes, v), k);
  }

  lemma OptionalSet(nodes: seq<Node>, v: nat, k: string)
    requires k in OptionalAttrs && Attr(nodes, v, k) != Str(NoneText)
    ensures Key(VariableEntry(nodes, v), k) == Ok(Attr(nodes, v, k))
  {
    var o := Optionals(nodes, v, OptionalAttrs);
    VariableLookup(nodes, v, k);
    OptionalNotFixed(k);
    DetailsKeys(nodes, v);
    LookupAbsent(Details(nodes, v), k);
    OptionalsMeaning(nodes, v, OptionalAttrs);
    LookupSome(o, k);
    LookupFound(o, k);
  }

  /** Neither name, type nor an optional attribute: not among the first keys of a variable entry. */
  lemma HeadKeysLack(nodes: seq<Node>, v: nat, k: string)
    requires k != "name" && k != "type" && k !in OptionalAttrs
    ensures k !in Keys(VariableHead(nodes, v) + Optionals(nodes, v, OptionalAttrs))
  {
    OptionalsMeaning(nodes, v, OptionalAttrs);
    KeysAppend(VariableHead(nodes, v), Optionals(nodes, v, OptionalAttrs));
  }

  lemma DetailsLookup(nodes: seq<Node>, v: nat)
    ensures var ini := Children(nodes, v, InitialReadDetail, None);
            Lookup(Details(nodes, v), "initialReadDetail") == if ini == [] then None else Some(InitialDetail(nodes, ini[0]))
    ensures var wrk := Children(nodes, v, WorkingReadDetail, None);
            Lookup(Details(nodes, v), "workingReadDetail") == if wrk == [] then None else Some(WorkingDetail(nodes, wrk[0]))
  {
    var ini := Children(nodes, v, InitialReadDetail, None);
    var wrk := Children(nodes, v, WorkingReadDetail, None);
    var i: seq<(string, Json)> := if ini != [] then [("initialReadDetail", InitialDetail(nodes, ini[0]))] else [];
    var w: seq<(string, Json)> := if wrk != [] then [("workingReadDetail", WorkingDetail(nodes, wrk[0]))] else [];
    assert Details(nodes, v) == i + w;
    LookupAppend(i, w, "initialReadDetail");
    LookupAppend(i, w, "workingReadDetail");
  }

  lemma InitialLookup(nodes: seq<Node>, v: nat)
    ensures var ini := Children(nodes, v, InitialReadDetail, None);
            Key(VariableEntry(nodes, v), "initialReadDetail") ==
              if ini == [] then Err(LookupError) else Ok(InitialDetail(nodes, ini[0]))
  {
    var base := VariableHead(nodes, v) + Optionals(nodes, v, OptionalAttrs);
    var d := Details(nodes, v);
    assert VariableEntry(nodes, v).fields == base + d;
    LookupAppend(base, d, "initialReadDetail");
    DetailsLookup(nodes, v);
    DetailsKeys(nodes, v);
    HeadKeysLack(nodes, v, "initialReadDetail");
    LookupAbsent(base, "initialReadDetail");
  }

  lemma WorkingLookup(nodes: seq<Node>, v: nat)
    ensures var wrk := Children(nodes, v, WorkingReadDetail, None);
            Key(VariableEntry(nodes, v), "workingReadDetail") ==
              if wrk == [] then Err(LookupError) else Ok(WorkingDetail(nodes, wrk[0]))
  {
    var base := VariableHead(nodes, v) + Optionals(nodes, v, OptionalAttrs);
    var d := Details(nodes, v);
    assert VariableEntry(nodes, v).fields == base + d;
    LookupAppend(base, d, "workingReadDetail");
    DetailsLookup(nodes, v);
    DetailsKeys(nodes, v);
    HeadKeysLack(nodes, v, "workingReadDetail");
    LookupAbsent(base, "workingReadDetail");
  }

  /** What a variable entry holds, read back key by key. */
  lemma VariableEntryMeaning(nodes: seq<Node>, v: nat)
    ensures WellKeyed(VariableEntry(nodes, v))
    ensures Key(VariableEntry(nodes, v), "name") == Ok(Attr(nodes, v, "name"))
    ensures Key(VariableEntry(nodes, v), "type") == Ok(Attr(nodes, v, "type"))
    ensures forall k :: k in OptionalAttrs ==>
              (Key(VariableEntry(nodes, v), k).Ok? <==> Attr(nodes, v, k) != Str(NoneText)) &&
              (Key(VariableEntry(nodes, v), k).Ok? ==> Key(VariableEntry(nodes, v), k).value == Attr(nodes, v, k))
    ensures var ini := Children(nodes, v, InitialReadDetail, None);
            Key(VariableEntry(nodes, v), "initialReadDetail") ==
              if ini == [] then Err(LookupError) else Ok(InitialDetail(nodes, ini[0]))
    ensures var wrk := Children(nodes, v, WorkingReadDetail, None);
            Key(VariableEntry(nodes, v), "workingReadDetail") ==
              if wrk == [] then Err(LookupError) else Ok(WorkingDetail(nodes, wrk[0]))
  {
    var e := VariableEntry(nodes, v);
    VariableKeys(nodes, v);
    KeyOfWellKeyed(e, 0);
    KeyOfWellKeyed(e, 1);
    forall k | k in OptionalAttrs
      ensures (Key(e, k).Ok? <==> Attr(nodes, v, k) != Str(NoneText)) &&
              (Key(e, k).Ok? ==> Key(e, k).value == Attr(nodes, v, k))
    {
      if Attr(nodes, v, k) == Str(NoneText) {
        OptionalUnset(nodes, v, k);
      } else {
        OptionalSet(nodes, v, k);
      }
    }
    InitialLookup(nodes, v);
    WorkingLookup(nodes, v);
  }

  /** The read detail's file is written under "file_name"; there is no "file" key. */
  lemma InitialDetailFileName(nodes: seq<Node>, d: nat)
    ensures WellKeyed(InitialDetail(nodes, d))
    ensures Key(InitialDetail(nodes, d), "file_name") == Ok(Attr(nodes, d, "file"))
    ensures Key(InitialDetail(nodes, d), "file") == Err(LookupError)
  {
    var e := InitialDetail(nodes, d);
    KeyOfWellKeyed(e, 4);
    assert "file" !in Keys(e.fields);
    KeyAbsent(e, "file");
  }

  /** The optional attributes that are set, in order. */
  method OptionalFields(nodes: seq<Node>, v: nat) returns (fields: seq<(string, Json)>)
    ensures fields == Optionals(nodes, v, OptionalAttrs)
  {
    fields := [];
    for i := 0 to |OptionalAttrs|
      invariant fields == Optionals(nodes, v, OptionalAttrs[..i])
    {
      var k := OptionalAttrs[i];
      var value := Attr(nodes, v, k);
      if value != Str(NoneText) {
        fields := fields + [(k, value)];
      }
      assert OptionalAttrs[..i + 1][..i] == OptionalAttrs[..i];
    }
    assert OptionalAttrs[..|OptionalAttrs|] == OptionalAttrs;
  }

  method EncodeVariable(nodes: seq<Node>, v: nat) returns (entry: Json)
    ensures entry == VariableEntry(nodes, v)
  {
    var fields := [("name", Attr(nodes, v, "name")), ("type", Attr(nodes, v, "type"))];
    var optionals := OptionalFields(nodes, v);
    fields := fields + optionals;
    var ini := Children(nodes, v, InitialReadDetail, None);
    var details: seq<(string, Json)> := [];
    if ini != [] {
      details := details + [("initialReadDetail", InitialDetail(nodes, ini[0]))];
    }
    var wrk := Children(nodes, v, WorkingReadDetail, None);
    if wrk != [] {
      details := details + [("workingReadDetail", WorkingDetail(nodes, wrk[0]))];
    }
    entry := Obj(fields + details);
  }

  // ----- algorithms -----

  function AlgorithmHead(nodes: seq<Node>, a: nat): seq<(string, Json)>
  {
    [("name", Attr(nodes, a, "name")), ("type", Attr(nodes, a, "type")),
     ("maxNumberOfResults", NullIfNone(Attr(nodes, a, "maxNumberOfResults"))),
     ("saveSurrogate", NullIfNone(Attr(nodes, a, "saveSurrogate"))),
     ("surrogateToLoad", NullIfNone(Attr(nodes, a, "surrogateToLoad"))),
     ("modelToLoad", NullIfNone(Attr(nodes, a, "modelToLoad")))]
  }

  /** An algorithm entry; an algorithm without variables is accepted only when it loads a surrogate. */
  function AlgorithmEntry(nodes: seq<Node>, a: nat): Result<Json, EncodeError>
  {
    var vs := Children(nodes, a, Variable, None);
    if vs != [] then
      Ok(Obj(AlgorithmHead(nodes, a) +
             [("variables", Arr(seq(|vs|, i requires 0 <= i < |vs| => VariableEntry(nodes, vs[i]))))]))
    else if NullIfNone(Attr(nodes, a, "surrogateToLoad")) == Null then Err(MissingVariable)
    else Ok(Obj(AlgorithmHead(nodes, a)))
  }

  function AlgorithmStep(nodes: seq<Node>): nat -> Result<Json, EncodeError>
  {
    (a: nat) => AlgorithmEntry(nodes, a)
  }

  /** The "Algorithms" list: every Algorithm node reachable from root, in search order. */
  function AlgorithmsOf(nodes: seq<Node>, root: nat): Result<seq<Json>, EncodeError>
  {
    var algs := Find(nodes, Algorithm, root, None);
    if algs == [] then Err(MissingAlgorithm) else MapAll(AlgorithmStep(nodes), algs)
  }

  /** What an algorithm entry holds: the four nullable attributes are null exactly when unset and
      copied otherwise; "variables" is there exactly when the algorithm has variables, one entry
      per variable; and the entry fails only for an algorithm with neither variables nor a
      surrogate to load. */
  lemma AlgorithmEntryMeaning(nodes: seq<Node>, a: nat)
    ensures var vs := Children(nodes, a, Variable, None);
            AlgorithmEntry(nodes, a).Err? <==> vs == [] && NullIfNone(Attr(nodes, a, "surrogateToLoad")) == Null
    ensures AlgorithmEntry(nodes, a).Err? ==> AlgorithmEntry(nodes, a).error == MissingVariable
    ensures AlgorithmEntry(nodes, a).Ok? ==>
              var e := AlgorithmEntry(nodes, a).value;
              WellKeyed(e) &&
              (forall k :: k in AlgorithmAttrs ==>
                 Key(e, k) == Ok(if Attr(nodes, a, k) == Str(NoneText) then Null else Attr(nodes, a, k))) &&
              Key(e, "name") == Ok(Attr(nodes, a, "name")) && Key(e, "type") == Ok(Attr(nodes, a, "type"))
    ensures AlgorithmEntry(nodes, a).Ok? ==>
              var e := AlgorithmEntry(nodes, a).value;
              var vs := Children(nodes, a, Variable, None);
              (Key(e, "variables").Ok? <==> vs != []) &&
              (vs != [] ==> Key(e, "variables").value.Arr? &&
                            |Key(e, "variables").value.items| == |vs| &&
                            forall i :: 0 <= i < |vs| ==> Key(e, "variables").value.items[i] == VariableEntry(nodes, vs[i]))
  {
    var vs := Children(nodes, a, Variable, None);
    var head := AlgorithmHead(nodes, a);
    if vs != [] {
      var e := AlgorithmEntry(nodes, a).value;
      AlgorithmFields(e, nodes, a, [("variables", Arr(seq(|vs|, i requires 0 <= i < |vs| => VariableEntry(nodes, vs[i]))))]);
    } else if AlgorithmEntry(nodes, a).Ok? {
      assert head + [] == head;
      AlgorithmFields(AlgorithmEntry(nodes, a).value, nodes, a, []);
    }
  }

  /** The object of an algorithm entry: its head and at most a "variables" key. */
  lemma AlgorithmFields(e: Json, nodes: seq<Node>, a: nat, extra: seq<(string, Json)>)
    requires e == Obj(AlgorithmHead(nodes, a) + extra)
    requires extra == [] || (|extra| == 1 && extra[0].0 == "variables")
    ensures WellKeyed(e)
    ensures forall k :: k in AlgorithmAttrs ==>
              Key(e, k) == Ok(if Attr(nodes, a, k) == Str(NoneText) then Null else Attr(nodes, a, k))
    ensures Key(e, "name") == Ok(Attr(nodes, a, "name")) && Key(e, "type") == Ok(Attr(nodes, a, "type"))
    ensures Key(e, "variables") == if extra == [] then Err(LookupError) else Ok(extra[0].1)
  {
    AlgorithmKeys(nodes, a, extra);
    if extra != [] {
      KeyOfWellKeyed(e, 6);
    } else {
      KeyAbsent(e, "variables");
    }
    KeyOfWellKeyed(e, 0);
    KeyOfWellKeyed(e, 1);
    forall k | k in AlgorithmAttrs
      ensures Key(e, k) == Ok(if Attr(nodes, a, k) == Str(NoneText) then Null else Attr(nodes, a, k))
    {
      if k == "maxNumberOfResults" {
        KeyOfWellKeyed(e, 2);
      } else if k == "saveSurrogate" {
        KeyOfWellKeyed(e, 3);
      } else if k == "surrogateToLoad" {
        KeyOfWellKeyed(e, 4);
      } else {
        KeyOfWellKeyed(e, 5);
      }
    }
  }

  lemma AlgorithmKeys(nodes: seq<Node>, a: nat, extra: seq<(string, Json)>)
    requires extra == [] || (|extra| == 1 && extra[0].0 == "variables")
    ensures Keys(AlgorithmHead(nodes, a) + extra) ==
              ["name", "type", "maxNumberOfResults", "saveSurrogate", "surrogateToLoad", "modelToLoad"] +
              (if extra == [] then [] else ["variables"])
    ensures Distinct(Keys(AlgorithmHead(nodes, a) + extra))
  {
    var head := AlgorithmHead(nodes, a);
    assert Keys(head) == ["name", "type", "maxNumberOfResults", "saveSurrogate", "surrogateToLoad", "modelToLoad"];
    KeysAppend(head, extra);
  }

  /** No algorithm is an error; otherwise the list has one entry per algorithm in search order, and
      fails exactly when some algorithm's entry fails. */
  lemma AlgorithmsMeaning(nodes: seq<Node>, root: nat)
    ensures var algs := Find(nodes, Algorithm, root, None);
            algs == [] ==> AlgorithmsOf(nodes, root) == Err(MissingAlgorithm)
    ensures var algs := Find(nodes, Algorithm, root, None);
            AlgorithmsOf(nodes, root).Ok? <==> algs != [] && forall i :: 0 <= i < |algs| ==> AlgorithmEntry(nodes, algs[i]).Ok?
    ensures var algs := Find(nodes, Algorithm, root, None);
            AlgorithmsOf(nodes, root).Ok? ==>
              |AlgorithmsOf(nodes, root).value| == |algs| &&
              forall i :: 0 <= i < |algs| ==> AlgorithmsOf(nodes, root).value[i] == AlgorithmEntry(nodes, algs[i]).value
  {
    var algs := Find(nodes, Algorithm, root, None);
    MapAllOk(AlgorithmStep(nodes), algs);
  }

  method EncodeAlgorithm(nodes: seq<Node>, a: nat) returns (r: Result<Json, EncodeError>)
    ensures r == AlgorithmEntry(nodes, a)
  {
    var head := AlgorithmHead(nodes, a);
    var vs := Children(nodes, a, Variable, None);
    if vs != [] {
      var entries: seq<Json> := [];
      for i := 0 to |vs|
        invariant |entries| == i
        invariant forall j :: 0 <= j < i ==> entries[j] == VariableEntry(nodes, vs[j])
      {
        var e := EncodeVariable(nodes, vs[i]);
        entries := entries + [e];
      }
      assert entries == seq(|vs|, i requires 0 <= i < |vs| => VariableEntry(nodes, vs[i]));
      r := Ok(Obj(head + [("variables", Arr(entries))]));
    } else if NullIfNone(Attr(nodes, a, "surrogateToLoad")) == Null {
      r := Err(MissingVariable);
    } else {
      r := Ok(Obj(head));
    }
  }

  method EncodeAlgorithms(nodes: seq<Node>, root: nat) returns (r: Result<seq<Json>, EncodeError>)
    ensures r == AlgorithmsOf(nodes, root)
  {
    var algs := Find(nodes, Algorithm, root, None);
    if algs == [] {
      return Err(MissingAlgorithm);
    }
    var entries: seq<Json> := [];
    for i := 0 to |algs|
      invariant MapAll(AlgorithmStep(nodes), algs[..i]) == Ok(entries)
    {
      assert algs[..i + 1][..i] == algs[..i];
      var e := EncodeAlgorithm(nodes, algs[i]);
      if e.Err? {
        MapAllErrPrefix(AlgorithmStep(nodes), algs, i + 1);
        return Err(e.error);
      }
      entries := entries + [e.value];
    }
    assert algs[..|algs|] == algs;
    r := Ok(entries);
  }

  // ----- data points and their pivot -----

  /** The (name, value) pairs of a data point's items, in order. */
  function ItemsOf(nodes: seq<Node>, dp: nat): seq<(Json, Json)>
  {
    ItemPairs(nodes, Children(nodes, dp, DataPointItem, None))
  }

  function ItemPairs(nodes: seq<Node>, items: seq<nat>): (r: seq<(Json, Json)>)
    ensures |r| == |items|
  {
    seq(|items|, i requires 0 <= i < |items| => (Attr(nodes, items[i], "name"), Attr(nodes, items[i], "value")))
  }

  function RowsOf(nodes: seq<Node>, dps: seq<nat>): (rows: seq<seq<(Json, Json)>>)
    ensures |rows| == |dps| && forall d :: 0 <= d < |dps| ==> rows[d] == ItemsOf(nodes, dps[d])
  {
    seq(|dps|, d requires 0 <= d < |dps| => ItemsOf(nodes, dps[d]))
  }

  function ColumnsJson(cs: seq<(Json, seq<Json>)>): seq<Json>
  {
    seq(|cs|, i requires 0 <= i < |cs| => Obj([("name", cs[i].0), ("values", Arr(cs[i].1))]))
  }

  /** The pivot of data points into `{name, values}` entries; a data point without items fails. */
  function PivotOf(nodes: seq<Node>, dps: seq<nat>): Result<seq<Json>, EncodeError>
  {
    if !AllHaveItems(nodes, dps) then Err(MissingDataPointItem)
    else Ok(ColumnsJson(Columns(Concat(RowsOf(nodes, dps)))))
  }

  /** When every data point carries the same distinct names in the same order, the pivot has one
      entry per name, in that order, and entry k lists the k-th item value of every data point in
      data point order: N rows of K names give K entries of N values. */
  /** The value columns of data points that all name the same items: row d holds the values of
      data point d. */
  function UniformRows(nodes: seq<Node>, dps: seq<nat>, width: nat): seq<seq<Json>>
    requires forall d :: 0 <= d < |dps| ==> |ItemsOf(nodes, dps[d])| == width
  {
    seq(|dps|, d requires 0 <= d < |dps| => seq(width, c requires 0 <= c < width => ItemsOf(nodes, dps[d])[c].1))
  }

  lemma UniformRowsTable(nodes: seq<Node>, dps: seq<nat>, header: seq<Json>)
    requires forall d :: 0 <= d < |dps| ==> |ItemsOf(nodes, dps[d])| == |header| && Keys(ItemsOf(nodes, dps[d])) == header
    ensures RowsOf(nodes, dps) == Table(header, UniformRows(nodes, dps, |header|))
    ensures Rectangular(header, UniformRows(nodes, dps, |header|))
  {
    var rows := UniformRows(nodes, dps, |header|);
    forall d | 0 <= d < |dps| ensures Zip(header, rows[d]) == ItemsOf(nodes, dps[d]) {
      assert |Keys(ItemsOf(nodes, dps[d]))| == |header|;
    }
  }

  lemma PivotOfUniform(nodes: seq<Node>, dps: seq<nat>, header: seq<Json>)
    requires |dps| >= 1 && |header| >= 1 && Distinct(header)
    requires forall d :: 0 <= d < |dps| ==> |ItemsOf(nodes, dps[d])| == |header| && Keys(ItemsOf(nodes, dps[d])) == header
    ensures PivotOf(nodes, dps).Ok?
    ensures |PivotOf(nodes, dps).value| == |header|
    ensures forall k :: 0 <= k < |header| ==>
              PivotOf(nodes, dps).value[k] ==
                Obj([("name", header[k]),
                     ("values", Arr(seq(|dps|, d requires 0 <= d < |dps| => ItemsOf(nodes, dps[d])[k].1)))])
  {
    var rows := UniformRows(nodes, dps, |header|);
    UniformRowsTable(nodes, dps, header);
    forall d | 0 <= d < |dps| ensures ItemsOf(nodes, dps[d]) != [] {
      assert |ItemsOf(nodes, dps[d])| == |header|;
    }
    var items := Concat(Table(header, rows));
    PivotTableNames(header, rows);
    forall k | 0 <= k < |header|
      ensures ColumnsJson(Columns(items))[k] ==
                Obj([("name", header[k]),
                     ("values", Arr(seq(|dps|, d requires 0 <= d < |dps| => ItemsOf(nodes, dps[d])[k].1)))])
    {
      UniformEntry(nodes, dps, header, k);
    }
  }

  /** Entry k of the pivot of uniform data points: name k with the k-th value of each data point. */
  lemma UniformEntry(nodes: seq<Node>, dps: seq<nat>, header: seq<Json>, k: nat)
    requires |dps| >= 1 && k < |header| && Distinct(header)
    requires forall d :: 0 <= d < |dps| ==> |ItemsOf(nodes, dps[d])| == |header|
    requires DictKeys(Concat(Table(header, UniformRows(nodes, dps, |header|)))) == header
    ensures var cs := Columns(Concat(Table(header, UniformRows(nodes, dps, |header|))));
            k < |cs| &&
            ColumnsJson(cs)[k] ==
              Obj([("name", header[k]),
                   ("values", Arr(seq(|dps|, d requires 0 <= d < |dps| => ItemsOf(nodes, dps[d])[k].1)))])
  {
    var rows := UniformRows(nodes, dps, |header|);
    PivotTableColumn(header, rows, k);
    assert ColumnOf(rows, k) == seq(|dps|, d requires 0 <= d < |dps| => ItemsOf(nodes, dps[d])[k].1);
  }

  lemma RowsSnoc(nodes: seq<Node>, dps: seq<nat>, d: nat)
    requires d < |dps|
    ensures Concat(RowsOf(nodes, dps[..d + 1])) == Concat(RowsOf(nodes, dps[..d])) + ItemsOf(nodes, dps[d])
  {
    var rs := RowsOf(nodes, dps[..d + 1]);
    assert rs[..|rs| - 1] == RowsOf(nodes, dps[..d]);
  }

  /** `for dat_item in datum_items: json_items[dat_item.name].append(dat_item.value)` */
  method AppendItems(acc0: Acc<Json, Json>, nodes: seq<Node>, items: seq<nat>, ghost seen: seq<(Json, Json)>)
    returns (acc: Acc<Json, Json>)
    requires Holds(acc0, seen)
    ensures Holds(acc, seen + ItemPairs(nodes, items))
  {
    ghost var row := ItemPairs(nodes, items);
    acc := acc0;
    assert seen + row[..0] == seen;
    for j := 0 to |items|
      invariant Holds(acc, seen + row[..j])
    {
      var name := Attr(nodes, items[j], "name");
      var value := Attr(nodes, items[j], "value");
      PushStep(acc, seen + row[..j], name, value);
      acc := Push(acc, name, value);
      assert seen + row[..j + 1] == seen + row[..j] + [(name, value)];
    }
    assert row[..|items|] == row;
  }

  /** `for name, values in json_items.items(): ...append({'name': name, 'values': values})` */
  method EntriesJson(entries: seq<(Json, seq<Json>)>) returns (out: seq<Json>)
    ensures out == ColumnsJson(entries)
  {
    out := [];
    for i := 0 to |entries|
      invariant out == ColumnsJson(entries[..i])
    {
      out := out + [Obj([("name", entries[i].0), ("values", Arr(entries[i].1))])];
    }
    assert entries[..|entries|] == entries;
  }

  /** Every data point has at least one item. */
  predicate AllHaveItems(nodes: seq<Node>, dps: seq<nat>)
  {
    forall d :: 0 <= d < |dps| ==> ItemsOf(nodes, dps[d]) != []
  }

  /** Reading out a dict that holds the pivot of every data point's items gives the pivot. */
  lemma PivotOfHolds(nodes: seq<Node>, dps: seq<nat>, acc: Acc<Json, Json>)
    requires AllHaveItems(nodes, dps) && Holds(acc, Concat(RowsOf(nodes, dps)))
    ensures PivotOf(nodes, dps) == Ok(ColumnsJson(Entries(acc)))
  {
    EntriesAreColumns(acc, Concat(RowsOf(nodes, dps)));
  }

  lemma PivotOfMissing(nodes: seq<Node>, dps: seq<nat>, d: nat)
    requires d < |dps| && Children(nodes, dps[d], DataPointItem, None) == []
    ensures PivotOf(nodes, dps) == Err(MissingDataPointItem)
  {
    assert ItemsOf(nodes, dps[d]) == [];
  }

  /** The items of data point d go into the dict. */
  method AddDataPoint(acc0: Acc<Json, Json>, nodes: seq<Node>, dps: seq<nat>, d: nat) returns (acc: Acc<Json, Json>)
    requires d < |dps| && Holds(acc0, Concat(RowsOf(nodes, dps[..d])))
    requires AllHaveItems(nodes, dps[..d]) && ItemsOf(nodes, dps[d]) != []
    ensures Holds(acc, Concat(RowsOf(nodes, dps[..d + 1])))
    ensures AllHaveItems(nodes, dps[..d + 1])
  {
    acc := AppendItems(acc0, nodes, Children(nodes, dps[d], DataPointItem, None), Concat(RowsOf(nodes, dps[..d])));
    RowsSnoc(nodes, dps, d);
    AllHaveItemsSnoc(nodes, dps, d);
  }

  lemma AllHaveItemsSnoc(nodes: seq<Node>, dps: seq<nat>, d: nat)
    requires d < |dps| && AllHaveItems(nodes, dps[..d]) && ItemsOf(nodes, dps[d]) != []
    ensures AllHaveItems(nodes, dps[..d + 1])
  {
    assert dps[..d + 1] == dps[..d] + [dps[d]];
  }

  /** Pivots the data points with the `defaultdict(list)` accumulator. */
  method PivotDataPoints(nodes: seq<Node>, dps: seq<nat>) returns (r: Result<seq<Json>, EncodeError>)
    ensures r == PivotOf(nodes, dps)
  {
    var acc: Acc<Json, Json> := Acc([], map[]);
    EmptyHolds(acc, Concat(RowsOf(nodes, dps[..0])));
    for d := 0 to |dps|
      invariant Holds(acc, Concat(RowsOf(nodes, dps[..d])))
      invariant AllHaveItems(nodes, dps[..d])
    {
      if Children(nodes, dps[d], DataPointItem, None) == [] {
        PivotOfMissing(nodes, dps, d);
        return Err(MissingDataPointItem);
      }
      acc := AddDataPoint(acc, nodes, dps, d);
    }
    assert dps[..|dps|] == dps;
    PivotOfHolds(nodes, dps, acc);
    var out := EntriesJson(Entries(acc));
    r := Ok(out);
  }

  /** The "Inputs" (cls = InputData) or "Outputs" (cls = OutputData) entries: the pivot of the data
      points under the first such node. With no data points this fails only when the first
      algorithm's raw `surrogateToLoad` is falsy. */
  function DatasetOf(nodes: seq<Node>, root: nat, cls: OClass): Result<seq<Json>, EncodeError>
  {
    var data := Find(nodes, cls, root, None);
    var algs := Find(nodes, Algorithm, root, None);
    if data == [] then Err(NoSuchNode)
    else
      var dps := Find(nodes, DataPoint, data[0], Some(HasPart));
      if algs == [] then Err(NoSuchNode)
      else if dps == [] && !Truthy(Attr(nodes, algs[0], "surrogateToLoad")) then Err(MissingDataPoint)
      else PivotOf(nodes, dps)
  }

  /** No data points, no columns. */
  lemma PivotOfNothing(nodes: seq<Node>)
    ensures PivotOf(nodes, []) == Ok([])
  {
    assert RowsOf(nodes, []) == [];
    var items: seq<(Json, Json)> := Concat([]);
    assert items == [];
    assert Keys(items) == [];
    assert DictKeys(items) == [];
    assert Columns(items) == [];
    assert ColumnsJson(Columns(items)) == [];
    assert AllHaveItems(nodes, []);
  }

  /** Where a data section fails: no such node; no data points while the surrogate test is falsy;
      or a data point without items. With no data points and a truthy raw surrogate (including the
      unset value "None") the section is empty. */
  lemma DatasetMeaning(nodes: seq<Node>, root: nat, cls: OClass)
    requires Find(nodes, cls, root, None) != [] && Find(nodes, Algorithm, root, None) != []
    ensures var dps := Find(nodes, DataPoint, Find(nodes, cls, root, None)[0], Some(HasPart));
            var raw := Attr(nodes, Find(nodes, Algorithm, root, None)[0], "surrogateToLoad");
            (DatasetOf(nodes, root, cls) == Err(MissingDataPoint) <==> dps == [] && !Truthy(raw)) &&
            (dps == [] && Truthy(raw) ==> DatasetOf(nodes, root, cls) == Ok([])) &&
            (dps != [] ==> (DatasetOf(nodes, root, cls) == Err(MissingDataPointItem) <==>
                            exists d :: 0 <= d < |dps| && Children(nodes, dps[d], DataPointItem, None) == []))
  {
    var dps := Find(nodes, DataPoint, Find(nodes, cls, root, None)[0], Some(HasPart));
    if dps == [] {
      PivotOfNothing(nodes);
    }
    assert forall d :: 0 <= d < |dps| ==> (ItemsOf(nodes, dps[d]) == [] <==> Children(nodes, dps[d], DataPointItem, None) == []);
  }

  method EncodeDataset(nodes: seq<Node>, root: nat, cls: OClass) returns (r: Result<seq<Json>, EncodeError>)
    ensures r == DatasetOf(nodes, root, cls)
  {
    var data := Find(nodes, cls, root, None);
    if data == [] {
      return Err(NoSuchNode);
    }
    var dps := Find(nodes, DataPoint, data[0], Some(HasPart));
    var algs := Find(nodes, Algorithm, root, None);
    if algs == [] {
      return Err(NoSuchNode);
    }
    if dps == [] && !Truthy(Attr(nodes, algs[0], "surrogateToLoad")) {
      return Err(MissingDataPoint);
    }
    r := PivotDataPoints(nodes, dps);
  }

  // ----- SampleSRM sections -----

  /** The "Files" list: the `file` attribute of every File node, in search order. */
  function FilesOf(nodes: seq<Node>, root: nat): (r: Result<seq<Json>, EncodeError>)
    ensures var fs := Find(nodes, File, root, None);
            (r.Err? <==> fs == []) && (r.Err? ==> r.error == MissingFiles) &&
            (r.Ok? ==> |r.value| == |fs| && forall i :: 0 <= i < |fs| ==> r.value[i] == Attr(nodes, fs[i], "file"))
  {
    var fs := Find(nodes, File, root, None);
    if fs == [] then Err(MissingFiles)
    else Ok(seq(|fs|, i requires 0 <= i < |fs| => Attr(nodes, fs[i], "file")))
  }

  /** One model input: its path and the pivot of the data points of its first data set. An empty
      data set gives empty data, not an error. */
  function ModelInputEntry(nodes: seq<Node>, mi: nat): Result<Json, EncodeError>
  {
    var ds := Find(nodes, DataSet, mi, Some(HasPart));
    if ds == [] then Err(NoSuchNode)
    else
      match PivotOf(nodes, Find(nodes, DataPoint, ds[0], Some(HasPart)))
      case Err(e) => Err(e)
      case Ok(cols) => Ok(Obj([("path", Attr(nodes, mi, "path")), ("data", Arr(cols))]))
  }

  function ModelInputStep(nodes: seq<Node>): nat -> Result<Json, EncodeError>
  {
    (mi: nat) => ModelInputEntry(nodes, mi)
  }

  function ModelInputsOf(nodes: seq<Node>, root: nat): Result<seq<Json>, EncodeError>
  {
    var mis := Find(nodes, ModelInput, root, None);
    if mis == [] then Err(MissingModelInput) else MapAll(ModelInputStep(nodes), mis)
  }

  /** No model input is an error; otherwise there is one `{path, data}` per model input, in order. */
  lemma ModelInputsMeaning(nodes: seq<Node>, root: nat)
    ensures var mis := Find(nodes, ModelInput, root, None);
            (mis == [] ==> ModelInputsOf(nodes, root) == Err(MissingModelInput)) &&
            (ModelInputsOf(nodes, root).Ok? <==> mis != [] && forall i :: 0 <= i < |mis| ==> ModelInputEntry(nodes, mis[i]).Ok?) &&
            (ModelInputsOf(nodes, root).Ok? ==>
               |ModelInputsOf(nodes, root).value| == |mis| &&
               forall i :: 0 <= i < |mis| ==>
                 var e := ModelInputsOf(nodes, root).value[i];
                 WellKeyed(e) && Key(e, "path") == Ok(Attr(nodes, mis[i], "path")) && Key(e, "data").Ok?)
  {
    var mis := Find(nodes, ModelInput, root, None);
    MapAllOk(ModelInputStep(nodes), mis);
    if ModelInputsOf(nodes, root).Ok? {
      forall i | 0 <= i < |mis|
        ensures var e := ModelInputsOf(nodes, root).value[i];
                WellKeyed(e) && Key(e, "path") == Ok(Attr(nodes, mis[i], "path")) && Key(e, "data").Ok?
      {
        var e := ModelInputsOf(nodes, root).value[i];
        assert e == ModelInputEntry(nodes, mis[i]).value;
        KeyOfWellKeyed(e, 0);
        KeyOfWellKeyed(e, 1);
      }
    }
  }

  /** One model input, computed with the pivot method. */
  method EncodeModelInput(nodes: seq<Node>, mi: nat) returns (e: Result<Json, EncodeError>)
    ensures e == ModelInputEntry(nodes, mi)
  {
    var ds := Find(nodes, DataSet, mi, Some(HasPart));
    if ds == [] {
      return Err(NoSuchNode);
    }
    var data := PivotDataPoints(nodes, Find(nodes, DataPoint, ds[0], Some(HasPart)));
    if data.Err? {
      return Err(data.error);
    }
    e := Ok(Obj([("path", Attr(nodes, mi, "path")), ("data", Arr(data.value))]));
  }

  method EncodeModelInputs(nodes: seq<Node>, root: nat) returns (r: Result<seq<Json>, EncodeError>)
    ensures r == ModelInputsOf(nodes, root)
  {
    var mis := Find(nodes, ModelInput, root, None);
    if mis == [] {
      return Err(MissingModelInput);
    }
    var entries: seq<Json> := [];
    for i := 0 to |mis|
      invariant MapAll(ModelInputStep(nodes), mis[..i]) == Ok(entries)
    {
      var e := EncodeModelInput(nodes, mis[i]);
      MapAllStep(ModelInputStep(nodes), mis, i, entries);
      if e.Err? {
        MapAllErrPrefix(ModelInputStep(nodes), mis, i + 1);
        return Err(e.error);
      }
      entries := entries + [e.value];
    }
    assert mis[..|mis|] == mis;
    r := Ok(entries);
  }

  // ----- the whole request -----

  /** A list-valued key of the `defaultdict(list)`: present only once something was appended. */
  function Section(key: string, entries: seq<Json>): seq<(string, Json)>
  {
    if entries == [] then [] else [(key, Arr(entries))]
  }

  /** The part of a request that follows Inputs: Outputs when there are output columns, Files and
      ModelInputs (SampleSRM only). */
  function SampleTail(outputs: seq<Json>, files: seq<Json>, mis: seq<Json>): seq<(string, Json)>
  {
    Section("Outputs", outputs) + [("Files", Arr(files)), ("ModelInputs", Arr(mis))]
  }

  /** The request document (`toJSON`, before `json.dumps`). */
  function Request(nodes: seq<Node>, root: nat, t: Template): Result<Json, EncodeError>
  {
    if !Encodable(t) then Ok(Obj([]))
    else
      var algs :- AlgorithmsOf(nodes, root);
      var inputs :- DatasetOf(nodes, root, InputData);
      var head := [("SimulationType", Str(Name(t))), ("Algorithms", Arr(algs))] + Section("Inputs", inputs);
      if !t.SampleSRM? then Ok(Obj(head))
      else
        var outputs :- DatasetOf(nodes, root, OutputData);
        var files :- FilesOf(nodes, root);
        var mis :- ModelInputsOf(nodes, root);
        Ok(Obj(head + SampleTail(outputs, files, mis)))
  }

  /** The keys a successful request has, in order. */
  function RequestKeys(nodes: seq<Node>, root: nat, t: Template): seq<string>
    requires Encodable(t)
  {
    ["SimulationType", "Algorithms"] +
    (if DatasetOf(nodes, root, InputData) == Ok([]) then [] else ["Inputs"]) +
    (if !t.SampleSRM? then []
     else (if DatasetOf(nodes, root, OutputData) == Ok([]) then [] else ["Outputs"]) + ["Files", "ModelInputs"])
  }

  lemma SampleTailKeys(outputs: seq<Json>, files: seq<Json>, mis: seq<Json>)
    ensures Keys(SampleTail(outputs, files, mis)) == (if outputs == [] then [] else ["Outputs"]) + ["Files", "ModelInputs"]
  {
    KeysAppend(Section("Outputs", outputs), [("Files", Arr(files)), ("ModelInputs", Arr(mis))]);
  }

  /** A document made of SimulationType, Algorithms, an optional Inputs and a tail with none of
      those keys has distinct keys, in that order, and yields its first two values. */
  lemma DocumentKeys(doc: Json, name: string, algs: seq<Json>, inputs: seq<Json>, tail: seq<(string, Json)>)
    requires doc == Obj([("SimulationType", Str(name)), ("Algorithms", Arr(algs))] + Section("Inputs", inputs) + tail)
    requires Distinct(Keys(tail))
    requires forall k :: k in Keys(tail) ==> k != "SimulationType" && k != "Algorithms" && k != "Inputs"
    ensures Keys(doc.fields) == ["SimulationType", "Algorithms"] + (if inputs == [] then [] else ["Inputs"]) + Keys(tail)
    ensures WellKeyed(doc) && Key(doc, "SimulationType") == Ok(Str(name)) && Key(doc, "Algorithms") == Ok(Arr(algs))
  {
    var first := [("SimulationType", Str(name)), ("Algorithms", Arr(algs))];
    var head := first + Section("Inputs", inputs);
    KeysAppend(first, Section("Inputs", inputs));
    KeysAppend(head, tail);
    var hk := Keys(head);
    assert Distinct(hk);
    DistinctConcat(hk, Keys(tail));
    KeyOfWellKeyed(doc, 0);
    KeyOfWellKeyed(doc, 1);
  }

  /** The SampleSRM document: Outputs only when there are output columns, then Files and
      ModelInputs. */
  lemma SampleDocumentKeys(doc: Json, name: string, algs: seq<Json>, inputs: seq<Json>,
                           outputs: seq<Json>, files: seq<Json>, mis: seq<Json>)
    requires doc == Obj([("SimulationType", Str(name)), ("Algorithms", Arr(algs))] + Section("Inputs", inputs) +
                        SampleTail(outputs, files, mis))
    ensures Keys(doc.fields) == ["SimulationType", "Algorithms"] + (if inputs == [] then [] else ["Inputs"]) +
                                ((if outputs == [] then [] else ["Outputs"]) + ["Files", "ModelInputs"])
    ensures WellKeyed(doc) && Key(doc, "SimulationType") == Ok(Str(name)) && Key(doc, "Algorithms") == Ok(Arr(algs))
  {
    SampleTailKeys(outputs, files, mis);
    DocumentKeys(doc, name, algs, inputs, SampleTail(outputs, files, mis));
  }

  /** A successful request of an encodable template, written out. */
  lemma RequestOk(nodes: seq<Node>, root: nat, t: Template)
    requires Encodable(t) && Request(nodes, root, t).Ok?
    ensures AlgorithmsOf(nodes, root).Ok? && DatasetOf(nodes, root, InputData).Ok?
    ensures t.SampleSRM? ==>
              DatasetOf(nodes, root, OutputData).Ok? && FilesOf(nodes, root).Ok? && ModelInputsOf(nodes, root).Ok?
    ensures var head := [("SimulationType", Str(Name(t))), ("Algorithms", Arr(AlgorithmsOf(nodes, root).value))] +
                        Section("Inputs", DatasetOf(nodes, root, InputData).value);
            Request(nodes, root, t).value ==
              if !t.SampleSRM? then Obj(head)
              else Obj(head + SampleTail(DatasetOf(nodes, root, OutputData).value, FilesOf(nodes, root).value,
                                         ModelInputsOf(nodes, root).value))
  {
  }

  /** A successful request has the keys RequestKeys, distinct, and carries the template's name
      and the algorithms. */
  lemma RequestDocument(nodes: seq<Node>, root: nat, t: Template)
    requires Encodable(t) && Request(nodes, root, t).Ok?
    ensures var doc := Request(nodes, root, t).value;
            doc.Obj? && Keys(doc.fields) == RequestKeys(nodes, root, t) && WellKeyed(doc) &&
            Key(doc, "SimulationType") == Ok(Str(Name(t))) &&
            Key(doc, "Algorithms") == Ok(Arr(AlgorithmsOf(nodes, root).value))
  {
    RequestOk(nodes, root, t);
    var doc := Request(nodes, root, t).value;
    var algs := AlgorithmsOf(nodes, root).value;
    var inputs := DatasetOf(nodes, root, InputData).value;
    var head := [("SimulationType", Str(Name(t))), ("Algorithms", Arr(algs))] + Section("Inputs", inputs);
    if t.SampleSRM? {
      var outputs := DatasetOf(nodes, root, OutputData).value;
      SampleDocumentKeys(doc, Name(t), algs, inputs, outputs, FilesOf(nodes, root).value, ModelInputsOf(nodes, root).value);
    } else {
      assert doc == Obj(head + []) by {
        assert head + [] == head;
      }
      DocumentKeys(doc, Name(t), algs, inputs, []);
    }
  }

  /** A template the encoder does not handle gives the empty object. For the others a successful
      request is a dict whose keys are SimulationType (the template's name), Algorithms, Inputs
      when there are input columns, and for SampleSRM only, Outputs when there are output columns,
      Files and ModelInputs; the algorithms are checked first, so a graph without any fails with
      MissingAlgorithm. */
  lemma RequestMeaning(nodes: seq<Node>, root: nat, t: Template)
    ensures !Encodable(t) ==> Request(nodes, root, t) == Ok(Obj([]))
    ensures Encodable(t) && Find(nodes, Algorithm, root, None) == [] ==> Request(nodes, root, t) == Err(MissingAlgorithm)
    ensures Encodable(t) && Request(nodes, root, t).Ok? ==>
              var doc := Request(nodes, root, t).value;
              doc.Obj? && Keys(doc.fields) == RequestKeys(nodes, root, t) && WellKeyed(doc) &&
              Key(doc, "SimulationType") == Ok(Str(Name(t))) &&
              Key(doc, "Algorithms") == Ok(Arr(AlgorithmsOf(nodes, root).value))
  {
    if Encodable(t) && Request(nodes, root, t).Ok? {
      RequestDocument(nodes, root, t);
    }
  }

  /** `toJSON`: the steps in the order the encoder runs them, each a call that may raise. */
  method ToJson(nodes: seq<Node>, root: nat, t: Template) returns (r: Result<Json, EncodeError>)
    ensures r == Request(nodes, root, t)
  {
    if !Encodable(t) {
      return Ok(Obj([]));
    }
    var algs := EncodeAlgorithms(nodes, root);
    if algs.Err? {
      return Err(algs.error);
    }
    var inputs := EncodeDataset(nodes, root, InputData);
    if inputs.Err? {
      return Err(inputs.error);
    }
    var fields := [("SimulationType", Str(Name(t))), ("Algorithms", Arr(algs.value))] + Section("Inputs", inputs.value);
    if t.SampleSRM? {
      var outputs := EncodeDataset(nodes, root, OutputData);
      if outputs.Err? {
        return Err(outputs.error);
      }
      var files := FilesOf(nodes, root);
      if files.Err? {
        return Err(files.error);
      }
      var mis := EncodeModelInputs(nodes, root);
      if mis.Err? {
        return Err(mis.error);
      }
      fields := fields + SampleTail(outputs.value, files.value, mis.value);
    }
    r := Ok(Obj(fields));
  }
}
