/** A parsed JSON value, and the Python operations the wrapper and the mock agents apply to one
    (`j[key]`, `j[i]`, `for x in j`, `len(j)`, `key in j`, `not j`, `a == b`).
    An object is a list of (key, value) pairs in insertion order; like a dict filled
    pair by pair, a repeated key keeps its first position and its last value. */
module Json {
  import opened Wrappers
  import opened Seqs

  datatype Json =
    | Null
    | Bool(b: bool)
    | Int(i: int)
    | Float(r: real)
    | Str(s: string)
    | Arr(items: seq<Json>)
    | Obj(fields: seq<(string, Json)>)

  /** What a failed Python operation raises: a LookupError (KeyError, IndexError), a TypeError,
      an AttributeError (a method the value's type lacks) or a ValueError. */
  datatype PyError = LookupError | TypeError | AttributeError | ValueError

  /** The string the ontology stores for an attribute that has no value. */
  const NoneText: string := "None"

  /** The value the dict holds for k: the last pair with that key. */
  function Lookup(fields: seq<(string, Json)>, k: string): (r: Option<Json>)
  {
    if fields == [] then None
    else if fields[|fields| - 1].0 == k then Some(fields[|fields| - 1].1)
    else Lookup(fields[..|fields| - 1], k)
  }

  /** A key has a value exactly when some pair carries it; for pairs with distinct keys
      the value is that pair's. */
  lemma {:induction false} LookupSpec(fields: seq<(string, Json)>, k: string)
    ensures Lookup(fields, k).Some? <==> k in Keys(fields)
    ensures forall i :: 0 <= i < |fields| && fields[i].0 == k && Distinct(Keys(fields)) ==>
              Lookup(fields, k) == Some(fields[i].1)
  {
    if fields != [] {
      var init := fields[..|fields| - 1];
      LookupSpec(init, k);
      assert Keys(fields) == Keys(init) + [fields[|fields| - 1].0];
      if Distinct(Keys(fields)) {
        assert Distinct(Keys(init)) by {
          forall a, b | 0 <= a < b < |Keys(init)| ensures Keys(init)[a] != Keys(init)[b] {
            assert Keys(init)[a] == Keys(fields)[a] && Keys(init)[b] == Keys(fields)[b];
          }
        }
      }
    }
  }

  /** A key bound in the later pairs takes its value from them, otherwise from the earlier ones. */
  lemma {:induction false} LookupAppend(a: seq<(string, Json)>, b: seq<(string, Json)>, k: string)
    ensures Lookup(a + b, k) == if k in Keys(b) then Lookup(b, k) else Lookup(a, k)
    decreases |b|
  {
    if b == [] {
      assert a + b == a;
    } else {
      var init := b[..|b| - 1];
      assert (a + b)[..|a + b| - 1] == a + init;
      LookupAppend(a, init, k);
      assert Keys(b) == Keys(init) + [b[|b| - 1].0];
    }
  }

  /** A key is found exactly when some pair carries it. */
  lemma {:induction false} LookupSome(fields: seq<(string, Json)>, k: string)
    ensures Lookup(fields, k).Some? <==> k in Keys(fields)
  {
    if fields != [] {
      var init := fields[..|fields| - 1];
      assert Keys(fields) == Keys(init) + [fields[|fields| - 1].0];
      LookupSome(init, k);
    }
  }

  /** A key no pair carries has no value. */
  lemma {:induction false} LookupAbsent(fields: seq<(string, Json)>, k: string)
    requires k !in Keys(fields)
    ensures Lookup(fields, k) == None
  {
    if fields != [] {
      var init := fields[..|fields| - 1];
      assert Keys(init) == Keys(fields)[..|fields| - 1];
      LookupAbsent(init, k);
    }
  }

  /** The value found for a key is the value of some pair with that key. */
  lemma {:induction false} LookupFound(fields: seq<(string, Json)>, k: string)
    requires Lookup(fields, k).Some?
    ensures (k, Lookup(fields, k).value) in fields
  {
    if fields[|fields| - 1].0 != k {
      LookupFound(fields[..|fields| - 1], k);
    }
  }

  /** `j[k]` for a string key. */
  function Key(j: Json, k: string): Result<Json, PyError>
  {
    match j
    case Obj(fs) => (match Lookup(fs, k) case Some(v) => Ok(v) case None => Err(LookupError))
    case _ => Err(TypeError)
  }

  /** `j[i]` for a non-negative integer index. A JSON object has only string keys, so an integer
      subscript of one is a KeyError. */
  function Idx(j: Json, i: nat): Result<Json, PyError>
  {
    match j
    case Arr(xs) => if i < |xs| then Ok(xs[i]) else Err(LookupError)
    case Str(s) => if i < |s| then Ok(Str([s[i]])) else Err(LookupError)
    case Obj(_) => Err(LookupError)
    case _ => Err(TypeError)
  }

  /** The elements `for x in j` visits: list items, dict keys, or the characters of a string. */
  function Iter(j: Json): Option<seq<Json>>
  {
    match j
    case Arr(xs) => Some(xs)
    case Obj(fs) => Some(seq(|DictKeys(fs)|, i requires 0 <= i < |DictKeys(fs)| => Str(DictKeys(fs)[i])))
    case Str(s) => Some(seq(|s|, i requires 0 <= i < |s| => Str([s[i]])))
    case _ => None
  }

  /** `len(j)`; None where Python raises a TypeError. */
  function Len(j: Json): Option<nat>
  {
    match j
    case Arr(xs) => Some(|xs|)
    case Obj(fs) => Some(|DictKeys(fs)|)
    case Str(s) => Some(|s|)
    case _ => None
  }

  /** `bool(j)`. */
  predicate Truthy(j: Json)
  {
    match j
    case Null => false
    case Bool(b) => b
    case Int(i) => i != 0
    case Float(r) => r != 0.0
    case Str(s) => s != ""
    case Arr(xs) => xs != []
    case Obj(fs) => fs != []
  }

  /** The number a bool, int or float stands for in a Python comparison. */
  function Number(j: Json): Option<real>
  {
    match j
    case Bool(b) => Some(if b then 1.0 else 0.0)
    case Int(i) => Some(i as real)
    case Float(r) => Some(r)
    case _ => None
  }

  /** Pair i holds the value the dict keeps for its key: no later pair has the same key. */
  predicate LastAt(fields: seq<(string, Json)>, i: int)
  {
    0 <= i < |fields| && forall j :: i < j < |fields| ==> fields[j].0 != fields[i].0
  }

  /** `a == b`: numbers compare by value across bool, int and float; lists element by element;
      dicts as mappings, whatever their key order, each key's kept value against the other's;
      strings and None by value. */
  predicate PyEq(a: Json, b: Json)
    decreases a
  {
    if Number(a).Some? || Number(b).Some? then Number(a) == Number(b)
    else match a
      case Arr(xs) =>
        b.Arr? && |xs| == |b.items| && forall i :: 0 <= i < |xs| ==> PyEq(xs[i], b.items[i])
      case Obj(fs) =>
        b.Obj? &&
        (forall k :: k in Keys(fs) ==> k in Keys(b.fields)) &&
        (forall k :: k in Keys(b.fields) ==> k in Keys(fs)) &&
        forall i, j ::
          (0 <= i < |fs| && 0 <= j < |b.fields| &&
           LastAt(fs, i) && LastAt(b.fields, j) && fs[i].0 == b.fields[j].0) ==>
          PyEq(fs[i].1, b.fields[j].1)
      case _ => a == b
  }

  /** Every value equals itself. */
  lemma {:induction false} PyEqRefl(a: Json)
    ensures PyEq(a, a)
    decreases a
  {
    match a
    case Arr(xs) =>
      forall i | 0 <= i < |xs| ensures PyEq(xs[i], xs[i]) { PyEqRefl(xs[i]); }
    case Obj(fs) =>
      forall i, j | LastAt(fs, i) && LastAt(fs, j) && fs[i].0 == fs[j].0
        ensures PyEq(fs[i].1, fs[j].1)
      {
        assert i == j;
        PyEqRefl(fs[i].1);
      }
    case _ =>
  }

  /** Equality does not depend on the order of its operands. */
  lemma {:induction false} PyEqSym(a: Json, b: Json)
    requires PyEq(a, b)
    ensures PyEq(b, a)
    decreases a
  {
    if Number(a).Some? || Number(b).Some? {
    } else {
      match a
      case Arr(xs) =>
        forall i | 0 <= i < |xs| ensures PyEq(b.items[i], xs[i]) { PyEqSym(xs[i], b.items[i]); }
      case Obj(fs) =>
        forall j, i | LastAt(b.fields, j) && LastAt(fs, i) && b.fields[j].0 == fs[i].0
          ensures PyEq(b.fields[j].1, fs[i].1)
        {
          PyEqSym(fs[i].1, b.fields[j].1);
        }
      case _ =>
    }
  }

  /** `k in j` for a string k. */
  function Contains(j: Json, k: string): Result<bool, PyError>
  {
    match j
    case Obj(fs) => Ok(k in Keys(fs))
    case Arr(xs) => Ok(exists i :: 0 <= i < |xs| && PyEq(xs[i], Str(k)))
    case Str(s) => Ok(Occurs(k, s))
    case _ => Err(TypeError)
  }

  /** `for x in j`, which raises a TypeError for a value that is not iterable. */
  function Elements(j: Json): (r: Result<seq<Json>, PyError>)
    ensures r.Err? <==> Iter(j).None?
    ensures r.Err? ==> r.error == TypeError
  {
    match Iter(j)
    case Some(xs) => Ok(xs)
    case None => Err(TypeError)
  }

  /** `len(j)`, which raises a TypeError for a value without a length. */
  function Length(j: Json): (r: Result<nat, PyError>)
    ensures r.Err? <==> Len(j).None?
    ensures r.Err? ==> r.error == TypeError
  {
    match Len(j)
    case Some(n) => Ok(n)
    case None => Err(TypeError)
  }

  /** `int(j)`: integers as they are, booleans as 0 and 1, floats truncated toward zero,
      strings holding an optionally signed decimal numeral parsed; other strings are a
      ValueError and other values a TypeError. */
  function IntOf(j: Json): (r: Result<int, PyError>)
    ensures j.Int? ==> r == Ok(j.i)
    ensures j.Float? && j.r >= 0.0 ==> r.Ok? && r.value as real <= j.r < r.value as real + 1.0
    ensures j.Float? && j.r < 0.0 ==> r.Ok? && r.value as real - 1.0 < j.r <= r.value as real
  {
    match j
    case Int(i) => Ok(i)
    case Bool(b) => Ok(if b then 1 else 0)
    case Float(x) => Ok(if x >= 0.0 then x.Floor else -((-x).Floor))
    case Str(s) =>
      var signed := |s| > 0 && (s[0] == '-' || s[0] == '+');
      var digits := if signed then s[1..] else s;
      (match Numeral(digits)
       case None => Err(ValueError)
       case Some(n) => Ok(if signed && s[0] == '-' then -(n as int) else n))
    case _ => Err(TypeError)
  }

  /** The value of a non-empty string of decimal digits. */
  function Numeral(s: string): (r: Option<nat>)
    ensures r.Some? <==> s != [] && forall i :: 0 <= i < |s| ==> '0' <= s[i] <= '9'
  {
    if s == [] then None
    else if !('0' <= s[|s| - 1] <= '9') then None
    else
      var d := s[|s| - 1] as int - '0' as int;
      if |s| == 1 then Some(d)
      else match Numeral(s[..|s| - 1])
        case None => None
        case Some(n) => Some(10 * n + d)
  }

  /** An object built from literal pairs: every key once. */
  predicate WellKeyed(j: Json)
  {
    j.Obj? && Distinct(Keys(j.fields))
  }

  /** Reading a key back from an object with distinct keys gives the value stored under it. */
  lemma KeyOfWellKeyed(j: Json, i: nat)
    requires WellKeyed(j) && i < |j.fields|
    ensures Key(j, j.fields[i].0) == Ok(j.fields[i].1)
  {
    LookupSpec(j.fields, j.fields[i].0);
  }

  /** A key no pair carries is a KeyError. */
  lemma KeyAbsent(j: Json, k: string)
    requires j.Obj? && k !in Keys(j.fields)
    ensures Key(j, k) == Err(LookupError)
  {
    LookupSpec(j.fields, k);
  }
}
