/** Option and Result, and the two ways the model runs a fallible step over a list:
    one result per element (MapAll) or a concatenation of per-element lists (FlatMapAll).
    Both are defined from the back, so that a left-to-right loop can keep
    "the prefix done so far" as its invariant, and both report the first failure. */
module Wrappers {

  datatype Option<+T> = None | Some(value: T)

  datatype Result<+T, +E> = Ok(value: T) | Err(error: E) {
    predicate IsFailure() {
      Err?
    }

    function PropagateFailure<U>(): Result<U, E>
      requires Err?
    {
      Err(error)
    }

    function Extract(): T
      requires Ok?
    {
      value
    }
  }

  /** f applied to each element in order, stopping at the first failure. */
  function MapAll<A, B, E>(f: A -> Result<B, E>, s: seq<A>): (r: Result<seq<B>, E>)
    ensures r.Ok? ==> |r.value| == |s|
  {
    if s == [] then Ok([])
    else
      match MapAll(f, s[..|s| - 1])
      case Err(e) => Err(e)
      case Ok(init) =>
        match f(s[|s| - 1])
        case Err(e) => Err(e)
        case Ok(b) => Ok(init + [b])
  }

  /** The lists f gives for each element, concatenated in order, stopping at the first failure. */
  function FlatMapAll<A, B, E>(f: A -> Result<seq<B>, E>, s: seq<A>): (r: Result<seq<B>, E>)
  {
    if s == [] then Ok([])
    else
      match FlatMapAll(f, s[..|s| - 1])
      case Err(e) => Err(e)
      case Ok(init) =>
        match f(s[|s| - 1])
        case Err(e) => Err(e)
        case Ok(b) => Ok(init + b)
  }

  /** MapAll succeeds exactly when f succeeds on every element, and then holds f's values in order. */
  lemma {:induction false} MapAllOk<A, B, E>(f: A -> Result<B, E>, s: seq<A>)
    ensures MapAll(f, s).Ok? <==> forall i :: 0 <= i < |s| ==> f(s[i]).Ok?
    ensures MapAll(f, s).Ok? ==> forall i :: 0 <= i < |s| ==> MapAll(f, s).value[i] == f(s[i]).value
  {
    if s != [] {
      var init := s[..|s| - 1];
      MapAllOk(f, init);
      assert forall i :: 0 <= i < |init| ==> init[i] == s[i];
    }
  }

  /** When MapAll fails, it reports the failure of the first element on which f fails. */
  lemma {:induction false} MapAllFirstErr<A, B, E>(f: A -> Result<B, E>, s: seq<A>)
    requires MapAll(f, s).Err?
    ensures exists i :: 0 <= i < |s| && f(s[i]) == Err(MapAll(f, s).error) &&
                        forall j :: 0 <= j < i ==> f(s[j]).Ok?
  {
    var init := s[..|s| - 1];
    assert forall i :: 0 <= i < |init| ==> init[i] == s[i];
    if MapAll(f, init).Err? {
      MapAllFirstErr(f, init);
      var i :| 0 <= i < |init| && f(init[i]) == Err(MapAll(f, init).error) &&
                forall j :: 0 <= j < i ==> f(init[j]).Ok?;
      assert f(s[i]) == Err(MapAll(f, s).error);
    } else {
      MapAllOk(f, init);
      assert f(s[|s| - 1]) == Err(MapAll(f, s).error);
    }
  }

  /** One more element of s extends a successful prefix by f's result on it. */
  lemma MapAllStep<A, B, E>(f: A -> Result<B, E>, s: seq<A>, i: nat, acc: seq<B>)
    requires i < |s| && MapAll(f, s[..i]) == Ok(acc)
    ensures MapAll(f, s[..i + 1]) == match f(s[i]) case Err(e) => Err(e) case Ok(b) => Ok(acc + [b])
  {
    assert s[..i + 1][..i] == s[..i];
  }

  /** One more element of s extends a successful prefix by the list f gives for it. */
  lemma FlatMapAllStep<A, B, E>(f: A -> Result<seq<B>, E>, s: seq<A>, i: nat, acc: seq<B>)
    requires i < |s| && FlatMapAll(f, s[..i]) == Ok(acc)
    ensures FlatMapAll(f, s[..i + 1]) == match f(s[i]) case Err(e) => Err(e) case Ok(b) => Ok(acc + b)
  {
    assert s[..i + 1][..i] == s[..i];
  }

  /** A property every list f gives holds of every element FlatMapAll gives. */
  lemma {:induction false} FlatMapAllEach<A, B, E>(f: A -> Result<seq<B>, E>, s: seq<A>, P: B -> bool)
    requires forall i :: 0 <= i < |s| && f(s[i]).Ok? ==> forall y :: y in f(s[i]).value ==> P(y)
    ensures FlatMapAll(f, s).Ok? ==> forall y :: y in FlatMapAll(f, s).value ==> P(y)
  {
    if s != [] {
      var init := s[..|s| - 1];
      assert forall i :: 0 <= i < |init| ==> init[i] == s[i];
      FlatMapAllEach(f, init, P);
    }
  }

  /** A failure on a prefix is the failure of the whole list. */
  lemma {:induction false} MapAllErrPrefix<A, B, E>(f: A -> Result<B, E>, s: seq<A>, k: nat)
    requires k <= |s| && MapAll(f, s[..k]).Err?
    ensures MapAll(f, s) == MapAll(f, s[..k])
    decreases |s| - k
  {
    if k < |s| {
      var t := s[..k + 1];
      assert t[..k] == s[..k];
      assert t[..|t| - 1] == s[..k];
      MapAllErrPrefix(f, s, k + 1);
    } else {
      assert s[..k] == s;
    }
  }

  lemma {:induction false} FlatMapAllErrPrefix<A, B, E>(f: A -> Result<seq<B>, E>, s: seq<A>, k: nat)
    requires k <= |s| && FlatMapAll(f, s[..k]).Err?
    ensures FlatMapAll(f, s) == FlatMapAll(f, s[..k])
    decreases |s| - k
  {
    if k < |s| {
      var t := s[..k + 1];
      assert t[..|t| - 1] == s[..k];
      FlatMapAllErrPrefix(f, s, k + 1);
    } else {
      assert s[..k] == s;
    }
  }

  /** FlatMapAll succeeds exactly when f succeeds on every element. */
  lemma {:induction false} FlatMapAllOk<A, B, E>(f: A -> Result<seq<B>, E>, s: seq<A>)
    ensures FlatMapAll(f, s).Ok? <==> forall i :: 0 <= i < |s| ==> f(s[i]).Ok?
  {
    if s != [] {
      var init := s[..|s| - 1];
      FlatMapAllOk(f, init);
      assert forall i :: 0 <= i < |init| ==> init[i] == s[i];
    }
  }

  /** Whatever f gives for an element is among what FlatMapAll gives. */
  lemma {:induction false} FlatMapAllContains<A, B, E>(f: A -> Result<seq<B>, E>, s: seq<A>, i: nat, y: B)
    requires i < |s| && FlatMapAll(f, s).Ok? && f(s[i]).Ok? && y in f(s[i]).value
    ensures y in FlatMapAll(f, s).value
  {
    var init := s[..|s| - 1];
    if i < |s| - 1 {
      assert init[i] == s[i];
      FlatMapAllContains(f, init, i, y);
    }
  }
}
