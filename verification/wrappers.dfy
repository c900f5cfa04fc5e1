/** Optional values and outcomes shared by every module of the model. */
module Wrappers {

  datatype Option<+T> = None | Some(value: T) {
    /** `value` when present, `default` otherwise (Python's `dict.get(key, default)`). */
    function GetOr(default: T): T {
      match this
      case Some(v) => v
      case None => default
    }
  }

  /** A call that either returns a value or raises (the exception's message is kept). */
  datatype Result<+R> = Success(value: R) | Failure(error: string) {
    /** `:-` propagates a raised exception, as an unguarded Python call does. */
    predicate IsFailure() {
      Failure?
    }

    function PropagateFailure<U>(): Result<U>
      requires Failure?
    {
      Failure(error)
    }

    function Extract(): R
      requires Success?
    {
      value
    }
  }

  // ---- folds over sequences of options and outcomes ----

  /** The values present in a sequence of options, in order. */
  function Present<T>(xs: seq<Option<T>>): (r: seq<T>)
    ensures |r| <= |xs|
    decreases |xs|
  {
    if xs == [] then []
    else
      var init := Present(xs[..|xs| - 1]);
      if xs[|xs| - 1].Some? then init + [xs[|xs| - 1].value] else init
  }

  /** A value is present iff some option holds it. */
  lemma {:induction false} PresentSources<T>(xs: seq<Option<T>>)
    ensures forall b :: b in Present(xs) <==> exists i :: 0 <= i < |xs| && xs[i] == Some(b)
    decreases |xs|
  {
    if xs != [] {
      var init := xs[..|xs| - 1];
      PresentSources(init);
      forall b ensures b in Present(xs) <==> exists i :: 0 <= i < |xs| && xs[i] == Some(b)
      {
        if b in Present(init) {
          var i :| 0 <= i < |init| && init[i] == Some(b);
          assert xs[i] == init[i];
        } else {
          assert forall i :: 0 <= i < |init| ==> init[i] == xs[i];
        }
      }
    }
  }

  /** When every option holds a value, those values come out, in order. */
  lemma {:induction false} PresentAll<T>(xs: seq<Option<T>>)
    requires forall i :: 0 <= i < |xs| ==> xs[i].Some?
    ensures |Present(xs)| == |xs|
    ensures forall i :: 0 <= i < |xs| ==> Present(xs)[i] == xs[i].value
    decreases |xs|
  {
    if xs != [] {
      var init := xs[..|xs| - 1];
      PresentAll(init);
      assert forall i :: 0 <= i < |init| ==> init[i] == xs[i];
    }
  }

  /** When no option holds a value, nothing is present. */
  lemma {:induction false} PresentNone<T>(xs: seq<Option<T>>)
    requires forall i :: 0 <= i < |xs| ==> xs[i].None?
    ensures Present(xs) == []
    decreases |xs|
  {
    if xs != [] {
      PresentNone(xs[..|xs| - 1]);
    }
  }

  /** One more option: its value, if any, comes after those already present. */
  lemma PresentSnoc<T>(xs: seq<Option<T>>, x: Option<T>)
    ensures Present(xs + [x]) == Present(xs) + (if x.Some? then [x.value] else [])
  {
    assert (xs + [x])[..|xs|] == xs;
  }

  /** The values of a sequence of outcomes, in order; the first failure is raised instead. */
  function Collected<T>(rs: seq<Result<T>>): (r: Result<seq<T>>)
    ensures r.Success? ==> |r.value| == |rs|
    decreases |rs|
  {
    if rs == [] then Success([])
    else
      var init :- Collected(rs[..|rs| - 1]);
      var last :- rs[|rs| - 1];
      Success(init + [last])
  }

  /** All or nothing: the values come back iff every outcome is a value, and then value i is outcome i's. */
  lemma {:induction false} CollectedAligned<T>(rs: seq<Result<T>>)
    ensures Collected(rs).Success? <==> forall i :: 0 <= i < |rs| ==> rs[i].Success?
    ensures Collected(rs).Success? ==> forall i :: 0 <= i < |rs| ==> rs[i] == Success(Collected(rs).value[i])
    decreases |rs|
  {
    if rs != [] {
      var init := rs[..|rs| - 1];
      CollectedAligned(init);
      assert forall i :: 0 <= i < |init| ==> init[i] == rs[i];
    }
  }

  /** One more outcome: its failure is raised unless an earlier one already was. */
  lemma CollectedStep<T>(rs: seq<Result<T>>, i: nat)
    requires i < |rs|
    ensures Collected(rs[..i + 1]) ==
      if Collected(rs[..i]).Failure? then Collected(rs[..i])
      else if rs[i].Failure? then Failure(rs[i].error)
      else Success(Collected(rs[..i]).value + [rs[i].value])
  {
    assert rs[..i + 1][..i] == rs[..i];
  }

  /** Once a prefix of the outcomes has failed, the whole sequence fails the same way. */
  lemma {:induction false} CollectedStops<T>(rs: seq<Result<T>>, i: nat)
    requires i <= |rs| && Collected(rs[..i]).Failure?
    ensures Collected(rs) == Collected(rs[..i])
    decreases |rs| - i
  {
    if i == |rs| {
      assert rs[..i] == rs;
    } else {
      CollectedStep(rs, i);
      CollectedStops(rs, i + 1);
    }
  }

  /** A value found by collecting and then keeping the present options came from one outcome. */
  lemma CollectedPresentSources<T>(rs: seq<Result<Option<T>>>)
    requires Collected(rs).Success?
    ensures forall u :: u in Present(Collected(rs).value) ==> exists i :: 0 <= i < |rs| && rs[i] == Success(Some(u))
  {
    var looked := Collected(rs).value;
    CollectedAligned(rs);
    PresentSources(looked);
    forall u | u in Present(looked) ensures exists i :: 0 <= i < |rs| && rs[i] == Success(Some(u)) {
      var i :| 0 <= i < |looked| && looked[i] == Some(u);
      assert rs[i] == Success(looked[i]);
    }
  }
}
