/** Failure-compatible datatypes shared by the classifier, the record builder
    and the renderer. A Python exception that aborts the run becomes an `Err`. */
module Wrappers {

  /** A value that may be absent; used where a Python call would raise and the
      caller catches it. */
  datatype Option<+T> = None | Some(value: T)

  /** Why a run aborts. */
  datatype Error =
    /** A native label neither classifier recognises, reported verbatim. */
    | UnknownDataType(dataType: string)
    /** A missing key in the storage-type dictionary. */
    | KeyError(key: string)

  /** The outcome of an operation that may abort the run. */
  datatype Result<+T> = Ok(value: T) | Err(error: Error) {

    predicate IsFailure() {
      Err?
    }

    function PropagateFailure<U>(): Result<U>
      requires Err?
    {
      Err(error)
    }

    function Extract(): T
      requires Ok?
    {
      value
    }
  }

  /** Applies `f` to each element in turn and collects the results, stopping
      at the first failure: a list comprehension whose body may raise. */
  function MapAll<A, B>(f: A -> Result<B>, xs: seq<A>): (r: Result<seq<B>>)
    ensures r.Ok? ==> |r.value| == |xs|
  {
    if |xs| == 0 then Ok([])
    else
      var y :- f(xs[0]);
      var ys :- MapAll(f, xs[1..]);
      Ok([y] + ys)
  }

  /** Each collected value is the result of applying `f` at that position. */
  lemma {:induction false} MapAllValues<A, B>(f: A -> Result<B>, xs: seq<A>)
    requires MapAll(f, xs).Ok?
    ensures forall k :: 0 <= k < |xs| ==> f(xs[k]) == Ok(MapAll(f, xs).value[k])
  {
    if |xs| > 0 {
      MapAllValues(f, xs[1..]);
      var ys := MapAll(f, xs).value;
      var rest := MapAll(f, xs[1..]).value;
      assert ys == [f(xs[0]).value] + rest;
      forall k | 0 < k < |xs|
        ensures f(xs[k]) == Ok(ys[k])
      {
        assert xs[k] == xs[1..][k - 1];
        assert ys[k] == rest[k - 1];
      }
    }
  }

  /** The collection succeeds exactly when every application does; when it
      fails, it reports the failure of the first application that fails. */
  lemma {:induction false} MapAllOutcome<A, B>(f: A -> Result<B>, xs: seq<A>)
    ensures MapAll(f, xs).Ok? <==> forall k :: 0 <= k < |xs| ==> f(xs[k]).Ok?
    ensures MapAll(f, xs).Err? ==>
              exists k :: && 0 <= k < |xs|
                          && f(xs[k]) == Err(MapAll(f, xs).error)
                          && forall j :: 0 <= j < k ==> f(xs[j]).Ok?
  {
    if |xs| > 0 {
      MapAllOutcome(f, xs[1..]);
      if f(xs[0]).Ok? {
        if forall k :: 0 <= k < |xs[1..]| ==> f(xs[1..][k]).Ok? {
          forall k | 0 <= k < |xs|
            ensures f(xs[k]).Ok?
          {
            if k > 0 {
              assert xs[k] == xs[1..][k - 1];
            }
          }
        } else {
          var i :| 0 <= i < |xs[1..]| && f(xs[1..][i]).Err?;
          assert xs[i + 1] == xs[1..][i];
        }
        if MapAll(f, xs[1..]).Err? {
          var k :| && 0 <= k < |xs[1..]|
                   && f(xs[1..][k]) == Err(MapAll(f, xs[1..]).error)
                   && forall j :: 0 <= j < k ==> f(xs[1..][j]).Ok?;
          assert xs[k + 1] == xs[1..][k];
          forall j | 0 <= j < k + 1
            ensures f(xs[j]).Ok?
          {
            if j > 0 {
              assert xs[j] == xs[1..][j - 1];
            }
          }
        }
      }
    }
  }

  /** Collecting over a concatenation collects over each part in turn. */
  lemma {:induction false} MapAllAppend<A, B>(f: A -> Result<B>, xs: seq<A>, ys: seq<A>)
    requires MapAll(f, xs).Ok? && MapAll(f, ys).Ok?
    ensures MapAll(f, xs + ys) == Ok(MapAll(f, xs).value + MapAll(f, ys).value)
  {
    if |xs| == 0 {
      assert xs + ys == ys;
      assert [] + MapAll(f, ys).value == MapAll(f, ys).value;
    } else {
      assert (xs + ys)[1..] == xs[1..] + ys;
      assert (xs + ys)[0] == xs[0];
      MapAllAppend(f, xs[1..], ys);
      var y := f(xs[0]).value;
      var rest := MapAll(f, xs[1..]).value;
      assert [y] + (rest + MapAll(f, ys).value) == ([y] + rest) + MapAll(f, ys).value;
    }
  }
}
