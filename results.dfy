/** Outcomes of operations that may raise, and the two ways they are combined in the pipeline:
    re-raising with a context prefix, and stopping at the first failure of a sequence of steps. */
module Results {

  datatype Option<+T> = None | Some(value: T)

  /** A value, or the text of the exception raised instead (`str(e)`). */
  datatype Result<+T> = Ok(value: T) | Err(message: string) {
    predicate IsFailure() { Err? }

    function PropagateFailure<U>(): Result<U>
      requires Err?
    {
      Err(message)
    }

    function Extract(): T
      requires Ok?
    {
      value
    }
  }

  /** `except Exception as e: raise X(f"{prefix}{str(e)}")` around a computation. */
  function Wrap<T>(prefix: string, r: Result<T>): (w: Result<T>)
    ensures w.Ok? <==> r.Ok?
    ensures r.Ok? ==> w == r
    ensures r.Err? ==> w.message == prefix + r.message
  {
    if r.Ok? then r else Err(prefix + r.message)
  }

  predicate AllOk<T>(rs: seq<Result<T>>) {
    forall k :: 0 <= k < |rs| ==> rs[k].Ok?
  }

  /** The message of the first failed step, if any step failed. */
  function FirstFailure<T>(rs: seq<Result<T>>): Option<string>
  {
    if rs == [] then None
    else if rs[0].Err? then Some(rs[0].message)
    else FirstFailure(rs[1..])
  }

  /** No step failed exactly when there is no first failure; otherwise the first failure is
      the failure of the earliest failed step. */
  lemma {:induction false} FirstFailureAt<T>(rs: seq<Result<T>>, i: nat)
    requires i <= |rs|
    requires forall k :: 0 <= k < i ==> rs[k].Ok?
    ensures i == |rs| ==> FirstFailure(rs) == None
    ensures i < |rs| && rs[i].Err? ==> FirstFailure(rs) == Some(rs[i].message)
  {
    if i > 0 {
      FirstFailureAt(rs[1..], i - 1);
    }
  }

  /** The values of a run of steps that all succeeded, in order. */
  function Values<T>(rs: seq<Result<T>>): (vs: seq<T>)
    requires AllOk(rs)
    ensures |vs| == |rs|
    ensures forall k :: 0 <= k < |rs| ==> vs[k] == rs[k].value
  {
    if rs == [] then [] else Values(rs[..|rs| - 1]) + [rs[|rs| - 1].value]
  }
}
