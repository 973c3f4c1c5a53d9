/** Failure-carrying datatypes used throughout the model: `Option` for
    values that may be absent and `Result` for the `anyhow::Result` /
    `Result<T, E>` returns of the Rust code. */
module Wrappers {

  datatype Option<+T> = None | Some(value: T)

  datatype Result<+T, +E> = Ok(value: T) | Err(error: E)

  /** The successful values of a sequence of outcomes, in order. */
  function OkValues<T, E>(rs: seq<Result<T, E>>): seq<T>
  {
    if rs == [] then []
    else
      var rest := OkValues(rs[..|rs| - 1]);
      match rs[|rs| - 1]
      case Ok(v) => rest + [v]
      case Err(_) => rest
  }

  /** A value is kept exactly when some outcome carries it; failures are
      dropped, and only they shorten the list. */
  /** `OkValuesProperties` for every value at once. */
  lemma OkValuesMembership<T, E>(rs: seq<Result<T, E>>)
    ensures forall v :: v in OkValues(rs) <==> exists i :: 0 <= i < |rs| && rs[i] == Ok(v)
    ensures |OkValues(rs)| <= |rs|
  {
    forall v {
      OkValuesProperties(rs, v);
    }
    if OkValues(rs) != [] {
      OkValuesProperties(rs, OkValues(rs)[0]);
    }
  }

  lemma {:induction false} OkValuesProperties<T, E>(rs: seq<Result<T, E>>, v: T)
    ensures v in OkValues(rs) <==> exists i :: 0 <= i < |rs| && rs[i] == Ok(v)
    ensures |OkValues(rs)| <= |rs|
    ensures (forall i :: 0 <= i < |rs| ==> rs[i].Ok?) ==> |OkValues(rs)| == |rs|
  {
    if rs != [] {
      var init := rs[..|rs| - 1];
      OkValuesProperties(init, v);
      assert forall i :: 0 <= i < |init| ==> init[i] == rs[i];
    }
  }
}
