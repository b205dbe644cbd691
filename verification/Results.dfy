/** Error returns of the Go and Java code, as values. */
module Results {
  datatype Option<+T> = None | Some(value: T)

  datatype Result<+T, +E> = Ok(value: T) | Err(error: E) {
    predicate IsFailure() { Err? }

    function PropagateFailure<U>(): Result<U, E>
      requires Err?
    {
      Err(error)
    }

    function Extract(): T
      requires Ok?
    {
      value
    }
  }

  /** All the values, or the first error. */
  function Collect<T, E>(rs: seq<Result<T, E>>): Result<seq<T>, E> {
    if rs == [] then Ok([])
    else
      var n := |rs| - 1;
      var front :- Collect(rs[..n]);
      var last :- rs[n];
      Ok(front + [last])
  }

  lemma {:induction false} CollectAt<T, E>(rs: seq<Result<T, E>>)
    ensures Collect(rs).Ok? <==> forall i | 0 <= i < |rs| :: rs[i].Ok?
    ensures Collect(rs).Ok? ==>
      |Collect(rs).value| == |rs| && forall i | 0 <= i < |rs| :: rs[i] == Ok(Collect(rs).value[i])
  {
    if rs != [] { CollectAt(rs[..|rs| - 1]); }
  }

  lemma {:induction false} CollectStops<T, E>(rs: seq<Result<T, E>>, k: nat)
    requires k <= |rs| && Collect(rs[..k]).Err?
    ensures Collect(rs) == Collect(rs[..k])
    decreases |rs|
  {
    if k == |rs| {
      assert rs[..k] == rs;
    } else {
      var front := rs[..|rs| - 1];
      assert front[..k] == rs[..k];
      CollectStops(front, k);
    }
  }
}
