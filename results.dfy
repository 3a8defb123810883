/** Option and Result: Python's `None` and raised exceptions, as values. */
module Results {

  datatype Option<+T> = None | Some(value: T)

  /** `Ok` is a normal return; `Err` is an exception the caller sees. */
  datatype Result<+T, +E> = Ok(value: T) | Err(error: E)

  /** `f` applied to every element, or None as soon as one application is None. */
  function AllSome<A, B>(f: A -> Option<B>, xs: seq<A>): Option<seq<B>>
  {
    if xs == [] then Some([])
    else
      var head := f(xs[0]);
      var tail := AllSome(f, xs[1..]);
      if head.Some? && tail.Some? then Some([head.value] + tail.value) else None
  }

  /** AllSome succeeds exactly when every element maps to Some, and then maps
      element by element. */
  lemma {:induction false} AllSomeSpec<A, B>(f: A -> Option<B>, xs: seq<A>)
    ensures AllSome(f, xs).Some? <==> forall k :: 0 <= k < |xs| ==> f(xs[k]).Some?
    ensures AllSome(f, xs).Some? ==>
      |AllSome(f, xs).value| == |xs|
      && forall k :: 0 <= k < |xs| ==> f(xs[k]) == Some(AllSome(f, xs).value[k])
  {
    if xs != [] {
      AllSomeSpec(f, xs[1..]);
      assert forall k :: 1 <= k < |xs| ==> xs[k] == xs[1..][k - 1];
    }
  }
}
