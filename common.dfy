/** Shared value types: an optional value and the outcome of one call to the remote
    language model. */
module Common {

  datatype Option<T> = None | Some(value: T) {
    /** The wrapped value, or the given default when absent (Python's dict.get(k, d)). */
    function GetOr(default: T): T {
      match this
      case Some(v) => v
      case None => default
    }
  }

  /** What one chat-completion request produced: the text of the first choice, or a
      failure that raises (a transport error, an error status, an empty list of
      choices). The remote model itself is not modelled; its outcome is an input. */
  datatype Completion = Replied(text: string) | Failed

  /** f applied to every element in order, or None when any application fails. */
  function MapAll<A, B>(f: A -> Option<B>, xs: seq<A>): Option<seq<B>>
    decreases |xs|
  {
    if xs == [] then Some([])
    else
      var init, last := MapAll(f, xs[..|xs| - 1]), f(xs[|xs| - 1]);
      if init.Some? && last.Some? then Some(init.value + [last.value]) else None
  }

  /** MapAll succeeds exactly when every application does, and then keeps the length
      and the order of its input. */
  lemma {:induction false} MapAllPointwise<A, B>(f: A -> Option<B>, xs: seq<A>)
    ensures MapAll(f, xs).Some? <==> forall j :: 0 <= j < |xs| ==> f(xs[j]).Some?
    ensures MapAll(f, xs).Some? ==>
      var r := MapAll(f, xs).value;
      |r| == |xs| && forall j :: 0 <= j < |xs| ==> f(xs[j]) == Some(r[j])
    decreases |xs|
  {
    if xs != [] {
      var init := xs[..|xs| - 1];
      MapAllPointwise(f, init);
      assert forall j :: 0 <= j < |init| ==> init[j] == xs[j];
    }
  }

  /** Two maps whose functions agree element by element have the same outcome. */
  lemma {:induction false} MapAllAgree<A, C, B>(f: A -> Option<B>, xs: seq<A>, g: C -> Option<B>, ys: seq<C>)
    requires |xs| == |ys|
    requires forall k :: 0 <= k < |xs| ==> f(xs[k]) == g(ys[k])
    ensures MapAll(f, xs) == MapAll(g, ys)
    decreases |xs|
  {
    if xs != [] {
      var n := |xs| - 1;
      assert forall k :: 0 <= k < n ==> xs[..n][k] == xs[k] && ys[..n][k] == ys[k];
      MapAllAgree(f, xs[..n], g, ys[..n]);
    }
  }

  function Min(a: int, b: int): int {
    if a <= b then a else b
  }
}
