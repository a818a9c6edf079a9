/** Option: the value of a lookup that may find nothing, or of a cell that may be empty
    (a pandas NaN, a JSON null, a Python None). */
module Wrappers {

  datatype Option<+T> = None | Some(value: T) {

    /** The encapsulated value, or `default` for None. */
    function GetOr(default: T): T {
      match this
      case Some(v) => v
      case None => default
    }
  }

  /** `f` applied to each element in turn, stopping at the first None: a loop that raises
      on the element it cannot handle. */
  function MapAll<A, B>(xs: seq<A>, f: A -> Option<B>): Option<seq<B>> {
    if |xs| == 0 then Some([])
    else
      match MapAll(xs[..|xs| - 1], f)
      case None => None
      case Some(done) =>
        match f(xs[|xs| - 1])
        case None => None
        case Some(y) => Some(done + [y])
  }

  /** MapAll succeeds exactly when `f` succeeds on every element, and then holds `f`'s value
      of each element, in order. */
  lemma {:induction false} MapAllSpec<A, B>(xs: seq<A>, f: A -> Option<B>)
    ensures MapAll(xs, f).Some? <==> forall i :: 0 <= i < |xs| ==> f(xs[i]).Some?
    ensures MapAll(xs, f).Some? ==>
      |MapAll(xs, f).value| == |xs| && forall i :: 0 <= i < |xs| ==> f(xs[i]) == Some(MapAll(xs, f).value[i])
  {
    if |xs| > 0 {
      var init := xs[..|xs| - 1];
      MapAllSpec(init, f);
      assert forall i :: 0 <= i < |init| ==> init[i] == xs[i];
    }
  }

  /** Growing the prefix by one element. */
  lemma MapAllSnoc<A, B>(xs: seq<A>, f: A -> Option<B>, i: nat)
    requires i < |xs|
    ensures xs[..i + 1][..i] == xs[..i] && xs[..i + 1][i] == xs[i]
    ensures MapAll(xs[..i + 1], f) ==
      match MapAll(xs[..i], f)
      case None => None
      case Some(done) => if f(xs[i]).None? then None else Some(done + [f(xs[i]).value])
  {
    assert xs[..i + 1][..i] == xs[..i];
  }

  /** Once a prefix fails, every longer prefix fails. */
  lemma {:induction false} MapAllPrefixFails<A, B>(xs: seq<A>, f: A -> Option<B>, n: nat)
    requires n <= |xs| && MapAll(xs[..n], f).None?
    ensures MapAll(xs, f).None?
    decreases |xs| - n
  {
    if n < |xs| {
      MapAllSnoc(xs, f, n);
      MapAllPrefixFails(xs, f, n + 1);
    } else {
      assert xs[..n] == xs;
    }
  }
}
