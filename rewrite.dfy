// A loop that rewrites the dictionaries of a list one after the other, where
// rewriting one of them may raise. Python leaves the dictionaries it already
// rewrote as they are when the exception escapes, including the fields of the
// failing one that were assigned before the raising call.
//
// A `Step` gives, for one dictionary, the dictionary after its statements ran
// and whether they all completed.

module Rewrite {
  import opened Base

  type Step<!T> = T -> (T, bool)

  /** The position of the first element whose step raises, if any. */
  function FirstFailure<T>(xs: seq<T>, step: Step<T>): (r: Option<nat>)
    ensures r.Some? ==> r.value < |xs| && !step(xs[r.value]).1
    ensures r.Some? ==> forall j :: 0 <= j < r.value ==> step(xs[j]).1
    ensures r.None? ==> forall j :: 0 <= j < |xs| ==> step(xs[j]).1
  {
    if xs == [] then None
    else if !step(xs[0]).1 then Some(0)
    else
      match FirstFailure(xs[1..], step)
      case None => None
      case Some(k) => Some(k + 1)
  }

  /** How many elements the loop visits: up to and including the failing one. */
  function Visited<T>(xs: seq<T>, step: Step<T>): (n: nat)
    ensures n <= |xs|
  {
    match FirstFailure(xs, step)
    case None => |xs|
    case Some(k) => k + 1
  }

  /** The list after the loop: visited elements rewritten, the others untouched. */
  function Rewritten<T>(xs: seq<T>, step: Step<T>): (ys: seq<T>)
    ensures |ys| == |xs|
    ensures forall i :: 0 <= i < Visited(xs, step) ==> ys[i] == step(xs[i]).0
    ensures forall i :: Visited(xs, step) <= i < |xs| ==> ys[i] == xs[i]
  {
    var n := Visited(xs, step);
    seq(|xs|, i requires 0 <= i < |xs| => if i < n then step(xs[i]).0 else xs[i])
  }

  /**
   * The loop itself on a list held in a variable: rewrites element after
   * element and stops at the first one whose step raises, reporting where.
   */
  method RewriteAll<T>(xs: seq<T>, step: Step<T>) returns (ys: seq<T>, failedAt: Option<nat>)
    ensures failedAt == FirstFailure(xs, step)
    ensures ys == Rewritten(xs, step)
  {
    ys := xs;
    var i := 0;
    while i < |xs|
      invariant 0 <= i <= |xs| && |ys| == |xs|
      invariant forall j :: 0 <= j < i ==> step(xs[j]).1
      invariant forall j :: 0 <= j < i ==> ys[j] == step(xs[j]).0
      invariant forall j :: i <= j < |xs| ==> ys[j] == xs[j]
    {
      var (x, ok) := step(xs[i]);
      ys := ys[i := x];
      if !ok {
        FirstFailureAt(xs, step, i);
        return ys, Some(i);
      }
      i := i + 1;
    }
    FirstFailureNone(xs, step);
    return ys, None;
  }

  lemma FirstFailureAt<T>(xs: seq<T>, step: Step<T>, i: nat)
    requires i < |xs| && !step(xs[i]).1
    requires forall j :: 0 <= j < i ==> step(xs[j]).1
    ensures FirstFailure(xs, step) == Some(i)
  {
    var r := FirstFailure(xs, step);
    assert r.Some?;
  }

  lemma FirstFailureNone<T>(xs: seq<T>, step: Step<T>)
    requires forall j :: 0 <= j < |xs| ==> step(xs[j]).1
    ensures FirstFailure(xs, step) == None
  {
  }
}
