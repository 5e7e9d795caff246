/** In-order processing that stops at the first failure, leaving every
    element after the failing one as it was. This is how the resolver walks
    the servers of a configuration, the values of an "env" object and the
    entries of an "args" array: each step rewrites its element, and the first
    one that raises ends the whole walk with the earlier rewrites in place. */
module Traversal {
  import opened McpData

  /** The state a walk leaves behind, and the error that stopped it, if any. */
  datatype Run<T> = Run(state: T, error: Option<Error>)

  /** Applies `step` to each element of `xs` in order. A failing step still
      leaves its own (possibly partly rewritten) state behind; the elements
      after it are not visited. */
  function Traverse<T>(xs: seq<T>, step: T -> Run<T>): (run: Run<seq<T>>)
    ensures |run.state| == |xs|
    decreases |xs|
  {
    if xs == [] then Run([], None)
    else
      var head := step(xs[0]);
      if head.error.Some? then Run([head.state] + xs[1..], head.error)
      else
        var rest := Traverse(xs[1..], step);
        Run([head.state] + rest.state, rest.error)
  }

  /** The index of the first element whose step fails, or |xs| if none does. */
  function FirstFailure<T>(xs: seq<T>, step: T -> Run<T>): (k: nat)
    ensures k <= |xs|
    ensures forall j :: 0 <= j < k ==> step(xs[j]).error == None
    ensures k < |xs| ==> step(xs[k]).error != None
    decreases |xs|
  {
    if xs == [] then 0
    else if step(xs[0]).error != None then 0
    else 1 + FirstFailure(xs[1..], step)
  }

  /** Element by element: everything up to and including the first failing
      element has been stepped, everything after it is untouched, and the
      error reported is that element's. */
  lemma {:induction false} TraverseAt<T>(xs: seq<T>, step: T -> Run<T>)
    ensures Traverse(xs, step).error ==
      (if FirstFailure(xs, step) < |xs| then step(xs[FirstFailure(xs, step)]).error else None)
    ensures forall j :: 0 <= j < |xs| ==>
      Traverse(xs, step).state[j] == if j <= FirstFailure(xs, step) then step(xs[j]).state else xs[j]
    decreases |xs|
  {
    if xs != [] && step(xs[0]).error == None {
      TraverseAt(xs[1..], step);
      var run, rest := Traverse(xs, step), Traverse(xs[1..], step);
      forall j | 1 <= j < |xs|
        ensures run.state[j] == if j <= FirstFailure(xs, step) then step(xs[j]).state else xs[j]
      {
        assert run.state[j] == rest.state[j - 1];
        assert xs[1..][j - 1] == xs[j];
      }
    }
  }

  /** A walk succeeds exactly when every step succeeds. */
  lemma TraverseSucceedsIff<T>(xs: seq<T>, step: T -> Run<T>)
    ensures Traverse(xs, step).error == None <==> forall j :: 0 <= j < |xs| ==> step(xs[j]).error == None
  {
    TraverseAt(xs, step);
  }

  /** Walking a concatenation is walking the first part, then (if it did not
      fail) the second. */
  lemma {:induction false} TraverseAppend<T>(xs: seq<T>, ys: seq<T>, step: T -> Run<T>)
    ensures Traverse(xs + ys, step) ==
      var a := Traverse(xs, step);
      if a.error != None then Run(a.state + ys, a.error)
      else
        var b := Traverse(ys, step);
        Run(a.state + b.state, b.error)
    decreases |xs|
  {
    if xs == [] {
      assert xs + ys == ys;
      assert Traverse(xs, step) == Run([], None);
      var b := Traverse(ys, step);
      assert [] + b.state == b.state;
    } else {
      assert (xs + ys)[0] == xs[0];
      assert (xs + ys)[1..] == xs[1..] + ys;
      var head := step(xs[0]);
      if head.error.Some? {
        assert [head.state] + (xs + ys)[1..] == ([head.state] + xs[1..]) + ys;
      } else {
        TraverseAppend(xs[1..], ys, step);
        var a', b := Traverse(xs[1..], step), Traverse(ys, step);
        if a'.error != None {
          assert [head.state] + (a'.state + ys) == ([head.state] + a'.state) + ys;
        } else {
          assert [head.state] + (a'.state + b.state) == ([head.state] + a'.state) + b.state;
        }
      }
    }
  }

  /** One more element, after a prefix that did not fail. This is the step a
      loop over `xs` takes at index j. */
  lemma TraverseExtend<T>(xs: seq<T>, j: nat, step: T -> Run<T>)
    requires j < |xs|
    requires Traverse(xs[..j], step).error == None
    ensures Traverse(xs[..j + 1], step) ==
      Run(Traverse(xs[..j], step).state + [step(xs[j]).state], step(xs[j]).error)
  {
    assert xs[..j + 1] == xs[..j] + [xs[j]];
    TraverseAppend(xs[..j], [xs[j]], step);
    TraverseSingle(xs[j], step);
  }

  lemma TraverseSingle<T>(x: T, step: T -> Run<T>)
    ensures Traverse([x], step) == Run([step(x).state], step(x).error)
  {
    assert [x][0] == x && [x][1..] == [];
    var head := step(x);
    if head.error.Some? {
      assert [head.state] + [x][1..] == [head.state];
    } else {
      assert Traverse([], step) == Run([], None);
      assert [head.state] + [] == [head.state];
    }
  }

  /** A walk that fails at index j, after a prefix that did not fail, leaves
      the prefix stepped, element j stepped, and the rest untouched. This is
      where a loop over `xs` exits with an error. */
  lemma TraverseStop<T>(xs: seq<T>, j: nat, step: T -> Run<T>)
    requires j < |xs|
    requires Traverse(xs[..j], step).error == None
    requires step(xs[j]).error != None
    ensures Traverse(xs, step) ==
      Run(Traverse(xs[..j], step).state + [step(xs[j]).state] + xs[j + 1..], step(xs[j]).error)
  {
    assert xs == xs[..j] + xs[j..];
    assert xs[j..][0] == xs[j] && xs[j..][1..] == xs[j + 1..];
    TraverseFailingSuffix(xs[..j], xs[j..], step);
  }

  lemma TraverseFailingSuffix<T>(pre: seq<T>, post: seq<T>, step: T -> Run<T>)
    requires post != []
    requires Traverse(pre, step).error == None
    requires step(post[0]).error != None
    ensures Traverse(pre + post, step) ==
      Run(Traverse(pre, step).state + [step(post[0]).state] + post[1..], step(post[0]).error)
  {
    TraverseAppend(pre, post, step);
    var a, b := Traverse(pre, step), Traverse(post, step);
    assert b == Run([step(post[0]).state] + post[1..], step(post[0]).error);
    assert a.state + b.state == a.state + [step(post[0]).state] + post[1..];
  }
}
