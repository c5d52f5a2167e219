/**
 * The accumulation pattern every scan loop follows: walk a fixed list in
 * order and append something for some of its elements.
 */
module Seqs {
  import opened Common

  /** What a loop that appends `f(x)` whenever it is present collects over
      `xs`, in the order of `xs`. */
  function Collect<A, B>(xs: seq<A>, f: A -> Option<B>): (r: seq<B>)
    ensures |r| <= |xs|
    decreases |xs|
  {
    if xs == [] then []
    else
      var init := Collect(xs[..|xs| - 1], f);
      match f(xs[|xs| - 1])
      case None => init
      case Some(y) => init + [y]
  }

  /** One more loop iteration appends at most the new element's value. */
  lemma CollectSnoc<A, B>(xs: seq<A>, x: A, f: A -> Option<B>)
    ensures Collect(xs + [x], f) == Collect(xs, f) + (if f(x).Some? then [f(x).value] else [])
  {
    assert (xs + [x])[..|xs + [x]| - 1] == xs;
  }

  /** The prefix one element longer. */
  lemma TakeOneMore<T>(s: seq<T>, i: nat)
    requires i < |s|
    ensures s[..i + 1] == s[..i] + [s[i]]
  {
  }

  /** The prefix as long as the sequence is the sequence. */
  lemma TakeAll<T>(s: seq<T>)
    ensures s[..|s|] == s
  {
  }

  /** Nothing is collected exactly when no element yields a value. */
  lemma {:induction false} CollectEmptyIff<A, B>(xs: seq<A>, f: A -> Option<B>)
    ensures Collect(xs, f) == [] <==> forall i :: 0 <= i < |xs| ==> f(xs[i]).None?
  {
    if xs != [] {
      var init := xs[..|xs| - 1];
      CollectEmptyIff(init, f);
      assert forall i :: 0 <= i < |init| ==> init[i] == xs[i];
    }
  }

  /** A value is collected exactly when some element yields it. */
  lemma {:induction false} CollectMember<A, B>(xs: seq<A>, f: A -> Option<B>, y: B)
    ensures y in Collect(xs, f) <==> exists i :: 0 <= i < |xs| && f(xs[i]) == Some(y)
  {
    if xs != [] {
      var init := xs[..|xs| - 1];
      CollectMember(init, f, y);
      assert forall i :: 0 <= i < |init| ==> init[i] == xs[i];
    }
  }

  /** Two selections that never both take an element take at most all of them. */
  lemma {:induction false} CollectDisjointLength<A, B, C>(xs: seq<A>, f: A -> Option<B>, g: A -> Option<C>)
    requires forall i :: 0 <= i < |xs| ==> !(f(xs[i]).Some? && g(xs[i]).Some?)
    ensures |Collect(xs, f)| + |Collect(xs, g)| <= |xs|
  {
    if xs != [] {
      var init := xs[..|xs| - 1];
      assert forall i :: 0 <= i < |init| ==> init[i] == xs[i];
      CollectDisjointLength(init, f, g);
    }
  }

  /** Two selections that take the same elements, with `h` carrying each value
      of the first to the matching value of the second, collect matching lists. */
  lemma {:induction false} CollectCorrespond<A, B, C>(xs: seq<A>, f: A -> Option<B>, g: A -> Option<C>, h: B -> C)
    requires forall i :: 0 <= i < |xs| ==> (f(xs[i]).Some? <==> g(xs[i]).Some?)
    requires forall i :: 0 <= i < |xs| && f(xs[i]).Some? ==> h(f(xs[i]).value) == g(xs[i]).value
    ensures |Collect(xs, f)| == |Collect(xs, g)|
    ensures forall k :: 0 <= k < |Collect(xs, f)| ==> h(Collect(xs, f)[k]) == Collect(xs, g)[k]
  {
    if xs != [] {
      var init := xs[..|xs| - 1];
      assert forall i :: 0 <= i < |init| ==> init[i] == xs[i];
      CollectCorrespond(init, f, g, h);
    }
  }
}
