/** Concatenation of a list of lists, as `episodes.extend` and slicing build it. */
module Seqs {
  import opened Options

  /** All the lists of `ss`, one after another, in order. */
  function Flatten<T>(ss: seq<seq<T>>): seq<T> {
    if ss == [] then [] else Flatten(ss[..|ss| - 1]) + ss[|ss| - 1]
  }

  /** Flattening distributes over concatenation of the outer list. */
  lemma {:induction false} FlattenConcat<T>(a: seq<seq<T>>, b: seq<seq<T>>)
    ensures Flatten(a + b) == Flatten(a) + Flatten(b)
  {
    if b == [] {
      assert a + b == a;
    } else {
      var init := b[..|b| - 1];
      assert (a + b)[..|a + b| - 1] == a + init;
      assert (a + b)[|a + b| - 1] == b[|b| - 1];
      FlattenConcat(a, init);
      calc {
        Flatten(a + b);
        Flatten(a + init) + b[|b| - 1];
        Flatten(a) + Flatten(init) + b[|b| - 1];
        Flatten(a) + (Flatten(init) + b[|b| - 1]);
      }
    }
  }

  /** The kept images of `xs`, in order: `f` says for each element whether
      it is kept and what it becomes. */
  function FilterMap<A, B>(xs: seq<A>, f: A -> Option<B>): seq<B> {
    if xs == [] then []
    else FilterMap(xs[..|xs| - 1], f) + (match f(xs[|xs| - 1]) case None => [] case Some(y) => [y])
  }

  /** One more element extends the result by what `f` gives for it. */
  lemma FilterMapStep<A, B>(xs: seq<A>, i: nat, f: A -> Option<B>)
    requires i < |xs|
    ensures FilterMap(xs[..i + 1], f) == FilterMap(xs[..i], f) + (match f(xs[i]) case None => [] case Some(y) => [y])
  {
    assert xs[..i + 1][..i] == xs[..i];
  }

  lemma {:induction false} FilterMapConcat<A, B>(a: seq<A>, b: seq<A>, f: A -> Option<B>)
    ensures FilterMap(a + b, f) == FilterMap(a, f) + FilterMap(b, f)
  {
    if b == [] {
      assert a + b == a;
    } else {
      var init := b[..|b| - 1];
      var last := match f(b[|b| - 1]) case None => [] case Some(y) => [y];
      assert (a + b)[..|a + b| - 1] == a + init;
      assert (a + b)[|a + b| - 1] == b[|b| - 1];
      FilterMapConcat(a, init, f);
      calc {
        FilterMap(a + b, f);
        FilterMap(a + init, f) + last;
        FilterMap(a, f) + FilterMap(init, f) + last;
        FilterMap(a, f) + (FilterMap(init, f) + last);
      }
    }
  }

  lemma {:induction false} FilterMapAllKept<A, B>(xs: seq<A>, f: A -> Option<B>)
    requires forall i :: 0 <= i < |xs| ==> f(xs[i]).Some?
    ensures |FilterMap(xs, f)| == |xs|
    ensures forall i :: 0 <= i < |xs| ==> Some(FilterMap(xs, f)[i]) == f(xs[i])
  {
    if xs != [] {
      var init := xs[..|xs| - 1];
      assert forall i :: 0 <= i < |init| ==> init[i] == xs[i];
      FilterMapAllKept(init, f);
    }
  }

  lemma {:induction false} FilterMapNoneKept<A, B>(xs: seq<A>, f: A -> Option<B>)
    requires forall i :: 0 <= i < |xs| ==> f(xs[i]).None?
    ensures FilterMap(xs, f) == []
  {
    if xs != [] {
      FilterMapNoneKept(xs[..|xs| - 1], f);
    }
  }

  /** Nothing is produced that `f` does not give for some element. */
  lemma {:induction false} FilterMapFrom<A, B>(xs: seq<A>, f: A -> Option<B>, k: nat)
    requires k < |FilterMap(xs, f)|
    ensures exists i :: 0 <= i < |xs| && f(xs[i]) == Some(FilterMap(xs, f)[k])
  {
    var init := xs[..|xs| - 1];
    if k < |FilterMap(init, f)| {
      FilterMapFrom(init, f, k);
      var i :| 0 <= i < |init| && f(init[i]) == Some(FilterMap(init, f)[k]);
      assert init[i] == xs[i];
    } else {
      assert f(xs[|xs| - 1]) == Some(FilterMap(xs, f)[k]);
    }
  }
}
