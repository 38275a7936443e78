/** `divide_list(lst, n)`: the static split of the task list into `n`
    contiguous batches, `k, m = divmod(len(lst), n)` and piece `i` is
    `lst[i*k + min(i, m) : (i+1)*k + min(i+1, m)]`. */
module Partition {
  import opened Options
  import opened Seqs

  /** `i*k + min(i, m)`: where piece `i` starts. */
  function Start(i: nat, k: nat, m: nat): nat {
    i * k + if i < m then i else m
  }

  lemma StartStep(i: nat, k: nat, m: nat)
    ensures Start(i + 1, k, m) == Start(i, k, m) + k + (if i < m then 1 else 0)
  {
    assert (i + 1) * k == i * k + k;
  }

  lemma StartBound(i: nat, n: nat, k: nat, m: nat)
    requires i <= n && m < n
    ensures Start(i, k, m) <= Start(n, k, m) == n * k + m
  {
    assert i * k <= n * k by {
      assert (n - i) * k >= 0;
      assert n * k == i * k + (n - i) * k;
    }
  }

  /** The `i`-th slice of the comprehension; every bound lies in `[0, |lst|]`,
      so Python's slice clamping never comes into play. */
  function Piece<T>(lst: seq<T>, n: nat, i: nat): seq<T>
    requires 1 <= n && i < n
  {
    var k, m := |lst| / n, |lst| % n;
    assert |lst| == n * k + m;
    StartStep(i, k, m);
    StartBound(i + 1, n, k, m);
    lst[Start(i, k, m)..Start(i + 1, k, m)]
  }

  /** `divide_list(lst, n)` for `n >= 1`. */
  function Divide<T>(lst: seq<T>, n: nat): (r: seq<seq<T>>)
    requires n >= 1
    ensures |r| == n
  {
    seq(n, i requires 0 <= i < n => Piece(lst, n, i))
  }

  /** The first `len(lst) % n` pieces hold one element more than the others. */
  lemma DivideSizes<T>(lst: seq<T>, n: nat)
    requires n >= 1
    ensures forall i :: 0 <= i < n ==>
      |Divide(lst, n)[i]| == |lst| / n + (if i < |lst| % n then 1 else 0)
  {
    forall i | 0 <= i < n
      ensures |Divide(lst, n)[i]| == |lst| / n + (if i < |lst| % n then 1 else 0)
    {
      var k, m := |lst| / n, |lst| % n;
      assert |lst| == n * k + m;
      StartStep(i, k, m);
      StartBound(i + 1, n, k, m);
      assert Divide(lst, n)[i] == lst[Start(i, k, m)..Start(i + 1, k, m)];
    }
  }

  /** Piece sizes differ by at most one, and the larger pieces come first. */
  lemma DivideBalanced<T>(lst: seq<T>, n: nat)
    requires n >= 1
    ensures forall i, j :: 0 <= i < n && 0 <= j < n ==>
      |Divide(lst, n)[i]| <= |Divide(lst, n)[j]| + 1
    ensures forall i, j :: 0 <= i <= j < n ==> |Divide(lst, n)[j]| <= |Divide(lst, n)[i]|
  {
    DivideSizes(lst, n);
  }

  lemma {:induction false} DividePrefix<T>(lst: seq<T>, n: nat, j: nat)
    requires 1 <= n && j <= n
    ensures Start(j, |lst| / n, |lst| % n) <= |lst|
    ensures Flatten(Divide(lst, n)[..j]) == lst[..Start(j, |lst| / n, |lst| % n)]
  {
    var k, m := |lst| / n, |lst| % n;
    assert |lst| == n * k + m;
    StartBound(j, n, k, m);
    if j > 0 {
      DividePrefix(lst, n, j - 1);
      StartStep(j - 1, k, m);
      var r := Divide(lst, n);
      assert r[..j][..j - 1] == r[..j - 1];
      assert r[j - 1] == lst[Start(j - 1, k, m)..Start(j, k, m)];
      assert lst[..Start(j, k, m)] == lst[..Start(j - 1, k, m)] + lst[Start(j - 1, k, m)..Start(j, k, m)];
    }
  }

  /** Concatenating the pieces in order gives back the list: every task is
      in exactly one batch, in its original position. */
  lemma DivideConcat<T>(lst: seq<T>, n: nat)
    requires n >= 1
    ensures Flatten(Divide(lst, n)) == lst
  {
    var k, m := |lst| / n, |lst| % n;
    DividePrefix(lst, n, n);
    assert Divide(lst, n)[..n] == Divide(lst, n);
    assert |lst| == n * k + m;
  }

  /** With fewer tasks than batches, the first `len(lst)` batches hold one
      task each, in order, and the rest are empty. */
  lemma DivideShort<T>(lst: seq<T>, n: nat)
    requires n >= 1 && |lst| < n
    ensures forall i :: 0 <= i < |lst| ==> Divide(lst, n)[i] == [lst[i]]
    ensures forall i :: |lst| <= i < n ==> Divide(lst, n)[i] == []
  {
    assert |lst| / n == 0 && |lst| % n == |lst|;
    DivideSizes(lst, n);
  }

  /** `divide_list(lst, n)` for any integer `n`: `divmod` by zero raises
      (`None`), a negative `n` gives `range(n) == []` and so no batch. */
  function DivideList<T>(lst: seq<T>, n: int): (r: Option<seq<seq<T>>>)
    ensures r.None? <==> n == 0
    ensures n < 0 ==> r == Some([])
    ensures n > 0 ==> r.Some? && |r.value| == n && Flatten(r.value) == lst
    ensures n > 0 ==> r.Some? && r.value == Divide(lst, n)
  {
    if n == 0 then None
    else if n < 0 then Some([])
    else DivideConcat(lst, n); Some(Divide(lst, n))
  }
}
