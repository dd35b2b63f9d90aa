/** Shared building blocks: an optional value and a left-to-right sum over a sequence. */
module Common {

  /** A value that may be missing (a lookup that found nothing, a number that did not parse). */
  datatype Option<+T> = None | Some(value: T)

  /** Sum of `f` over `s`, folded from the left starting at 0: the reference total behind the
      ledger statement's totals, the dashboard's monthly totals and the invoice total after an
      item is removed. */
  function Sum<T>(s: seq<T>, f: T -> real): real
  {
    if |s| == 0 then 0.0 else Sum(s[..|s| - 1], f) + f(s[|s| - 1])
  }

  /** `s.reduce((total, x) => total + f(x), acc)`: the elements visited front to back, each added
      to a running total started at `acc`, as the ledger report's quantity footer and the invoice
      report's footers compute it. */
  function Reduce<T>(s: seq<T>, acc: real, f: T -> real): real
    decreases |s|
  {
    if |s| == 0 then acc else Reduce(s[1..], acc + f(s[0]), f)
  }

  /** Taking off the first element takes off exactly its contribution. */
  lemma {:induction false} SumFront<T>(s: seq<T>, f: T -> real)
    requires |s| > 0
    ensures Sum(s, f) == f(s[0]) + Sum(s[1..], f)
  {
    if |s| > 1 {
      SumFront(s[..|s| - 1], f);
      assert s[..|s| - 1][1..] == s[1..][..|s| - 2];
    }
  }

  /** Reducing from `acc` adds the sum of the contributions to `acc`. */
  lemma {:induction false} ReduceIsSum<T>(s: seq<T>, acc: real, f: T -> real)
    ensures Reduce(s, acc, f) == acc + Sum(s, f)
    decreases |s|
  {
    if |s| > 0 {
      ReduceIsSum(s[1..], acc + f(s[0]), f);
      SumFront(s, f);
    }
  }

  /** Appending one element adds exactly its contribution. */
  lemma SumAppend<T>(s: seq<T>, x: T, f: T -> real)
    ensures Sum(s + [x], f) == Sum(s, f) + f(x)
  {
    assert (s + [x])[..|s|] == s;
  }

  /** A sum of non-negative contributions is non-negative. */
  lemma {:induction false} SumNonNegative<T>(s: seq<T>, f: T -> real)
    requires forall i :: 0 <= i < |s| ==> f(s[i]) >= 0.0
    ensures Sum(s, f) >= 0.0
  {
    if |s| > 0 {
      SumNonNegative(s[..|s| - 1], f);
    }
  }

  /** When every contribution of `f` is the sum of those of `g` and `h`, the sums split likewise. */
  lemma {:induction false} SumSplit<T>(s: seq<T>, f: T -> real, g: T -> real, h: T -> real)
    requires forall i :: 0 <= i < |s| ==> f(s[i]) == g(s[i]) + h(s[i])
    ensures Sum(s, f) == Sum(s, g) + Sum(s, h)
  {
    if |s| > 0 {
      SumSplit(s[..|s| - 1], f, g, h);
    }
  }

  /** Two functions that agree on every element have the same sum. */
  lemma {:induction false} SumAgree<T>(s: seq<T>, f: T -> real, g: T -> real)
    requires forall i :: 0 <= i < |s| ==> f(s[i]) == g(s[i])
    ensures Sum(s, f) == Sum(s, g)
  {
    if |s| > 0 {
      SumAgree(s[..|s| - 1], f, g);
    }
  }
}
