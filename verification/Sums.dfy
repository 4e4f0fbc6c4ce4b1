/** Weighted totals over a sequence, for counting arguments. */
module Sums {
  function Total<T>(s: seq<T>, f: T -> int): int {
    if |s| == 0 then 0 else Total(s[..|s| - 1], f) + f(s[|s| - 1])
  }

  lemma Append<T>(s: seq<T>, x: T, f: T -> int)
    ensures Total(s + [x], f) == Total(s, f) + f(x)
  {
    assert (s + [x])[..|s|] == s;
  }

  lemma {:induction false} Update<T>(s: seq<T>, i: nat, x: T, f: T -> int)
    requires i < |s|
    ensures Total(s[i := x], f) == Total(s, f) - f(s[i]) + f(x)
  {
    var n := |s| - 1;
    if i == n {
      assert s[i := x][..n] == s[..n];
    } else {
      assert s[i := x][..n] == s[..n][i := x];
      Update(s[..n], i, x, f);
    }
  }

  lemma {:induction false} NonNegative<T>(s: seq<T>, f: T -> int)
    requires forall x :: x in s ==> f(x) >= 0
    ensures Total(s, f) >= 0
    ensures forall x :: x in s ==> f(x) <= Total(s, f)
  {
    if |s| > 0 {
      NonNegative(s[..|s| - 1], f);
      assert s == s[..|s| - 1] + [s[|s| - 1]];
    }
  }

  lemma {:induction false} AtMostOne<T>(s: seq<T>, f: T -> int)
    requires forall x :: x in s ==> f(x) == 0 || f(x) == 1
    requires forall i, j :: 0 <= i < |s| && 0 <= j < |s| && f(s[i]) == 1 && f(s[j]) == 1 ==> i == j
    ensures Total(s, f) <= 1
  {
    if |s| > 0 {
      var n := |s| - 1;
      if f(s[n]) == 1 {
        forall x | x in s[..n] ensures f(x) == 0 { var i :| 0 <= i < n && s[i] == x; }
        Zero(s[..n], f);
      } else {
        AtMostOne(s[..n], f);
      }
    }
  }

  lemma {:induction false} AtLeastTwo<T>(s: seq<T>, f: T -> int, i: nat, j: nat)
    requires forall x :: x in s ==> f(x) >= 0
    requires i < j < |s| && f(s[i]) == 1 && f(s[j]) == 1
    ensures Total(s, f) >= 2
  {
    var n := |s| - 1;
    if j == n {
      NonNegative(s[..n], f);
      assert s[..n][i] == s[i] && s[i] in s[..n];
    } else {
      AtLeastTwo(s[..n], f, i, j);
    }
  }

  lemma {:induction false} Zero<T>(s: seq<T>, f: T -> int)
    requires forall x :: x in s ==> f(x) == 0
    ensures Total(s, f) == 0
  {
    if |s| > 0 { Zero(s[..|s| - 1], f); }
  }

  lemma {:induction false} Pointwise<T>(s: seq<T>, f: T -> int, g: T -> int)
    requires forall x :: x in s ==> f(x) <= g(x)
    ensures Total(s, f) <= Total(s, g)
  {
    if |s| > 0 { Pointwise(s[..|s| - 1], f, g); }
  }
}
