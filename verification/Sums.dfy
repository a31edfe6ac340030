/** Sums over a table. A column sum, a filtered sum and a count are all `Sum(table, f)`. */
module Sums {
  function Sum<T>(s: seq<T>, f: T -> int): int {
    if s == [] then 0 else Sum(s[..|s| - 1], f) + f(s[|s| - 1])
  }

  /** INSERT adds the new row's share. */
  lemma SumAppend<T>(s: seq<T>, x: T, f: T -> int)
    ensures Sum(s + [x], f) == Sum(s, f) + f(x)
  {
    assert (s + [x])[..|s|] == s;
  }

  /** UPDATE of one row exchanges its share. */
  lemma {:induction false} SumUpdate<T>(s: seq<T>, i: nat, x: T, f: T -> int)
    requires i < |s|
    ensures Sum(s[i := x], f) == Sum(s, f) - f(s[i]) + f(x)
  {
    var n := |s| - 1;
    if i == n {
      assert s[i := x][..n] == s[..n];
    } else {
      SumUpdate(s[..n], i, x, f);
      assert s[i := x][..n] == s[..n][i := x];
    }
  }

  lemma {:induction false} SumSame<T>(s: seq<T>, f: T -> int, g: T -> int)
    requires forall x | x in s :: f(x) == g(x)
    ensures Sum(s, f) == Sum(s, g)
  {
    if s != [] {
      SumSame(s[..|s| - 1], f, g);
    }
  }

  lemma {:induction false} SumPointwise<T>(s: seq<T>, t: seq<T>, f: T -> int, g: T -> int)
    requires |s| == |t|
    requires forall i | 0 <= i < |s| :: f(s[i]) == g(t[i])
    ensures Sum(s, f) == Sum(t, g)
  {
    if s != [] {
      SumPointwise(s[..|s| - 1], t[..|t| - 1], f, g);
    }
  }

  lemma {:induction false} SumZero<T>(s: seq<T>, f: T -> int)
    requires forall x | x in s :: f(x) == 0
    ensures Sum(s, f) == 0
  {
    if s != [] {
      SumZero(s[..|s| - 1], f);
    }
  }

  lemma {:induction false} SumConcat<T>(s: seq<T>, t: seq<T>, f: T -> int)
    ensures Sum(s + t, f) == Sum(s, f) + Sum(t, f)
  {
    if t == [] {
      assert s + t == s;
    } else {
      var n := |t| - 1;
      SumConcat(s, t[..n], f);
      assert (s + t)[..|s + t| - 1] == s + t[..n];
    }
  }

  lemma {:induction false} SumBounds<T>(s: seq<T>, f: T -> int, hi: nat)
    requires forall x | x in s :: 0 <= f(x) <= hi
    ensures 0 <= Sum(s, f) <= hi * |s|
  {
    if s != [] {
      SumBounds(s[..|s| - 1], f, hi);
    }
  }

  /** A table whose old rows keep their share and whose new rows have none. */
  lemma SumGrows<T>(s: seq<T>, s': seq<T>, f: T -> int)
    requires |s| <= |s'| && forall i | 0 <= i < |s| :: f(s'[i]) == f(s[i])
    requires forall i | |s| <= i < |s'| :: f(s'[i]) == 0
    ensures Sum(s', f) == Sum(s, f)
  {
    assert s' == s'[..|s|] + s'[|s|..];
    SumConcat(s'[..|s|], s'[|s|..], f);
    SumPointwise(s'[..|s|], s, f, f);
    SumZero(s'[|s|..], f);
  }
}
