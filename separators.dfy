/** Splitting a sequence at the first occurrence of a separator. */
module Separators {
  /** In `a + [sep] + b` with no `sep` in `a`, the first `sep` sits at index `|a|`. */
  lemma FirstSeparatorAt<T>(sep: T, a: seq<T>, b: seq<T>)
    requires sep !in a
    ensures (a + [sep] + b)[|a|] == sep
    ensures forall i :: 0 <= i < |a| ==> (a + [sep] + b)[i] != sep
  {
    forall i | 0 <= i < |a|
      ensures (a + [sep] + b)[i] != sep
    {
      assert (a + [sep] + b)[i] == a[i];
    }
  }

  /** When neither prefix holds the separator, `a + [sep] + b` determines `a` and `b`. */
  lemma SplitAtFirst<T>(sep: T, a: seq<T>, b: seq<T>, c: seq<T>, d: seq<T>)
    requires sep !in a && sep !in c
    requires a + [sep] + b == c + [sep] + d
    ensures a == c && b == d
  {
    var x := a + [sep] + b;
    FirstSeparatorAt(sep, a, b);
    FirstSeparatorAt(sep, c, d);
    assert |a| == |c|;
    assert a == x[..|a|] && c == x[..|c|];
    assert b == x[|a| + 1..] && d == x[|c| + 1..];
  }
}
