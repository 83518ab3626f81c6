/** Small facts about sequences used as Python lists. */
module Collections {

  /** No element occurs twice. */
  predicate NoDuplicates<T(==)>(s: seq<T>)
  {
    forall i, j :: 0 <= i < j < |s| ==> s[i] != s[j]
  }

  /** `s[:n]`: Python slicing never fails, it stops at the end. */
  function Take<T>(s: seq<T>, n: nat): (r: seq<T>)
    ensures |r| == if n < |s| then n else |s|
    ensures r == s[..|r|]
  {
    if n < |s| then s[..n] else s
  }

  /** `[x for x in s if x not in exclude]` */
  function Without<T(==)>(s: seq<T>, exclude: seq<T>): (r: seq<T>)
    ensures |r| <= |s|
    ensures forall i :: 0 <= i < |r| ==> r[i] in s && r[i] !in exclude
    ensures forall i :: 0 <= i < |s| && s[i] !in exclude ==> s[i] in r
    ensures NoDuplicates(s) ==> NoDuplicates(r)
  {
    if |s| == 0 then []
    else
      var rest := Without(s[1..], exclude);
      assert forall i :: 0 < i < |s| ==> s[i] == s[1..][i - 1];
      if s[0] in exclude then rest else [s[0]] + rest
  }

  /** Filtering out nothing leaves the list as it was. */
  lemma {:induction false} WithoutDisjoint<T>(s: seq<T>, exclude: seq<T>)
    requires forall i :: 0 <= i < |s| ==> s[i] !in exclude
    ensures Without(s, exclude) == s
  {
    if |s| > 0 {
      WithoutDisjoint(s[1..], exclude);
      assert [s[0]] + s[1..] == s;
    }
  }
}
