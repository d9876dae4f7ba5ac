/** Small facts about sequences shared by the transforms and the join. */
module SeqUtil {

  /** No element occurs twice. */
  predicate Distinct<T(==)>(s: seq<T>) {
    forall i, j :: 0 <= i < j < |s| ==> s[i] != s[j]
  }

  /** Strictly increasing. */
  predicate Increasing(s: seq<int>) {
    forall i, j :: 0 <= i < j < |s| ==> s[i] < s[j]
  }

  /** Appending a value above every element keeps a sequence increasing. */
  lemma IncreasingSnoc(s: seq<int>, x: int)
    requires Increasing(s) && forall d :: d in s ==> d < x
    ensures Increasing(s + [x])
  {
    forall i, j | 0 <= i < j < |s| + 1 ensures (s + [x])[i] < (s + [x])[j] {
      if j == |s| {
        assert s[i] in s;
      }
    }
  }
}
