/** What several modules need: optional values, and sequences in which nothing stands twice. */
module Basics {
  datatype Option<+T> = None | Some(value: T)

  predicate NoRepeats<T(==)>(s: seq<T>) {
    forall i, j :: 0 <= i < j < |s| ==> s[i] != s[j]
  }

  /** One more element repeats exactly if it was there. */
  lemma OneMoreRepeats<T>(s: seq<T>, x: T)
    requires NoRepeats(s)
    ensures NoRepeats(s + [x]) <==> x !in s
  {
    var more := s + [x];
    assert more[|s|] == x && forall i :: 0 <= i < |s| ==> more[i] == s[i];
    if x in s {
      var i :| 0 <= i < |s| && s[i] == x;
      assert more[i] == more[|s|];
    }
  }
}
