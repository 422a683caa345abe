/** String helpers used by the filters: lower-casing and substring search. */
module Text {

  /** `toLowerCase` on one character, for the ASCII letters. */
  function LowerChar(c: char): (r: char)
    ensures 'A' <= c <= 'Z' ==> r as int == c as int + 32
    ensures !('A' <= c <= 'Z') ==> r == c
  {
    if 'A' <= c <= 'Z' then (c as int + 32) as char else c
  }

  /** `toLowerCase` on a string, character by character. */
  function Lower(s: string): (r: string)
    ensures |r| == |s|
    ensures forall i :: 0 <= i < |s| ==> r[i] == LowerChar(s[i])
  {
    if s == [] then [] else [LowerChar(s[0])] + Lower(s[1..])
  }

  /** Lower-casing twice is lower-casing once. */
  lemma LowerIdempotent(s: string)
    ensures Lower(Lower(s)) == Lower(s)
  {
    assert forall i :: 0 <= i < |s| ==> Lower(Lower(s))[i] == Lower(s)[i];
  }

  /** `t` occurs in `s` starting at index `i`. */
  predicate OccursAt(s: string, t: string, i: nat)
  {
    i + |t| <= |s| && s[i..i + |t|] == t
  }

  /** `s.includes(t)`: searches each starting position in turn. */
  function Contains(s: string, t: string): (found: bool)
    ensures found ==> |t| <= |s|
    decreases |s|
  {
    if |t| > |s| then false
    else if t == s[..|t|] then true
    else if s == [] then false
    else Contains(s[1..], t)
  }

  /** `Contains` finds exactly the starting positions where `t` occurs. */
  lemma {:induction false} ContainsIff(s: string, t: string)
    ensures Contains(s, t) <==> exists i: nat :: OccursAt(s, t, i)
    decreases |s|
  {
    if |t| > |s| {
    } else if t == s[..|t|] {
      assert OccursAt(s, t, 0);
    } else if s == [] {
    } else {
      ContainsIff(s[1..], t);
      if Contains(s[1..], t) {
        var i: nat :| OccursAt(s[1..], t, i);
        var here, shifted := s[i + 1..i + 1 + |t|], s[1..][i..i + |t|];
        assert forall k :: 0 <= k < |t| ==> here[k] == shifted[k];
        assert here == shifted;
        assert OccursAt(s, t, i + 1);
      } else {
        forall i: nat | 0 < i && OccursAt(s, t, i) ensures OccursAt(s[1..], t, i - 1) {
          var shifted, here := s[1..][i - 1..i - 1 + |t|], s[i..i + |t|];
          assert |shifted| == |t| == |here|;
          assert forall k :: 0 <= k < |t| ==> shifted[k] == here[k];
          assert shifted == here;
        }
        assert !OccursAt(s, t, 0);
      }
    }
  }
}
