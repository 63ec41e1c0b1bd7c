/** Substring search, as Go's strings.Contains performs it. */
module Strings {

  /** `sub` occurs in `s` starting at position `i`. */
  ghost predicate OccursAt(sub: string, s: string, i: int)
  {
    0 <= i <= |s| - |sub| && s[i..i + |sub|] == sub
  }

  /** `sub` occurs somewhere in `s`. */
  ghost predicate Occurs(sub: string, s: string)
  {
    exists i :: OccursAt(sub, s, i)
  }

  /** Once `sub` is not a prefix of `s`, its occurrences are exactly those in `s[1..]`. */
  lemma OccursInTail(sub: string, s: string)
    requires |s| > 0 && !(sub <= s)
    ensures Occurs(sub, s) <==> Occurs(sub, s[1..])
  {
    if Occurs(sub, s) {
      var i :| OccursAt(sub, s, i);
      assert i != 0 by {
        assert |sub| <= |s| ==> s[0..|sub|] == s[..|sub|];
      }
      assert s[1..][i - 1..i - 1 + |sub|] == s[i..i + |sub|];
      assert OccursAt(sub, s[1..], i - 1);
    }
    if Occurs(sub, s[1..]) {
      var j :| OccursAt(sub, s[1..], j);
      assert s[1..][j..j + |sub|] == s[j + 1..j + 1 + |sub|];
      assert OccursAt(sub, s, j + 1);
    }
  }

  /** strings.Contains(s, sub): scans `s` left to right for `sub`. */
  function Contains(s: string, sub: string): (r: bool)
    ensures r <==> Occurs(sub, s)
    decreases |s|
  {
    if sub <= s then
      assert OccursAt(sub, s, 0);
      true
    else if |s| == 0 then
      false
    else
      OccursInTail(sub, s);
      Contains(s[1..], sub)
  }

  /** A needle whose first character never appears in `s` does not occur in `s`. */
  lemma AbsentFirstChar(sub: string, s: string)
    requires |sub| > 0 && sub[0] !in s
    ensures !Occurs(sub, s)
  {
  }

  /** A needle placed between any prefix and suffix occurs in the result. */
  lemma OccursBetween(prefix: string, sub: string, suffix: string)
    ensures Occurs(sub, prefix + sub + suffix)
  {
    var s := prefix + sub + suffix;
    assert s[|prefix|..|prefix| + |sub|] == sub;
    assert OccursAt(sub, s, |prefix|);
  }
}
