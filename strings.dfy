/** The few Python string operations the service relies on. */
module Strings {

  /** Python's `s.startswith(prefix)`. */
  predicate StartsWith(s: string, prefix: string)
  {
    |prefix| <= |s| && s[..|prefix|] == prefix
  }

  /** `sub` occurs in `s` starting at index `i`. */
  predicate OccursAt(s: string, sub: string, i: int)
  {
    0 <= i && i + |sub| <= |s| && s[i..i + |sub|] == sub
  }

  lemma OccursAtTail(s: string, sub: string, j: int)
    requires |s| > 0 && 0 <= j
    ensures OccursAt(s[1..], sub, j) <==> OccursAt(s, sub, j + 1)
  {
    if 0 <= j && j + |sub| <= |s| - 1 {
      assert s[1..][j..j + |sub|] == s[j + 1..j + 1 + |sub|];
    }
  }

  /** Python's `s.find(sub)`: the index of the first occurrence of `sub`
      in `s`, or -1 when there is none. */
  function Find(s: string, sub: string): (r: int)
    ensures -1 <= r
    ensures r >= 0 ==> OccursAt(s, sub, r)
    ensures forall j :: 0 <= j && (r == -1 || j < r) ==> !OccursAt(s, sub, j)
    decreases |s|
  {
    if |s| < |sub| then -1
    else if s[..|sub|] == sub then 0
    else
      var r := Find(s[1..], sub);
      assert !OccursAt(s, sub, 0);
      assert forall j | 1 <= j :: OccursAt(s, sub, j) <==> OccursAt(s[1..], sub, j - 1) by {
        forall j | 1 <= j ensures OccursAt(s, sub, j) <==> OccursAt(s[1..], sub, j - 1) {
          OccursAtTail(s, sub, j - 1);
        }
      }
      if r == -1 then -1 else r + 1
  }

  /** `s.find(sub) > -1` holds exactly when `sub` occurs somewhere in `s`. */
  lemma FindFindsAnyOccurrence(s: string, sub: string)
    ensures Find(s, sub) > -1 <==> exists i :: OccursAt(s, sub, i)
  {

  }

  /** Lower-cases the ASCII letters A-Z and leaves every other character alone. */
  function LowerChar(c: char): char
  {
    if 'A' <= c <= 'Z' then (c as int + 32) as char else c
  }

  /** `s.lower()`, restricted to ASCII letters. */
  function ToLowerAscii(s: string): (r: string)
    ensures |r| == |s|
    ensures forall i :: 0 <= i < |s| ==> r[i] == LowerChar(s[i])
  {
    seq(|s|, i requires 0 <= i < |s| => LowerChar(s[i]))
  }

  /** Lower-casing works character by character, so it commutes with slicing. */
  lemma ToLowerSlice(s: string, i: int, j: int)
    requires 0 <= i <= j <= |s|
    ensures ToLowerAscii(s)[i..j] == ToLowerAscii(s[i..j])
  {
  }

  /** If some slice of `s` lower-cases to `sub`, then `s.lower().find(sub)` finds it, at that slice or earlier. */
  lemma FindIgnoresCase(s: string, sub: string, i: int)
    requires 0 <= i && i + |sub| <= |s| && ToLowerAscii(s[i..i + |sub|]) == sub
    ensures 0 <= Find(ToLowerAscii(s), sub) <= i
  {
    ToLowerSlice(s, i, i + |sub|);
    assert OccursAt(ToLowerAscii(s), sub, i);
  }
}
