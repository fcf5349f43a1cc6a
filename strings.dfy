/** Ordinal string tests the redirect policy is built from: a suffix test
    (`string.EndsWith`) and a substring test (`string.Contains`). */
module Strings {

  /** `s` ends with `suffix`, compared character by character. */
  function EndsWith(s: string, suffix: string): (r: bool)
    ensures r <==> exists p :: p + suffix == s
  {
    if |suffix| <= |s| && s[|s| - |suffix|..] == suffix then
      assert s[..|s| - |suffix|] + suffix == s;
      true
    else
      false
  }

  /** `sub` occurs in `s` starting at index `k`. */
  ghost predicate OccursAt(s: string, sub: string, k: int)
  {
    0 <= k && k + |sub| <= |s| && s[k..k + |sub|] == sub
  }

  /** `s` starts with `prefix`. */
  predicate StartsWith(s: string, prefix: string)
  {
    |prefix| <= |s| && s[..|prefix|] == prefix
  }

  /** Ordinal substring search: true exactly when `sub` occurs somewhere in `s`. */
  function Contains(s: string, sub: string): (r: bool)
    ensures r <==> exists k :: OccursAt(s, sub, k)
    decreases |s|
  {
    if |s| < |sub| then false
    else if StartsWith(s, sub) then
      assert OccursAt(s, sub, 0);
      true
    else
      var r := Contains(s[1..], sub);
      assert forall k :: OccursAt(s[1..], sub, k) ==> OccursAt(s, sub, k + 1) by {
        forall k | OccursAt(s[1..], sub, k) ensures OccursAt(s, sub, k + 1) {
          assert s[1..][k..k + |sub|] == s[k + 1..k + 1 + |sub|];
        }
      }
      assert forall k :: OccursAt(s, sub, k) ==> k == 0 || OccursAt(s[1..], sub, k - 1) by {
        forall k | OccursAt(s, sub, k) && k != 0 ensures OccursAt(s[1..], sub, k - 1) {
          assert s[1..][k - 1..k - 1 + |sub|] == s[k..k + |sub|];
        }
      }
      r
  }

  /** Whether `s` ends with at least one of `suffixes` (LINQ's `Any` over `EndsWith`). */
  function EndsWithAny(s: string, suffixes: seq<string>): (r: bool)
    ensures r <==> exists i :: 0 <= i < |suffixes| && EndsWith(s, suffixes[i])
    decreases |suffixes|
  {
    if suffixes == [] then false
    else if EndsWith(s, suffixes[0]) then true
    else
      var r := EndsWithAny(s, suffixes[1..]);
      assert forall i :: 1 <= i < |suffixes| ==> suffixes[i] == suffixes[1..][i - 1];
      r
  }

  /** A string extended on the left keeps every suffix it had. */
  lemma {:induction false} EndsWithConcat(p: string, s: string)
    ensures EndsWith(p + s, s)
  {
    assert (p + s)[|p + s| - |s|..] == s;
  }
}
