// The name check of the Dataset reconciler: what regexp.ReplaceAllString leaves of a
// name when all matches of [a-z0-9]([-a-z0-9]*[a-z0-9])? are deleted.
module NameCheck {

  predicate Alphanumeric(c: char) { 'a' <= c <= 'z' || '0' <= c <= '9' }

  // Membership in the language of the (anchored) pattern.
  predicate Matches(t: string) {
    && |t| > 0 && Alphanumeric(t[0]) && Alphanumeric(t[|t| - 1])
    && forall c <- t :: Alphanumeric(c) || c == '-'
  }

  // The longest match at the start of s that has at most n characters, 0 for none.  All
  // operators of the pattern are greedy, so Go takes the longest match.
  function LongestMatch(s: string, n: nat): (m: nat)
    requires n <= |s|
    ensures m <= n
    ensures m > 0 ==> Matches(s[..m])
    ensures forall k :: m < k <= n ==> !Matches(s[..k])
  {
    if n == 0 || Matches(s[..n]) then n else LongestMatch(s, n - 1)
  }

  // Leftmost matches are deleted one after the other; other characters stay.
  function Residue(s: string): string
    decreases |s|
  {
    if s == "" then ""
    else
      var m := LongestMatch(s, |s|);
      if m == 0 then [s[0]] + Residue(s[1..]) else Residue(s[m..])
  }

  predicate ValidName(name: string) { |Residue(name)| == 0 }

  lemma MatchExtends(s: string, m: nat)
    requires 0 < m < |s| && Matches(s[..m]) && Alphanumeric(s[m])
    ensures Matches(s[..m + 1])
  {
    assert s[..m + 1] == s[..m] + [s[m]];
  }

  // What follows a longest match is no letter or digit ...
  lemma AfterMatch(s: string)
    requires 0 < LongestMatch(s, |s|) < |s|
    ensures !Alphanumeric(s[LongestMatch(s, |s|)])
  {
    if Alphanumeric(s[LongestMatch(s, |s|)]) {
      MatchExtends(s, LongestMatch(s, |s|));
    }
  }

  // ... and starts no further match, so it stays.
  lemma NoMatchStays(t: string)
    requires t != "" && !Alphanumeric(t[0])
    ensures Residue(t) != ""
  {
    assert LongestMatch(t, |t|) == 0;
  }

  // The check lets through exactly the names wholly of lower-case letters, digits and
  // hyphens with an alphanumeric start and end, and the empty string.
  lemma NameCheckExact(s: string)
    ensures ValidName(s) <==> s == "" || Matches(s)
  {
    if s != "" {
      assert s[..|s|] == s;
      var m := LongestMatch(s, |s|);
      if m == |s| {
        assert s[m..] == "" && Residue(s) == Residue(s[m..]);
      } else if m > 0 {
        AfterMatch(s);
        NoMatchStays(s[m..]);
        assert !Matches(s[..|s|]);
      }
    }
  }
}
