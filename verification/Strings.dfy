/** The string operations the converters use on tensor names. */
module Strings {
  predicate StartsWith(s: string, p: string) {
    |p| <= |s| && s[..|p|] == p
  }

  predicate EndsWith(s: string, suffix: string) {
    |suffix| <= |s| && s[|s| - |suffix|..] == suffix
  }

  /** Python's `s.replace(pat, rep)`: leftmost, non-overlapping occurrences. */
  function ReplaceAll(s: string, pat: string, rep: string): string
    requires pat != []
  {
    if s == [] then []
    else if StartsWith(s, pat) then rep + ReplaceAll(s[|pat|..], pat, rep)
    else [s[0]] + ReplaceAll(s[1..], pat, rep)
  }

  predicate Occurs(s: string, pat: string) {
    exists i :: 0 <= i <= |s| && StartsWith(s[i..], pat)
  }

  /** An occurrence of `pat` that nothing before it overlaps is where the replacement starts. */
  ghost predicate FirstAt(stem: string, pat: string, rest: string) {
    forall i :: 0 <= i < |stem| ==> !StartsWith((stem + pat + rest)[i..], pat)
  }

  lemma {:induction false} ReplaceFirst(stem: string, pat: string, rest: string, rep: string)
    requires pat != [] && FirstAt(stem, pat, rest)
    ensures ReplaceAll(stem + pat + rest, pat, rep) == stem + rep + ReplaceAll(rest, pat, rep)
    decreases |stem|
  {
    var s := stem + pat + rest;
    if stem == [] {
      assert s[..|pat|] == pat && s[|pat|..] == rest;
      assert [] + rep + ReplaceAll(rest, pat, rep) == rep + ReplaceAll(rest, pat, rep);
    } else {
      assert s[0..] == s;
      assert !StartsWith(s[0..], pat);
      assert s[1..] == stem[1..] + pat + rest;
      forall i | 0 <= i < |stem[1..]| ensures !StartsWith((stem[1..] + pat + rest)[i..], pat) {
        assert (stem[1..] + pat + rest)[i..] == s[i + 1..];
      }
      ReplaceFirst(stem[1..], pat, rest, rep);
      assert stem == [stem[0]] + stem[1..];
      assert [stem[0]] + (stem[1..] + rep + ReplaceAll(rest, pat, rep)) == stem + rep + ReplaceAll(rest, pat, rep);
    }
  }

  /** Replacing a name's only occurrence of its own suffix swaps the suffix. */
  lemma ReplaceSuffix(stem: string, pat: string, rep: string)
    requires pat != [] && FirstAt(stem, pat, [])
    ensures ReplaceAll(stem + pat, pat, rep) == stem + rep
  {
    assert stem + pat + [] == stem + pat;
    ReplaceFirst(stem, pat, [], rep);
    assert ReplaceAll([], pat, rep) == [];
    assert stem + rep + [] == stem + rep;
  }

  /** Without an occurrence nothing is replaced. */
  lemma {:induction false} ReplaceNothing(s: string, pat: string, rep: string)
    requires pat != [] && !Occurs(s, pat)
    ensures ReplaceAll(s, pat, rep) == s
  {
    if s != [] {
      assert s[0..] == s;
      forall i | 0 <= i <= |s[1..]| ensures !StartsWith(s[1..][i..], pat) {
        assert s[1..][i..] == s[i + 1..];
      }
      ReplaceNothing(s[1..], pat, rep);
    }
  }
}
