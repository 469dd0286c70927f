/** The suffix test the redirect hook applies to host names: Python's
    `str.endswith` with a single string argument, a plain, case-sensitive
    comparison of characters. */
module Suffix {

  /** True when `suffix` is the last |suffix| characters of `s`. Computed one
      character at a time from the end. */
  function EndsWith(s: string, suffix: string): (b: bool)
    ensures b <==> |suffix| <= |s| && s[|s| - |suffix|..] == suffix
  {
    if suffix == [] then
      assert s[|s|..] == [];
      true
    else if s == [] then
      false
    else
      var s', t' := s[..|s| - 1], suffix[..|suffix| - 1];
      assert |suffix| <= |s| ==> s[|s| - |suffix|..] == s'[|s'| - |t'|..] + [s[|s| - 1]];
      assert suffix == t' + [suffix[|suffix| - 1]];
      s[|s| - 1] == suffix[|suffix| - 1] && EndsWith(s', t')
  }

  /** Two suffixes of one string are suffixes of each other: the shorter ends
      the longer. */
  lemma SuffixesNest(s: string, a: string, b: string)
    requires EndsWith(s, a) && EndsWith(s, b) && |a| <= |b|
    ensures EndsWith(b, a)
  {
  }

  /** A string cannot end with two suffixes that disagree on their common
      tail: the contrapositive of SuffixesNest. */
  lemma SuffixesExclusive(s: string, a: string, b: string)
    requires |a| <= |b| && !EndsWith(b, a)
    ensures !(EndsWith(s, a) && EndsWith(s, b))
  {
    if EndsWith(s, a) && EndsWith(s, b) {
      SuffixesNest(s, a, b);
    }
  }
}
