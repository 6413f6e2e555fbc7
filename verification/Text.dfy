/** The string operations that tie the names of one volume's objects together. */
module Text {

  predicate HasPrefix(s: string, prefix: string) {
    prefix <= s
  }

  /** s without the prefix, or s itself when it does not start with it. */
  function TrimPrefix(s: string, prefix: string): string {
    if HasPrefix(s, prefix) then s[|prefix|..] else s
  }

  lemma TrimOfConcat(prefix: string, s: string)
    ensures TrimPrefix(prefix + s, prefix) == s
  {
    assert prefix <= prefix + s;
  }

  /** No name of the set is a prefix of another one. */
  ghost predicate PrefixFree(names: set<string>) {
    forall v, w | v in names && w in names && HasPrefix(w, v) :: v == w
  }

  /** Two prefixes of one string are comparable. */
  lemma PrefixesComparable(s: string, v: string, w: string)
    requires HasPrefix(s, v) && HasPrefix(s, w)
    ensures HasPrefix(v, w) || HasPrefix(w, v)
  {
    assert v == s[..|v|];
    assert w == s[..|w|];
    if |v| <= |w| {
      assert w[..|v|] == v;
    } else {
      assert v[..|w|] == w;
    }
  }
}
