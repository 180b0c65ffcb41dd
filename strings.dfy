/**
  Text helpers shared by the extractor: the whitespace test and the
  trimming done by Python's argument-less `str.strip()`.
 */
module Strings {

  /** The characters Python's `str.isspace` accepts, which is the set that
      a bare `str.strip()` removes from both ends. */
  predicate IsSpace(c: char)
    ensures c == ' ' || c == '\t' || c == '\n' || c == '\r' || c == '\U{B}' || c == '\U{C}' ==> IsSpace(c)
  {
    || ('\t' <= c <= '\r')                  // tab, line feed, vertical tab, form feed, carriage return
    || ('\U{1C}' <= c <= '\U{1F}')          // file, group, record and unit separators
    || c == ' '
    || c == '\U{85}'                        // next line
    || c == '\U{A0}'                        // no-break space
    || c == '\U{1680}'                      // ogham space mark
    || ('\U{2000}' <= c <= '\U{200A}')      // en quad .. hair space
    || c == '\U{2028}' || c == '\U{2029}'   // line and paragraph separators
    || c == '\U{202F}' || c == '\U{205F}' || c == '\U{3000}'
  }

  ghost predicate AllSpace(s: string)
  {
    forall i :: 0 <= i < |s| ==> IsSpace(s[i])
  }

  /** No whitespace at either end. */
  ghost predicate Trimmed(s: string)
  {
    s == [] || (!IsSpace(s[0]) && !IsSpace(s[|s| - 1]))
  }

  /** `s` without its leading whitespace. */
  function StripStart(s: string): (r: string)
    ensures |r| <= |s|
    ensures r == [] || !IsSpace(r[0])
  {
    if s != [] && IsSpace(s[0]) then StripStart(s[1..]) else s
  }

  /** `s` without its trailing whitespace. */
  function StripEnd(s: string): (r: string)
    ensures |r| <= |s|
    ensures r == [] || !IsSpace(r[|r| - 1])
    ensures r != [] ==> r[0] == s[0]
  {
    if s != [] && IsSpace(s[|s| - 1]) then StripEnd(s[..|s| - 1]) else s
  }

  /** Python's `s.strip()`: `s` without the whitespace at both ends. */
  function Strip(s: string): (r: string)
    ensures Trimmed(r)
    ensures |r| <= |s|
  {
    StripEnd(StripStart(s))
  }

  /** Only whitespace is removed from the front: `StripStart(s)` is a
      suffix of `s`, and what precedes it is whitespace. */
  lemma {:induction false} StripStartRemovesSpace(s: string)
    ensures StripStart(s) == s[|s| - |StripStart(s)|..]
    ensures AllSpace(s[..|s| - |StripStart(s)|])
  {
    if s != [] && IsSpace(s[0]) {
      StripStartRemovesSpace(s[1..]);
      assert s[..|s| - |StripStart(s)|] == [s[0]] + s[1..][..|s[1..]| - |StripStart(s[1..])|];
    }
  }

  /** Only whitespace is removed from the back: `StripEnd(s)` is a prefix
      of `s`, and what follows it is whitespace. */
  lemma {:induction false} StripEndRemovesSpace(s: string)
    ensures StripEnd(s) == s[..|StripEnd(s)|]
    ensures AllSpace(s[|StripEnd(s)|..])
  {
    if s != [] && IsSpace(s[|s| - 1]) {
      StripEndRemovesSpace(s[..|s| - 1]);
      assert s[|StripEnd(s)|..] == s[..|s| - 1][|StripEnd(s[..|s| - 1])|..] + [s[|s| - 1]];
    }
  }

  /** `Strip(s)` is what lies between a whitespace prefix and a whitespace
      suffix of `s`; since it is `Trimmed`, no more whitespace could be
      removed. */
  lemma StripRemovesSpace(s: string)
    ensures var t := StripStart(s);
            t == s[|s| - |t|..] && AllSpace(s[..|s| - |t|]) &&
            Strip(s) == t[..|Strip(s)|] && AllSpace(t[|Strip(s)|..])
  {
    StripStartRemovesSpace(s);
    StripEndRemovesSpace(StripStart(s));
  }

  /** A string with no whitespace at either end is its own strip. */
  lemma StripOfTrimmed(s: string)
    requires Trimmed(s)
    ensures Strip(s) == s
  {
  }
}
