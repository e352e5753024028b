/** The lookup `setEncoding` makes in `Charset.availableCharsets()`. That map
    is ordered by a case-insensitive comparator, so a name is found whatever
    the case of its letters, and the name is then kept as the caller typed
    it. Charset names are ASCII, and only ASCII letters are folded here. */
module Charsets {

  /** One character with an ASCII capital turned into its small letter. */
  function LowerAscii(c: char): (d: char)
    ensures 'A' <= c <= 'Z' ==> d as int == c as int + 32
    ensures !('A' <= c <= 'Z') ==> d == c
  {
    if 'A' <= c <= 'Z' then (c as int + 32) as char else c
  }

  /** A string with every ASCII capital turned into its small letter. */
  function LowerAsciiString(s: string): (t: string)
    ensures |t| == |s|
    ensures forall i :: 0 <= i < |s| ==> t[i] == LowerAscii(s[i])
  {
    if s == [] then [] else [LowerAscii(s[0])] + LowerAsciiString(s[1..])
  }

  /** The two names differ at most in the case of ASCII letters. */
  predicate SameIgnoringCase(a: string, b: string)
  {
    LowerAsciiString(a) == LowerAsciiString(b)
  }

  /** `availableCharsets().containsKey(name)`, `available` holding the
      charsets' canonical names. */
  predicate CharsetAvailable(name: string, available: set<string>)
  {
    exists n :: n in available && SameIgnoringCase(n, name)
  }

  /** Every canonical name is found as it is spelt. */
  lemma CanonicalNameAvailable(name: string, available: set<string>)
    requires name in available
    ensures CharsetAvailable(name, available)
  {
    assert SameIgnoringCase(name, name);
  }

  /** Two spellings of one name are both found or both missing. */
  lemma CaseVariantsAgree(a: string, b: string, available: set<string>)
    requires SameIgnoringCase(a, b)
    ensures CharsetAvailable(a, available) <==> CharsetAvailable(b, available)
  {
    if CharsetAvailable(a, available) {
      var n :| n in available && SameIgnoringCase(n, a);
      assert SameIgnoringCase(n, b);
    }
    if CharsetAvailable(b, available) {
      var n :| n in available && SameIgnoringCase(n, b);
      assert SameIgnoringCase(n, a);
    }
  }

  /** The lookup is by folded name: a name is found exactly when its folded
      form is the folded form of some canonical name. */
  lemma CharsetAvailableByFoldedName(name: string, available: set<string>)
    ensures CharsetAvailable(name, available) <==>
            LowerAsciiString(name) in (set n | n in available :: LowerAsciiString(n))
  {
  }

  /** `setEncoding("utf-8")` finds the charset whose canonical name is
      "UTF-8". */
  lemma LowerCaseUtf8Available(available: set<string>)
    requires "UTF-8" in available
    ensures CharsetAvailable("utf-8", available)
  {
    assert LowerAsciiString("UTF-8") == "utf-8";
    assert LowerAsciiString("utf-8") == "utf-8";
    assert SameIgnoringCase("UTF-8", "utf-8");
  }
}
