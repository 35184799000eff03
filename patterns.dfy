/**
 * The one regular-expression shape the repository uses: `re.match(r"^[C]+$", s)` for a
 * character class C. Python's `$` matches at the end of the string and also just before a
 * single newline that ends it, so `"abc\n"` matches `^[a-z]+$`; the model keeps that.
 */
module Patterns {

  /** The two character classes of the source: token ids and hexadecimal digits. */
  datatype CharClass =
    | TokenChars   // [a-zA-Z0-9_-]
    | HexDigits    // [0-9a-fA-F]

  /** Membership in a bracket class; neither class holds a newline or a space. */
  predicate InClass(cls: CharClass, c: char)
    ensures InClass(cls, c) ==> c != '\n' && c != ' '
  {
    match cls
    case TokenChars => ('a' <= c <= 'z') || ('A' <= c <= 'Z') || ('0' <= c <= '9') || c == '_' || c == '-'
    case HexDigits => ('0' <= c <= '9') || ('a' <= c <= 'f') || ('A' <= c <= 'F')
  }

  predicate AllIn(cls: CharClass, s: string) {
    forall i :: 0 <= i < |s| ==> InClass(cls, s[i])
  }

  /** The end of the longest run of class characters starting at `i` (the greedy `[C]+`). */
  function ScanClass(cls: CharClass, s: string, i: nat): (j: nat)
    requires i <= |s|
    ensures i <= j <= |s|
    ensures forall k :: i <= k < j ==> InClass(cls, s[k])
    ensures j < |s| ==> !InClass(cls, s[j])
    decreases |s| - i
  {
    if i < |s| && InClass(cls, s[i]) then ScanClass(cls, s, i + 1) else i
  }

  /**
   * `re.match(r"^[C]+$", s)`: a non-empty greedy run from the start, after which `$` holds,
   * i.e. the run reaches the end or stops at a final newline. No class contains a newline,
   * so backtracking into the run can never find another place where `$` holds.
   */
  predicate MatchesAnchored(cls: CharClass, s: string)
    ensures MatchesAnchored(cls, s) ==>
              s != [] && forall k :: 0 <= k < |s| ==> InClass(cls, s[k]) || (k == |s| - 1 && s[k] == '\n')
  {
    var j := ScanClass(cls, s, 0);
    0 < j && (j == |s| || (j == |s| - 1 && s[j] == '\n'))
  }

  /** The matcher accepts exactly the non-empty class strings, with or without one final newline. */
  lemma MatchesAnchoredIff(cls: CharClass, s: string)
    ensures MatchesAnchored(cls, s) <==>
              (s != [] && AllIn(cls, s))
              || (|s| >= 2 && s[|s| - 1] == '\n' && AllIn(cls, s[..|s| - 1]))
  {
    var j := ScanClass(cls, s, 0);
    assert !InClass(cls, '\n');
    if |s| >= 1 {
      var body := s[..|s| - 1];
      assert forall k :: 0 <= k < |body| ==> body[k] == s[k];
    }
  }
}
