/** Safe names, letter by letter. */
module Spelling {
  import opened Domain

  /** All in the safe alphabet. */
  predicate Letters(s: string) {
    forall i :: 0 <= i < |s| ==>
      'a' <= s[i] <= 'z' || 'A' <= s[i] <= 'Z' || '0' <= s[i] <= '9' || s[i] == '_' || s[i] == '-'
  }

  /** Safe letters, with one final newline allowed. */
  predicate Spelled(s: string) {
    if |s| > 1 && s[|s| - 1] == '\n' then Letters(s[..|s| - 1]) else |s| > 0 && Letters(s)
  }

  lemma LettersAre(s: string)
    ensures Letters(s) <==> AllSafe(s)
    ensures |s| > 0 && s[|s| - 1] == '\n' ==> !AllSafe(s)
  {
    if AllSafe(s) && |s| > 0 { assert SafeChar(s[|s| - 1]); }
  }

  lemma SpelledIs(s: string)
    ensures Spelled(s) <==> MatchesIdentifier(s)
  {
    hide Letters, AllSafe;
    LettersAre(s);
    if |s| > 1 { LettersAre(s[..|s| - 1]); }
  }
}
