/**
 * QRT detection on a spot comment: `re.match(r'\bqrt\b', comments.lower())`.
 * `re.match` anchors the pattern at the start of the string, and `\b` is a
 * change between a word and a non-word character (or the string's ends).
 */
module Qrt {
  import opened Wrappers
  import opened Text

  /** `\w`: letters, digits and underscore (ASCII). */
  predicate IsWordChar(c: char)
  {
    ('a' <= c <= 'z') || ('A' <= c <= 'Z') || ('0' <= c <= '9') || c == '_'
  }

  predicate WordAt(s: string, i: int)
  {
    0 <= i < |s| && IsWordChar(s[i])
  }

  /** `\b` at position i. */
  predicate BoundaryAt(s: string, i: int)
  {
    WordAt(s, i - 1) != WordAt(s, i)
  }

  /** The regex `\bqrt\b` matched at position 0. */
  predicate MatchesQrtAtStart(s: string)
  {
    BoundaryAt(s, 0) && StartsWith(s, "qrt") && BoundaryAt(s, 3)
  }

  /** The `is_qrt` flag of a spot. */
  function IsQrt(comments: Option<string>): (qrt: bool)
    ensures comments.None? ==> !qrt
    ensures comments.Some? ==>
      var c := comments.value;
      (qrt <==> |c| >= 3 && LowerChar(c[0]) == 'q' && LowerChar(c[1]) == 'r' && LowerChar(c[2]) == 't'
                && (|c| == 3 || !IsWordChar(LowerChar(c[3]))))
  {
    match comments
    case None => false
    case Some(c) =>
      var lc := Lower(c);
      assert StartsWith(lc, "qrt") <==> |c| >= 3 && lc[0] == 'q' && lc[1] == 'r' && lc[2] == 't';
      MatchesQrtAtStart(lc)
  }

  /** "QRT" opening the comment, followed by a space, marks the spot. */
  lemma QrtLeadingWord()
    ensures IsQrt(Some("QRT last one"))
  {
  }

  /** "qrt" as the start of a longer word does not. */
  lemma QrtInsideWord()
    ensures !IsQrt(Some("QRTown"))
  {
  }

  /** "qrt" later in the comment does not: the match is anchored. */
  lemma QrtNotAtStart()
    ensures !IsQrt(Some("going qrt"))
  {
  }
}
