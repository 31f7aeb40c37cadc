/** The keyword test of the lexer. The source compares the lexeme with each
    keyword one character at a time, choosing the candidates by the first
    letter; the model does the same and proves the result equal to membership
    in the fixed vocabulary. */
module Keywords {
  import opened CStrings
  import opened CharClass

  /** The sixteen keywords of the language. */
  const KeywordSet: set<string> := {
    "check", "cycle", "digit", "during", "indiv", "instead", "large", "long",
    "otherwise", "perform", "select", "skip", "short", "stop", "tiny", "when" }

  /** The comparison chain `lexeme[k] == word[k] && ... && lexeme[|word|] == '\0'`,
      evaluated left to right. Its precondition `k <= |lexeme|` says that every
      character it reads lies within the lexeme or is its terminator: because
      `&&` stops at the first mismatch, the chain never reads past the end. */
  function MatchFrom(lexeme: CStr, word: CStr, k: nat): (r: bool)
    requires k <= |word| && k <= |lexeme|
    requires lexeme[..k] == word[..k]
    ensures r <==> lexeme == word
    decreases |word| - k
  {
    if k == |word| then
      CharAt(lexeme, k) == '\0'
    else
      CharAt(lexeme, k) == word[k] &&
      assert lexeme[..k + 1] == word[..k + 1];
      MatchFrom(lexeme, word, k + 1)
  }

  /** The test for one candidate once the first letter has been dispatched on. */
  function Rest(lexeme: CStr, word: CStr): (r: bool)
    requires |word| > 0 && CharAt(lexeme, 0) == word[0]
    ensures r <==> lexeme == word
  {
    assert lexeme[..1] == word[..1];
    MatchFrom(lexeme, word, 1)
  }

  /** Whether the lexeme is a keyword: a switch on the first character, then the
      candidates for that letter in the order the source tries them. */
  function IsKeyword(lexeme: CStr): (r: bool)
    ensures r <==> lexeme in KeywordSet
  {
    match CharAt(lexeme, 0)
    case 'c' => Rest(lexeme, "check") || Rest(lexeme, "cycle")
    case 'd' => Rest(lexeme, "digit") || Rest(lexeme, "during")
    case 'i' => Rest(lexeme, "indiv") || Rest(lexeme, "instead")
    case 'l' => Rest(lexeme, "large") || Rest(lexeme, "long")
    case 'o' => Rest(lexeme, "otherwise")
    case 'p' => Rest(lexeme, "perform")
    case 's' => Rest(lexeme, "select") || Rest(lexeme, "skip") || Rest(lexeme, "short") || Rest(lexeme, "stop")
    case 't' => Rest(lexeme, "tiny")
    case 'w' => Rest(lexeme, "when")
    case _ => false
  }

  /** Every keyword is a non-empty word of lower-case letters, so it is also
      the shape of word the lexer scans as an identifier. */
  lemma KeywordsAreLowerCaseWords(w: string)
    requires w in KeywordSet
    ensures |w| >= 4
    ensures forall i :: 0 <= i < |w| ==> w[i] in LowerLetters && IsAlpha(w[i])
  {
  }

  /** No keyword is a proper prefix of another. */
  lemma KeywordsPrefixFree(u: string, w: string)
    requires u in KeywordSet && w in KeywordSet
    requires u <= w
    ensures u == w
  {
    KeywordsAreLowerCaseWords(u);
    assert |u| >= 3;
    assert u[0] == w[0] && u[1] == w[1] && u[2] == w[2];
    KeywordsDeterminedByThreeLetters(u, w);
  }

  /** The first three letters already tell the keywords apart. */
  lemma KeywordsDeterminedByThreeLetters(u: string, w: string)
    requires u in KeywordSet && w in KeywordSet
    requires u[0] == w[0] && u[1] == w[1] && u[2] == w[2]
    ensures u == w
  {
  }

  /** Matching is over the full length: a proper prefix of a keyword (the
      empty lexeme included) and a proper extension of one are not keywords. */
  lemma PrefixOrExtensionNotKeyword(w: string, lexeme: CStr)
    requires w in KeywordSet
    requires lexeme < w || w < lexeme
    ensures !IsKeyword(lexeme)
  {
    if lexeme in KeywordSet {
      if lexeme < w {
        KeywordsPrefixFree(lexeme, w);
      } else {
        KeywordsPrefixFree(w, lexeme);
      }
    }
  }

  /** Matching is case-sensitive: a lexeme with an upper-case letter anywhere
      is not a keyword. */
  lemma UpperCaseNotKeyword(lexeme: CStr, i: nat)
    requires i < |lexeme| && 'A' <= lexeme[i] <= 'Z'
    ensures !IsKeyword(lexeme)
  {
    if lexeme in KeywordSet {
      KeywordsAreLowerCaseWords(lexeme);
      LowerRange(lexeme[i]);
    }
  }
}
