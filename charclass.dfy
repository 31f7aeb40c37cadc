/** The four single-character classes the lexer tests. Each test is written as
    the range or comparison chain of the source and proved equal to membership
    in an explicitly enumerated set. */
module CharClass {

  const LowerLetters: set<char> := {
    'a', 'b', 'c', 'd', 'e', 'f', 'g', 'h', 'i', 'j', 'k', 'l', 'm',
    'n', 'o', 'p', 'q', 'r', 's', 't', 'u', 'v', 'w', 'x', 'y', 'z' }

  const UpperLetters: set<char> := {
    'A', 'B', 'C', 'D', 'E', 'F', 'G', 'H', 'I', 'J', 'K', 'L', 'M',
    'N', 'O', 'P', 'Q', 'R', 'S', 'T', 'U', 'V', 'W', 'X', 'Y', 'Z' }

  const Letters: set<char> := LowerLetters + UpperLetters + {'_'}

  const Digits: set<char> := {'0', '1', '2', '3', '4', '5', '6', '7', '8', '9'}

  const OperatorSymbols: set<char> := {'+', '-', '*', '/', '%', '=', '!', '<', '>', '&', '|'}

  const DelimiterSymbols: set<char> := {';', ',', '.', '(', ')', '{', '}', '[', ']'}

  /** Letter or underscore. */
  function IsAlpha(c: char): (r: bool)
    ensures r <==> c in Letters
  {
    LowerRange(c);
    UpperRange(c);
    ('a' <= c <= 'z') || ('A' <= c <= 'Z') || c == '_'
  }

  lemma LowerRange(c: char)
    ensures ('a' <= c <= 'z') <==> c in LowerLetters
  {
  }

  lemma UpperRange(c: char)
    ensures ('A' <= c <= 'Z') <==> c in UpperLetters
  {
  }

  /** Decimal digit. */
  function IsDigit(c: char): (r: bool)
    ensures r <==> c in Digits
  {
    '0' <= c <= '9'
  }

  function IsOperator(c: char): (r: bool)
    ensures r <==> c in OperatorSymbols
    ensures r ==> !IsAlpha(c) && !IsDigit(c)
  {
    c == '+' || c == '-' || c == '*' || c == '/' || c == '%' ||
    c == '=' || c == '!' || c == '<' || c == '>' ||
    c == '&' || c == '|'
  }

  function IsDelimiter(c: char): (r: bool)
    ensures r <==> c in DelimiterSymbols
    ensures r ==> !IsAlpha(c) && !IsDigit(c) && !IsOperator(c)
  {
    c == ';' || c == ',' || c == '.' || c == '(' || c == ')' ||
    c == '{' || c == '}' || c == '[' || c == ']'
  }

  /** No character belongs to two classes, and none of them holds the terminator. */
  lemma ClassesDisjoint(c: char)
    ensures !(IsAlpha(c) && IsDigit(c))
    ensures !(IsOperator(c) && (IsAlpha(c) || IsDigit(c)))
    ensures !(IsDelimiter(c) && (IsAlpha(c) || IsDigit(c) || IsOperator(c)))
    ensures !IsAlpha('\0') && !IsDigit('\0') && !IsOperator('\0') && !IsDelimiter('\0')
  {
  }
}
