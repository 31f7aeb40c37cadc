# BSC lexer: cursor, character classes and keyword test

A model of the implemented part of the lexer of the small "BSC" language
(`lexer.c` with the types of `lexer.h`). The lexer walks a NUL-terminated
source buffer with a cursor (`position` and the `currentChar` at that
position), skips whitespace, classifies single characters (letters, digits,
operator symbols, delimiter symbols) and decides whether a word is one of
sixteen keywords. Of the token scanner `getNextToken` only the end-of-input
step is written in the source; the model covers exactly that step.

Files:

- `cstrings.dfy` (`CStrings`): a C string as `CStr`, a `string` without a NUL;
  `CharAt(s, i)` reads the buffer `s` followed by its terminator, and its
  precondition `i <= |s|` forbids reading past the terminator.
- `tokens.dfy` (`Tokens`): every token kind of the header's enumeration as the
  datatype `TokenType`, the `Token` record (kind and lexeme), the end-of-input
  token `Token(Eof, "EOF")`, and an `Option` type.
- `charclass.dfy` (`CharClass`): `IsAlpha`, `IsDigit`, `IsOperator`,
  `IsDelimiter`, each written as the source's range test or comparison chain
  and proved equal to membership in an enumerated set of characters; the four
  classes are pairwise disjoint.
- `keywords.dfy` (`Keywords`): `IsKeyword` dispatches on the first character
  and compares the rest character by character with each candidate, ending with
  a test for the terminator, as the source does. It is proved equal to
  membership in `KeywordSet`. Because `&&` stops at the first mismatch, the
  comparison chain never reads past the lexeme's terminator; that is the
  precondition of `MatchFrom`, discharged at every call.
- `lexer.dfy` (`Lexing`): the class `Lexer` with the fields `source`, `position`
  and `currentChar`. Its invariant `Valid()` is `position <= |source|` and
  `currentChar == CharAt(source, position)`: position `|source|` stands for the
  terminator. `Advance`, `SkipWhitespace` and `NextToken` are methods proved
  against the specification functions `LayoutEnd` (where a run of whitespace
  ends) and `EndOfInput` (what the implemented scanner step returns).

Two facts about the code and its header: `isDelimiter` accepts `.` although
lexer.h:58 comments out `TOKEN_DOT`, and rejects `:` although lexer.h:59
declares `TOKEN_COLON`. Whitespace is always skipped before a token
(lexer.c:18-22, lexer.c:95).

Data model: `Tokens.TokenType` has one constructor per constant of the
`TokenType` enumeration (lexer.h:10-69); `Tokens.Token` is the record of
lexer.h:75-78 (its `type` field is named `kind`, its `lexeme` is a string
value); `Tokens.EofToken` is the token built at lexer.c:98-99. The class
`Lexing.Lexer` is the record of lexer.h:84-88, and its invariant
`Lexing.Lexer.Valid` (listed below) ties its three fields together.

## Model

| member | source | states |
|---|---|---|
| `CStrings.CharAt` | lexer.c:11-14 | reading the buffer gives `'\0'` exactly at the index just past the last character (the terminator) and the source character before it; nothing past the terminator can be read |
| `CharClass.IsAlpha` | lexer.c:24-26 | true exactly for the 52 ASCII letters and `_` |
| `CharClass.IsDigit` | lexer.c:28-30 | true exactly for `0`-`9` |
| `CharClass.IsOperator` | lexer.c:32-36 | true exactly for `+ - * / % = ! < > &` and the vertical bar; an operator symbol is never a letter or digit |
| `CharClass.IsDelimiter` | lexer.c:38-41 | true exactly for `; , . ( ) { } [ ]`; a delimiter is never a letter, digit or operator symbol |
| `CharClass.ClassesDisjoint` | lexer.c:24-41 | the four classes are pairwise disjoint and none contains the terminator |
| `Keywords.MatchFrom` | lexer.c:46-85 | a comparison chain from position `k` to the end of the word followed by the terminator test is true iff the lexeme equals the word, and it only reads within the lexeme and its terminator |
| `Keywords.Rest` | lexer.c:45-86 | once the first letter has matched, testing one candidate is true iff the lexeme is that candidate |
| `Keywords.IsKeyword` | lexer.c:42-89 | the first-letter switch returns true iff the lexeme is one of the sixteen keywords |
| `Keywords.KeywordsAreLowerCaseWords` | lexer.c:46-85 | every keyword has at least four characters, all lower-case letters accepted by `IsAlpha` |
| `Keywords.KeywordsPrefixFree` | lexer.c:46-85 | no keyword is a prefix of a different keyword |
| `Keywords.PrefixOrExtensionNotKeyword` | lexer.c:46-85 | a proper prefix of a keyword (the empty lexeme included) or a proper extension of one is not a keyword: matching is full-length |
| `Keywords.UpperCaseNotKeyword` | lexer.c:42-89 | a lexeme holding an upper-case letter is never a keyword: matching is case-sensitive |
| `Lexing.IsLayout` | lexer.c:19 | true exactly for space, tab, newline and carriage return; never for the terminator, which is what stops the loop |
| `Lexing.Lexer.Valid` | lexer.h:84-88 | the cursor invariant: the position is within the source or on its terminator, and `currentChar` is `'\0'` exactly at the terminator |
| `Lexing.LayoutEnd` | lexer.c:18-22 | the end of a whitespace run lies between its start and the terminator, everything before it is space, tab, newline or carriage return, and the character at it is not |
| `Lexing.LayoutEndUnique` | lexer.c:18-22 | those three properties determine the end of the run uniquely |
| `Lexing.LayoutEndIdempotent` | lexer.c:18-22 | skipping whitespace twice ends where skipping it once does |
| `Lexing.LayoutEndAtTerminator` | lexer.c:95-97 | skipping whitespace reaches the terminator iff only whitespace remains |
| `Lexing.EndOfInput` | lexer.c:95-101 | the scanner step yields a token iff only whitespace remains, and that token has kind `Eof` and lexeme `"EOF"` |
| `Lexing.EndOfInputRepeats` | lexer.c:95-101 | after the end-of-input token, the next scan from where the cursor stopped yields it again |
| `Lexing.Lexer.constructor` | lexer.c:3-7 | the cursor starts at position 0 on the first character, or on the terminator for an empty source |
| `Lexing.Lexer.Advance` | lexer.c:9-16 | position grows by exactly one, `currentChar` becomes the character there or `'\0'` at the terminator, the source is unchanged and the invariant is kept |
| `Lexing.Lexer.SkipWhitespace` | lexer.c:18-22 | the loop terminates at `LayoutEnd` of the old position: position never decreases, only whitespace is consumed, the new current character is not whitespace, and nothing moves when the current character is not whitespace |
| `Lexing.Lexer.NextToken` | lexer.c:91-107 | skips whitespace and returns `EndOfInput` of the old position; at the terminator it returns the end-of-input token again without moving |

## Left out

- `main.c` (reading the file into a buffer, printing tokens, writing `symbol_table.txt`, the kind-to-name table) is input/output and presentation and is not part of this model; it also names kinds the header does not declare.
- `isReservedWord` and `isNoiseWord` are declared in lexer.h:107-108 but have no body in the sources; their vocabularies are not part of this model.
- Lexing.Lexer.NextToken: past the end-of-input test the source has an empty `if` that passes the lexer itself to `isDigit`, and then falls off the end of the function without returning a token (lexer.c:103-107); the model returns `None` there instead of a token.
- Quoted literals, comments, number scanning, multi-character operators and the mapping of delimiters to token kinds have no code in the sources and are not modelled; `TokenType` only lists their kinds.
- Lexing.Lexer.Advance: requires that the cursor is not on the terminator; from there the source increments past the terminator and reads outside the buffer.
- Lexing.Lexer.constructor: the source initialises a caller-provided record; the model allocates a new object.
- The C `int` width of `position` is not modelled (`nat`): sources longer than the largest `int` are outside the model.
- C `char` is modelled as a Dafny `char`, one per byte of the buffer, so `position` counts bytes as the source does; a Dafny `char` is a Unicode scalar value, so the model does not represent a multi-byte UTF-8 character as its several bytes. No behaviour depends on this: every class, the whitespace test and the terminator test accept only ASCII characters, and signedness plays no part. The predicates return `bool` where the source returns `0` or `1`.
- Allocation and freeing of lexemes (`strdup`, `free`) are left out; a lexeme is an immutable string value.
