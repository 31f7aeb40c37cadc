/** The lexer's cursor over its source buffer and the first step of the token
    scanner. */
module Lexing {
  import opened CStrings
  import opened Tokens

  const LayoutChars: set<char> := {' ', '\t', '\n', '\r'}

  /** The loop condition of the whitespace skipper: space, tab, newline or
      carriage return, never the terminator. */
  function IsLayout(c: char): (r: bool)
    ensures r <==> c in LayoutChars
    ensures r ==> c != '\0'
  {
    c == ' ' || c == '\t' || c == '\n' || c == '\r'
  }

  /** Where a run of whitespace that starts at `i` ends: the first index at or
      after `i` that does not hold a whitespace character (`|s|`, the
      terminator, when there is none). */
  function LayoutEnd(s: CStr, i: nat): (j: nat)
    requires i <= |s|
    ensures i <= j <= |s|
    ensures forall k :: i <= k < j ==> IsLayout(s[k])
    ensures !IsLayout(CharAt(s, j))
    decreases |s| - i
  {
    if i < |s| && IsLayout(s[i]) then LayoutEnd(s, i + 1) else i
  }

  /** The three properties `LayoutEnd` ensures pin its result down. */
  lemma LayoutEndUnique(s: CStr, i: nat, j: nat)
    requires i <= j <= |s|
    requires forall k :: i <= k < j ==> IsLayout(s[k])
    requires !IsLayout(CharAt(s, j))
    ensures LayoutEnd(s, i) == j
  {
  }

  /** Skipping whitespace a second time moves nowhere. */
  lemma LayoutEndIdempotent(s: CStr, i: nat)
    requires i <= |s|
    ensures LayoutEnd(s, LayoutEnd(s, i)) == LayoutEnd(s, i)
  {
  }

  /** Skipping whitespace reaches the terminator exactly when nothing but
      whitespace is left. */
  lemma LayoutEndAtTerminator(s: CStr, i: nat)
    requires i <= |s|
    ensures LayoutEnd(s, i) == |s| <==> forall k :: i <= k < |s| ==> IsLayout(s[k])
  {
  }

  /** What the implemented part of the scanner yields for the source `s` with
      the cursor at `i`: the end-of-input token when only whitespace is left,
      and no result otherwise (that path has no return in the source). */
  function EndOfInput(s: CStr, i: nat): (t: Option<Token>)
    requires i <= |s|
    ensures t.Some? <==> forall k :: i <= k < |s| ==> IsLayout(s[k])
    ensures t.Some? ==> t.value.kind == Eof && t.value.lexeme == "EOF"
  {
    if CharAt(s, LayoutEnd(s, i)) == '\0' then Some(EofToken) else None
  }

  /** Once the end-of-input token has been produced, producing it again from
      where the scan stopped gives the same token. */
  lemma EndOfInputRepeats(s: CStr, i: nat)
    requires i <= |s| && EndOfInput(s, i).Some?
    ensures EndOfInput(s, LayoutEnd(s, i)) == EndOfInput(s, i)
  {
  }

  /** The lexer state: the source it borrows, the scan position, and the
      character at that position (the terminator at the end). */
  class Lexer {
    var source: CStr
    var position: nat
    var currentChar: char

    /** The cursor invariant: the position lies within the source or on its
        terminator, and `currentChar` is the character stored there, so it is
        the terminator exactly at the end. */
    ghost predicate Valid()
      reads this
      ensures Valid() ==> (currentChar == '\0' <==> position == |source|)
    {
      position <= |source| && currentChar == CharAt(source, position)
    }

    /** Starts the cursor at the first character of the source. */
    constructor (source: CStr)
      ensures Valid()
      ensures this.source == source && position == 0
      ensures currentChar == if source == [] then '\0' else source[0]
    {
      this.source := source;
      position := 0;
      currentChar := CharAt(source, 0);
    }

    /** Moves one character forward. The cursor must not already stand on the
        terminator: the source would then read beyond its buffer. */
    method Advance()
      requires Valid() && position < |source|
      modifies this`position, this`currentChar
      ensures Valid() && source == old(source)
      ensures position == old(position) + 1
      ensures currentChar == if position < |source| then source[position] else '\0'
    {
      position := position + 1;
      if CharAt(source, position) != '\0' {
        currentChar := CharAt(source, position);
      } else {
        currentChar := '\0';
      }
    }

    /** Moves over spaces, tabs, newlines and carriage returns, and over
        nothing else. */
    method SkipWhitespace()
      requires Valid()
      modifies this`position, this`currentChar
      ensures Valid() && source == old(source)
      ensures position == LayoutEnd(source, old(position))
      ensures old(position) <= position
      ensures forall k :: old(position) <= k < position ==> IsLayout(source[k])
      ensures !IsLayout(currentChar)
      ensures !IsLayout(old(currentChar)) ==> position == old(position)
    {
      while IsLayout(currentChar)
        invariant Valid() && source == old(source)
        invariant old(position) <= position
        invariant LayoutEnd(source, position) == LayoutEnd(source, old(position))
        decreases |source| - position
      {
        Advance();
      }
    }

    /** The scanner's step, as far as it is implemented: after the whitespace,
        the end-of-input token if the terminator has been reached, and no
        result otherwise. */
    method NextToken() returns (token: Option<Token>)
      requires Valid()
      modifies this`position, this`currentChar
      ensures Valid() && source == old(source)
      ensures position == LayoutEnd(source, old(position))
      ensures token == EndOfInput(source, old(position))
      ensures old(position) == |source| ==> position == |source| && token == Some(EofToken)
    {
      SkipWhitespace();
      if currentChar == '\0' {
        token := Some(EofToken);
      } else {
        token := None;
      }
    }
  }
}
