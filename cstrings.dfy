/** A NUL-terminated character buffer, as the lexer reads it. */
module CStrings {

  /** The characters of a C string, without its terminator. A C string cannot
      hold a NUL before its end, so the model forbids one. */
  type CStr = s: string | '\0' !in s

  /** The character stored at index `i` of the buffer that holds `s` followed by
      its terminator: index `|s|` is the terminator itself, and nothing beyond it
      may be read. */
  function CharAt(s: CStr, i: nat): (c: char)
    requires i <= |s|
    ensures c == '\0' <==> i == |s|
    ensures i < |s| ==> c == s[i]
  {
    if i < |s| then s[i] else '\0'
  }
}
