/** The token kinds and the token record of the lexer's header. */
module Tokens {

  datatype Option<T> = None | Some(value: T)

  /** Every kind the header enumerates, in its order. The header has no kind
      for `.`: its entry is commented out. */
  datatype TokenType =
    | Keyword | ReservedWord | NoiseWord | Identifier
    // literals
    | IntLiteral | FloatLiteral | StringLiteral | CharLiteral
    // single-character operators
    | PlusOperator | MinusOperator | MultiplyOperator | DivideOperator | ModuloOperator
    | AssignOperator | LogicalNotOperator | LessThanOperator | GreaterThanOperator
    // two-character operators
    | EqualOperator | PlusAssignOperator | MinusAssignOperator | MultiplyAssignOperator
    | DivideAssignOperator | ModuloAssignOperator | NotEqualOperator | LessEqualOperator
    | GreaterEqualOperator | LogicalAndOperator | LogicalOrOperator
    | IncrementOperator | DecrementOperator
    // delimiters
    | LeftParenthesis | RightParenthesis | LeftBrace | RightBrace | LeftBracket | RightBracket
    | Comma | Semicolon | Colon | StringQuotation | CharQuotation
    // comments
    | LineComment | BlockComment
    | Eof | Unknown

  /** A token: its kind and its own copy of the matched text. */
  datatype Token = Token(kind: TokenType, lexeme: string)

  /** The token that marks the end of the input; it carries a placeholder text. */
  const EofToken: Token := Token(Eof, "EOF")
}
