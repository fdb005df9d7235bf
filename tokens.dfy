/** The token model of `src/token.c` and `src/include/token.h`: the 28-kind
    `TokenType` enumeration, its printable names, the leading-character table
    and the token value. */
module Tokens {

  import opened Wrappers

  /** A C string: a character sequence with no NUL before its terminator. */
  predicate IsCString(s: string)
  {
    forall i :: 0 <= i < |s| ==> s[i] != '\0'
  }

  /** The enumerators of `TokenType`, in declaration order. */
  datatype TokenType =
    | UNKNOWN | IDEN
    | LSTRING | LINT | LFLOAT
    | LPAREN | RPAREN | LSBRACKET | RSBRACKET | LBRACKET | RBRACKET
    | EQUALS | PLUS | MINUS | ASTERISK | SLASH | COLON | SEMI
    | BACKSLASH | AMPERSAND | VERTBAR | LGREATER | RGREATER
    | POINT_RIGHT | POINT_LEFT | DOUBLE_EQUALS | AND_AND | OR_OR
  {
    predicate IsLiteral() { LSTRING? || LINT? || LFLOAT? }

    predicate IsCompound() { POINT_RIGHT? || POINT_LEFT? || DOUBLE_EQUALS? || AND_AND? || OR_OR? }

    /** The integer value C gives the enumerator (its position in the declaration). */
    function Ordinal(): nat
    {
      match this
      case UNKNOWN => 0 case IDEN => 1
      case LSTRING => 2 case LINT => 3 case LFLOAT => 4
      case LPAREN => 5 case RPAREN => 6 case LSBRACKET => 7 case RSBRACKET => 8
      case LBRACKET => 9 case RBRACKET => 10 case EQUALS => 11 case PLUS => 12
      case MINUS => 13 case ASTERISK => 14 case SLASH => 15 case COLON => 16
      case SEMI => 17 case BACKSLASH => 18 case AMPERSAND => 19 case VERTBAR => 20
      case LGREATER => 21 case RGREATER => 22
      case POINT_RIGHT => 23 case POINT_LEFT => 24 case DOUBLE_EQUALS => 25
      case AND_AND => 26 case OR_OR => 27
    }

    /** The enumerator's own identifier, as `AUTO_CASE` stringifies it. */
    function Name(): string
    {
      match this
      case UNKNOWN => "TT_UNKNOWN" case IDEN => "TT_IDEN"
      case LSTRING => "TT_LSTRING" case LINT => "TT_LINT" case LFLOAT => "TT_LFLOAT"
      case LPAREN => "TT_LPAREN" case RPAREN => "TT_RPAREN"
      case LSBRACKET => "TT_LSBRACKET" case RSBRACKET => "TT_RSBRACKET"
      case LBRACKET => "TT_LBRACKET" case RBRACKET => "TT_RBRACKET"
      case EQUALS => "TT_EQUALS" case PLUS => "TT_PLUS" case MINUS => "TT_MINUS"
      case ASTERISK => "TT_ASTERISK" case SLASH => "TT_SLASH" case COLON => "TT_COLON"
      case SEMI => "TT_SEMI" case BACKSLASH => "TT_BACKSLASH"
      case AMPERSAND => "TT_AMPERSAND" case VERTBAR => "TT_VERTBAR"
      case LGREATER => "TT_LGREATER" case RGREATER => "TT_RGREATER"
      case POINT_RIGHT => "TT_POINT_RIGHT" case POINT_LEFT => "TT_POINT_LEFT"
      case DOUBLE_EQUALS => "TT_DOUBLE_EQUALS" case AND_AND => "TT_AND_AND"
      case OR_OR => "TT_OR_OR"
    }
  }

  /** The enumerator whose C value is `code`, if there is one. */
  function OfOrdinal(code: int): (r: Option<TokenType>)
    ensures r.Some? <==> 0 <= code < 28
    ensures r.Some? ==> r.value.Ordinal() == code
  {
    if code == 0 then Some(UNKNOWN) else if code == 1 then Some(IDEN)
    else if code == 2 then Some(LSTRING) else if code == 3 then Some(LINT)
    else if code == 4 then Some(LFLOAT) else if code == 5 then Some(LPAREN)
    else if code == 6 then Some(RPAREN) else if code == 7 then Some(LSBRACKET)
    else if code == 8 then Some(RSBRACKET) else if code == 9 then Some(LBRACKET)
    else if code == 10 then Some(RBRACKET) else if code == 11 then Some(EQUALS)
    else if code == 12 then Some(PLUS) else if code == 13 then Some(MINUS)
    else if code == 14 then Some(ASTERISK) else if code == 15 then Some(SLASH)
    else if code == 16 then Some(COLON) else if code == 17 then Some(SEMI)
    else if code == 18 then Some(BACKSLASH) else if code == 19 then Some(AMPERSAND)
    else if code == 20 then Some(VERTBAR) else if code == 21 then Some(LGREATER)
    else if code == 22 then Some(RGREATER) else if code == 23 then Some(POINT_RIGHT)
    else if code == 24 then Some(POINT_LEFT) else if code == 25 then Some(DOUBLE_EQUALS)
    else if code == 26 then Some(AND_AND) else if code == 27 then Some(OR_OR)
    else None
  }

  /** `TokenType_String`: a switch over the C enum value, so any int can be
      passed; values outside the enumeration hit the `default` branch. */
  function TokenTypeString(code: int): (r: string)
    ensures 0 <= code < 28 ==> r == OfOrdinal(code).value.Name()
    ensures !(0 <= code < 28) ==> r == "(Unknown type)"
  {
    match OfOrdinal(code)
    case Some(t) => t.Name()
    case None => "(Unknown type)"
  }

  /** Printing an enumerator's C value gives that enumerator's own name. */
  lemma TokenTypeStringOfKind(t: TokenType)
    ensures OfOrdinal(t.Ordinal()) == Some(t)
    ensures TokenTypeString(t.Ordinal()) == t.Name()
  {
  }

  /** Every enumerator prints as a distinct name, none of them the fallback. */
  lemma NamesDistinct(a: TokenType, b: TokenType)
    ensures a != b ==> a.Name() != b.Name()
    ensures a.Name() != "(Unknown type)"
  {
  }

  /** `TokenType_Leading`: the kind of a one-character symbol token. */
  function Leading(c: char): (r: TokenType)
    ensures r != IDEN && !r.IsLiteral() && !r.IsCompound()
  {
    match c
    case '(' => LPAREN
    case ')' => RPAREN
    case '[' => LSBRACKET
    case ']' => RSBRACKET
    case '{' => LBRACKET
    case '}' => RBRACKET
    case '=' => EQUALS
    case '+' => PLUS
    case '-' => MINUS
    case '*' => ASTERISK
    case '/' => SLASH
    case ':' => COLON
    case ';' => SEMI
    case '\\' => BACKSLASH
    case '&' => AMPERSAND
    case '|' => VERTBAR
    case '>' => LGREATER
    case '<' => RGREATER
    case _ => UNKNOWN
  }

  /** The eighteen characters `TokenType_Leading` binds. */
  predicate IsSymbol(c: char)
  {
    c in "()[]{}=+-*/:;\\&|><"
  }

  /** A kind other than UNKNOWN comes back exactly for the bound characters. */
  lemma LeadingKnownIffSymbol(c: char)
    ensures Leading(c) != UNKNOWN <==> IsSymbol(c)
  {
  }

  /** No two bound characters share a kind. */
  lemma LeadingInjective(c: char, d: char)
    requires Leading(c) != UNKNOWN
    ensures Leading(c) == Leading(d) <==> c == d
  {
  }

  /** The two angle brackets are named the other way round: `>` is LGREATER. */
  lemma AngleBrackets()
    ensures Leading('>') == LGREATER && Leading('<') == RGREATER
  {
  }

  /** `Token`: the lexeme, its `strlen`, and the kind. */
  datatype Token = Token(value: string, length: nat, ttype: TokenType)
  {
    /** What every token built by `Token_Create` satisfies. */
    predicate WellFormed()
    {
      IsCString(value) && length == |value|
    }
  }

  /** `Token_Create`: a fresh token holding a copy of `val`. */
  function CreateToken(val: string, t: TokenType): (r: Token)
    requires IsCString(val)
    ensures r.WellFormed()
    ensures r.value == val && r.ttype == t
  {
    Token(val, |val|, t)
  }
}
