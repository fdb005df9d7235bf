/** `src/tokenizer.c`: a pull-based scanner over a C string and the
    whitespace-normalising pre-pass `Tokenizer_Prime`.

    `NextToken` states, declaratively, which token `Tokenizer_Next` produces
    from a position; the method `Tokenizer.Next` follows the C loop step by
    step and is proved to agree with it. */
module Lexer {

  import opened Wrappers
  import opened Tokens
  import opened XStrings
  import opened Conv

  /** `SPACE(c)` */
  predicate IsSpace(c: char)
  {
    c == ' ' || c == '\t' || c == '\n'
  }

  /** `LETTER(c)` */
  predicate IsLetter(c: char)
  {
    ('A' <= c <= 'Z') || ('a' <= c <= 'z') || c == '_'
  }

  /** The characters a token in progress keeps taking. */
  datatype CharClass = IdentChars | Digits | FloatChars | StringChars

  predicate InClass(k: CharClass, c: char)
  {
    match k
    case IdentChars => IsLetter(c) || IsDigit(c)
    case Digits => IsDigit(c)
    // once a float, every character that is not whitespace or a quote is taken
    case FloatChars => !IsSpace(c) && c != '"'
    case StringChars => c != '"'
  }

  /** The first position at or after `i` that is not whitespace. */
  function SkipSpaces(s: string, i: nat): (j: nat)
    requires i <= |s|
    ensures i <= j <= |s|
    decreases |s| - i
  {
    if i == |s| || !IsSpace(s[i]) then i else SkipSpaces(s, i + 1)
  }

  /** The end of the maximal run of class-`k` characters starting at `i`. */
  function Span(s: string, i: nat, k: CharClass): (j: nat)
    requires i <= |s|
    ensures i <= j <= |s|
    decreases |s| - i
  {
    if i == |s| || !InClass(k, s[i]) then i else Span(s, i + 1, k)
  }

  /** The character after position `p`; past the end C reads the terminator. */
  function Lookahead(s: string, p: nat): (c: char)
    ensures c != '\0' ==> p + 1 < |s|
  {
    if p + 1 < |s| then s[p + 1] else '\0'
  }

  /** The two-character operators recognised after a bound leading character. */
  function Compound(c: char, next: char): (r: Option<TokenType>)
    ensures r.Some? ==> r.value.IsCompound() && Leading(c) != UNKNOWN && next != '\0'
  {
    if c == '-' && next == '>' then Some(POINT_RIGHT)
    else if c == '<' && next == '-' then Some(POINT_LEFT)
    else if c == '=' && next == '=' then Some(DOUBLE_EQUALS)
    else if c == '&' && next == '&' then Some(AND_AND)
    else if c == '|' && next == '|' then Some(OR_OR)
    else None
  }

  /** What one call of `Tokenizer_Next` yields: a token and the position it
      stopped at, or a failure on an unclassifiable character at `at`. */
  datatype Scan = Lexed(token: Token, next: nat) | Unclassified(at: nat)

  /** The rest of a string literal from position `i`, after `collected`
      has been gathered for the token. The closing quote is consumed; without
      one the literal runs to the end of the input. */
  function StringRest(s: string, i: nat, collected: string): (r: Scan)
    requires IsCString(s) && IsCString(collected) && i <= |s|
  {
    var e := Span(s, i, StringChars);
    Lexed(CreateToken(collected + s[i..e], LSTRING), if e < |s| then e + 1 else e)
  }

  /** A word-like token occupying `[p, e)`; a quote at `e` turns it into a
      string literal that keeps the word in front. */
  function EndWord(s: string, p: nat, e: nat, kind: TokenType): (r: Scan)
    requires IsCString(s) && p < e <= |s|
  {
    if e < |s| && s[e] == '"' then StringRest(s, e + 1, s[p..e])
    else Lexed(CreateToken(s[p..e], kind), e)
  }

  /** An integer whose digits occupy `[p, e)`; a dot at `e` makes it a float. */
  function IntFrom(s: string, p: nat, e: nat): (r: Scan)
    requires IsCString(s) && p < e <= |s|
  {
    if e < |s| && s[e] == '.' then EndWord(s, p, Span(s, e + 1, FloatChars), LFLOAT)
    else EndWord(s, p, e, LINT)
  }

  /** A token that starts with a character that is neither a letter, a
      digit nor a quote: a one- or two-character symbol, or a failure. */
  function Symbol(s: string, p: nat, buf: string): (r: Scan)
    requires IsCString(s) && IsCString(buf) && p < |s|
  {
    var c := s[p];
    if Leading(c) == UNKNOWN then Unclassified(p)
    else match Compound(c, Lookahead(s, p))
      case Some(t) => Lexed(CreateToken(buf + [c, s[p + 1]], t), p + 2)
      case None => Lexed(CreateToken(buf + [c], Leading(c)), p + 1)
  }

  /** The token that scanning `s` from position `i` produces. */
  function NextToken(s: string, i: nat): (r: Scan)
    requires IsCString(s) && i <= |s|
  {
    var p := SkipSpaces(s, i);
    if p == |s| then Lexed(CreateToken("", UNKNOWN), p)
    else
      var c := s[p];
      if c == '"' then StringRest(s, p + 1, [])
      else if IsLetter(c) then EndWord(s, p, Span(s, p + 1, IdentChars), IDEN)
      else if IsDigit(c) then IntFrom(s, p, Span(s, p + 1, Digits))
      else Symbol(s, p, [])
  }

  /** The status, position and current token that `Tokenizer_Next` leaves:
      on failure the current token is kept. */
  function Advance(s: string, i: nat, cur: Token): (Status, nat, Token)
    requires IsCString(s) && i <= |s|
  {
    match NextToken(s, i)
    case Lexed(t, j) => (OK, j, t)
    case Unclassified(p) => (FAIL, p, cur)
  }

  /** One character more inside a string literal changes nothing about its end. */
  lemma StringStep(s: string, i: nat, collected: string)
    requires IsCString(s) && IsCString(collected) && i < |s| && s[i] != '"'
    ensures IsCString(collected + [s[i]])
    ensures StringRest(s, i, collected) == StringRest(s, i + 1, collected + [s[i]])
  {
    var e := Span(s, i, StringChars);
    assert collected + s[i..e] == (collected + [s[i]]) + s[i + 1..e];
  }

  /** The loop of `Tokenizer_Next` as a recursion over the input: from
      position `i`, with the kind `ttype` decided so far, the string flag
      `str` and the text `buf` gathered so far, the scan it ends in. */
  function Run(s: string, i: nat, ttype: TokenType, str: bool, buf: string): (r: Scan)
    requires IsCString(s) && IsCString(buf) && i <= |s|
    decreases |s| - i
  {
    if i == |s| then Lexed(CreateToken(buf, ttype), i)
    else
      var c := s[i];
      if c == '"' then
        if str then Lexed(CreateToken(buf, LSTRING), i + 1)
        else Run(s, i + 1, LSTRING, true, buf)
      else if str then Run(s, i + 1, ttype, str, buf + [c])
      else if IsSpace(c) then
        if ttype != UNKNOWN then Lexed(CreateToken(buf, ttype), i)
        else Run(s, i + 1, ttype, str, buf)
      else if ttype == UNKNOWN then
        if IsLetter(c) then Run(s, i + 1, IDEN, false, buf + [c])
        else if IsDigit(c) then Run(s, i + 1, LINT, false, buf + [c])
        else Symbol(s, i, buf)
      else if c == '.' && ttype == LINT then Run(s, i + 1, LFLOAT, false, buf + [c])
      // C groups `DIGIT(c) && type == TT_LINT || type == TT_LFLOAT` this way
      else if (IsDigit(c) && ttype == LINT) || ttype == LFLOAT || ((IsLetter(c) || IsDigit(c)) && ttype == IDEN) then
        Run(s, i + 1, ttype, false, buf + [c])
      else Lexed(CreateToken(buf, ttype), i)
  }

  /** Inside a string literal the loop gathers up to the closing quote. */
  lemma {:induction false} RunString(s: string, i: nat, buf: string)
    requires IsCString(s) && IsCString(buf) && i <= |s|
    ensures Run(s, i, LSTRING, true, buf) == StringRest(s, i, buf)
    decreases |s| - i
  {
    if i < |s| && s[i] != '"' {
      RunString(s, i + 1, buf + [s[i]]);
      StringStep(s, i, buf);
    }
  }

  /** A slice grows by the character at its end. */
  lemma SliceSnoc(s: string, p: nat, i: nat)
    requires p <= i < |s|
    ensures s[p..i] + [s[i]] == s[p..i + 1]
  {
  }

  /** Inside a word-like token of kind `kind` the loop takes the whole run of
      characters of class `k` in one go. */
  lemma {:induction false} SkipRun(s: string, p: nat, i: nat, kind: TokenType, k: CharClass)
    requires IsCString(s) && p < i <= |s|
    requires (kind, k) == (IDEN, IdentChars) || (kind, k) == (LINT, Digits) || (kind, k) == (LFLOAT, FloatChars)
    ensures Run(s, i, kind, false, s[p..i]) == Run(s, Span(s, i, k), kind, false, s[p..Span(s, i, k)])
    decreases |s| - i
  {
    if i < |s| && InClass(k, s[i]) {
      SliceSnoc(s, p, i);
      assert Run(s, i, kind, false, s[p..i]) == Run(s, i + 1, kind, false, s[p..i + 1]);
      SkipRun(s, p, i + 1, kind, k);
    }
  }

  /** `Span` stops at the first character outside the class, and everything
      it passes over is inside. */
  lemma {:induction false} SpanMaximal(s: string, i: nat, k: CharClass)
    requires i <= |s|
    ensures Span(s, i, k) < |s| ==> !InClass(k, s[Span(s, i, k)])
    ensures forall j :: i <= j < Span(s, i, k) ==> InClass(k, s[j])
    decreases |s| - i
  {
    if i < |s| && InClass(k, s[i]) {
      SpanMaximal(s, i + 1, k);
    }
  }

  /** Where a word-like token is not continued, it ends, or turns into a
      string literal at a quote. */
  lemma WordEnd(s: string, p: nat, i: nat, kind: TokenType)
    requires IsCString(s) && p < i <= |s| && (kind == IDEN || kind == LINT || kind == LFLOAT)
    requires i < |s| ==> s[i] == '"' || IsSpace(s[i]) || !(kind == LFLOAT || IsDigit(s[i]) || (IsLetter(s[i]) && kind == IDEN) || (s[i] == '.' && kind == LINT))
    ensures Run(s, i, kind, false, s[p..i]) == EndWord(s, p, i, kind)
  {
    if i < |s| && s[i] == '"' {
      calc {
        Run(s, i, kind, false, s[p..i]);
        Run(s, i + 1, LSTRING, true, s[p..i]);
        { RunString(s, i + 1, s[p..i]); }
        StringRest(s, i + 1, s[p..i]);
      }
    }
  }

  /** Inside an identifier the loop takes letters and digits, and ends where
      they end or turns into a string literal at a quote. */
  lemma RunIdent(s: string, p: nat, i: nat)
    requires IsCString(s) && p < i <= |s|
    ensures Run(s, i, IDEN, false, s[p..i]) == EndWord(s, p, Span(s, i, IdentChars), IDEN)
  {
    SkipRun(s, p, i, IDEN, IdentChars);
    SpanMaximal(s, i, IdentChars);
    WordEnd(s, p, Span(s, i, IdentChars), IDEN);
  }

  /** Inside a float the loop takes everything up to whitespace, and turns
      into a string literal at a quote. */
  lemma RunFloat(s: string, p: nat, i: nat)
    requires IsCString(s) && p < i <= |s|
    ensures Run(s, i, LFLOAT, false, s[p..i]) == EndWord(s, p, Span(s, i, FloatChars), LFLOAT)
  {
    SkipRun(s, p, i, LFLOAT, FloatChars);
    SpanMaximal(s, i, FloatChars);
    WordEnd(s, p, Span(s, i, FloatChars), LFLOAT);
  }

  /** Inside an integer the loop takes digits and turns into a float at a dot. */
  lemma RunInt(s: string, p: nat, i: nat)
    requires IsCString(s) && p < i <= |s|
    ensures Run(s, i, LINT, false, s[p..i]) == IntFrom(s, p, Span(s, i, Digits))
  {
    SkipRun(s, p, i, LINT, Digits);
    SpanMaximal(s, i, Digits);
    var e := Span(s, i, Digits);
    if e < |s| && s[e] == '.' {
      IntToFloat(s, p, e);
    } else {
      WordEnd(s, p, e, LINT);
    }
  }

  /** A dot after the digits of an integer turns it into a float. */
  lemma IntToFloat(s: string, p: nat, i: nat)
    requires IsCString(s) && p < i < |s| && s[i] == '.'
    ensures Run(s, i, LINT, false, s[p..i]) == IntFrom(s, p, i)
  {
    SliceSnoc(s, p, i);
    DotStep(s, i, s[p..i]);
    RunFloat(s, p, i + 1);
  }

  /** The loop's step at a dot inside an integer. */
  lemma DotStep(s: string, i: nat, buf: string)
    requires IsCString(s) && IsCString(buf) && i < |s| && s[i] == '.'
    ensures IsCString(buf + ['.'])
    ensures Run(s, i, LINT, false, buf) == Run(s, i + 1, LFLOAT, false, buf + ['.'])
  {
  }

  /** At a character that is not whitespace, the loop and `NextToken` both
      let that character decide the token. */
  lemma {:induction false} RunFromLeading(s: string, i: nat)
    requires IsCString(s) && i < |s| && !IsSpace(s[i])
    ensures Run(s, i, UNKNOWN, false, []) == NextToken(s, i)
  {
    var c := s[i];
    assert SkipSpaces(s, i) == i;
    if c == '"' {
      RunString(s, i + 1, []);
    } else if IsLetter(c) {
      assert [] + [c] == s[i..i + 1];
      RunIdent(s, i, i + 1);
    } else if IsDigit(c) {
      assert [] + [c] == s[i..i + 1];
      RunInt(s, i, i + 1);
    }
  }

  /** From a token boundary the loop scans exactly `NextToken`. */
  lemma {:induction false} RunIsNextToken(s: string, i: nat)
    requires IsCString(s) && i <= |s|
    ensures Run(s, i, UNKNOWN, false, []) == NextToken(s, i)
    decreases |s| - i
  {
    if i < |s| {
      if IsSpace(s[i]) {
        calc {
          Run(s, i, UNKNOWN, false, []);
          Run(s, i + 1, UNKNOWN, false, []);
          { RunIsNextToken(s, i + 1); }
          NextToken(s, i + 1);
          { assert SkipSpaces(s, i) == SkipSpaces(s, i + 1); }
          NextToken(s, i);
        }
      } else {
        RunFromLeading(s, i);
      }
    }
  }

  // ---------------------------------------------------------------------
  // What `NextToken` promises.

  /** `SkipSpaces` passes over whitespace only and stops at the first
      character that is not whitespace. */
  lemma {:induction false} SkipSpacesFirst(s: string, i: nat)
    requires i <= |s|
    ensures forall k :: i <= k < SkipSpaces(s, i) ==> IsSpace(s[k])
    ensures SkipSpaces(s, i) < |s| ==> !IsSpace(s[SkipSpaces(s, i)])
    decreases |s| - i
  {
    if i < |s| && IsSpace(s[i]) {
      SkipSpacesFirst(s, i + 1);
    }
  }

  /** One scan never moves backwards or past the end of the input, and
      where it ends does not depend on the current token. */
  lemma NextTokenBounds(s: string, i: nat)
    requires IsCString(s) && i <= |s|
    ensures i <= Advance(s, i, CreateToken("", UNKNOWN)).1 <= |s|
    ensures forall cur :: Advance(s, i, cur).1 == Advance(s, i, CreateToken("", UNKNOWN)).1
  {
    if i < |s| {
      NextTokenProgress(s, i);
    } else {
      assert SkipSpaces(s, i) == i;
    }
  }

  /** A scan that starts before the end moves forward and stays in the
      input; a failure points at the character that could not be classified. */
  lemma NextTokenProgress(s: string, i: nat)
    requires IsCString(s) && i < |s|
    ensures NextToken(s, i).Lexed? ==> i < NextToken(s, i).next <= |s|
    ensures NextToken(s, i).Unclassified? ==> i <= NextToken(s, i).at < |s|
  {
    var p := SkipSpaces(s, i);
    if p < |s| && s[p] != '"' && !IsLetter(s[p]) && !IsDigit(s[p]) && Leading(s[p]) != UNKNOWN {
      match Compound(s[p], Lookahead(s, p))
      case Some(t) =>
      case None =>
    }
  }

  /** With only whitespace left the scan yields the empty UNKNOWN token and
      stops at the end of the input. */
  lemma {:induction false} OnlyWhitespace(s: string, i: nat)
    requires IsCString(s) && i <= |s|
    requires forall k :: i <= k < |s| ==> IsSpace(s[k])
    ensures NextToken(s, i) == Lexed(CreateToken("", UNKNOWN), |s|)
    decreases |s| - i
  {
    if i < |s| {
      OnlyWhitespace(s, i + 1);
      assert SkipSpaces(s, i) == SkipSpaces(s, i + 1);
    }
  }

  /** Leading whitespace is skipped: scanning from `i` is scanning from the
      first character that is not whitespace. */
  lemma SkipsWhitespace(s: string, i: nat)
    requires IsCString(s) && i <= |s|
    ensures NextToken(s, i) == NextToken(s, SkipSpaces(s, i))
  {
    SkipSpacesFirst(s, i);
  }

  /** The first character of a token decides its kind: a quote a string, a
      letter an identifier, a digit a number, a bound symbol that symbol or
      its two-character operator, and anything else a failure on that
      character. A quote met later makes any token a string. */
  lemma LeadingDecides(s: string, p: nat)
    requires IsCString(s) && p < |s| && !IsSpace(s[p])
    ensures var r := NextToken(s, p);
      && (s[p] == '"' ==> r.Lexed? && r.token.ttype == LSTRING)
      && (IsLetter(s[p]) ==> r.Lexed? && (r.token.ttype == IDEN || r.token.ttype == LSTRING))
      && (IsDigit(s[p]) ==> r.Lexed? && (r.token.ttype == LINT || r.token.ttype == LFLOAT || r.token.ttype == LSTRING))
      && (IsSymbol(s[p]) ==> r.Lexed? && (r.token.ttype == Leading(s[p]) || r.token.ttype.IsCompound()))
      && (s[p] != '"' && !IsLetter(s[p]) && !IsDigit(s[p]) && !IsSymbol(s[p]) ==> r == Unclassified(p))
  {
    assert SkipSpaces(s, p) == p;
    LeadingKnownIffSymbol(s[p]);
  }

  /** Except for a string literal, the lexeme begins with that first character. */
  lemma LexemeStartsWithLeading(s: string, p: nat)
    requires IsCString(s) && p < |s| && !IsSpace(s[p]) && s[p] != '"'
    ensures NextToken(s, p).Lexed? ==> |NextToken(s, p).token.value| > 0 && NextToken(s, p).token.value[0] == s[p]
  {
    assert SkipSpaces(s, p) == p;
    var c := s[p];
    if IsLetter(c) {
      var e := Span(s, p + 1, IdentChars);
      assert s[p..e][0] == c;
    } else if IsDigit(c) {
      var e := Span(s, p + 1, Digits);
      assert s[p..e][0] == c;
      if e < |s| && s[e] == '.' {
        assert s[p..Span(s, e + 1, FloatChars)][0] == c;
      }
    }
  }

  /** An identifier is the maximal run of letters, digits and underscores
      from its first letter; the character after it is not taken. Only a
      quote right after the run makes it a string instead. */
  lemma IdentifierMaximal(s: string, p: nat)
    requires IsCString(s) && p < |s| && IsLetter(s[p])
    ensures var r, e := NextToken(s, p), Span(s, p + 1, IdentChars);
      && r.Lexed?
      && (r.token.ttype == LSTRING <==> e < |s| && s[e] == '"')
      && (r.token.ttype != LSTRING ==>
            && r.token.ttype == IDEN && r.token.value == s[p..r.next]
            && (forall k :: p <= k < r.next ==> IsLetter(s[k]) || IsDigit(s[k]))
            && (r.next < |s| ==> !IsLetter(s[r.next]) && !IsDigit(s[r.next])))
  {
    assert SkipSpaces(s, p) == p;
    SpanMaximal(s, p + 1, IdentChars);
  }

  /** An integer is the maximal run of digits; neither a dot nor a quote
      following it leaves it an integer. */
  lemma IntegerMaximal(s: string, p: nat)
    requires IsCString(s) && p < |s| && IsDigit(s[p])
    ensures var r, e := NextToken(s, p), Span(s, p + 1, Digits);
      && r.Lexed?
      && (r.token.ttype == LINT <==> e == |s| || (s[e] != '.' && s[e] != '"'))
      && (r.token.ttype == LINT ==>
            && r.token.value == s[p..r.next]
            && (forall k :: p <= k < r.next ==> IsDigit(s[k]))
            && (r.next < |s| ==> !IsDigit(s[r.next])))
  {
    assert SkipSpaces(s, p) == p;
    var e := Span(s, p + 1, Digits);
    SpanMaximal(s, p + 1, Digits);
    assert NextToken(s, p) == IntFrom(s, p, e);
  }

  /** A dot after the digits makes a float that takes every following
      character up to whitespace or the end; it never ends at punctuation. */
  lemma FloatSwallows(s: string, p: nat)
    requires IsCString(s) && p < |s| && IsDigit(s[p])
    requires Span(s, p + 1, Digits) < |s| && s[Span(s, p + 1, Digits)] == '.'
    ensures var r, e := NextToken(s, p), Span(s, p + 1, Digits);
      && r.Lexed?
      && (r.token.ttype == LFLOAT || r.token.ttype == LSTRING)
      && (r.token.ttype == LFLOAT ==>
            && r.token.value == s[p..r.next] && e < r.next
            && (forall k :: e < k < r.next ==> !IsSpace(s[k]) && s[k] != '"')
            && (r.next == |s| || IsSpace(s[r.next])))
  {
    assert SkipSpaces(s, p) == p;
    var e := Span(s, p + 1, Digits);
    SpanMaximal(s, e + 1, FloatChars);
    assert NextToken(s, p) == EndWord(s, p, Span(s, e + 1, FloatChars), LFLOAT);
  }

  /** A string literal holds the text between its quotes, with no escapes;
      the closing quote is consumed, and without one the literal takes the
      rest of the input. */
  lemma StringLiteral(s: string, p: nat)
    requires IsCString(s) && p < |s| && s[p] == '"'
    ensures var r := NextToken(s, p);
      && r.Lexed? && r.token.ttype == LSTRING
      && (forall k :: 0 <= k < |r.token.value| ==> r.token.value[k] != '"')
      && ('"' in s[p + 1..] ==> p + 1 < r.next && s[r.next - 1] == '"' && r.token.value == s[p + 1..r.next - 1])
      && ('"' !in s[p + 1..] ==> r.next == |s| && r.token.value == s[p + 1..])
  {
    assert SkipSpaces(s, p) == p;
    SpanMaximal(s, p + 1, StringChars);
    var e := Span(s, p + 1, StringChars);
    if e == |s| {
      assert '"' !in s[p + 1..];
    } else {
      assert s[p + 1..][e - p - 1] == '"';
    }
  }

  /** A bound character and the one after it that form an operator are
      scanned together. */
  lemma CompoundToken(s: string, p: nat, t: TokenType)
    requires IsCString(s) && p + 1 < |s| && Compound(s[p], s[p + 1]) == Some(t)
    ensures NextToken(s, p) == Lexed(CreateToken(s[p..p + 2], t), p + 2)
  {
    assert SkipSpaces(s, p) == p;
    assert s[p..p + 2] == [] + [s[p], s[p + 1]];
    assert NextToken(s, p) == Symbol(s, p, []);
  }

  /** Each of the five two-character operators is one token of its own kind. */
  lemma TwoCharacterOperators(s: string, p: nat)
    requires IsCString(s) && p + 1 < |s|
    ensures s[p..p + 2] == "->" ==> NextToken(s, p) == Lexed(CreateToken("->", POINT_RIGHT), p + 2)
    ensures s[p..p + 2] == "<-" ==> NextToken(s, p) == Lexed(CreateToken("<-", POINT_LEFT), p + 2)
    ensures s[p..p + 2] == "==" ==> NextToken(s, p) == Lexed(CreateToken("==", DOUBLE_EQUALS), p + 2)
    ensures s[p..p + 2] == "&&" ==> NextToken(s, p) == Lexed(CreateToken("&&", AND_AND), p + 2)
    ensures s[p..p + 2] == "||" ==> NextToken(s, p) == Lexed(CreateToken("||", OR_OR), p + 2)
  {
    var c, d := s[p], s[p + 1];
    assert s[p..p + 2] == [c, d];
    if Compound(c, d).Some? {
      CompoundToken(s, p, Compound(c, d).value);
    }
  }

  /** Any other bound symbol is a one-character token. */
  lemma SingleCharacterSymbol(s: string, p: nat)
    requires IsCString(s) && p < |s| && IsSymbol(s[p])
    requires p + 1 < |s| ==> s[p..p + 2] !in ["->", "<-", "==", "&&", "||"]
    ensures NextToken(s, p) == Lexed(CreateToken([s[p]], Leading(s[p])), p + 1)
  {
    LeadingKnownIffSymbol(s[p]);
    assert SkipSpaces(s, p) == p;
    if p + 1 < |s| {
      assert s[p..p + 2] == [s[p], s[p + 1]];
      assert Compound(s[p], s[p + 1]).None?;
    }
    assert NextToken(s, p) == Symbol(s, p, []);
  }

  /** A character that no rule takes makes `Tokenizer_Next` fail on it,
      leaving the current token as it was. */
  lemma UnmappedFails(s: string, i: nat, cur: Token)
    requires IsCString(s) && i <= |s|
    requires var p := SkipSpaces(s, i);
      p < |s| && s[p] != '"' && !IsLetter(s[p]) && !IsDigit(s[p]) && !IsSymbol(s[p])
    ensures Advance(s, i, cur) == (FAIL, SkipSpaces(s, i), cur)
  {
    LeadingKnownIffSymbol(s[SkipSpaces(s, i)]);
  }

  /** `1.5;`: the float takes the semicolon too. */
  lemma FloatTakesPunctuation()
    ensures NextToken("1.5;", 0) == Lexed(CreateToken("1.5;", LFLOAT), 4)
  {
    var s := "1.5;";
    assert Span(s, 1, Digits) == 1;
    assert Span(s, 2, FloatChars) == 4;
    assert s[0..4] == s;
  }

  /** `1.` at the end of the text: `LAST_IDX` is `2 > 2` at the dot, so the
      trailing-dot error is skipped and the scan returns the float `1.`. */
  lemma TrailingDot()
    ensures NextToken("1.", 0) == Lexed(CreateToken("1.", LFLOAT), 2)
  {
    var s := "1.";
    assert Span(s, 1, Digits) == 1;
    assert Span(s, 2, FloatChars) == 2;
    assert s[0..2] == "1.";
  }

  /** `ab"c d" e`: a quote turns an identifier into a string that keeps the
      letters before it. */
  lemma QuoteInterrupts()
    ensures NextToken("ab\"c d\" e", 0) == Lexed(CreateToken("abc d", LSTRING), 7)
  {
    var s := "ab\"c d\" e";
    assert Span(s, 1, IdentChars) == 2;
    assert Span(s, 3, StringChars) == 6;
    assert s[0..2] + s[3..6] == "abc d";
  }

  /** ` "open`: an unterminated string takes the rest of the input. */
  lemma UnterminatedString()
    ensures NextToken(" \"open", 0) == Lexed(CreateToken("open", LSTRING), 6)
  {
    var s := " \"open";
    assert SkipSpaces(s, 0) == 1;
    assert Span(s, 2, StringChars) == 6;
    assert [] + s[2..6] == "open";
  }

  /** `  #`: the scan fails on the unclassifiable character after the blanks. */
  lemma FailsOnHash()
    ensures NextToken("  #", 0) == Unclassified(2)
  {
    assert SkipSpaces("  #", 0) == 2;
  }

  /** How one pass of the loop in `Tokenizer_Next` ends: on to the next
      character, or out of the function with a status. */
  datatype Outcome = Again | Stop(status: Status)

  /** One pass of the loop body of `Tokenizer_Next` at position `i` of `s`,
      with the kind `kind` decided so far, the string flag `inString` and the
      token text gathered in `buffer`. The pass leaves the rest of the scan
      `Run` describes unchanged: going on from `j` with the new kind, flag and
      buffer ends where staying at `i` would have ended. */
  method ScanCharacter(s: string, i: nat, kind: TokenType, inString: bool, buffer: XString)
    returns (outcome: Outcome, j: nat, kind': TokenType, inString': bool)
    requires IsCString(s) && i < |s| && buffer.Valid()
    modifies buffer
    ensures buffer.Valid() && j <= |s|
    ensures outcome == Again ==>
      i < j && Run(s, i, kind, inString, old(buffer.Str())) == Run(s, j, kind', inString', buffer.Str())
    ensures outcome == Stop(OK) ==>
      Run(s, i, kind, inString, old(buffer.Str())) == Lexed(CreateToken(buffer.Str(), kind'), j)
    ensures outcome == Stop(FAIL) ==> Run(s, i, kind, inString, old(buffer.Str())) == Unclassified(j)
  {
    var c := s[i];
    kind', inString', j := kind, inString, i + 1;

    if c == '"' {
      kind' := LSTRING;
      inString' := !inString;
      if !inString' {
        return Stop(OK), j, kind', inString';
      }
      return Again, j, kind', inString';
    }

    if inString {
      buffer.Append(c);
      return Again, j, kind', inString';
    }

    // whitespace ends a token in progress and is skipped before one
    if IsSpace(c) {
      if kind != UNKNOWN {
        return Stop(OK), i, kind', inString';
      }
      return Again, j, kind', inString';
    }

    // the leading character fixes the kind
    if kind == UNKNOWN {
      outcome, j, kind' := ScanLeading(s, i, buffer);
      return;
    }

    outcome, j, kind' := ScanWord(s, i, kind, buffer);
  }

  /** The part of the loop body of `Tokenizer_Next` that extends a word-like
      token in progress: a dot turns an integer into a float, a character of
      the token's class is taken, and any other character ends the token
      without being consumed. */
  method ScanWord(s: string, i: nat, kind: TokenType, buffer: XString) returns (outcome: Outcome, j: nat, kind': TokenType)
    requires IsCString(s) && i < |s| && buffer.Valid()
    requires s[i] != '"' && !IsSpace(s[i]) && kind != UNKNOWN
    modifies buffer
    ensures buffer.Valid() && j <= |s| && outcome != Stop(FAIL)
    ensures outcome == Again ==>
      i < j && Run(s, i, kind, false, old(buffer.Str())) == Run(s, j, kind', false, buffer.Str())
    ensures outcome == Stop(OK) ==>
      Run(s, i, kind, false, old(buffer.Str())) == Lexed(CreateToken(buffer.Str(), kind'), j)
  {
    var c := s[i];
    kind', j := kind, i + 1;

    // an integer becomes a float at its first dot
    if c == '.' {
      if kind == LINT {
        buffer.Append(c);
        kind' := LFLOAT;
        return Again, j, kind';
      }
    }

    // C groups `DIGIT(c) && type == TT_LINT || type == TT_LFLOAT` as written here
    if ((IsDigit(c) && kind == LINT) || kind == LFLOAT) || ((IsLetter(c) || IsDigit(c)) && kind == IDEN) {
      buffer.Append(c);
      return Again, j, kind';
    }

    return Stop(OK), i, kind';
  }

  /** The leading-character part of the loop body of `Tokenizer_Next`: a
      letter or a digit opens an identifier or an integer, a bound symbol
      (taking the next character too when the two form an operator) is a whole
      token, and any other character is a failure. */
  method ScanLeading(s: string, i: nat, buffer: XString) returns (outcome: Outcome, j: nat, kind: TokenType)
    requires IsCString(s) && i < |s| && buffer.Valid()
    requires s[i] != '"' && !IsSpace(s[i])
    modifies buffer
    ensures buffer.Valid() && j <= |s|
    ensures outcome == Again ==>
      i < j && Run(s, i, UNKNOWN, false, old(buffer.Str())) == Run(s, j, kind, false, buffer.Str())
    ensures outcome == Stop(OK) ==>
      Run(s, i, UNKNOWN, false, old(buffer.Str())) == Lexed(CreateToken(buffer.Str(), kind), j)
    ensures outcome == Stop(FAIL) ==> Run(s, i, UNKNOWN, false, old(buffer.Str())) == Unclassified(j)
  {
    var c := s[i];
    var next := if i + 1 < |s| then s[i + 1] else '\0';
    j := i + 1;
    buffer.Append(c);
    if IsLetter(c) {
      return Again, j, IDEN;
    } else if '0' <= c <= '9' {
      return Again, j, LINT;
    }
    kind := Leading(c);
    if kind == UNKNOWN {
      return Stop(FAIL), i, kind;
    }
    // the chain of two-character tests is `Compound`
    match Compound(c, next) {
      case Some(t) =>
        buffer.Append(next);
        j := j + 1;
        kind := t;
      case None =>
    }
    return Stop(OK), j, kind;
  }

  class Tokenizer {
    /** The tokenizer's own copy of the text and its `strlen`. */
    const input: string
    const length: nat
    var ix: nat
    var current: Token

    ghost predicate Valid()
      reads this
    {
      IsCString(input) && length == |input| && ix <= length && current.WellFormed()
    }

    /** `Tokenizer_Create` */
    constructor (input: string)
      requires IsCString(input)
      ensures Valid()
      ensures this.input == input && ix == 0
      ensures current == CreateToken("", UNKNOWN)
    {
      this.input := input;
      length := |input|;
      ix := 0;
      current := CreateToken("", UNKNOWN);
    }

    /** `Tokenizer_HasNext`: false once `ix + 1 > length`. */
    function HasNext(): (r: bool)
      reads this
      requires Valid()
      ensures r <==> ix < |input|
    {
      !(ix + 1 > length)
    }

    /** `Tokenizer_Next`. The C loop's `goto CONTINUE` target re-tests
        `LAST_IDX`, which cannot hold while `ix < length`, so it always
        continues; its trailing-dot error and the unclosed-string error are
        never reached and are not written here. */
    method Next() returns (status: Status)
      requires Valid()
      modifies this
      ensures Valid()
      ensures (status, ix, current) == Advance(input, old(ix), old(current))
    {
      var buffer := new XString();
      var ttype := UNKNOWN;
      var str := false;
      ghost var i0 := ix;
      ghost var goal := Run(input, ix, UNKNOWN, false, []);

      while ix < length
        invariant Valid() && current == old(current)
        invariant buffer.Valid() && fresh(buffer)
        invariant Run(input, ix, ttype, str, buffer.Str()) == goal
        decreases length - ix
      {
        var outcome, j;
        outcome, j, ttype, str := ScanCharacter(input, ix, ttype, str, buffer);
        ix := j;
        match outcome
        case Again =>
        case Stop(FAIL) =>
          RunIsNextToken(input, i0);
          return FAIL;
        case Stop(OK) =>
          break;
      }

      RunIsNextToken(input, i0);
      current := CreateToken(buffer.Str(), ttype);
      return OK;
    }
  }

  // ---------------------------------------------------------------------
  // `Tokenizer_Prime`: the whitespace-normalising pre-pass.

  /** Every character of `t` is whitespace (vacuously so for the empty text). */
  predicate AllSpace(t: string)
  {
    forall k :: 0 <= k < |t| ==> IsSpace(t[k])
  }

  /** The text ends in a whitespace character. */
  predicate EndsInSpace(t: string)
  {
    |t| > 0 && IsSpace(t[|t| - 1])
  }

  /** What `Tokenizer_Prime` makes of the text `t`, read from the left: a
      whitespace character is dropped; any other character is kept, preceded
      by one space when whitespace came just before it and something other
      than whitespace came earlier still. */
  function Primed(t: string): (r: string)
    decreases |t|
  {
    if |t| == 0 then []
    else
      var init, c := t[..|t| - 1], t[|t| - 1];
      if IsSpace(c) then Primed(init)
      else if EndsInSpace(init) && !AllSpace(init) then Primed(init) + [' ', c]
      else Primed(init) + [c]
  }

  /** Normal form: no tab or newline, no space at either end, and no two
      spaces in a row. */
  predicate Canonical(t: string)
  {
    (forall k :: 0 <= k < |t| ==> t[k] != '\t' && t[k] != '\n') &&
    (|t| > 0 ==> t[0] != ' ' && t[|t| - 1] != ' ') &&
    (forall k :: 0 < k < |t| ==> !(t[k - 1] == ' ' && t[k] == ' '))
  }

  /** The text with every whitespace character deleted. */
  function StripSpace(t: string): (r: string)
    ensures |r| <= |t|
    decreases |t|
  {
    if |t| == 0 then []
    else StripSpace(t[..|t| - 1]) + (if IsSpace(t[|t| - 1]) then [] else [t[|t| - 1]])
  }

  /** `Tokenizer_Prime`: one pass over `str` with the `spaces` counter and
      the `lead` flag, appending to a fresh buffer whose text is returned. */
  method Prime(str: string) returns (s: string)
    requires IsCString(str)
    ensures s == Primed(str)
  {
    var xs := new XString();
    var spaces := 0;
    var lead := true;
    var i := 0;
    while i < |str|
      invariant i <= |str|
      invariant xs.Valid()
      invariant xs.Str() == Primed(str[..i])
      invariant lead <==> AllSpace(str[..i])
      invariant spaces > 0 <==> EndsInSpace(str[..i])
    {
      var c := str[i];
      assert str[..i + 1][..i] == str[..i];
      if IsSpace(c) {
        spaces := spaces + 1;
      } else {
        if spaces > 0 && !lead {
          xs.Append(' ');
        }
        xs.Append(c);
        lead := false;
        spaces := 0;
      }
      i := i + 1;
    }
    assert str[..i] == str;
    s := xs.Str();
  }

  /** Nothing but whitespace primes to the empty text, and anything else
      to a non-empty one. */
  lemma {:induction false} PrimedEmpty(t: string)
    ensures Primed(t) == [] <==> AllSpace(t)
    decreases |t|
  {
    if |t| > 0 {
      var init := t[..|t| - 1];
      PrimedEmpty(init);
      assert AllSpace(t) <==> AllSpace(init) && IsSpace(t[|t| - 1]);
    }
  }

  /** The output of `Tokenizer_Prime` is in normal form. */
  lemma {:induction false} PrimedCanonical(t: string)
    ensures Canonical(Primed(t))
    decreases |t|
  {
    if |t| > 0 {
      var init, c := t[..|t| - 1], t[|t| - 1];
      PrimedCanonical(init);
      PrimedEmpty(init);
      var u := Primed(init);
      if !IsSpace(c) {
        if EndsInSpace(init) && !AllSpace(init) {
          var r := u + [' ', c];
          assert r[|r| - 1] == c && r[|r| - 2] == ' ';
          assert forall k :: 0 <= k < |u| ==> r[k] == u[k];
        } else {
          var r := u + [c];
          assert forall k :: 0 <= k < |u| ==> r[k] == u[k];
        }
      }
    }
  }

  /** Deleting whitespace commutes with concatenation. */
  lemma {:induction false} StripSpaceAppend(a: string, b: string)
    ensures StripSpace(a + b) == StripSpace(a) + StripSpace(b)
    decreases |b|
  {
    if |b| > 0 {
      var b' := b[..|b| - 1];
      assert (a + b)[..|a + b| - 1] == a + b';
      StripSpaceAppend(a, b');
    } else {
      assert a + b == a;
    }
  }

  /** Priming only moves whitespace: with it deleted, output and input agree. */
  lemma {:induction false} PrimedKeepsText(t: string)
    ensures StripSpace(Primed(t)) == StripSpace(t)
    decreases |t|
  {
    if |t| > 0 {
      var init, c := t[..|t| - 1], t[|t| - 1];
      PrimedKeepsText(init);
      if !IsSpace(c) {
        var u := Primed(init);
        if EndsInSpace(init) && !AllSpace(init) {
          StripSpaceAppend(u, [' ', c]);
          assert [' ', c][..1] == [' '] && [' '][..0] == [];
        } else {
          StripSpaceAppend(u, [c]);
          assert [c][..0] == [];
        }
      }
    }
  }

  /** The output is never longer than the input; after trailing whitespace
      it is strictly shorter, leaving room for the separating space. */
  lemma {:induction false} PrimedShorter(t: string)
    ensures |Primed(t)| + (if EndsInSpace(t) then 1 else 0) <= |t|
    decreases |t|
  {
    if |t| > 0 {
      PrimedShorter(t[..|t| - 1]);
    }
  }

  /** A prefix of a text in normal form that does not end in a space is in
      normal form too. */
  lemma CanonicalPrefix(t: string, m: nat)
    requires Canonical(t) && 0 < m <= |t| && t[m - 1] != ' '
    ensures Canonical(t[..m])
  {
  }

  /** A text already in normal form is left as it is. */
  lemma {:induction false} CanonicalFixed(t: string)
    requires Canonical(t)
    ensures Primed(t) == t
    decreases |t|, 1
  {
    if |t| > 0 {
      var init, c := t[..|t| - 1], t[|t| - 1];
      assert !IsSpace(c);
      if EndsInSpace(init) {
        CanonicalSpaced(t);
      } else {
        if |init| > 0 {
          CanonicalPrefix(t, |t| - 1);
          assert init[0] == t[0];
        }
        CanonicalFixed(init);
        assert t == init + [c];
      }
    }
  }

  /** `CanonicalFixed` where the last word is preceded by a space. */
  lemma {:induction false} CanonicalSpaced(t: string)
    requires Canonical(t) && |t| > 0 && EndsInSpace(t[..|t| - 1])
    ensures Primed(t) == t
    decreases |t|, 0
  {
    var init, c := t[..|t| - 1], t[|t| - 1];
    var u := t[..|t| - 2];
    assert |u| > 0 && u[|u| - 1] == t[|t| - 3];
    CanonicalPrefix(t, |t| - 2);
    CanonicalFixed(u);
    assert init[..|init| - 1] == u;
    assert !AllSpace(init) by { assert init[0] == t[0]; }
    assert t == u + [' ', c];
  }

  /** Leading and trailing whitespace goes, and an inner run of blanks,
      tabs and newlines becomes one space. */
  lemma PrimeExample()
    ensures Primed(" \ta \nb\n") == "a b"
  {
    PrimedSnoc([], ' ');
    assert [] + [' '] == " ";
    PrimedSnoc(" ", '\t');
    assert " " + ['\t'] == " \t";
    assert Primed(" \t") == [];
    PrimedSnoc(" \t", 'a');
    assert " \t" + ['a'] == " \ta";
    assert Primed(" \ta") == "a";
    PrimedSnoc(" \ta", ' ');
    assert " \ta" + [' '] == " \ta ";
    PrimedSnoc(" \ta ", '\n');
    assert " \ta " + ['\n'] == " \ta \n";
    assert Primed(" \ta \n") == "a";
    PrimedSnoc(" \ta \n", 'b');
    assert " \ta \n" + ['b'] == " \ta \nb";
    assert " \ta \n"[2] == 'a';
    assert Primed(" \ta \nb") == "a b";
    PrimedSnoc(" \ta \nb", '\n');
    assert " \ta \nb" + ['\n'] == " \ta \nb\n";
  }

  /** One more character at the end of the text, as the loop of
      `Tokenizer_Prime` meets it. */
  lemma PrimedSnoc(u: string, c: char)
    ensures Primed(u + [c]) ==
      if IsSpace(c) then Primed(u)
      else if EndsInSpace(u) && !AllSpace(u) then Primed(u) + [' ', c]
      else Primed(u) + [c]
  {
    assert (u + [c])[..|u|] == u;
  }

  /** Priming twice is priming once. */
  lemma PrimeIdempotent(t: string)
    ensures Primed(Primed(t)) == Primed(t)
  {
    PrimedCanonical(t);
    CanonicalFixed(Primed(t));
  }
}
