/** `src/parse.c`: a two-token lookahead window over a `Tokenizer`. Tokens
    are values here, so the C code's sharing of the tokenizer's current
    token with the parser's `next` slot is the equality `Valid` keeps. */
module Parse {

  import opened Tokens
  import opened Lexer

  /** The token the tokenizer holds after one `Tokenizer_Next` from position
      `i` with current token `cur`, whatever the status. */
  function TokenAfter(s: string, i: nat, cur: Token): Token
    requires IsCString(s) && i <= |s|
  {
    Advance(s, i, cur).2
  }

  /** The position after one `Tokenizer_Next`. */
  function PositionAfter(s: string, i: nat, cur: Token): (j: nat)
    requires IsCString(s) && i <= |s|
    ensures i <= j <= |s|
  {
    NextTokenBounds(s, i);
    Advance(s, i, cur).1
  }

  class Parser {
    const tokenizer: Tokenizer
    var current: Token
    var next: Token

    ghost predicate Valid()
      reads this, tokenizer
    {
      tokenizer.Valid() && next == tokenizer.current
    }

    /** `Parser_CreateParser`: scan twice, keeping the first token as
        `current` and the second as `next`; the statuses are ignored. */
    constructor (tokenizer: Tokenizer)
      requires tokenizer.Valid()
      modifies tokenizer
      ensures Valid() && this.tokenizer == tokenizer
      ensures var s, i, cur := tokenizer.input, old(tokenizer.ix), old(tokenizer.current);
        && current == TokenAfter(s, i, cur)
        && next == TokenAfter(s, PositionAfter(s, i, cur), current)
        && tokenizer.ix == PositionAfter(s, PositionAfter(s, i, cur), current)
    {
      this.tokenizer := tokenizer;
      var _ := tokenizer.Next();
      current := tokenizer.current;
      var _ := tokenizer.Next();
      next := tokenizer.current;
    }

    /** `Parser_Consume`: shift the window by one token, scanning the new
        `next`; a failed scan does not stop the shift. */
    method Consume()
      requires Valid()
      modifies this, tokenizer
      ensures Valid()
      ensures current == old(next)
      ensures next == TokenAfter(tokenizer.input, old(tokenizer.ix), old(next))
      ensures tokenizer.ix == PositionAfter(tokenizer.input, old(tokenizer.ix), old(next))
    {
      current := next;
      var _ := tokenizer.Next();
      next := tokenizer.current;
    }
  }
}
