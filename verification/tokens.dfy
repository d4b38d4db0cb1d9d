/** The token record both lexers produce, and the token cursor the parsers read it with. */
module Tokens {
  import opened Results

  /** `line` is the index of the source line, `from`/`to` the column span as the lexer computes
      it, `raw` the matched text and `kind` the name of the pattern that matched it (the
      source's `type` field). */
  datatype Token = Token(line: int, from: int, to: int, raw: string, kind: string)

  /** A parsed value and the position of the first token after it. */
  datatype Parsed<T> = Parsed(node: T, pos: nat)

  /** A method's result paired with the cursor it left behind. */
  function Snap<T>(r: Result<T>, pos: nat): Result<Parsed<T>>
  {
    if r.Ok? then Ok(Parsed(r.value, pos)) else Err(r.msg)
  }

  /** The fatal error of `eat` for a token of another kind. */
  function Unexpected(kind: string, found: string): string
  {
    "You provided unexpected token type \"" + kind + "\" while current token is \"" + found + "\""
  }

  /** `eat(tokenType)` of both parsers: a no-op at the end of the stream; otherwise it
      advances exactly when the current token has the expected kind and fails with the
      fatal error when it does not. */
  function EatAt(ts: seq<Token>, p: nat, kind: string): (r: Result<nat>)
    requires p <= |ts|
    ensures p == |ts| ==> r == Ok(p)
    ensures p < |ts| ==> (r.Ok? <==> ts[p].kind == kind)
    ensures p < |ts| && r.Ok? ==> r.value == p + 1
  {
    if p == |ts| then Ok(p)
    else if ts[p].kind == kind then Ok(p + 1)
    else Err(Unexpected(kind, ts[p].kind))
  }
}
