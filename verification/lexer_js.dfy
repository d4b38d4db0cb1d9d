/** The line lexer of the interpreted dialect, `src/lexer.js`: the whole program is cut into
    lines up front, every line is tokenised at once, and the parser then walks the token
    list with a cursor. A token is the `{name, value, from, to, line}` record of the source,
    held in the shared `Token` type (`kind` is `name`, `raw` is `value`). */
module ScriptLexer {
  import opened Results
  import opened Text
  import opened Patterns
  import opened Tokens

  /** Identifier texts the lexer refuses. */
  const Reserved: seq<string> := ["boolean", "string", "number", "if", "else", "return", "let"]

  /** The width of the `spaces` constant the column arithmetic subtracts. */
  const Indent: int := 5

  /** The message of the fatal error for a text no pattern matches. */
  const UnexpectedString: string := "Unexpected string."

  /** `getNearestMatch(input, key, line)` for a pattern that matched `n` characters: the
      column span is counted from the length of the remaining input. */
  function NearestMatch(input: string, k: Kind, n: nat, line: int): (r: Token)
    requires n <= |input|
    ensures r.raw == input[..n] && r.kind == Name(k) && r.line == line
    ensures r.to - r.from == n
  {
    Token(line, |input| - Indent, |input| + n - Indent, input[..n], Name(k))
  }

  /** `getNextTokenInString(input, line)`: the first pattern of the table that matches,
      unless it is an identifier spelling a reserved word. */
  function NextTokenInString(input: string, line: int): (r: Option<Token>)
    ensures r.Some? ==> 0 < |r.value.raw| <= |input| && r.value.raw == input[..|r.value.raw|]
    ensures r.Some? ==> !(r.value.kind == "IDENTIFIER" && r.value.raw in Reserved)
    ensures r.Some? ==> r.value.line == line && r.value.from == |input| - Indent
  {
    match FirstMatch(ScriptTable, input, 0)
    case None => None
    case Some(i) =>
      var t := NearestMatch(input, ScriptTable[i], MatchLength(ScriptTable[i], input), line);
      if t.kind == "IDENTIFIER" && t.raw in Reserved then None else Some(t)
  }

  /** The concatenated texts of a token list. */
  function Raws(ts: seq<Token>): string
  {
    if |ts| == 0 then "" else ts[0].raw + Raws(ts[1..])
  }

  /** `tokenize(input, line)`: tokens are taken off the front until the input is used up;
      a text no pattern accepts is the fatal `Unexpected string.` error. */
  function Tokenize(input: string, line: int): (r: Result<seq<Token>>)
    ensures r.Ok? ==> Raws(r.value) == input && AllOnLine(r.value, line)
    decreases |input|
  {
    if |input| == 0 then Ok([])
    else
      match NextTokenInString(input, line)
      case None => Err(UnexpectedString)
      case Some(t) =>
        var rest :- Tokenize(input[|t.raw|..], line);
        Ok([t] + rest)
  }

  /** Every token of `ts` is on line `line`. */
  predicate AllOnLine(ts: seq<Token>, line: int)
  {
    forall k :: 0 <= k < |ts| ==> ts[k].line == line
  }

  /** No token of `ts` is white space and each is on one of the first `n` lines. */
  predicate Clean(ts: seq<Token>, n: nat)
  {
    forall k :: 0 <= k < |ts| ==> ts[k].kind != "WHITESPACE" && 0 <= ts[k].line < n
  }

  /** `p` followed by the tokens of `r`, or `r`'s error. */
  function Prepend(p: seq<Token>, r: Result<seq<Token>>): Result<seq<Token>>
  {
    match r
    case Ok(ts) => Ok(p + ts)
    case Err(e) => Err(e)
  }

  lemma PrependNothing(r: Result<seq<Token>>)
    ensures Prepend([], r) == r
  {
    if r.Ok? {
      assert [] + r.value == r.value;
    }
  }

  lemma PrependTwice(p: seq<Token>, t: Token, r: Result<seq<Token>>)
    ensures Prepend(p, Prepend([t], r)) == Prepend(p + [t], r)
  {
    if r.Ok? {
      assert p + ([t] + r.value) == p + [t] + r.value;
    }
  }

  /** A line that yields a first token is that token followed by the tokens of the rest. */
  lemma TokenizeFront(input: string, line: int)
    requires NextTokenInString(input, line).Some?
    ensures var t := NextTokenInString(input, line).value;
      Tokenize(input, line) == Prepend([t], Tokenize(input[|t.raw|..], line))
  {
  }

  /** `filter(item => item.name != "WHITESPACE")`. */
  function NonWhitespace(ts: seq<Token>): (r: seq<Token>)
    ensures |r| <= |ts|
    ensures forall k :: 0 <= k < |r| ==> r[k].kind != "WHITESPACE"
  {
    if |ts| == 0 then []
    else if ts[0].kind == "WHITESPACE" then NonWhitespace(ts[1..])
    else [ts[0]] + NonWhitespace(ts[1..])
  }

  /** The filter keeps exactly the tokens that are not white space. */
  lemma {:induction false} NonWhitespaceKeeps(ts: seq<Token>, t: Token)
    ensures t in NonWhitespace(ts) <==> t in ts && t.kind != "WHITESPACE"
  {
    if |ts| > 0 {
      NonWhitespaceKeeps(ts[1..], t);
      assert ts == [ts[0]] + ts[1..];
    }
  }

  /** Dropping white space keeps the remaining tokens on their line. */
  lemma {:induction false} KeptOnLine(ts: seq<Token>, line: int)
    requires AllOnLine(ts, line)
    ensures AllOnLine(NonWhitespace(ts), line)
  {
    if |ts| > 0 {
      KeptOnLine(ts[1..], line);
    }
  }

  /** The lines of a program: only the first `;` becomes a line break. */
  function Lines(content: string): seq<string>
  {
    Split(ReplaceFirst(content, ";", "\n"), '\n')
  }

  /** One line as the constructor adds it: trimmed, tokenised, white space dropped. */
  function LexLine(l: string, index: nat): (r: Result<seq<Token>>)
    ensures r.Ok? ==> Clean(r.value, index + 1) && AllOnLine(r.value, index)
  {
    match Tokenize(Trim(l), index)
    case Err(e) => Err(e)
    case Ok(ts) =>
      KeptOnLine(ts, index);
      Ok(NonWhitespace(ts))
  }

  /** `r` is what line `l`, at index `index`, contributes. */
  predicate LexesTo(l: string, index: nat, r: Result<seq<Token>>)
  {
    r == LexLine(l, index)
  }

  /** The per-line results of a program, in line order. */
  function LineResults(ls: seq<string>): (rs: seq<Result<seq<Token>>>)
    ensures |rs| == |ls|
  {
    seq(|ls|, i requires 0 <= i < |ls| => LexLine(ls[i], i))
  }

  /** The tokens of the first `n` line results joined in order; the first line that could
      not be tokenised ends the run. */
  function Collect(rs: seq<Result<seq<Token>>>, n: nat): Result<seq<Token>>
    requires n <= |rs|
  {
    if n == 0 then Ok([])
    else
      match Collect(rs, n - 1)
      case Err(e) => Err(e)
      case Ok(prev) =>
        match rs[n - 1]
        case Err(e) => Err(e)
        case Ok(kept) => Ok(prev + kept)
  }

  /** The token list the constructor builds from a program. */
  function Lex(content: string): Result<seq<Token>>
  {
    var ls := Lines(content);
    Collect(LineResults(ls), |ls|)
  }

  /** What every line result satisfies: its tokens are clean and on its own line, and its
      error is the unexpected string. */
  predicate LinesLexed(rs: seq<Result<seq<Token>>>)
  {
    forall i :: 0 <= i < |rs| ==> LineLexed(rs[i], i)
  }

  predicate LineLexed(r: Result<seq<Token>>, i: nat)
  {
    && (r.Ok? ==> Clean(r.value, i + 1) && AllOnLine(r.value, i))
    && (r.Err? ==> r.msg == UnexpectedString)
  }

  lemma ResultsLexed(ls: seq<string>)
    ensures LinesLexed(LineResults(ls))
  {
    var rs := LineResults(ls);
    forall i | 0 <= i < |rs|
      ensures LineLexed(rs[i], i)
    {
      if rs[i].Err? {
        TokenizeErr(Trim(ls[i]), i);
      }
    }
  }

  /** The tokens of a program carry no white space and each names one of the program's
      lines. */
  lemma {:induction false} CollectClean(rs: seq<Result<seq<Token>>>, n: nat)
    requires n <= |rs| && LinesLexed(rs)
    ensures Collect(rs, n).Ok? ==> Clean(Collect(rs, n).value, n)
    ensures Collect(rs, n).Err? ==> Collect(rs, n).msg == UnexpectedString
  {
    if n > 0 {
      CollectClean(rs, n - 1);
      assert LineLexed(rs[n - 1], n - 1);
    }
  }

  /** The element at `i`, or `undefined` outside the list. */
  function At(lexed: seq<Token>, i: int): (r: Option<Token>)
    ensures r.Some? <==> 0 <= i < |lexed|
    ensures r.Some? ==> r.value == lexed[i]
  {
    if 0 <= i < |lexed| then Some(lexed[i]) else None
  }

  /** `getNextToken()` from position `pos`: the token at the cursor and the advanced
      cursor, or `undefined` and the same cursor at the end. */
  function NextToken(lexed: seq<Token>, pos: nat): (r: (Option<Token>, nat))
    ensures r.0 == At(lexed, pos)
    ensures r.1 == if pos < |lexed| then pos + 1 else pos
  {
    if pos >= |lexed| then (None, pos) else (Some(lexed[pos]), pos + 1)
  }

  /** `getPreviousToken()` from position `pos`: the cursor moves back one, but the token
      returned is the one AT the old cursor (a post-decrement), which is `undefined` when
      the cursor was at the end. */
  function PreviousToken(lexed: seq<Token>, pos: nat): (r: (Option<Token>, nat))
    ensures pos == 0 ==> r == (None, 0)
    ensures pos > 0 ==> r.1 == pos - 1 && r.0 == At(lexed, pos)
  {
    if pos <= 0 then (None, pos) else (At(lexed, pos), pos - 1)
  }

  /** The results of `k` calls of `getNextToken()` in a row from position `pos`. */
  function Reads(lexed: seq<Token>, pos: nat, k: nat): seq<Option<Token>>
    decreases k
  {
    if k == 0 then [] else [NextToken(lexed, pos).0] + Reads(lexed, NextToken(lexed, pos).1, k - 1)
  }

  /** `Lexer`. */
  class Lexer {
    var lines: seq<string>
    var lexed: seq<Token>
    var currentPosition: nat

    /** The field initialisation at the end of the constructor. */
    constructor Init(ls: seq<string>, ts: seq<Token>)
      ensures lines == ls && lexed == ts && currentPosition == 0
    {
      lines := ls;
      lexed := ts;
      currentPosition := 0;
    }

    /** `new Lexer(content)`; the program's exit on a line that cannot be tokenised is the
        `Err` result. */
    static method Create(content: string) returns (r: Result<Lexer>)
      ensures r.Ok? <==> Lex(content).Ok?
      ensures r.Err? ==> r.msg == UnexpectedString
      ensures r.Ok? ==> fresh(r.value) && r.value.lines == Lines(content)
      ensures r.Ok? ==> r.value.lexed == Lex(content).value && r.value.currentPosition == 0
    {
      var ls := Lines(content);
      var lexed := LexLines(ls, LineResults(ls));
      assert lexed == Lex(content);
      if lexed.Err? {
        ResultsLexed(ls);
        CollectClean(LineResults(ls), |ls|);
        return Err(lexed.msg);
      }
      var l := new Lexer.Init(ls, lexed.value);
      return Ok(l);
    }

    /** The `forEach` over the lines in the constructor; `rs` names the result of each
        line. */
    static method LexLines(ls: seq<string>, ghost rs: seq<Result<seq<Token>>>) returns (r: Result<seq<Token>>)
      requires |rs| == |ls| && forall i {:trigger LexesTo(ls[i], i, rs[i])} :: 0 <= i < |ls| ==> LexesTo(ls[i], i, rs[i])
      ensures Collected(rs, |ls|, r)
    {
      var lexed := [];
      var index := 0;
      while index < |ls|
        invariant 0 <= index <= |ls|
        invariant Collected(rs, index, Ok(lexed))
      {
        var next := LexOne(ls[index], index, lexed, rs);
        if next.Err? {
          return next;
        }
        lexed := next.value;
        index := index + 1;
      }
      return Ok(lexed);
    }

    /** The body of the `forEach`: the tokens of line `index` are appended to those collected
        so far. */
    static method LexOne(l: string, index: nat, lexed: seq<Token>, ghost rs: seq<Result<seq<Token>>>)
      returns (r: Result<seq<Token>>)
      requires index < |rs| && LexesTo(l, index, rs[index]) && Collected(rs, index, Ok(lexed))
      ensures r.Ok? ==> Collected(rs, index + 1, r)
      ensures r.Err? ==> Collected(rs, |rs|, r)
    {
      ExtendCollected(rs, index, lexed);
      var ts := TokenizeLine(Trim(l), index);
      if ts.Err? {
        return Err(ts.msg);
      }
      return Ok(lexed + NonWhitespace(ts.value));
    }

    /** `tokenize(input, line)`. */
    static method TokenizeLine(input: string, line: int) returns (r: Result<seq<Token>>)
      ensures r == Tokenize(input, line)
    {
      var result := [];
      var rest := input;
      PrependNothing(Tokenize(input, line));
      while |rest| > 0
        invariant Prepend(result, Tokenize(rest, line)) == Tokenize(input, line)
        decreases |rest|
      {
        var m := GetNextTokenInString(rest, line);
        if m.None? {
          return Err(UnexpectedString);
        }
        var after := rest[|m.value.raw|..];
        TokenizeFront(rest, line);
        PrependTwice(result, m.value, Tokenize(after, line));
        rest := after;
        result := result + [m.value];
      }
      assert result + [] == result;
      return Ok(result);
    }

    /** `getNextTokenInString(input, line)`: the loop over the pattern keys. */
    static method GetNextTokenInString(input: string, line: int) returns (r: Option<Token>)
      ensures r == NextTokenInString(input, line)
    {
      var m := FindFirst(ScriptTable, input);
      if m.None? {
        return None;
      }
      var k := ScriptTable[m.value];
      var t := NearestMatch(input, k, MatchLength(k, input), line);
      if t.kind == "IDENTIFIER" && t.raw in Reserved {
        return None;
      }
      return Some(t);
    }

    /** `peek()`: the element one past the cursor, which is the token AFTER the one the next
        `getNextToken()` returns. */
    function Peek(): (r: Option<Token>)
      reads this
      ensures r.Some? <==> currentPosition + 1 < |lexed|
      ensures r.Some? ==> r.value == lexed[currentPosition + 1]
    {
      At(lexed, currentPosition + 1)
    }

    /** `getNextToken()`. */
    method GetNextToken() returns (t: Option<Token>)
      modifies this
      ensures lines == old(lines) && lexed == old(lexed)
      ensures (t, currentPosition) == NextToken(lexed, old(currentPosition))
    {
      if currentPosition >= |lexed| {
        return None;
      }
      t := Some(lexed[currentPosition]);
      currentPosition := currentPosition + 1;
    }

    /** `getPreviousToken()`. */
    method GetPreviousToken() returns (t: Option<Token>)
      modifies this
      ensures lines == old(lines) && lexed == old(lexed)
      ensures (t, currentPosition) == PreviousToken(lexed, old(currentPosition))
    {
      if currentPosition <= 0 {
        return None;
      }
      t := At(lexed, currentPosition);
      currentPosition := currentPosition - 1;
    }
  }

  /** A text no pattern accepts fails the whole line. */
  lemma TokenizeErr(input: string, line: int)
    requires Tokenize(input, line).Err?
    ensures Tokenize(input, line).msg == UnexpectedString
    decreases |input|
  {
    if |input| > 0 && NextTokenInString(input, line).Some? {
      var t := NextTokenInString(input, line).value;
      TokenizeErr(input[|t.raw|..], line);
    }
  }

  /** `r` is the collection of the first `n` results of `rs`. */
  predicate Collected(rs: seq<Result<seq<Token>>>, n: nat, r: Result<seq<Token>>)
  {
    n <= |rs| && Collect(rs, n) == r
  }

  /** The step of the constructor's loop: the next line either extends the tokens or ends
      the run with its error. */
  lemma ExtendCollected(rs: seq<Result<seq<Token>>>, n: nat, lexed: seq<Token>)
    requires n < |rs| && Collected(rs, n, Ok(lexed))
    ensures rs[n].Ok? ==> Collected(rs, n + 1, Ok(lexed + rs[n].value))
    ensures rs[n].Err? ==> Collected(rs, |rs|, rs[n])
  {
    var kept := rs[n];
    CollectStep(rs, n, lexed);
    if kept.Err? {
      FailurePersists(rs, n + 1, |rs|);
    }
  }

  /** One more line result extends the collected tokens, or is the error. */
  lemma CollectStep(rs: seq<Result<seq<Token>>>, n: nat, lexed: seq<Token>)
    requires n < |rs| && Collect(rs, n) == Ok(lexed)
    ensures Collect(rs, n + 1) == if rs[n].Ok? then Ok(lexed + rs[n].value) else rs[n]
  {
  }

  /** Once a line fails, every longer prefix of the program fails with the same message. */
  lemma {:induction false} FailurePersists(rs: seq<Result<seq<Token>>>, n: nat, m: nat)
    requires n <= m <= |rs|
    requires Collect(rs, n).Err?
    ensures Collect(rs, m) == Collect(rs, n)
    decreases m - n
  {
    if n < m {
      assert Collect(rs, n + 1) == Collect(rs, n);
      FailurePersists(rs, n + 1, m);
    }
  }

  /** The span of each token of a line is counted from the right: the first token starts at
      the line's length less five, each next one starts the previous one's length further
      left, and every span is as wide as the token. */
  lemma {:induction false} ColumnsCountDown(input: string, line: int)
    requires Tokenize(input, line).Ok?
    ensures var ts := Tokenize(input, line).value;
      && (|ts| > 0 ==> ts[0].from == |input| - Indent)
      && (forall j :: 0 <= j < |ts| ==> ts[j].to == ts[j].from + |ts[j].raw|)
      && (forall j :: 0 <= j < |ts| - 1 ==> ts[j + 1].from == ts[j].from - |ts[j].raw|)
    decreases |input|
  {
    if |input| > 0 {
      var t := NextTokenInString(input, line).value;
      var rest := input[|t.raw|..];
      ColumnsCountDown(rest, line);
      FirstMatchIsFirst(ScriptTable, input, 0);
      var ts := Tokenize(input, line).value;
      assert ts == [t] + Tokenize(rest, line).value;
    }
  }

  /** The line numbers of `ts` never decrease. */
  predicate LinesAscend(ts: seq<Token>)
  {
    forall i, j :: 0 <= i <= j < |ts| ==> ts[i].line <= ts[j].line
  }

  lemma AscendAppend(prev: seq<Token>, kept: seq<Token>, line: nat)
    requires LinesAscend(prev) && Clean(prev, line) && AllOnLine(kept, line)
    ensures LinesAscend(prev + kept)
  {
    var ts := prev + kept;
    forall i, j | 0 <= i <= j < |ts|
      ensures ts[i].line <= ts[j].line
    {
      if j >= |prev| {
        assert ts[j] == kept[j - |prev|];
        if i < |prev| {
          assert ts[i] == prev[i];
        } else {
          assert ts[i] == kept[i - |prev|];
        }
      } else {
        assert ts[i] == prev[i] && ts[j] == prev[j];
      }
    }
  }

  /** The tokens of a program come line by line: their line numbers never decrease. */
  lemma {:induction false} LinesInOrder(rs: seq<Result<seq<Token>>>, n: nat)
    requires n <= |rs| && LinesLexed(rs) && Collect(rs, n).Ok?
    ensures LinesAscend(Collect(rs, n).value)
  {
    if n > 0 {
      LinesInOrder(rs, n - 1);
      CollectClean(rs, n - 1);
      var prev := Collect(rs, n - 1).value;
      assert LineLexed(rs[n - 1], n - 1);
      AscendAppend(prev, rs[n - 1].value, n - 1);
    }
  }

  /** The token list of a program is clean and in line order. */
  lemma LexedInOrder(content: string)
    requires Lex(content).Ok?
    ensures var ts := Lex(content).value;
      LinesAscend(ts) && Clean(ts, |Lines(content)|)
  {
    var ls := Lines(content);
    ResultsLexed(ls);
    LinesInOrder(LineResults(ls), |ls|);
    CollectClean(LineResults(ls), |ls|);
  }

  /** The table the lexer uses: the shared patterns, then `return`, the variable keywords and
      the identifier pattern, in that order. */
  predicate ScriptOrder(t: seq<Kind>)
  {
    SharedOrder(t) && |t| == 20 && t[17] == ReturnStatement && t[18] == VariableDefinition && t[19] == Identifier
  }

  lemma ScriptTableOrder()
    ensures ScriptOrder(ScriptTable)
  {
    TablesShareOrder();
  }

  /** Of the reserved words only the three type names can reach the reserved-word check:
      `if`, `else`, `return` and `let` are taken by their keyword patterns first. */
  lemma KeywordsNeverReserved(s: string)
    requires FirstMatch(ScriptTable, s, 0) == Some(19)
    ensures s[..MatchLength(Identifier, s)] !in ["if", "else", "return", "let"]
  {
    ScriptTableOrder();
    KeywordsBeforeIdentifier(ScriptTable, s);
  }

  lemma KeywordsBeforeIdentifier(t: seq<Kind>, s: string)
    requires ScriptOrder(t) && FirstMatch(t, s, 0) == Some(19)
    ensures s[..MatchLength(Identifier, s)] !in ["if", "else", "return", "let"]
  {
    ConditionalsBeforeIdentifier(t, s);
    KeywordBefore(t, s, 17, ["return"]);
    KeywordBefore(t, s, 18, ["let", "const"]);
  }

  lemma ConditionalsBeforeIdentifier(t: seq<Kind>, s: string)
    requires ScriptOrder(t) && FirstMatch(t, s, 0) == Some(19)
    ensures s[..MatchLength(Identifier, s)] != "if" && s[..MatchLength(Identifier, s)] != "else"
  {
    KeywordBefore(t, s, 15, ["if"]);
    KeywordBefore(t, s, 16, ["else"]);
  }

  /** The identifier match is none of the alternatives of a pattern tried before it. */
  lemma KeywordBefore(t: seq<Kind>, s: string, k: nat, alts: seq<string>)
    requires k < 19 && |t| == 20 && t[19] == Identifier && FirstMatch(t, s, 0) == Some(19)
    requires |alts| > 0 && |alts[0]| > 0 && MatchLength(t[k], s) == FirstPrefix(s, alts)
    ensures s[..MatchLength(Identifier, s)] != alts[0]
  {
    FirstMatchIsFirst(t, s, 0);
    MissedPrefix(s, alts, 0, MatchLength(Identifier, s));
  }

  /** When no alternative is a prefix of `s`, no prefix of `s` is an alternative. */
  lemma MissedPrefix(s: string, alts: seq<string>, i: nat, n: nat)
    requires i < |alts| && |alts[i]| > 0 && n <= |s| && FirstPrefix(s, alts) == 0
    ensures s[..n] != alts[i]
  {
    assert n == |alts[i]| ==> s[..|alts[i]|] == s[..n];
  }

  /** A type name is skipped by every keyword pattern. */
  lemma TypeNameSkipsKeywords(t: seq<Kind>, s: string)
    requires ScriptOrder(t)
    requires |s| > 0 && (s[0] == 'b' || s[0] == 's' || s[0] == 'n')
    ensures FirstMatch(t, s, 14) == FirstMatch(t, s, 19)
  {
    FirstPrefixMiss(s, ["fn"]);
    FirstPrefixMiss(s, ["if"]);
    FirstPrefixMiss(s, ["else"]);
    FirstPrefixMiss(s, ["return"]);
    FirstPrefixMiss(s, ["let", "const"]);
    assert MatchLength(t[18], s) == 0 && MatchLength(t[17], s) == 0;
    assert FirstMatch(t, s, 17) == FirstMatch(t, s, 19);
    assert MatchLength(t[16], s) == 0 && MatchLength(t[15], s) == 0 && MatchLength(t[14], s) == 0;
    assert FirstMatch(t, s, 15) == FirstMatch(t, s, 19);
  }

  /** A type name is taken by the identifier pattern. */
  lemma TypeNameIsIdentifier(t: seq<Kind>, s: string)
    requires ScriptOrder(t)
    requires |s| > 0 && (s[0] == 'b' || s[0] == 's' || s[0] == 'n') && MatchLength(Identifier, s) > 0
    ensures FirstMatch(t, s, 0) == Some(19)
  {
    WordSkipsSymbols(t, s);
    TypeNameSkipsKeywords(t, s);
  }

  /** A word that spells a type name cannot be tokenised: the identifier pattern takes
      it and the reserved-word check refuses it. */
  lemma TypeNameRejected(s: string, line: int)
    requires s[..MatchLength(Identifier, s)] in ["boolean", "string", "number"]
    ensures NextTokenInString(s, line).None?
    ensures Tokenize(s, line) == Err(UnexpectedString)
  {
    var n := MatchLength(Identifier, s);
    assert s[0] == s[..n][0];
    ScriptTableOrder();
    TypeNameIsIdentifier(ScriptTable, s);
    ReservedRejected(s, line);
  }

  /** An identifier match that spells a reserved word is no token at all. */
  lemma ReservedRejected(s: string, line: int)
    requires FirstMatch(ScriptTable, s, 0) == Some(19)
    requires s[..MatchLength(Identifier, s)] in Reserved
    ensures NextTokenInString(s, line).None?
    ensures Tokenize(s, line) == Err(UnexpectedString)
  {
    ScriptTableOrder();
  }

  /** A `;` matches none of the word patterns. */
  lemma SemicolonSkipsWords(t: seq<Kind>, s: string)
    requires ScriptOrder(t) && |s| > 0 && s[0] == ';'
    ensures FirstMatch(t, s, 7) == None
  {
    FirstPrefixMiss(s, ["fn"]);
    FirstPrefixMiss(s, ["if"]);
    FirstPrefixMiss(s, ["else"]);
    FirstPrefixMiss(s, ["return"]);
    FirstPrefixMiss(s, ["let", "const"]);
    assert MatchLength(t[19], s) == 0;
    assert FirstMatch(t, s, 19).None?;
    assert MatchLength(t[18], s) == 0;
    assert FirstMatch(t, s, 18).None?;
    assert MatchLength(t[17], s) == 0;
    assert FirstMatch(t, s, 17).None?;
    assert MatchLength(t[16], s) == 0;
    assert FirstMatch(t, s, 16).None?;
    assert MatchLength(t[15], s) == 0;
    assert FirstMatch(t, s, 15).None?;
    assert MatchLength(t[14], s) == 0;
    assert FirstMatch(t, s, 14).None?;
    assert MatchLength(t[13], s) == 0;
    assert FirstMatch(t, s, 13).None?;
    assert MatchLength(t[12], s) == 0;
    assert FirstMatch(t, s, 12).None?;
    assert MatchLength(t[11], s) == 0;
    assert FirstMatch(t, s, 11).None?;
    assert MatchLength(t[10], s) == 0;
    assert FirstMatch(t, s, 10).None?;
    assert MatchLength(t[9], s) == 0;
    assert FirstMatch(t, s, 9).None?;
    assert MatchLength(t[8], s) == 0;
    assert FirstMatch(t, s, 8).None?;
    assert MatchLength(t[7], s) == 0;
    assert FirstMatch(t, s, 7).None?;
  }

  /** A `;` matches none of the literal and operator patterns either. */
  lemma SemicolonMatchesNothing(t: seq<Kind>, s: string)
    requires ScriptOrder(t) && |s| > 0 && s[0] == ';'
    ensures FirstMatch(t, s, 0) == None
  {
    SemicolonSkipsWords(t, s);
    FirstPrefixMiss(s, ["true", "false"]);
    FirstPrefixMiss(s, ["&&", "||", "<=", ">=", "<", ">", "==", "!="]);
    assert !IsSpace(s[0]) && !IsArithmetic(s[0]);
    assert MatchLength(t[6], s) == 0;
    assert FirstMatch(t, s, 6).None?;
    assert MatchLength(t[5], s) == 0;
    assert FirstMatch(t, s, 5).None?;
    assert MatchLength(t[4], s) == 0;
    assert FirstMatch(t, s, 4).None?;
    assert MatchLength(t[3], s) == 0;
    assert FirstMatch(t, s, 3).None?;
    assert MatchLength(t[2], s) == 0;
    assert FirstMatch(t, s, 2).None?;
    assert MatchLength(t[1], s) == 0;
    assert FirstMatch(t, s, 1).None?;
    assert MatchLength(t[0], s) == 0;
    assert FirstMatch(t, s, 0).None?;
  }

  /** A `;` that survives the one replacement by a line break starts no token, so the text
      from it on cannot be tokenised. */
  lemma SemicolonRejected(rest: string, line: int)
    ensures Tokenize(";" + rest, line) == Err(UnexpectedString)
  {
    ScriptTableOrder();
    SemicolonMatchesNothing(ScriptTable, ";" + rest);
  }

  /** `k` calls of `getNextToken()` return the tokens from the cursor on, in order, and
      `undefined` once the list is used up. */
  lemma {:induction false} ReadsInOrder(lexed: seq<Token>, pos: nat, k: nat)
    ensures |Reads(lexed, pos, k)| == k
    ensures forall j :: 0 <= j < k ==> Reads(lexed, pos, k)[j] == At(lexed, pos + j)
    decreases k
  {
    if k > 0 {
      var p := NextToken(lexed, pos).1;
      ReadsInOrder(lexed, p, k - 1);
      var r := Reads(lexed, pos, k);
      assert r == [At(lexed, pos)] + Reads(lexed, p, k - 1);
      forall j | 1 <= j < k
        ensures r[j] == At(lexed, pos + j)
      {
        assert r[j] == At(lexed, p + j - 1);
      }
    }
  }

  /** `peek()` shows what the second of two `getNextToken()` calls returns, not the first. */
  lemma PeekIsSecondRead(lexed: seq<Token>, pos: nat)
    ensures At(lexed, pos + 1) == Reads(lexed, pos, 2)[1]
  {
    ReadsInOrder(lexed, pos, 2);
  }

  /** `getPreviousToken()` right after `getNextToken()` restores the cursor, but returns the
      token after the one just read. */
  lemma PreviousAfterNext(lexed: seq<Token>, pos: nat)
    requires pos < |lexed|
    ensures var (t, p) := NextToken(lexed, pos);
      var (u, q) := PreviousToken(lexed, p);
      t == Some(lexed[pos]) && q == pos && u == At(lexed, pos + 1)
  {
  }
}
