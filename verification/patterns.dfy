/** The token patterns both lexers try in table order (`TokenType` in `source/lexer.ts`,
    `tokens` in `src/lexer.js`). Each regular expression is anchored at the start of the
    input; here each is a prefix matcher giving the length of the match, 0 when the
    pattern does not match (no pattern matches the empty string). */
module Patterns {
  import opened Results
  import opened Text

  /** The longest prefix of `s` whose characters all satisfy `p`. */
  function Run(s: string, p: char -> bool): (n: nat)
    ensures n <= |s|
    ensures forall k :: 0 <= k < n ==> p(s[k])
    ensures n < |s| ==> !p(s[n])
  {
    if |s| > 0 && p(s[0]) then 1 + Run(s[1..], p) else 0
  }

  /** An alternation of literals: the first alternative that is a prefix of `s`, which need
      not be the longest. */
  function FirstPrefix(s: string, alts: seq<string>): (n: nat)
    ensures n <= |s|
    ensures n > 0 ==> s[..n] in alts
    ensures forall k :: 0 <= k < |alts| && |alts[k]| > 0 && |alts[k]| <= |s| && s[..|alts[k]|] == alts[k] ==> n > 0
  {
    if |alts| == 0 then 0
    else if 0 < |alts[0]| <= |s| && s[..|alts[0]|] == alts[0] then |alts[0]|
    else FirstPrefix(s, alts[1..])
  }

  predicate IsAlnum(c: char)
  {
    'a' <= c <= 'z' || 'A' <= c <= 'Z' || '0' <= c <= '9'
  }

  /** The arithmetic character class: the range from `+` to `/` (which holds `+ , - . /`) and `*`. */
  predicate IsArithmetic(c: char)
  {
    '+' <= c <= '/' || c == '*'
  }

  /** `"([^"]*)"`: a quote, anything but a quote, and a closing quote. */
  function StringLiteral(s: string): (n: nat)
    ensures n <= |s|
    ensures n > 0 ==> n >= 2 && s[0] == '"' && s[n - 1] == '"' && '"' !in s[1..n - 1]
  {
    if |s| > 0 && s[0] == '"' then
      match IndexOfChar(s[1..], '"')
      case None => 0
      case Some(j) => assert s[1..j + 1] == s[1..][..j]; j + 2
    else 0
  }

  /** A one-character pattern. */
  function Char(s: string, c: char): nat
  {
    if |s| > 0 && s[0] == c then 1 else 0
  }

  /** The token patterns, by the names the tables give them. */
  datatype Kind =
    | StringLiteralKind | IntegerLiteral | BooleanLiteral | Comma | ArithmeticOperator
    | RelationalOperator | Whitespace | LeftParenthesis | RightParenthesis | LeftBrace
    | RightBrace | LeftBracket | RightBracket | EqualsSign | FunctionDefinition
    | IfStatement | ElseStatement | WhileStatement | BreakStatement | ReturnStatement
    | VariableDefinition | Identifier | Colon | Comment

  /** The name of a pattern, which becomes the token's type. */
  function Name(k: Kind): string
  {
    match k
    case StringLiteralKind => "STRING_LITERAL"
    case IntegerLiteral => "INTEGER_LITERAL"
    case BooleanLiteral => "BOOLEAN_LITERAL"
    case Comma => "TRIM"
    case ArithmeticOperator => "ARITHMETIC_OPERATOR"
    case RelationalOperator => "RELATIONAL_OPERATOR"
    case Whitespace => "WHITESPACE"
    case LeftParenthesis => "LEFT_PARENTHESIS"
    case RightParenthesis => "RIGHT_PARENTHESIS"
    case LeftBrace => "LEFT_BRACE"
    case RightBrace => "RIGHT_BRACE"
    case LeftBracket => "LEFT_BRACKET"
    case RightBracket => "RIGHT_BRACKET"
    case EqualsSign => "EQUALS"
    case FunctionDefinition => "FUNCTION_DEFINITION"
    case IfStatement => "IF_STATEMENT"
    case ElseStatement => "ELSE_STATEMENT"
    case WhileStatement => "WHILE_STATEMENT"
    case BreakStatement => "BREAK_STATEMENT"
    case ReturnStatement => "RETURN_STATEMENT"
    case VariableDefinition => "VARIABLE_DEFINITION"
    case Identifier => "IDENTIFIER"
    case Colon => "COLON"
    case Comment => "COMMENT"
  }

  /** The length of the match of pattern `k` at the start of `s`. */
  function MatchLength(k: Kind, s: string): (n: nat)
    ensures n <= |s|
  {
    match k
    case StringLiteralKind => StringLiteral(s)
    case IntegerLiteral => Run(s, IsDigit)
    case BooleanLiteral => FirstPrefix(s, ["true", "false"])
    case Comma => Char(s, ',')
    case ArithmeticOperator => if |s| > 0 && IsArithmetic(s[0]) then 1 else 0
    case RelationalOperator => FirstPrefix(s, ["&&", "||", "<=", ">=", "<", ">", "==", "!="])
    case Whitespace => Run(s, IsSpace)
    case LeftParenthesis => Char(s, '(')
    case RightParenthesis => Char(s, ')')
    case LeftBrace => Char(s, '{')
    case RightBrace => Char(s, '}')
    case LeftBracket => Char(s, '[')
    case RightBracket => Char(s, ']')
    case EqualsSign => Char(s, '=')
    case FunctionDefinition => FirstPrefix(s, ["fn"])
    case IfStatement => FirstPrefix(s, ["if"])
    case ElseStatement => FirstPrefix(s, ["else"])
    case WhileStatement => FirstPrefix(s, ["while"])
    case BreakStatement => FirstPrefix(s, ["break"])
    case ReturnStatement => FirstPrefix(s, ["return"])
    case VariableDefinition => FirstPrefix(s, ["let", "const"])
    case Identifier => Run(s, IsAlnum)
    case Colon => Char(s, ':')
    case Comment => Char(s, '#')
  }

  /** The first seventeen patterns, which both tables try in this order. */
  const SharedPatterns: seq<Kind> := [
    StringLiteralKind, IntegerLiteral, BooleanLiteral, Comma, ArithmeticOperator,
    RelationalOperator, Whitespace, LeftParenthesis, RightParenthesis, LeftBrace,
    RightBrace, LeftBracket, RightBracket, EqualsSign, FunctionDefinition,
    IfStatement, ElseStatement]

  /** The pattern table of `source/lexer.ts`, in declaration order. */
  const LexerTable: seq<Kind> :=
    SharedPatterns + [WhileStatement, BreakStatement, ReturnStatement, VariableDefinition, Identifier, Colon, Comment]

  /** The pattern table of `src/lexer.js`: no `while`, `break`, colon or comment. */
  const ScriptTable: seq<Kind> := SharedPatterns + [ReturnStatement, VariableDefinition, Identifier]

  /** No other pattern shares the name `WHITESPACE`, so a token's type tells white space
      apart. */
  lemma WhitespaceName(k: Kind)
    ensures Name(k) == "WHITESPACE" <==> k == Whitespace
  {
  }

  /** The index of the first pattern of `table`, from `i` on, that matches at the start of
      `s`. */
  function FirstMatch(table: seq<Kind>, s: string, i: nat): (r: Option<nat>)
    requires i <= |table|
    ensures r.Some? ==> i <= r.value < |table| && MatchLength(table[r.value], s) > 0
    decreases |table| - i
  {
    if i == |table| then None
    else if MatchLength(table[i], s) > 0 then Some(i)
    else FirstMatch(table, s, i + 1)
  }

  /** The loop over the keys of a pattern table: the first pattern that matches `s`. */
  method FindFirst(table: seq<Kind>, s: string) returns (m: Option<nat>)
    ensures m == FirstMatch(table, s, 0)
  {
    var i := 0;
    while i < |table|
      invariant 0 <= i <= |table|
      invariant FirstMatch(table, s, i) == FirstMatch(table, s, 0)
    {
      if MatchLength(table[i], s) > 0 {
        return Some(i);
      }
      i := i + 1;
    }
    return None;
  }

  /** The first match is a pattern that matches, after patterns that do not; no match means
      no pattern from `i` on matches. */
  lemma {:induction false} FirstMatchIsFirst(table: seq<Kind>, s: string, i: nat)
    requires i <= |table|
    ensures var r := FirstMatch(table, s, i);
      && (r.Some? ==> MatchLength(table[r.value], s) > 0)
      && (r.Some? ==> forall j :: i <= j < r.value ==> MatchLength(table[j], s) == 0)
      && (r.None? ==> forall j :: i <= j < |table| ==> MatchLength(table[j], s) == 0)
    decreases |table| - i
  {
    if i < |table| && MatchLength(table[i], s) == 0 {
      FirstMatchIsFirst(table, s, i + 1);
    }
  }

  /** No alternative matches a text whose first character starts none of them. */
  lemma {:induction false} FirstPrefixMiss(s: string, alts: seq<string>)
    requires |s| > 0 && forall k :: 0 <= k < |alts| ==> |alts[k]| > 0 && alts[k][0] != s[0]
    ensures FirstPrefix(s, alts) == 0
  {
    if |alts| > 0 {
      if 0 < |alts[0]| <= |s| {
        assert s[..|alts[0]|][0] == s[0];
      }
      FirstPrefixMiss(s, alts[1..]);
    }
  }

  /** The one-character bracket and `=` patterns are passed over by a text that starts
      with none of those characters. */
  lemma BracketsSkipped(t: seq<Kind>, s: string)
    requires 14 <= |t| && t[7] == LeftParenthesis && t[8] == RightParenthesis && t[9] == LeftBrace
    requires t[10] == RightBrace && t[11] == LeftBracket && t[12] == RightBracket && t[13] == EqualsSign
    requires |s| > 0 && s[0] != '(' && s[0] != ')' && s[0] != '{' && s[0] != '}'
    requires s[0] != '[' && s[0] != ']' && s[0] != '='
    ensures FirstMatch(t, s, 7) == FirstMatch(t, s, 14)
  {
    assert MatchLength(LeftParenthesis, s) == 0;
    assert MatchLength(RightParenthesis, s) == 0;
    assert MatchLength(LeftBrace, s) == 0;
    assert MatchLength(RightBrace, s) == 0;
    assert MatchLength(LeftBracket, s) == 0;
    assert MatchLength(RightBracket, s) == 0;
    assert MatchLength(EqualsSign, s) == 0;
    assert FirstMatch(t, s, 13) == FirstMatch(t, s, 14);
    assert FirstMatch(t, s, 12) == FirstMatch(t, s, 14);
    assert FirstMatch(t, s, 11) == FirstMatch(t, s, 14);
    assert FirstMatch(t, s, 10) == FirstMatch(t, s, 14);
    assert FirstMatch(t, s, 9) == FirstMatch(t, s, 14);
    assert FirstMatch(t, s, 8) == FirstMatch(t, s, 14);
  }

  /** A relational operator starts with one of `& | < > = !`. */
  lemma RelationalStart(s: string)
    ensures MatchLength(RelationalOperator, s) > 0 ==>
              s[0] == '&' || s[0] == '|' || s[0] == '<' || s[0] == '>' || s[0] == '=' || s[0] == '!'
  {
    var n := MatchLength(RelationalOperator, s);
    if n > 0 {
      assert s[..n][0] == s[0];
    }
  }

  /** The operator and whitespace patterns are passed over by a text that starts with a
      letter. */
  lemma OperatorsSkipped(t: seq<Kind>, s: string)
    requires 7 <= |t| && t[3] == Comma && t[4] == ArithmeticOperator && t[5] == RelationalOperator && t[6] == Whitespace
    requires |s| > 0 && 'a' <= s[0] <= 'z'
    ensures FirstMatch(t, s, 3) == FirstMatch(t, s, 7)
  {
    assert MatchLength(Comma, s) == 0;
    assert MatchLength(ArithmeticOperator, s) == 0;
    RelationalStart(s);
    assert MatchLength(Whitespace, s) == 0;
    assert FirstMatch(t, s, 6) == FirstMatch(t, s, 7);
    assert FirstMatch(t, s, 5) == FirstMatch(t, s, 7);
    assert FirstMatch(t, s, 4) == FirstMatch(t, s, 7);
  }

  /** The first seventeen patterns, which both tables try in the same order. */
  predicate SharedOrder(t: seq<Kind>)
  {
    && 17 <= |t|
    && t[0] == StringLiteralKind && t[1] == IntegerLiteral && t[2] == BooleanLiteral && t[3] == Comma
    && t[4] == ArithmeticOperator && t[5] == RelationalOperator && t[6] == Whitespace
    && t[7] == LeftParenthesis && t[8] == RightParenthesis && t[9] == LeftBrace && t[10] == RightBrace
    && t[11] == LeftBracket && t[12] == RightBracket && t[13] == EqualsSign
    && t[14] == FunctionDefinition && t[15] == IfStatement && t[16] == ElseStatement
  }

  /** Any table that begins with the shared patterns tries them in the shared order. */
  lemma SharedPrefixOrder(rest: seq<Kind>)
    ensures SharedOrder(SharedPatterns + rest)
  {
  }

  /** Both lexers try the literal, operator, bracket and first keyword patterns in the
      same order, so a text starting with one of those is classified alike by both. */
  lemma TablesShareOrder()
    ensures SharedOrder(LexerTable) && SharedOrder(ScriptTable)
  {
    SharedPrefixOrder([WhileStatement, BreakStatement, ReturnStatement, VariableDefinition, Identifier, Colon, Comment]);
    SharedPrefixOrder([ReturnStatement, VariableDefinition, Identifier]);
  }

  /** A word that does not start with `t` or `f` (which could begin a boolean literal) is
      matched by none of the literal, operator, whitespace and bracket patterns, so the
      keyword patterns are the first that can take it. */
  lemma WordSkipsSymbols(t: seq<Kind>, s: string)
    requires SharedOrder(t)
    requires |s| > 0 && 'a' <= s[0] <= 'z' && s[0] != 't' && s[0] != 'f'
    ensures FirstMatch(t, s, 0) == FirstMatch(t, s, 14)
  {
    assert MatchLength(StringLiteralKind, s) == 0;
    assert MatchLength(IntegerLiteral, s) == 0;
    FirstPrefixMiss(s, ["true", "false"]);
    assert MatchLength(BooleanLiteral, s) == 0;
    OperatorsSkipped(t, s);
    BracketsSkipped(t, s);
    assert FirstMatch(t, s, 2) == FirstMatch(t, s, 14);
    assert FirstMatch(t, s, 1) == FirstMatch(t, s, 14);
  }

  /** `if` is matched by its keyword pattern before `IDENTIFIER` is tried, even when it
      starts a longer word. */
  lemma KeywordBeforeIdentifier(t: seq<Kind>, rest: string)
    requires SharedOrder(t)
    ensures var m := FirstMatch(t, "if" + rest, 0);
      m.Some? && t[m.value] == IfStatement && MatchLength(IfStatement, "if" + rest) == 2
  {
    var s := "if" + rest;
    assert s[0] == 'i' && s[..2] == "if";
    WordSkipsSymbols(t, s);
    FirstPrefixMiss(s, ["fn"]);
    assert MatchLength(FunctionDefinition, s) == 0;
    assert MatchLength(IfStatement, s) == 2;
    assert FirstMatch(t, s, 15) == Some(15);
  }

  /** The relational pattern takes both characters of `==`. */
  lemma EqualsPairMatched(rest: string)
    ensures MatchLength(RelationalOperator, "==" + rest) == 2
  {
    var s := "==" + rest;
    var rel := ["&&", "||", "<=", ">=", "<", ">", "==", "!="];
    assert s[0] == '=' && s[..2] == "==";
    assert rel[..6] == ["&&", "||", "<=", ">=", "<", ">"];
    assert rel[6..] == ["==", "!="];
    FirstPrefixMiss(s, rel[..6]);
    FirstPrefixSkip(s, rel, 6);
  }

  /** `==` is a relational operator, never two `EQUALS`. */
  lemma DoubleEqualsIsRelational(t: seq<Kind>, rest: string)
    requires SharedOrder(t)
    ensures var m := FirstMatch(t, "==" + rest, 0);
      m.Some? && t[m.value] == RelationalOperator && MatchLength(RelationalOperator, "==" + rest) == 2
  {
    var s := "==" + rest;
    assert s[0] == '=';
    EqualsPairMatched(rest);
    assert MatchLength(StringLiteralKind, s) == 0;
    assert MatchLength(IntegerLiteral, s) == 0;
    FirstPrefixMiss(s, ["true", "false"]);
    assert MatchLength(BooleanLiteral, s) == 0;
    assert MatchLength(Comma, s) == 0;
    assert MatchLength(ArithmeticOperator, s) == 0;
    assert FirstMatch(t, s, 5) == Some(5);
    assert FirstMatch(t, s, 4) == Some(5);
    assert FirstMatch(t, s, 3) == Some(5);
    assert FirstMatch(t, s, 2) == Some(5);
    assert FirstMatch(t, s, 1) == Some(5);
  }

  /** Alternatives that do not match can be skipped. */
  lemma {:induction false} FirstPrefixSkip(s: string, alts: seq<string>, i: nat)
    requires i <= |alts|
    requires FirstPrefix(s, alts[..i]) == 0
    ensures FirstPrefix(s, alts) == FirstPrefix(s, alts[i..])
  {
    if i > 0 {
      assert alts[..i][0] == alts[0];
      assert alts[..i][1..] == alts[1..][..i - 1];
      FirstPrefixSkip(s, alts[1..], i - 1);
      assert alts[1..][i - 1..] == alts[i..];
    }
  }

  /** The character range of the arithmetic pattern admits `.`. */
  lemma DotIsArithmetic(t: seq<Kind>, rest: string)
    requires SharedOrder(t)
    ensures var m := FirstMatch(t, "." + rest, 0);
      m.Some? && t[m.value] == ArithmeticOperator && MatchLength(ArithmeticOperator, "." + rest) == 1
  {
    var s := "." + rest;
    assert s[0] == '.';
    assert MatchLength(StringLiteralKind, s) == 0;
    assert MatchLength(IntegerLiteral, s) == 0;
    FirstPrefixMiss(s, ["true", "false"]);
    assert MatchLength(BooleanLiteral, s) == 0;
    assert MatchLength(Comma, s) == 0;
    assert MatchLength(ArithmeticOperator, s) == 1;
    assert FirstMatch(t, s, 4) == Some(4);
    assert FirstMatch(t, s, 3) == Some(4);
    assert FirstMatch(t, s, 2) == Some(4);
    assert FirstMatch(t, s, 1) == Some(4);
  }
}
