/** The line-oriented lexer of `source/lexer.ts`. The input is split into trimmed lines;
    `next` cuts the first matching pattern off the current line, skipping comment lines,
    blank lines and white space, and reports the token with its line and column span. */
module Lexer {
  import opened Results
  import opened Text
  import opened Patterns
  import opened Tokens

  /** `content.split("\n").map(item => item.trim())`. */
  function TrimmedLines(text: string): seq<string>
  {
    TrimAll(Split(text, '\n'))
  }

  function TrimAll(ls: seq<string>): (r: seq<string>)
    ensures |r| == |ls| && forall k :: 0 <= k < |ls| ==> r[k] == Trim(ls[k])
  {
    seq(|ls|, k requires 0 <= k < |ls| => Trim(ls[k]))
  }

  /** `line.trim().startsWith("#")`: the first character after the leading white space is
      `#` (`CommentLineTrimmed` shows that trimming the end as well changes nothing). */
  predicate IsCommentLine(l: string)
  {
    var t := TrimStart(l);
    |t| > 0 && t[0] == '#'
  }

  lemma CommentLineTrimmed(l: string)
    ensures IsCommentLine(l) <==> |Trim(l)| > 0 && Trim(l)[0] == '#'
  {
    var t := TrimStart(l);
    if |t| > 0 {
      assert !IsSpace(t[0]);
      assert TrimEnd(t)[0] == t[0];
    }
  }

  /** `line.replace(" ", "").length != 0`: the line is neither empty nor a single space
      (`BlankLines` shows that this is what removing the first space and taking the length
      decides). */
  predicate HasContent(l: string)
  {
    l != "" && l != " "
  }

  /** Only the first space is removed before the length is taken, so exactly the empty line
      and a lone space count as blank. */
  lemma BlankLines(l: string)
    ensures |ReplaceFirst(l, " ", "")| == 0 <==> !HasContent(l)
  {
    if l == " " {
      assert l[..1] == " ";
    } else if |l| >= 2 {
      match IndexOf(l, " ")
      case None =>
      case Some(i) =>
        assert |l[..i] + "" + l[i + 1..]| == |l| - 1;
    }
  }

  /** `next` moves on to the following line: a comment line, or a blank one. */
  predicate Skipped(l: string)
  {
    IsCommentLine(l) || !HasContent(l)
  }

  /** The state `next` leaves behind and what it returns. */
  datatype Scan = Scan(content: seq<string>, line: nat, token: Option<Token>)

  /** `next(peek)`. `raw` is `rawContent`, the lines as they were before any cut. A token's
      `from` is the length of the line before the cut minus the length of what is left of
      it: the start of the token when peeking, but the column just after the token
      otherwise, since the line is cut first. White space is cut even when peeking. */
  function Step(raw: seq<string>, content: seq<string>, line: nat, peek: bool): (r: Scan)
    requires |raw| == |content|
    ensures |r.content| == |content|
    ensures line <= r.line
    decreases |content| - line, if line < |content| then |content[line]| else 0, 1
  {
    if line >= |content| then Scan(content, line, None)
    else if Skipped(content[line]) then Step(raw, content, line + 1, peek)
    else OnLine(raw, content, line, peek)
  }

  /** A comment line or a blank line is passed over. */
  lemma SkippedLine(raw: seq<string>, content: seq<string>, line: nat, peek: bool)
    requires |raw| == |content| && line < |content|
    requires Skipped(content[line])
    ensures Step(raw, content, line, peek) == Step(raw, content, line + 1, peek)
  {
  }

  /** What `next` yields after passing over a skipped line is what it yields from that line. */
  lemma SkipYields(raw: seq<string>, content: seq<string>, line: nat, peek: bool, s: Scan)
    requires |raw| == |content| && line < |content|
    requires Skipped(content[line])
    requires Yields(raw, content, line + 1, peek, s)
    ensures Yields(raw, content, line, peek, s)
  {
    SkippedLine(raw, content, line, peek);
  }

  /** A line that is neither a comment nor blank goes to the pattern loop. */
  lemma MatchedLine(raw: seq<string>, content: seq<string>, line: nat, peek: bool)
    requires |raw| == |content| && line < |content|
    requires !Skipped(content[line])
    ensures Step(raw, content, line, peek) == OnLine(raw, content, line, peek)
  {
  }

  /** The pattern loop on a line that is neither a comment nor blank. */
  function OnLine(raw: seq<string>, content: seq<string>, line: nat, peek: bool): (r: Scan)
    requires |raw| == |content| && line < |content|
    requires !Skipped(content[line])
    ensures |r.content| == |content|
    ensures line <= r.line
    decreases |content| - line, |content[line]|, 0
  {
    var l := content[line];
    FirstMatchIsFirst(LexerTable, l, 0);
    match FirstMatch(LexerTable, l, 0)
    case None => Scan(content, line, None)
    case Some(i) =>
      var k := LexerTable[i];
      var n := MatchLength(k, l);
      var cut := if !peek || k == Whitespace then content[line := l[n..]] else content;
      if k == Whitespace then Step(raw, cut, line, peek)
      else Scan(cut, line, Some(Emit(raw[line], cut[line], line, l[..n], k)))
  }

  /** `new Token(...)`: the column is the length of the line before any cut minus the
      length of what is left of it. */
  function Emit(raw: string, rest: string, line: nat, text: string, k: Kind): (t: Token)
    ensures t.to - t.from == |text| && t.raw == text && t.kind == Name(k) && t.line == line
  {
    var from := |raw| - |rest|;
    Token(line, from, from + |text|, text, Name(k))
  }

  /** `next(peek)` called on lines `content` at line `line` ends in state and result `s`. */
  predicate Yields(raw: seq<string>, content: seq<string>, line: nat, peek: bool, s: Scan)
    requires |raw| == |content|
  {
    Step(raw, content, line, peek) == s
  }

  /** `Lexer`. `position` is never read or written by the lexer and is not modelled. */
  class Lexer {
    var line: nat
    var content: seq<string>
    var rawContent: seq<string>

    predicate Valid()
      reads this
    {
      |rawContent| == |content|
    }

    constructor (text: string)
      ensures Valid()
      ensures content == TrimmedLines(text) && rawContent == content && line == 0
    {
      line := 0;
      content := TrimmedLines(text);
      rawContent := content;
    }

    /** `currentLine()`: the uncut rest of the current line, if there is one. */
    function CurrentLine(): (r: Option<string>)
      reads this
      ensures r.Some? <==> line < |content|
      ensures r.Some? ==> r.value == content[line]
    {
      if line < |content| then Some(content[line]) else None
    }

    /** `next(peek)`: tries the patterns in table order on the current line. */
    method Next(peek: bool) returns (t: Option<Token>)
      requires Valid()
      modifies this
      ensures Valid() && rawContent == old(rawContent)
      ensures Yields(rawContent, old(content), old(line), peek, Scan(content, line, t))
      decreases |content| - line, if line < |content| then |content[line]| else 0, 1
    {
      if line >= |content| {
        return None;
      }
      var l := content[line];
      if IsCommentLine(l) {
        t := NextLine(peek);
      } else if !HasContent(l) {
        t := NextLine(peek);
      } else {
        MatchedLine(rawContent, content, line, peek);
        t := NextOnLine(peek);
      }
    }

    /** A comment line or a blank line: `this.line++` and start over. */
    method NextLine(peek: bool) returns (t: Option<Token>)
      requires Valid() && line < |content|
      requires Skipped(content[line])
      modifies this
      ensures Valid() && rawContent == old(rawContent)
      ensures Yields(rawContent, old(content), old(line), peek, Scan(content, line, t))
      decreases |content| - line, |content[line]|, 0
    {
      ghost var before := line;
      line := line + 1;
      t := Next(peek);
      SkipYields(rawContent, old(content), before, peek, Scan(content, line, t));
    }

    /** The body of `next` once the current line is known to hold something to match. */
    method NextOnLine(peek: bool) returns (t: Option<Token>)
      requires Valid() && line < |content|
      requires !Skipped(content[line])
      modifies this
      ensures Valid() && rawContent == old(rawContent)
      ensures Scan(content, line, t) == OnLine(rawContent, old(content), old(line), peek)
      decreases |content| - line, |content[line]|, 0
    {
      var l := content[line];
      FirstMatchIsFirst(LexerTable, l, 0);
      var m := FindFirst(LexerTable, l);
      if m.None? {
        return None;
      }
      var k := LexerTable[m.value];
      var n := MatchLength(k, l);
      if !peek || k == Whitespace {
        content := content[line := l[n..]];
      }
      if k == Whitespace {
        t := Next(peek);
        return;
      }
      t := Some(Emit(rawContent[line], content[line], line, l[..n], k));
    }
  }

  /** Peeking only does what `next` would do anyway before it reaches the token: it skips
      the same lines and cuts the same white space. So `next` after a peek returns what
      `next` would have returned without it. */
  lemma {:induction false} PeekThenNext(raw: seq<string>, content: seq<string>, line: nat)
    requires |raw| == |content|
    ensures var p := Step(raw, content, line, true);
      Step(raw, p.content, p.line, false) == Step(raw, content, line, false)
    decreases |content| - line, if line < |content| then |content[line]| else 0, 1
  {
    if line < |content| {
      if Skipped(content[line]) {
        PeekThenNext(raw, content, line + 1);
      } else {
        PeekThenNextOnLine(raw, content, line);
      }
    }
  }

  lemma {:induction false} PeekThenNextOnLine(raw: seq<string>, content: seq<string>, line: nat)
    requires |raw| == |content| && line < |content|
    requires !Skipped(content[line])
    ensures var p := OnLine(raw, content, line, true);
      Step(raw, p.content, p.line, false) == OnLine(raw, content, line, false)
    decreases |content| - line, |content[line]|, 0
  {
    var l := content[line];
    FirstMatchIsFirst(LexerTable, l, 0);
    match FirstMatch(LexerTable, l, 0)
    case None =>
    case Some(i) =>
      var k := LexerTable[i];
      var n := MatchLength(k, l);
      if k == Whitespace {
        PeekThenNext(raw, content[line := l[n..]], line);
      } else {
        MatchedLine(raw, content, line, false);
      }
  }

  /** A peek leaves the lexer where it found the token, so peeking again returns the same
      token and changes nothing. */
  lemma {:induction false} PeekTwice(raw: seq<string>, content: seq<string>, line: nat)
    requires |raw| == |content|
    ensures var p := Step(raw, content, line, true);
      Step(raw, p.content, p.line, true) == p
    decreases |content| - line, if line < |content| then |content[line]| else 0, 1
  {
    if line < |content| {
      if Skipped(content[line]) {
        PeekTwice(raw, content, line + 1);
      } else {
        PeekTwiceOnLine(raw, content, line);
      }
    }
  }

  lemma {:induction false} PeekTwiceOnLine(raw: seq<string>, content: seq<string>, line: nat)
    requires |raw| == |content| && line < |content|
    requires !Skipped(content[line])
    ensures var p := OnLine(raw, content, line, true);
      Step(raw, p.content, p.line, true) == p
    decreases |content| - line, |content[line]|, 0
  {
    var l := content[line];
    FirstMatchIsFirst(LexerTable, l, 0);
    match FirstMatch(LexerTable, l, 0)
    case None =>
    case Some(i) =>
      var k := LexerTable[i];
      var n := MatchLength(k, l);
      if k == Whitespace {
        PeekTwice(raw, content[line := l[n..]], line);
      } else {
        MatchedLine(raw, content, line, true);
      }
  }

  /** The token `next` returns for text that a peek reported as `t`: the same text and
      pattern on the same line, its span starting at the peeked token's `to`. */
  function Shifted(t: Token): (r: Token)
    ensures r.raw == t.raw && r.kind == t.kind && r.line == t.line && r.from == t.to
  {
    Token(t.line, t.to, t.to + |t.raw|, t.raw, t.kind)
  }

  /** From the state a peek left behind, `next` returns the peeked token, shifted. */
  predicate NextFollowsPeek(raw: seq<string>, p: Scan)
    requires |raw| == |p.content|
  {
    p.token.Some? ==> Step(raw, p.content, p.line, false).token == Some(Shifted(p.token.value))
  }

  /** `next` after a peek returns the peeked text and pattern on the same line, but its
      `from` is the peeked token's `to`: without peeking, the line is cut before the column
      is computed. */
  lemma {:induction false} NextAfterPeek(raw: seq<string>, content: seq<string>, line: nat)
    requires |raw| == |content|
    ensures NextFollowsPeek(raw, Step(raw, content, line, true))
    decreases |content| - line, if line < |content| then |content[line]| else 0, 1
  {
    if line < |content| {
      if Skipped(content[line]) {
        NextAfterPeek(raw, content, line + 1);
      } else {
        NextAfterPeekOnLine(raw, content, line);
      }
    }
  }

  lemma {:induction false} NextAfterPeekOnLine(raw: seq<string>, content: seq<string>, line: nat)
    requires |raw| == |content| && line < |content|
    requires !Skipped(content[line])
    ensures NextFollowsPeek(raw, OnLine(raw, content, line, true))
    decreases |content| - line, |content[line]|, 0
  {
    var l := content[line];
    FirstMatchIsFirst(LexerTable, l, 0);
    match FirstMatch(LexerTable, l, 0)
    case None =>
      assert OnLine(raw, content, line, true).token == None;
    case Some(i) =>
      var k := LexerTable[i];
      var n := MatchLength(k, l);
      if k == Whitespace {
        assert OnLine(raw, content, line, true) == Step(raw, content[line := l[n..]], line, true);
        NextAfterPeek(raw, content[line := l[n..]], line);
        assert OnLine(raw, content, line, false) == Step(raw, content[line := l[n..]], line, false);
      } else {
        MatchedLine(raw, content, line, false);
        var t := Emit(raw[line], l, line, l[..n], k);
        assert OnLine(raw, content, line, true) == Scan(content, line, Some(t));
        assert |l[..n]| == n && |l[n..]| == |l| - n;
        var t2 := Emit(raw[line], l[n..], line, l[..n], k);
        assert t2 == Shifted(t);
        assert OnLine(raw, content, line, false).token == Some(t2);
        assert Step(raw, content, line, false).token == Some(t2);
      }
  }

  /** What a call of `next` reports: a token is never white space, is the non-empty text
      of one pattern, carries the line the lexer stands on afterwards, and starts at the
      column reached on that line: the number of characters cut from its trimmed text. */
  predicate Reported(raw: seq<string>, content: seq<string>, r: Scan)
  {
    r.token.Some? ==>
      var t := r.token.value;
      && r.line < |content| && t.line == r.line
      && t.kind != "WHITESPACE" && |t.raw| > 0 && t.to - t.from == |t.raw|
      && r.line < |raw| && r.line < |r.content| && t.from == |raw[r.line]| - |r.content[r.line]|
  }

  lemma {:induction false} TokensAreNotWhitespace(raw: seq<string>, content: seq<string>, line: nat, peek: bool)
    requires |raw| == |content|
    ensures Reported(raw, content, Step(raw, content, line, peek))
    decreases |content| - line, if line < |content| then |content[line]| else 0, 1
  {
    if line < |content| {
      if Skipped(content[line]) {
        TokensAreNotWhitespace(raw, content, line + 1, peek);
      } else {
        OnLineTokensAreNotWhitespace(raw, content, line, peek);
      }
    }
  }

  lemma {:induction false} OnLineTokensAreNotWhitespace(raw: seq<string>, content: seq<string>, line: nat, peek: bool)
    requires |raw| == |content| && line < |content|
    requires !Skipped(content[line])
    ensures Reported(raw, content, OnLine(raw, content, line, peek))
    decreases |content| - line, |content[line]|, 0
  {
    var l := content[line];
    FirstMatchIsFirst(LexerTable, l, 0);
    match FirstMatch(LexerTable, l, 0)
    case None =>
    case Some(i) =>
      var k := LexerTable[i];
      var n := MatchLength(k, l);
      if k == Whitespace {
        TokensAreNotWhitespace(raw, content[line := l[n..]], line, peek);
      } else {
        WhitespaceName(k);
      }
  }

  /** Once `next` returns `undefined`, it keeps returning it and changes nothing more: the
      lexer is past the last line or stands before text no pattern matches. */
  predicate Halted(raw: seq<string>, r: Scan, peek: bool)
    requires |raw| == |r.content|
  {
    r.token.None? ==> Step(raw, r.content, r.line, peek) == r
  }

  lemma {:induction false} UndefinedIsFinal(raw: seq<string>, content: seq<string>, line: nat, peek: bool)
    requires |raw| == |content|
    ensures Halted(raw, Step(raw, content, line, peek), peek)
    decreases |content| - line, if line < |content| then |content[line]| else 0, 1
  {
    if line < |content| {
      if Skipped(content[line]) {
        UndefinedIsFinal(raw, content, line + 1, peek);
      } else {
        OnLineUndefinedIsFinal(raw, content, line, peek);
      }
    }
  }

  lemma {:induction false} OnLineUndefinedIsFinal(raw: seq<string>, content: seq<string>, line: nat, peek: bool)
    requires |raw| == |content| && line < |content|
    requires !Skipped(content[line])
    ensures Halted(raw, OnLine(raw, content, line, peek), peek)
    decreases |content| - line, |content[line]|, 0
  {
    var l := content[line];
    FirstMatchIsFirst(LexerTable, l, 0);
    match FirstMatch(LexerTable, l, 0)
    case None =>
      MatchedLine(raw, content, line, peek);
    case Some(i) =>
      var k := LexerTable[i];
      var n := MatchLength(k, l);
      if k == Whitespace {
        UndefinedIsFinal(raw, content[line := l[n..]], line, peek);
      }
  }

  /** `after` is `before` with a prefix cut off. */
  predicate IsSuffix(after: string, before: string)
  {
    |after| <= |before| && before[|before| - |after|..] == after
  }

  /** The lexer only ever cuts text off the front of lines: lines before the one it started
      on and after the one it stops on are untouched. */
  predicate CutsFront(content: seq<string>, line: nat, r: Scan)
  {
    && |r.content| == |content|
    && (forall j :: 0 <= j < |content| ==> IsSuffix(r.content[j], content[j]))
    && (forall j :: 0 <= j < |content| && (j < line || j > r.line) ==> r.content[j] == content[j])
  }

  lemma {:induction false} OnlyFrontsAreCut(raw: seq<string>, content: seq<string>, line: nat, peek: bool)
    requires |raw| == |content|
    ensures CutsFront(content, line, Step(raw, content, line, peek))
    decreases |content| - line, if line < |content| then |content[line]| else 0, 1
  {
    if line < |content| {
      if Skipped(content[line]) {
        OnlyFrontsAreCut(raw, content, line + 1, peek);
      } else {
        OnLineOnlyFrontsAreCut(raw, content, line, peek);
      }
    } else {
      forall j | 0 <= j < |content| ensures IsSuffix(content[j], content[j]) {
      }
    }
  }

  lemma {:induction false} OnLineOnlyFrontsAreCut(raw: seq<string>, content: seq<string>, line: nat, peek: bool)
    requires |raw| == |content| && line < |content|
    requires !Skipped(content[line])
    ensures CutsFront(content, line, OnLine(raw, content, line, peek))
    decreases |content| - line, |content[line]|, 0
  {
    var l := content[line];
    FirstMatchIsFirst(LexerTable, l, 0);
    var r := OnLine(raw, content, line, peek);
    match FirstMatch(LexerTable, l, 0)
    case None =>
      forall j | 0 <= j < |content| ensures IsSuffix(content[j], content[j]) {
      }
    case Some(i) =>
      var k := LexerTable[i];
      var n := MatchLength(k, l);
      var cut := if !peek || k == Whitespace then content[line := l[n..]] else content;
      forall j | 0 <= j < |content| ensures IsSuffix(cut[j], content[j]) {
      }
      if k == Whitespace {
        OnlyFrontsAreCut(raw, cut, line, peek);
        forall j | 0 <= j < |content| ensures IsSuffix(r.content[j], content[j]) {
          assert IsSuffix(r.content[j], cut[j]) && IsSuffix(cut[j], content[j]);
        }
      }
  }
}
