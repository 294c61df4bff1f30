/** The scanner that splits a patch into its top-level SQL statements. */
module SqlScanner {
  import opened JsText
  import opened Options

  datatype Kind = LineComment | BlockComment | Quoted(quote: char) | Dollar | Semicolon | Space | Other

  /** One lexical unit of the text, up to but excluding `end`. */
  datatype Token = Token(kind: Kind, end: nat)

  /** A token in place; `c` is its first character. */
  datatype Lexeme = Lexeme(kind: Kind, start: nat, end: nat, c: char)

  datatype Statement = Statement(start: nat, end: nat, text: string)

  /** The statement being collected: where it began, and its text with placeholders for quoted regions. */
  datatype Pending = Pending(start: Option<nat>, text: string)

  const NOTHING := Pending(None, "")

  /** What a quoted region contributes to the text of its statement. */
  const LITERAL := " 'literal' "
  const IDENTIFIER := " \"identifier\" "
  const DOLLAR_QUOTED := " $quoted$ "

  // ---------------------------------------------------------------- lexical units

  function LineEnd(sql: string, i: nat): (end: nat)
    requires i <= |sql|
    ensures i <= end <= |sql|
    ensures end < |sql| ==> IsNewline(sql[end])
    ensures forall k :: i <= k < end ==> !IsNewline(sql[k])
    decreases |sql| - i
  {
    if i < |sql| && !IsNewline(sql[i]) then LineEnd(sql, i + 1) else i
  }

  /** The index after the closing of a nested comment, or the end of the text. */
  function CommentEnd(sql: string, i: nat, depth: nat): (end: nat)
    requires i <= |sql|
    ensures i <= end <= |sql|
    decreases |sql| - i
  {
    if depth == 0 || i == |sql| then i
    else if At(sql, i, "/*") then CommentEnd(sql, i + 2, depth + 1)
    else if At(sql, i, "*/") then CommentEnd(sql, i + 2, depth - 1)
    else CommentEnd(sql, i + 1, depth)
  }

  /** The index after the closing quote: a doubled quote does not close, nor one behind a backslash in an E string. */
  function QuotedEnd(sql: string, i: nat, quote: char, escapes: bool): (end: nat)
    requires i <= |sql|
    ensures i <= end <= |sql|
    decreases |sql| - i
  {
    if i == |sql| then i
    else if escapes && sql[i] == '\\' then QuotedEnd(sql, if i + 2 <= |sql| then i + 2 else |sql|, quote, escapes)
    else if At(sql, i, [quote, quote]) then QuotedEnd(sql, i + 2, quote, escapes)
    else if sql[i] == quote then i + 1
    else QuotedEnd(sql, i + 1, quote, escapes)
  }

  function TagStop(sql: string, i: nat): (stop: nat)
    requires i <= |sql|
    ensures i <= stop <= |sql|
    ensures stop < |sql| ==> !IsTagChar(sql[stop])
    ensures forall k :: i <= k < stop ==> IsTagChar(sql[k])
    decreases |sql| - i
  {
    if i < |sql| && IsTagChar(sql[i]) then TagStop(sql, i + 1) else i
  }

  /** An opening `$`, an optional identifier, and a second `$`. */
  predicate HasTag(sql: string, i: nat)
    requires i < |sql|
  {
    var stop := TagStop(sql, i + 1);
    sql[i] == '$' && stop < |sql| && sql[stop] == '$' && !IsDigit(sql[i + 1])
  }

  function TagAt(sql: string, i: nat): string
    requires i < |sql| && HasTag(sql, i)
  {
    sql[i..TagStop(sql, i + 1) + 1]
  }

  /** The index after the first occurrence of the tag from `i` on, or the end of the text. */
  function DollarEnd(sql: string, i: nat, tag: string): (end: nat)
    requires i <= |sql|
    ensures i <= end <= |sql|
    ensures end < |sql| ==> i + |tag| <= end && At(sql, end - |tag|, tag)
    ensures forall k :: i <= k && k + |tag| < end ==> !At(sql, k, tag)
    decreases |sql| - i
  {
    if At(sql, i, tag) then i + |tag|
    else if i + |tag| < |sql| then DollarEnd(sql, i + 1, tag)
    else |sql|
  }

  predicate FollowsIdentifier(sql: string, i: nat)
    requires i <= |sql|
  {
    0 < i && IsIdentifierContinuation(sql[i - 1])
  }

  predicate HasEscapeStringPrefix(sql: string, i: nat)
    requires i <= |sql|
  {
    0 < i && (sql[i - 1] == 'e' || sql[i - 1] == 'E') && !FollowsIdentifier(sql, i - 1)
  }

  function TokenAt(sql: string, i: nat): (token: Token)
    requires i < |sql|
    ensures i < token.end <= |sql|
  {
    var c := sql[i];
    if At(sql, i, "--") then Token(LineComment, LineEnd(sql, i + 2))
    else if At(sql, i, "/*") then Token(BlockComment, CommentEnd(sql, i + 2, 1))
    else if c == '\'' || c == '"' then
      Token(Quoted(c), QuotedEnd(sql, i + 1, c, c == '\'' && HasEscapeStringPrefix(sql, i)))
    else if c == '$' && HasTag(sql, i) && !FollowsIdentifier(sql, i) then
      Token(Dollar, DollarEnd(sql, i + |TagAt(sql, i)|, TagAt(sql, i)))
    else if c == ';' then Token(Semicolon, i + 1)
    else if IsSpace(c) then Token(Space, i + 1)
    else Token(Other, i + 1)
  }

  function LexemeAt(sql: string, i: nat): (x: Lexeme)
    requires i < |sql|
    ensures x.start == i < x.end <= |sql| && x.c == sql[i]
    ensures x.kind.Space? <==> IsSpace(x.c)
    ensures x.kind.Semicolon? ==> x.c == ';' && x.end == i + 1
  {
    Lexeme(TokenAt(sql, i).kind, i, TokenAt(sql, i).end, sql[i])
  }

  /** The tokens from index `i` on. */
  function Lex(sql: string, i: nat): seq<Lexeme>
    requires i <= |sql|
    decreases |sql| - i
  {
    if i == |sql| then [] else [LexemeAt(sql, i)] + Lex(sql, LexemeAt(sql, i).end)
  }

  // ---------------------------------------------------------------- statements

  /** What a token other than a semicolon adds to the statement being collected. */
  function Absorb(p: Pending, x: Lexeme): Pending {
    var begun := if p.start.None? then Some(x.start) else p.start;
    match x.kind
    case LineComment => if p.start.Some? then Pending(p.start, p.text + " ") else p
    case BlockComment => if p.start.Some? then Pending(p.start, p.text + " ") else p
    case Quoted(q) => Pending(begun, p.text + (if q == '\'' then LITERAL else IDENTIFIER))
    case Dollar => Pending(begun, p.text + DOLLAR_QUOTED)
    case Space => if p.start.None? then p else Pending(begun, p.text + [x.c])
    case Semicolon => NOTHING
    case Other => Pending(begun, p.text + [x.c])
  }

  /** The statement collected so far, if it holds anything, as the list of statements it contributes. */
  function Flush(p: Pending, end: nat): seq<Statement> {
    if p.start.Some? && Trim(p.text) != "" then [Statement(p.start.value, end, Trim(p.text))] else []
  }

  /** The statements the remaining tokens still yield. */
  function Statements(xs: seq<Lexeme>, p: Pending, length: nat): seq<Statement> {
    if xs == [] then Flush(p, length)
    else if xs[0].kind.Semicolon? then Flush(p, xs[0].end) + Statements(xs[1..], NOTHING, length)
    else Statements(xs[1..], Absorb(p, xs[0]), length)
  }

  function Rest(sql: string, i: nat, p: Pending): seq<Statement>
    requires i <= |sql|
  {
    Statements(Lex(sql, i), p, |sql|)
  }

  /** The top-level statements of a text. */
  function Scan(sql: string): seq<Statement> { Rest(sql, 0, NOTHING) }

  // ---------------------------------------------------------------- the scanner itself

  method SkipLineComment(sql: string, from: nat) returns (index: nat)
    requires from <= |sql|
    ensures index == LineEnd(sql, from)
  {
    index := from;
    while index < |sql| && sql[index] != '\n' && sql[index] != '\r'
      invariant from <= index <= |sql| && LineEnd(sql, from) == LineEnd(sql, index)
    {
      index := index + 1;
    }
  }

  method SkipBlockComment(sql: string, from: nat) returns (index: nat)
    requires from <= |sql|
    ensures index == CommentEnd(sql, from, 1)
  {
    index := from;
    var depth := 1;
    while index < |sql| && depth > 0
      invariant from <= index <= |sql| && 0 <= depth
      invariant CommentEnd(sql, from, 1) == CommentEnd(sql, index, depth)
    {
      if At(sql, index, "/*") {
        depth := depth + 1;
        index := index + 2;
      } else if At(sql, index, "*/") {
        depth := depth - 1;
        index := index + 2;
      } else {
        index := index + 1;
      }
    }
  }

  method SkipQuoted(sql: string, from: nat, quote: char, backslashEscapes: bool) returns (index: nat)
    requires from <= |sql|
    ensures index == QuotedEnd(sql, from, quote, backslashEscapes)
  {
    index := from;
    while index < |sql|
      invariant from <= index <= |sql|
      invariant QuotedEnd(sql, from, quote, backslashEscapes) == QuotedEnd(sql, index, quote, backslashEscapes)
    {
      if backslashEscapes && sql[index] == '\\' {
        index := index + (if 2 <= |sql| - index then 2 else |sql| - index);
      } else if At(sql, index, [quote, quote]) {
        index := index + 2;
      } else if sql[index] == quote {
        return index + 1;
      } else {
        index := index + 1;
      }
    }
  }

  method NextToken(sql: string, index: nat) returns (token: Token)
    requires index < |sql|
    ensures token == TokenAt(sql, index)
  {
    var c := sql[index];
    if At(sql, index, "--") {
      var end := SkipLineComment(sql, index + 2);
      return Token(LineComment, end);
    }
    if At(sql, index, "/*") {
      var end := SkipBlockComment(sql, index + 2);
      return Token(BlockComment, end);
    }
    if c == '\'' || c == '"' {
      var backslashEscapes := c == '\'' && HasEscapeStringPrefix(sql, index);
      var end := SkipQuoted(sql, index + 1, c, backslashEscapes);
      return Token(Quoted(c), end);
    }
    if c == '$' && HasTag(sql, index) && !FollowsIdentifier(sql, index) {
      var tag := TagAt(sql, index);
      return Token(Dollar, DollarEnd(sql, index + |tag|, tag));
    }
    return Token(if c == ';' then Semicolon else if IsSpace(c) then Space else Other, index + 1);
  }

  /** Adds to the statement being collected what a comment, a quoted region or a character contributes. */
  method Collect(sql: string, index: nat, token: Token, start: Option<nat>, text: string)
    returns (statementStart: Option<nat>, statementText: string)
    requires index < |sql| && token == TokenAt(sql, index) && !token.kind.Semicolon?
    ensures Pending(statementStart, statementText) == Absorb(Pending(start, text), LexemeAt(sql, index))
  {
    var kind := token.kind;
    statementStart, statementText := start, text;
    if kind.LineComment? || kind.BlockComment? {
      if statementStart.Some? { statementText := statementText + " "; }
    } else if kind.Quoted? || kind.Dollar? {
      if statementStart.None? { statementStart := Some(index); }
      statementText := statementText
        + if kind.Dollar? then DOLLAR_QUOTED else if kind.quote == '\'' then LITERAL else IDENTIFIER;
    } else if !(statementStart.None? && kind.Space?) {
      if statementStart.None? { statementStart := Some(index); }
      statementText := statementText + [sql[index]];
    }
  }

  /** Closes the statement being collected, if it holds anything. */
  method Close(found: seq<Statement>, statementStart: Option<nat>, statementText: string, end: nat)
    returns (statements: seq<Statement>)
    ensures statements == found + Flush(Pending(statementStart, statementText), end)
  {
    statements := found;
    if statementStart.Some? && Trim(statementText) != "" {
      statements := statements + [Statement(statementStart.value, end, Trim(statementText))];
    }
  }

  lemma {:induction false} RestSteps(sql: string, i: nat, p: Pending)
    requires i < |sql|
    ensures var x := LexemeAt(sql, i);
            Rest(sql, i, p) == (if x.kind.Semicolon? then Flush(p, x.end) else []) + Rest(sql, x.end, Absorb(p, x))
  {
    var x := LexemeAt(sql, i);
    assert Lex(sql, i) == [x] + Lex(sql, x.end);
    assert Lex(sql, i)[0] == x && Lex(sql, i)[1..] == Lex(sql, x.end);
  }

  /** The scan of the whole text, when `found` was emitted before `index` and `p` is being collected there. */
  ghost predicate OnTrack(sql: string, found: seq<Statement>, index: nat, p: Pending) {
    index <= |sql| && Scan(sql) == found + Rest(sql, index, p)
  }

  lemma {:induction false} StaysOnTrack(sql: string, found: seq<Statement>, index: nat, p: Pending)
    requires OnTrack(sql, found, index, p) && index < |sql|
    ensures var x := LexemeAt(sql, index);
            OnTrack(sql, if x.kind.Semicolon? then found + Flush(p, x.end) else found, x.end, Absorb(p, x))
  {
    RestSteps(sql, index, p);
  }

  lemma {:induction false} EndOfTrack(sql: string, found: seq<Statement>, p: Pending)
    requires OnTrack(sql, found, |sql|, p)
    ensures Scan(sql) == found + Flush(p, |sql|)
  {
  }

  method TopLevelSqlStatements(sql: string) returns (statements: seq<Statement>)
    ensures statements == Scan(sql)
  {
    statements := [];
    var statementStart: Option<nat> := None;
    var statementText := "";
    var index := 0;
    while index < |sql|
      invariant index <= |sql|
      invariant OnTrack(sql, statements, index, Pending(statementStart, statementText))
      decreases |sql| - index
    {
      StaysOnTrack(sql, statements, index, Pending(statementStart, statementText));
      var token := NextToken(sql, index);
      if token.kind.Semicolon? {
        statements := Close(statements, statementStart, statementText, token.end);
        statementStart, statementText := None, "";
      } else {
        statementStart, statementText := Collect(sql, index, token, statementStart, statementText);
      }
      index := token.end;
    }
    EndOfTrack(sql, statements, Pending(statementStart, statementText));
    statements := Close(statements, statementStart, statementText, |sql|);
  }
}
