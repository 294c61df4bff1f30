/** What stands inside quotes, dollar quotes and comments does not matter to the scan. */
module SqlOpaque {
  import opened JsText
  import opened SqlScanner
  import opened SqlStatements
  import opened SqlLocality

  predicate IsRegion(kind: Kind) {
    kind.Quoted? || kind.Dollar? || kind.LineComment? || kind.BlockComment?
  }

  lemma {:induction false} QuotedCloses(sql: string, i: nat, quote: char, escapes: bool)
    requires i <= |sql|
    ensures var end := QuotedEnd(sql, i, quote, escapes); end < |sql| ==> i < end && sql[end - 1] == quote
    decreases |sql| - i
  {
    if i < |sql| {
      if escapes && sql[i] == '\\' { QuotedCloses(sql, if i + 2 <= |sql| then i + 2 else |sql|, quote, escapes); }
      else if At(sql, i, [quote, quote]) { QuotedCloses(sql, i + 2, quote, escapes); }
      else if sql[i] != quote { QuotedCloses(sql, i + 1, quote, escapes); }
    }
  }

  /** One step of the search for the end of a nested comment: it goes on at `j`, inside `d` comments. */
  lemma {:induction false} CommentGoesOn(sql: string, i: nat, depth: nat) returns (j: nat, d: nat)
    requires i < |sql| && 0 < depth
    ensures i < j <= |sql| && CommentEnd(sql, i, depth) == CommentEnd(sql, j, d)
    ensures d == 0 ==> sql[j - 1] == '/'
  {
    if At(sql, i, "/*") {
      j, d := i + 2, depth + 1;
    } else if At(sql, i, "*/") {
      AtChar(sql, i, "*/", 1);
      j, d := i + 2, depth - 1;
    } else {
      j, d := i + 1, depth;
    }
  }

  lemma {:induction false} CommentCloses(sql: string, i: nat, depth: nat)
    requires i <= |sql| && (depth == 0 ==> 0 < i && sql[i - 1] == '/')
    ensures var end := CommentEnd(sql, i, depth); end < |sql| ==> 0 < end && sql[end - 1] == '/'
    decreases |sql| - i
  {
    if 0 < depth && i < |sql| {
      var j, d := CommentGoesOn(sql, i, depth);
      CommentCloses(sql, j, d);
    }
  }

  lemma {:induction false} DollarCloses(sql: string, i: nat)
    requires i < |sql| && TokenAt(sql, i).kind.Dollar?
    ensures TokenAt(sql, i).end < |sql| ==> sql[TokenAt(sql, i).end - 1] == '$'
  {
    var tag := TagAt(sql, i);
    var end := TokenAt(sql, i).end;
    if end < |sql| {
      assert sql[end - |tag|..end][|tag| - 1] == tag[|tag| - 1] == '$';
    }
  }

  /** The closing character of a region that ends before the text does. */
  function Closer(kind: Kind): char
    requires kind.Quoted? || kind.Dollar? || kind.BlockComment?
  {
    if kind.Quoted? then kind.quote else if kind.Dollar? then '$' else '/'
  }

  lemma {:induction false} RegionCloses(sql: string, i: nat)
    requires i < |sql|
    requires var kind := TokenAt(sql, i).kind; kind.Quoted? || kind.Dollar? || kind.BlockComment?
    ensures var t := TokenAt(sql, i);
            t.end < |sql| ==> sql[t.end - 1] == Closer(t.kind) && (t.kind.Quoted? ==> t.kind.quote in "'\"")
  {
    match TokenAt(sql, i).kind
    case Quoted(q) => QuotedCloses(sql, i + 1, sql[i], sql[i] == '\'' && HasEscapeStringPrefix(sql, i));
    case Dollar => DollarCloses(sql, i);
    case BlockComment => CommentCloses(sql, i + 2, 1);
  }

  lemma {:induction false} CloserStands(sql: string, x: Lexeme)
    requires x.start < |sql| && LexemeAt(sql, x.start) == x && x.end < |sql|
    requires x.kind.Quoted? || x.kind.Dollar? || x.kind.BlockComment?
    ensures 0 < x.end && sql[x.end - 1] == Closer(x.kind) && Closer(x.kind) in "'\"$/"
  {
    RegionCloses(sql, x.start);
  }

  /** The texts differ at most strictly inside the region that `x` is in both of them. */
  ghost predicate DifferInside(a: string, b: string, x: Lexeme) {
    && |a| == |b| && x.start < x.end <= |a|
    && (forall k :: 0 <= k < |a| && !(x.start < k < x.end) ==> a[k] == b[k])
    && IsRegion(x.kind) && LexemeAt(a, x.start) == x && LexemeAt(b, x.start) == x
  }

  lemma {:induction false} LineCommentEnds(sql: string, i: nat)
    requires i < |sql|
    ensures var t := TokenAt(sql, i); t.kind.LineComment? && t.end < |sql| ==> IsNewline(sql[t.end])
  {
  }

  /** Behind a line comment stands a line end, which is read alike in both texts; behind it nothing before matters. */
  lemma {:induction false} SameBehindLine(a: string, b: string, e: nat)
    requires e < |a| && Same(a, b, e, |a|) && IsNewline(a[e])
    ensures Lex(a, e) == Lex(b, e)
  {
    NoCommentHere(a, e);
    NoCommentHere(b, e);
    SingleToken(a, e);
    SingleToken(b, e);
    LexReads(a, b, e + 1);
  }

  lemma {:induction false} SameBehindCloser(a: string, b: string, e: nat, c: char)
    requires 0 < e < |a| && Same(a, b, e, |a|) && a[e - 1] == c == b[e - 1] && c in "'\"$/"
    ensures Lex(a, e) == Lex(b, e)
  {
    LexReads(a, b, e);
  }

  /** Behind the region the texts are read alike. */
  lemma {:induction false} SameBehindRegion(a: string, b: string, x: Lexeme)
    requires DifferInside(a, b, x)
    ensures Lex(a, x.end) == Lex(b, x.end)
  {
    if x.end < |a| {
      if x.kind.LineComment? {
        LineCommentEnds(a, x.start);
        SameBehindLine(a, b, x.end);
      } else {
        CloserStands(a, x);
        CloserStands(b, x);
        SameBehindCloser(a, b, x.end, Closer(x.kind));
      }
    }
  }

  lemma {:induction false} RegionOpens(sql: string, i: nat)
    requires i < |sql| && IsRegion(TokenAt(sql, i).kind)
    ensures !IsTagChar(sql[i])
  {
    if At(sql, i, "--") { AtChar(sql, i, "--", 0); }
    else if At(sql, i, "/*") { AtChar(sql, i, "/*", 0); }
  }

  lemma {:induction false} LaterTokens(sql: string, i: nat, x: Lexeme)
    requires i <= |sql| && x in Lex(sql, i)
    ensures i <= x.start < |sql| && x == LexemeAt(sql, x.start)
    decreases |sql| - i
  {
    if i < |sql| && x != LexemeAt(sql, i) {
      LaterTokens(sql, LexemeAt(sql, i).end, x);
    }
  }

  /** A token in front of the region is read alike in both texts. */
  lemma {:induction false} SameInFront(a: string, b: string, i: nat, x: Lexeme)
    requires DifferInside(a, b, x) && SameBefore(a, b, i) && i < |a| && LexemeAt(a, i).end <= x.start
    ensures LexemeAt(b, i) == LexemeAt(a, i) && SameBefore(a, b, LexemeAt(a, i).end)
  {
    RegionOpens(a, x.start);
    TokenReads(a, b, i, x.start + 1);
    SameBeforeNext(a, b, i, LexemeAt(a, i).end);
  }

  lemma {:induction false} SameTokens(a: string, b: string, i: nat, x: Lexeme)
    requires DifferInside(a, b, x) && i <= x.start && SameBefore(a, b, i) && x in Lex(a, i)
    ensures Lex(a, i) == Lex(b, i)
    decreases |a| - i
  {
    if LexemeAt(a, i) == x {
      SameBehindRegion(a, b, x);
    } else {
      LaterTokens(a, LexemeAt(a, i).end, x);
      SameInFront(a, b, i, x);
      SameTokens(a, b, LexemeAt(a, i).end, x);
    }
  }

  /**
   Quoted text is opaque: replacing characters inside a string, a quoted identifier, a dollar-quoted body or a
   comment, so that the region is still one and ends where it did, changes no statement's start, end or text.
   */
  lemma {:induction false} QuotedTextIsOpaque(a: string, b: string, x: Lexeme)
    requires x in Lex(a, 0) && DifferInside(a, b, x)
    ensures Scan(b) == Scan(a)
  {
    SameTokens(a, b, 0, x);
  }
}
