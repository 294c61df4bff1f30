/** What the scanner looks at: no token depends on text before its first neighbour or after its last. */
module SqlLocality {
  import opened JsText
  import opened SqlScanner

  /** Two texts of one length agree on `[from, to)`. */
  ghost predicate Same(a: string, b: string, from: nat, to: nat) {
    |a| == |b| && forall k :: from <= k < to && k < |a| ==> a[k] == b[k]
  }

  lemma {:induction false} AtReads(a: string, b: string, i: nat, word: string)
    requires Same(a, b, i, i + |word|)
    ensures At(a, i, word) == At(b, i, word)
  {
    if i + |word| <= |a| {
      assert a[i..i + |word|] == b[i..i + |word|];
    }
  }

  lemma {:induction false} AtChar(s: string, i: nat, word: string, k: nat)
    requires k < |word| && At(s, i, word)
    ensures s[i + k] == word[k]
  {
    assert s[i..i + |word|][k] == s[i + k];
  }

  lemma {:induction false} AtStarts(s: string, i: nat, word: string)
    requires word != ""
    ensures At(s, i, word) ==> s[i] == word[0]
  {
    if At(s, i, word) { assert s[i..i + |word|][0] == s[i]; }
  }

  lemma {:induction false} LineEndReads(a: string, b: string, i: nat)
    requires i <= |a| && Same(a, b, i, LineEnd(a, i) + 1)
    ensures LineEnd(a, i) == LineEnd(b, i)
    decreases |a| - i
  {
    if i < |a| && !IsNewline(a[i]) { LineEndReads(a, b, i + 1); }
  }

  lemma {:induction false} CommentEndReads(a: string, b: string, i: nat, depth: nat)
    requires i <= |a| && Same(a, b, i, CommentEnd(a, i, depth))
    ensures CommentEnd(a, i, depth) == CommentEnd(b, i, depth)
    decreases |a| - i
  {
    if 0 < depth && i < |a| {
      if i + 1 < |a| {
        assert i + 2 <= CommentEnd(a, i, depth);
        AtReads(a, b, i, "/*");
        AtReads(a, b, i, "*/");
      }
      if At(a, i, "/*") { CommentEndReads(a, b, i + 2, depth + 1); }
      else if At(a, i, "*/") { CommentEndReads(a, b, i + 2, depth - 1); }
      else { CommentEndReads(a, b, i + 1, depth); }
    }
  }

  lemma {:induction false} QuotedEndReads(a: string, b: string, i: nat, quote: char, escapes: bool)
    requires i <= |a| && Same(a, b, i, QuotedEnd(a, i, quote, escapes) + 1)
    ensures QuotedEnd(a, i, quote, escapes) == QuotedEnd(b, i, quote, escapes)
    decreases |a| - i
  {
    if i < |a| {
      if escapes && a[i] == '\\' {
        QuotedEndReads(a, b, if i + 2 <= |a| then i + 2 else |a|, quote, escapes);
      } else {
        assert i + 1 <= QuotedEnd(a, i, quote, escapes);
        AtReads(a, b, i, [quote, quote]);
        if At(a, i, [quote, quote]) { QuotedEndReads(a, b, i + 2, quote, escapes); }
        else if a[i] != quote { QuotedEndReads(a, b, i + 1, quote, escapes); }
      }
    }
  }

  lemma {:induction false} TagStopReads(a: string, b: string, i: nat)
    requires i <= |a| && Same(a, b, i, TagStop(a, i) + 1)
    ensures TagStop(a, i) == TagStop(b, i)
    decreases |a| - i
  {
    if i < |a| && IsTagChar(a[i]) { TagStopReads(a, b, i + 1); }
  }

  lemma {:induction false} DollarEndReads(a: string, b: string, i: nat, tag: string)
    requires i <= |a| && Same(a, b, i, DollarEnd(a, i, tag))
    ensures DollarEnd(a, i, tag) == DollarEnd(b, i, tag)
    decreases |a| - i
  {
    if i + |tag| <= |a| {
      assert i + |tag| <= DollarEnd(a, i, tag);
      AtReads(a, b, i, tag);
      if !At(a, i, tag) && i + |tag| < |a| { DollarEndReads(a, b, i + 1, tag); }
    }
  }

  lemma {:induction false} TagReads(a: string, b: string, i: nat)
    requires i < |a| && HasTag(a, i) && Same(a, b, i, TagStop(a, i + 1) + 1)
    ensures HasTag(b, i) && TagAt(b, i) == TagAt(a, i)
  {
    TagStopReads(a, b, i + 1);
  }

  // ---------------------------------------------------------------- one token

  /** Two texts look the same to a token that starts at `i`, as far as the characters before it matter. */
  predicate SameBefore(a: string, b: string, i: nat) {
    && |a| == |b| && i <= |a|
    && FollowsIdentifier(a, i) == FollowsIdentifier(b, i)
    && HasEscapeStringPrefix(a, i) == HasEscapeStringPrefix(b, i)
  }

  /** No dollar tag that opened before `p` can run across it. */
  predicate Sealed(b: string, p: nat) {
    0 < p && (p < |b| ==> IsSpace(b[p]) || !IsTagChar(b[p - 1]))
  }

  /** The token does not look at anything from `p` on. */
  predicate EndsBefore(token: Token, p: nat, length: nat) {
    token.end < p || p == length || (token.end == p && (token.kind.Space? || token.kind.Semicolon? || token.kind.BlockComment?))
  }

  lemma {:induction false} NoTagAcross(a: string, b: string, i: nat, p: nat)
    requires i + 1 < p <= |a| || p == |a|
    requires i < p && Same(a, b, i, p) && Sealed(b, p)
    requires !HasTag(a, i)
    ensures !HasTag(b, i)
  {
    if HasTag(b, i) {
      var stop := TagStop(b, i + 1);
      if stop < p {
        assert Same(b, a, i, stop + 1);
        TagReads(b, a, i);
      }
    }
  }

  lemma {:induction false} DollarReads(a: string, b: string, i: nat, p: nat)
    requires i < |a| && SameBefore(a, b, i) && Same(a, b, i, p) && TokenAt(a, i).kind.Dollar? && TokenAt(a, i).end <= p
    ensures TokenAt(b, i) == TokenAt(a, i)
  {
    var tag := TagAt(a, i);
    assert Same(a, b, i, TagStop(a, i + 1) + 1);
    TagReads(a, b, i);
    DollarEndReads(a, b, i + |tag|, tag);
  }

  lemma {:induction false} CommentReads(a: string, b: string, i: nat, p: nat)
    requires i < |a| && Same(a, b, i, p) && i < p && TokenAt(a, i).end <= p && EndsBefore(TokenAt(a, i), p, |a|)
    requires TokenAt(a, i).kind.LineComment? || TokenAt(a, i).kind.BlockComment?
    ensures TokenAt(b, i) == TokenAt(a, i)
  {
    AtReads(a, b, i, "--");
    AtReads(a, b, i, "/*");
    if TokenAt(a, i).kind.LineComment? {
      LineEndReads(a, b, i + 2);
    } else {
      CommentEndReads(a, b, i + 2, 1);
    }
  }

  lemma {:induction false} QuotedReads(a: string, b: string, i: nat, p: nat)
    requires i < |a| && SameBefore(a, b, i) && Same(a, b, i, p) && i < p && TokenAt(a, i).end <= p
    requires EndsBefore(TokenAt(a, i), p, |a|)
    requires TokenAt(a, i).kind.Quoted?
    ensures TokenAt(b, i) == TokenAt(a, i)
  {
    QuotedEndReads(a, b, i + 1, a[i], a[i] == '\'' && HasEscapeStringPrefix(a, i));
  }

  /** The class of a token of one character, given that neither a comment nor a dollar quote begins there. */
  lemma {:induction false} SingleToken(sql: string, i: nat)
    requires i < |sql| && !At(sql, i, "--") && !At(sql, i, "/*") && sql[i] != '\'' && sql[i] != '"'
    requires sql[i] != '$' || !HasTag(sql, i) || FollowsIdentifier(sql, i)
    ensures TokenAt(sql, i) == Token(if sql[i] == ';' then Semicolon else if IsSpace(sql[i]) then Space else Other, i + 1)
  {
  }

  lemma {:induction false} SingleTokenMeans(sql: string, i: nat)
    requires i < |sql|
    requires TokenAt(sql, i).kind.Other? || TokenAt(sql, i).kind.Space? || TokenAt(sql, i).kind.Semicolon?
    ensures TokenAt(sql, i).end == i + 1
    ensures !At(sql, i, "--") && !At(sql, i, "/*") && sql[i] != '\'' && sql[i] != '"'
    ensures sql[i] == '$' ==> !HasTag(sql, i) || FollowsIdentifier(sql, i)
    ensures TokenAt(sql, i).kind == if sql[i] == ';' then Semicolon else if IsSpace(sql[i]) then Space else Other
  {
  }

  /** A comment can only begin where its first character stands. */
  lemma {:induction false} NoCommentHere(sql: string, i: nat)
    requires i < |sql| && (sql[i] == ';' || IsSpace(sql[i]))
    ensures !At(sql, i, "--") && !At(sql, i, "/*")
  {
    AtStarts(sql, i, "--");
    AtStarts(sql, i, "/*");
  }

  lemma {:induction false} OtherReads(a: string, b: string, i: nat, p: nat)
    requires i < |a| && SameBefore(a, b, i) && Same(a, b, i, p) && i < p <= |a| && EndsBefore(TokenAt(a, i), p, |a|)
    requires Sealed(b, p)
    requires TokenAt(a, i).kind.Other? || TokenAt(a, i).kind.Space? || TokenAt(a, i).kind.Semicolon?
    ensures TokenAt(b, i) == TokenAt(a, i)
  {
    SingleTokenMeans(a, i);
    if a[i] == ';' || IsSpace(a[i]) {
      NoCommentHere(b, i);
    } else {
      AtReads(a, b, i, "--");
      AtReads(a, b, i, "/*");
      if a[i] == '$' && !FollowsIdentifier(a, i) { NoTagAcross(a, b, i, p); }
    }
    SingleToken(b, i);
  }

  lemma {:induction false} TokenReads(a: string, b: string, i: nat, p: nat)
    requires i < |a| && SameBefore(a, b, i) && Same(a, b, i, p) && i < p <= |a|
    requires TokenAt(a, i).end <= p && EndsBefore(TokenAt(a, i), p, |a|) && Sealed(b, p)
    ensures TokenAt(b, i) == TokenAt(a, i)
  {
    match TokenAt(a, i).kind
    case LineComment => CommentReads(a, b, i, p);
    case BlockComment => CommentReads(a, b, i, p);
    case Quoted(_) => QuotedReads(a, b, i, p);
    case Dollar => DollarReads(a, b, i, p);
    case _ => OtherReads(a, b, i, p);
  }

  lemma {:induction false} SameBeforeNext(a: string, b: string, i: nat, e: nat)
    requires SameBefore(a, b, i) && i < e <= |a| && Same(a, b, i, e)
    ensures SameBefore(a, b, e)
  {
  }

  // ---------------------------------------------------------------- the rest of a text

  /** Texts that agree from `i` on and just before it have the same tokens from `i` on. */
  lemma {:induction false} LexReads(a: string, b: string, i: nat)
    requires i <= |a| && SameBefore(a, b, i) && Same(a, b, i, |a|)
    ensures Lex(a, i) == Lex(b, i)
    decreases |a| - i
  {
    if i < |a| {
      TokenReads(a, b, i, |a|);
      SameBeforeNext(a, b, i, TokenAt(a, i).end);
      LexReads(a, b, TokenAt(a, i).end);
    }
  }
}
