/** What replacing leading byte-order marks does to a scan: the mark counts as an identifier character, the space does not. */
module SqlCleanup {
  import opened JsText
  import opened Options
  import opened SqlScanner
  import opened SqlStatements
  import opened SqlLocality
  import opened SqlUnwrap
  import opened SqlPatch

  /** `lead` is the whole leading run of white space of a text that goes on with `tail`. */
  predicate IsLead(lead: string, tail: string) {
    IsBlank(lead) && (tail == "" || !IsSpace(tail[0]))
  }

  lemma {:induction false} LeadIsSanitized(lead: string, tail: string)
    requires IsLead(lead, tail)
    ensures var t, u := lead + tail, Sanitized(lead + tail);
            && u[|lead|..] == tail
            && forall k :: 0 <= k < |lead| ==> u[k] == (if lead[k] == BOM then ' ' else lead[k])
  {
    var t := lead + tail;
    SanitizedChanges(t);
    forall k | 0 <= k < |t|
      ensures k < |lead| ==> Sanitized(t)[k] == (if lead[k] == BOM then ' ' else lead[k])
      ensures |lead| <= k ==> Sanitized(t)[k] == t[k]
    {
      if k < |lead| {
        assert forall i :: 0 <= i < k ==> t[..k][i] == lead[i];
      } else if |lead| < k {
        assert t[..k][|lead|] == tail[0];
      }
    }
    assert t[|lead|..] == tail;
  }

  lemma {:induction false} LeadIsSkipped(sql: string, n: nat)
    requires n <= |sql| && forall k :: 0 <= k < n ==> IsSpace(sql[k])
    ensures Scan(sql) == Rest(sql, n, NOTHING)
  {
    SpacesAreSkipped(sql, 0, n);
  }

  /** The text begins with a dollar quote or an E string. */
  predicate OpensPrefixed(tail: string) {
    tail != "" && ((tail[0] == '$' && HasTag(tail, 0))
                   || ((tail[0] == 'e' || tail[0] == 'E') && 1 < |tail| && tail[1] == '\''))
  }

  /** Nothing that follows cares whether a byte-order mark or a space stands before it. */
  predicate SafeJoin(lead: string, tail: string) {
    lead == "" || lead[|lead| - 1] != BOM || !OpensPrefixed(tail)
  }

  lemma {:induction false} TagStopShifted(lead: string, tail: string, i: nat)
    requires i <= |tail|
    ensures TagStop(lead + tail, |lead| + i) == |lead| + TagStop(tail, i)
    decreases |tail| - i
  {
    if i < |tail| {
      assert (lead + tail)[|lead| + i] == tail[i];
      if IsTagChar(tail[i]) { TagStopShifted(lead, tail, i + 1); }
    }
  }

  lemma {:induction false} HasTagShifted(lead: string, tail: string)
    requires tail != ""
    ensures HasTag(lead + tail, |lead|) == HasTag(tail, 0)
  {
    TagStopShifted(lead, tail, 1);
    var stop := TagStop(tail, 1);
    assert stop < |tail| ==> (lead + tail)[|lead| + stop] == tail[stop];
    assert 1 < |tail| ==> (lead + tail)[|lead| + 1] == tail[1];
  }

  /** A token whose look back does not matter: no dollar tag, and no quote whose prefix is seen differently. */
  lemma {:induction false} LooseToken(a: string, b: string, i: nat)
    requires i < |a| && Same(a, b, i, |a|)
    requires a[i] != '$' || !HasTag(a, i) || FollowsIdentifier(a, i) == FollowsIdentifier(b, i)
    requires a[i] != '\'' || HasEscapeStringPrefix(a, i) == HasEscapeStringPrefix(b, i)
    ensures TokenAt(a, i) == TokenAt(b, i)
  {
    AtReads(a, b, i, "--");
    AtReads(a, b, i, "/*");
    if At(a, i, "--") {
      LineEndReads(a, b, i + 2);
    } else if At(a, i, "/*") {
      CommentEndReads(a, b, i + 2, 1);
    } else if a[i] == '\'' || a[i] == '"' {
      QuotedEndReads(a, b, i + 1, a[i], a[i] == '\'' && HasEscapeStringPrefix(a, i));
    } else if a[i] == '$' {
      LooseDollar(a, b, i);
    }
  }

  lemma {:induction false} LooseDollar(a: string, b: string, i: nat)
    requires i < |a| && Same(a, b, i, |a|)
    ensures HasTag(a, i) == HasTag(b, i)
    ensures HasTag(a, i) ==> TagAt(a, i) == TagAt(b, i)
                             && DollarEnd(a, i + |TagAt(a, i)|, TagAt(a, i)) == DollarEnd(b, i + |TagAt(a, i)|, TagAt(a, i))
  {
    if HasTag(b, i) { TagReads(b, a, i); }
    if HasTag(a, i) {
      TagReads(a, b, i);
      DollarEndReads(a, b, i + |TagAt(a, i)|, TagAt(a, i));
    }
  }

  /** One token further on, only the prefix of a quote can still be seen differently. */
  lemma {:induction false} SafeTail(a: string, b: string, n: nat)
    requires n < |a| && Same(a, b, n, |a|) && (a[n] != '$' || !HasTag(a, n)) && (n == 0 || (a[n - 1] == BOM && b[n - 1] == ' '))
    requires (a[n] == 'e' || a[n] == 'E') && n + 1 < |a| ==> a[n + 1] != '\''
    ensures Lex(a, n) == Lex(b, n)
  {
    LooseToken(a, b, n);
    var end := LexemeAt(a, n).end;
    if end == n + 1 < |a| {
      LooseToken(a, b, n + 1);
      LexReads(a, b, LexemeAt(a, n + 1).end);
    } else if end < |a| {
      LexReads(a, b, end);
    }
  }

  lemma {:induction false} TailIsReadAlike(lead: string, tail: string, t: string, u: string)
    requires tail != "" && t == lead + tail && |u| == |t| && u[|lead|..] == tail && SafeJoin(lead, tail)
    requires lead != "" ==> u[|lead| - 1] == if lead[|lead| - 1] == BOM then ' ' else lead[|lead| - 1]
    requires IsBlank(lead)
    ensures Lex(t, |lead|) == Lex(u, |lead|)
  {
    var n := |lead|;
    assert forall k :: n <= k < |t| ==> u[k] == u[n..][k - n] == t[k];
    if lead != "" && lead[n - 1] == BOM {
      HasTagShifted(lead, tail);
      SafeTail(t, u, n);
    } else {
      LexReads(t, u, n);
    }
  }

  /** Where nothing cares about the last character of the leading run, the clean-up has no effect on the statements. */
  lemma {:induction false} CleanupIsHarmless(lead: string, tail: string)
    requires IsLead(lead, tail) && SafeJoin(lead, tail)
    ensures Scan(Sanitized(lead + tail)) == Scan(lead + tail)
  {
    var t, n := lead + tail, |lead|;
    var u := Sanitized(t);
    LeadIsSanitized(lead, tail);
    LeadIsSkipped(t, n);
    LeadIsSkipped(u, n);
    if tail != "" { TailIsReadAlike(lead, tail, t, u); }
  }

  // ---------------------------------------------------------------- a transaction control that only the server sees

  /** Behind a byte-order mark the scanner sees one statement; behind a space it sees two, and the second commits. */
  const HIDDEN := "$$ $$;COMMIT;"

  /** The same with an E string: behind a mark its `e` is no prefix, so the backslash escapes nothing. */
  const HIDDEN_BY_E := "e'\\'';COMMIT;"

  lemma {:induction false} HiddenChars(sql: string, n: nat)
    requires |sql| == n + |HIDDEN| && sql[n..] == HIDDEN
    ensures sql[n] == '$' && sql[n + 1] == '$' && sql[n + 2] == ' ' && sql[n + 3] == '$' && sql[n + 4] == '$'
    ensures sql[n + 5] == ';' && At(sql, n + 6, "COMMIT") && sql[n + 12] == ';'
    ensures forall k :: n + 5 <= k < |sql| ==> sql[k] != '$'
    ensures HasTag(sql, n) && TagAt(sql, n) == "$$" && HasTag(sql, n + 3) && TagAt(sql, n + 3) == "$$"
  {
    assert forall k {:trigger sql[k]} :: n <= k < |sql| ==> sql[k] == sql[n..][k - n] == HIDDEN[k - n];
    assert sql[n + 6..n + 12] == HIDDEN[6..12] == "COMMIT";
    assert TagStop(sql, n + 1) == n + 1 && TagStop(sql, n + 4) == n + 4;
    assert sql[n..n + 2] == "$$" && sql[n + 3..n + 5] == "$$";
  }

  lemma {:induction false} NoDollarLeft(sql: string, i: nat, tag: string)
    requires i <= |sql| && tag != "" && tag[0] == '$' && forall k :: i <= k < |sql| ==> sql[k] != '$'
    ensures DollarEnd(sql, i, tag) == |sql|
    decreases |sql| - i
  {
    AtStarts(sql, i, tag);
    if i + |tag| < |sql| { NoDollarLeft(sql, i + 1, tag); }
  }

  lemma {:induction false} NoCommentAt(sql: string, i: nat)
    requires i < |sql| && sql[i] != '-' && sql[i] != '/'
    ensures !At(sql, i, "--") && !At(sql, i, "/*")
  {
    AtStarts(sql, i, "--");
    AtStarts(sql, i, "/*");
  }

  lemma {:induction false} NextRest(sql: string, i: nat, p: Pending, kind: Kind, end: nat)
    requires i < |sql| && TokenAt(sql, i) == Token(kind, end) && !kind.Semicolon?
    ensures Rest(sql, i, p) == Rest(sql, end, Absorb(p, Lexeme(kind, i, end, sql[i])))
  {
    RestSteps(sql, i, p);
  }

  lemma {:induction false} NextStatement(sql: string, i: nat, p: Pending)
    requires i < |sql| && TokenAt(sql, i) == Token(Semicolon, i + 1)
    ensures Rest(sql, i, p) == Flush(p, i + 1) + Rest(sql, i + 1, NOTHING)
  {
    RestSteps(sql, i, p);
  }

  predicate IsWord(w: string) { w != "" && forall i :: 0 <= i < |w| ==> 'A' <= w[i] <= 'Z' }

  lemma {:induction false} LetterRest(sql: string, i: nat, start: Option<nat>, text: string)
    requires i < |sql| && 'A' <= sql[i] <= 'Z'
    ensures Rest(sql, i, Pending(start, text))
            == Rest(sql, i + 1, Pending(if start.None? then Some(i) else start, text + [sql[i]]))
  {
    NoCommentAt(sql, i);
    SingleToken(sql, i);
    NextRest(sql, i, Pending(start, text), Other, i + 1);
  }

  lemma {:induction false} OneMore(word: string, m: nat)
    requires 0 < m <= |word|
    ensures word[..m - 1] + [word[m - 1]] == word[..m] && "" + [word[0]] == word[..1] && word[..|word|] == word
  {
  }

  lemma {:induction false} LetterOf(sql: string, i: nat, word: string, k: nat)
    requires IsWord(word) && k < |word| && At(sql, i, word)
    ensures i + k < |sql| && sql[i + k] == word[k] && 'A' <= sql[i + k] <= 'Z'
  {
    AtChar(sql, i, word, k);
  }

  /** Capital letters are collected one by one. */
  lemma {:induction false} WordIsCollected(sql: string, i: nat, word: string, m: nat)
    requires IsWord(word) && 0 < m <= |word| && At(sql, i, word)
    ensures Rest(sql, i, NOTHING) == Rest(sql, i + m, Pending(Some(i), word[..m]))
  {
    LetterOf(sql, i, word, m - 1);
    OneMore(word, m);
    if m == 1 {
      LetterRest(sql, i, None, "");
    } else {
      WordIsCollected(sql, i, word, m - 1);
      LetterRest(sql, i + m - 1, Some(i), word[..m - 1]);
    }
  }

  lemma {:induction false} DollarTokens(sql: string, n: nat)
    requires |sql| == n + |HIDDEN| && sql[n..] == HIDDEN && FollowsIdentifier(sql, n)
    ensures TokenAt(sql, n) == Token(Other, n + 1) && TokenAt(sql, n + 1) == Token(Other, n + 2)
    ensures TokenAt(sql, n + 2) == Token(Space, n + 3)
  {
    HiddenChars(sql, n);
    NoCommentAt(sql, n);
    NoCommentAt(sql, n + 1);
    NoCommentAt(sql, n + 2);
    SingleToken(sql, n);
    SingleToken(sql, n + 1);
    SingleToken(sql, n + 2);
  }

  /** An opening tag that is never closed runs to the end. */
  lemma {:induction false} OpenQuoteToken(sql: string, n: nat)
    requires |sql| == n + |HIDDEN| && sql[n..] == HIDDEN
    ensures TokenAt(sql, n + 3) == Token(Kind.Dollar, |sql|)
  {
    HiddenChars(sql, n);
    NoCommentAt(sql, n + 3);
    NoDollarLeft(sql, n + 5, "$$");
  }

  /** Read behind an identifier character, the text is one statement that begins with a dollar sign. */
  lemma {:induction false} HiddenBehindIdentifier(sql: string, n: nat)
    requires |sql| == n + |HIDDEN| && sql[n..] == HIDDEN && FollowsIdentifier(sql, n)
    ensures var found := Rest(sql, n, NOTHING); |found| == 1 && found[0].text != "" && found[0].text[0] == '$'
  {
    HiddenChars(sql, n);
    DollarTokens(sql, n);
    OpenQuoteToken(sql, n);
    NextRest(sql, n, NOTHING, Other, n + 1);
    NextRest(sql, n + 1, Pending(Some(n), "" + "$"), Other, n + 2);
    NextRest(sql, n + 2, Pending(Some(n), "" + "$" + "$"), Space, n + 3);
    var text := "" + "$" + "$" + [' '];
    NextRest(sql, n + 3, Pending(Some(n), text), Kind.Dollar, |sql|);
    VisibleStart(text + DOLLAR_QUOTED);
    assert Rest(sql, |sql|, Pending(Some(n), text + DOLLAR_QUOTED)) == Flush(Pending(Some(n), text + DOLLAR_QUOTED), |sql|);
  }

  lemma {:induction false} VisibleStart(s: string)
    requires s != "" && !IsSpace(s[0])
    ensures Trim(s) != "" && Trim(s)[0] == s[0]
  {
    assert TrimStart(s) == s;
  }

  lemma {:induction false} QuoteCloses(sql: string, n: nat)
    requires |sql| == n + |HIDDEN| && sql[n..] == HIDDEN && !FollowsIdentifier(sql, n)
    ensures TokenAt(sql, n) == Token(Kind.Dollar, n + 5)
  {
    HiddenChars(sql, n);
    NoCommentAt(sql, n);
    AtStarts(sql, n + 2, "$$");
    assert sql[n + 3..n + 5] == "$$";
    assert DollarEnd(sql, n + 2, "$$") == DollarEnd(sql, n + 3, "$$") == n + 5;
  }

  /** The text ends in a COMMIT between two semicolons, the first of them at `n + 5`. */
  predicate EndsInCommit(sql: string, n: nat) {
    |sql| == n + 13 && sql[n + 5..] == ";COMMIT;"
  }

  lemma {:induction false} CommitChars(sql: string, n: nat)
    requires EndsInCommit(sql, n)
    ensures sql[n + 5] == ';' && At(sql, n + 6, "COMMIT") && sql[n + 12] == ';'
  {
    assert forall k {:trigger sql[k]} :: n + 5 <= k < |sql| ==> sql[k] == sql[n + 5..][k - n - 5] == ";COMMIT;"[k - n - 5];
    assert sql[n + 6..n + 12] == ";COMMIT;"[1..7] == "COMMIT";
  }

  lemma {:induction false} HiddenCommits(sql: string, n: nat)
    requires |sql| == n + 13 && (sql[n..] == HIDDEN || sql[n..] == HIDDEN_BY_E)
    ensures EndsInCommit(sql, n)
  {
    assert sql[n + 5..] == sql[n..][5..];
    assert HIDDEN[5..] == HIDDEN_BY_E[5..] == ";COMMIT;";
  }

  lemma {:induction false} SemicolonTokens(sql: string, n: nat)
    requires EndsInCommit(sql, n)
    ensures TokenAt(sql, n + 5) == Token(Semicolon, n + 6) && TokenAt(sql, n + 12) == Token(Semicolon, n + 13)
  {
    CommitChars(sql, n);
    NoCommentAt(sql, n + 5);
    NoCommentAt(sql, n + 12);
    SingleToken(sql, n + 5);
    SingleToken(sql, n + 12);
  }

  /** From `found`, the scan where the word begins, to `tail`, the scan behind it. */
  lemma {:induction false} WholeWord(sql: string, i: nat, k: nat, word: string, found: seq<Statement>, tail: seq<Statement>)
    requires IsWord(word) && k == i + |word| && At(sql, i, word)
    requires found == Rest(sql, i, NOTHING) && tail == Rest(sql, k, Pending(Some(i), word))
    ensures found == tail
  {
    WordIsCollected(sql, i, word, |word|);
    OneMore(word, |word|);
  }

  lemma {:induction false} LastStatement(sql: string, i: nat, p: Pending)
    requires i + 1 == |sql| && TokenAt(sql, i) == Token(Semicolon, |sql|)
    ensures Rest(sql, i, p) == Flush(p, |sql|)
  {
    NextStatement(sql, i, p);
    NothingAtEnd(sql);
  }

  lemma {:induction false} FlushTrimmed(i: nat, text: string, end: nat)
    requires text != "" && Trim(text) == text
    ensures Flush(Pending(Some(i), text), end) == [Statement(i, end, text)]
  {
  }

  lemma {:induction false} NothingAtEnd(sql: string)
    ensures Rest(sql, |sql|, NOTHING) == []
  {
  }

  /** A semicolon at the end of a text ends the word being collected there, and nothing follows. */
  lemma {:induction false} WordEnds(sql: string, k: nat, i: nat, word: string, tail: seq<Statement>)
    requires IsWord(word) && k + 1 == |sql| && sql[k] == ';' && tail == Rest(sql, k, Pending(Some(i), word))
    ensures tail == [Statement(i, |sql|, word)]
  {
    NoCommentAt(sql, k);
    SingleToken(sql, k);
    WordIsTrimmed(word);
    LastStatement(sql, k, Pending(Some(i), word));
    FlushTrimmed(i, word, |sql|);
  }

  lemma {:induction false} LastWord(sql: string, i: nat, k: nat, word: string)
    requires IsWord(word) && k == i + |word| && At(sql, i, word) && k + 1 == |sql| && sql[k] == ';'
    ensures Rest(sql, i, NOTHING) == [Statement(i, |sql|, word)]
  {
    var found, tail := Rest(sql, i, NOTHING), Rest(sql, k, Pending(Some(i), word));
    WholeWord(sql, i, k, word, found, tail);
    WordEnds(sql, k, i, word, tail);
  }

  /** The last statement of it, from behind the first semicolon. */
  lemma {:induction false} CommitIsLast(sql: string, n: nat)
    requires EndsInCommit(sql, n)
    ensures Rest(sql, n + 6, NOTHING) == [Statement(n + 6, n + 13, "COMMIT")]
  {
    CommitChars(sql, n);
    LastWord(sql, n + 6, n + 12, "COMMIT");
  }

  /** Read behind a blank, it is a dollar-quoted string, and then a COMMIT. */
  lemma {:induction false} HiddenBehindBlank(sql: string, n: nat)
    requires |sql| == n + |HIDDEN| && sql[n..] == HIDDEN && !FollowsIdentifier(sql, n)
    ensures var found := Rest(sql, n, NOTHING); |found| == 2 && found[1].text == "COMMIT"
  {
    QuoteCloses(sql, n);
    HiddenCommits(sql, n);
    SemicolonTokens(sql, n);
    CommitIsLast(sql, n);
    NextRest(sql, n, NOTHING, Kind.Dollar, n + 5);
    var p := Pending(Some(n), "" + DOLLAR_QUOTED);
    NextStatement(sql, n + 5, p);
    PlaceholdersAreNotBlank();
    NotBlankAfter("", DOLLAR_QUOTED);
    FlushOpen(p, n + 5, n + 6);
  }

  // ---------------------------------------------------------------- the same with an E string

  lemma {:induction false} EscapeChars(sql: string, n: nat)
    requires |sql| == n + 13 && sql[n..] == HIDDEN_BY_E
    ensures sql[n] == 'e' && sql[n + 1] == '\'' && sql[n + 2] == '\\' && sql[n + 3] == '\'' && sql[n + 4] == '\''
    ensures forall k :: n + 5 <= k < |sql| ==> sql[k] != '\''
    ensures TokenAt(sql, n) == Token(Other, n + 1)
  {
    assert forall k {:trigger sql[k]} :: n <= k < |sql| ==> sql[k] == sql[n..][k - n] == HIDDEN_BY_E[k - n];
    NoCommentAt(sql, n);
    SingleToken(sql, n);
  }

  lemma {:induction false} NoQuoteLeft(sql: string, i: nat)
    requires i <= |sql| && forall k :: i <= k < |sql| ==> sql[k] != '\''
    ensures QuotedEnd(sql, i, '\'', false) == |sql|
    decreases |sql| - i
  {
    if i < |sql| {
      AtStarts(sql, i, "''");
      NoQuoteLeft(sql, i + 1);
    }
  }

  /** Read behind an identifier character, the string never closes. */
  lemma {:induction false} PlainStringToken(sql: string, n: nat)
    requires |sql| == n + 13 && sql[n..] == HIDDEN_BY_E && FollowsIdentifier(sql, n)
    ensures TokenAt(sql, n + 1) == Token(Quoted('\''), |sql|)
  {
    EscapeChars(sql, n);
    NoCommentAt(sql, n + 1);
    AtStarts(sql, n + 2, "''");
    assert sql[n + 3..n + 5] == "''" && !HasEscapeStringPrefix(sql, n + 1);
    NoQuoteLeft(sql, n + 5);
    assert QuotedEnd(sql, n + 2, '\'', false) == QuotedEnd(sql, n + 3, '\'', false) == QuotedEnd(sql, n + 5, '\'', false);
  }

  /** Read behind a blank, the backslash takes one quote and the next one closes. */
  lemma {:induction false} EscapeStringToken(sql: string, n: nat)
    requires |sql| == n + 13 && sql[n..] == HIDDEN_BY_E && !FollowsIdentifier(sql, n)
    ensures TokenAt(sql, n + 1) == Token(Quoted('\''), n + 5)
  {
    EscapeChars(sql, n);
    NoCommentAt(sql, n + 1);
    assert sql[n + 4..n + 6][1] == sql[n + 5] && HasEscapeStringPrefix(sql, n + 1);
    assert QuotedEnd(sql, n + 2, '\'', true) == QuotedEnd(sql, n + 4, '\'', true) == n + 5;
  }

  const E_STRING := "" + "e" + LITERAL

  lemma {:induction false} EscapeBegins(sql: string, n: nat, end: nat)
    requires |sql| == n + 13 && sql[n..] == HIDDEN_BY_E && TokenAt(sql, n + 1) == Token(Quoted('\''), end)
    ensures Rest(sql, n, NOTHING) == Rest(sql, end, Pending(Some(n), E_STRING))
  {
    EscapeChars(sql, n);
    NextRest(sql, n, NOTHING, Other, n + 1);
    NextRest(sql, n + 1, Pending(Some(n), "" + "e"), Quoted('\''), end);
  }

  lemma {:induction false} EStringTrimmed()
    ensures Trim(E_STRING) == "e 'literal'" && !IsBlank(E_STRING)
  {
    assert E_STRING == "e 'literal'" + " ";
    LastSpaceIsTrimmed("e 'literal'");
  }

  lemma {:induction false} LastSpaceIsTrimmed(s: string)
    requires s != "" && !IsSpace(s[0]) && !IsSpace(s[|s| - 1])
    ensures Trim(s + " ") == s && !IsBlank(s + " ")
  {
    assert (s + " ")[0] == s[0] && (s + " ")[..|s|] == s && (s + " ")[|s|] == ' ';
    assert TrimStart(s + " ") == s + " " && TrimEnd(s) == s;
    assert TrimEnd(s + " ") == TrimEnd((s + " ")[..|s|]);
  }

  lemma {:induction false} EscapeBehindIdentifier(sql: string, n: nat)
    requires |sql| == n + 13 && sql[n..] == HIDDEN_BY_E && FollowsIdentifier(sql, n)
    ensures Rest(sql, n, NOTHING) == [Statement(n, n + 13, "e 'literal'")]
  {
    PlainStringToken(sql, n);
    EscapeBegins(sql, n, |sql|);
    EStringTrimmed();
    assert Rest(sql, |sql|, Pending(Some(n), E_STRING)) == Flush(Pending(Some(n), E_STRING), |sql|);
  }

  lemma {:induction false} EscapeBehindBlank(sql: string, n: nat)
    requires |sql| == n + 13 && sql[n..] == HIDDEN_BY_E && !FollowsIdentifier(sql, n)
    ensures Rest(sql, n, NOTHING) == [Statement(n, n + 6, "e 'literal'"), Statement(n + 6, n + 13, "COMMIT")]
  {
    EscapeStringToken(sql, n);
    HiddenCommits(sql, n);
    SemicolonTokens(sql, n);
    CommitIsLast(sql, n);
    EscapeBegins(sql, n, n + 5);
    EStringTrimmed();
    NextStatement(sql, n + 5, Pending(Some(n), E_STRING));
  }

  lemma {:induction false} EscapeAsItStands(lead: string, found: seq<Statement>)
    requires IsBlank(lead) && lead != "" && lead[|lead| - 1] == BOM && found == Scan(lead + HIDDEN_BY_E)
    ensures found == [Statement(|lead|, |lead| + 13, "e 'literal'")]
  {
    LeadIsSkipped(lead + HIDDEN_BY_E, |lead|);
    EscapeBehindIdentifier(lead + HIDDEN_BY_E, |lead|);
  }

  lemma {:induction false} EscapeCleanedUp(lead: string, u: string, found: seq<Statement>)
    requires IsBlank(lead) && lead != "" && lead[|lead| - 1] == BOM
    requires u == Sanitized(lead + HIDDEN_BY_E) && found == Scan(u)
    ensures found == [Statement(|lead|, |lead| + 6, "e 'literal'"), Statement(|lead| + 6, |lead| + 13, "COMMIT")]
  {
    LeadIsSanitized(lead, HIDDEN_BY_E);
    LeadIsSkipped(u, |lead|);
    EscapeBehindBlank(u, |lead|);
  }

  /** Behind every leading run that ends in a mark, the clean-up splits the one statement of this text and lets a COMMIT out. */
  lemma {:induction false} AnEscapeStringLetsACommitOut(lead: string)
    requires IsBlank(lead) && lead != "" && lead[|lead| - 1] == BOM
    ensures IsLead(lead, HIDDEN_BY_E)
    ensures Scan(lead + HIDDEN_BY_E) == [Statement(|lead|, |lead| + 13, "e 'literal'")]
    ensures Scan(Sanitized(lead + HIDDEN_BY_E))
            == [Statement(|lead|, |lead| + 6, "e 'literal'"), Statement(|lead| + 6, |lead| + 13, "COMMIT")]
  {
    EscapeAsItStands(lead, Scan(lead + HIDDEN_BY_E));
    EscapeCleanedUp(lead, Sanitized(lead + HIDDEN_BY_E), Scan(Sanitized(lead + HIDDEN_BY_E)));
  }

  // ---------------------------------------------------------------- kinds of the two readings

  lemma {:induction false} NoPhraseFits(text: string, phrase: nat -> string, n: nat)
    requires text != "" && forall k: nat :: phrase(k) != "" && phrase(k)[0] != text[0]
    ensures !IsPhrase(text, phrase, n) && !BeginsWithPhrase(text, phrase, n)
  {
    forall k: nat | k < n ensures text != phrase(k) && !(phrase(k) + " " <= text) {
      assert (phrase(k) + " ")[0] == phrase(k)[0];
    }
  }

  lemma {:induction false} PhrasesBeginWithLetters(k: nat)
    ensures BeginPhrase(k) != "" && BeginPhrase(k)[0] != '$'
    ensures CommitPhrase(k) != "" && CommitPhrase(k)[0] != '$'
    ensures ControlPhrase(k) != "" && ControlPhrase(k)[0] != '$'
  {
  }

  lemma {:induction false} DollarKind(normalized: string)
    requires normalized != "" && normalized[0] == '$'
    ensures KindOf(normalized) == NoControl
  {
    forall k: nat
      ensures BeginPhrase(k) != "" && BeginPhrase(k)[0] != '$' && CommitPhrase(k) != "" && CommitPhrase(k)[0] != '$'
              && ControlPhrase(k) != "" && ControlPhrase(k)[0] != '$'
    {
      PhrasesBeginWithLetters(k);
    }
    NoPhraseFits(normalized, BeginPhrase, 4);
    NoPhraseFits(normalized, CommitPhrase, 3);
    NoPhraseFits(normalized, ControlPhrase, 15);
  }

  lemma {:induction false} CommitKind()
    ensures KindOf("COMMIT") != NoControl
  {
    assert CommitPhrase(0) == "COMMIT";
  }

  lemma {:induction false} CollapseStart(text: string)
    requires text != "" && text[0] == '$'
    ensures Collapse(text) != "" && Collapse(text)[0] == '$'
  {
  }

  lemma {:induction false} UpperStart(text: string)
    requires text != "" && text[0] == '$'
    ensures Upper(text) != "" && Upper(text)[0] == '$'
  {
    assert UpperChar('$') == "$";
  }

  lemma {:induction false} DollarIsNormal(text: string)
    requires text != "" && text[0] == '$'
    ensures Normalized(text) != "" && Normalized(text)[0] == '$'
  {
    CollapseStart(text);
    VisibleStart(Collapse(text));
    UpperStart(Trim(Collapse(text)));
  }

  lemma {:induction false} DollarIsNoControl(text: string)
    requires text != "" && text[0] == '$'
    ensures TransactionControlKind(text) == NoControl
  {
    DollarIsNormal(text);
    DollarKind(Normalized(text));
  }

  lemma {:induction false} VisibleEnds(s: string)
    requires s != "" && !IsSpace(s[0]) && !IsSpace(s[|s| - 1])
    ensures Trim(s) == s
  {
    assert TrimStart(s) == s;
  }

  lemma {:induction false} LettersAreVisible(c: char)
    requires 'A' <= c <= 'Z'
    ensures !IsSpace(c)
  {
  }

  lemma {:induction false} WordIsTrimmed(w: string)
    requires IsWord(w)
    ensures Trim(w) == w
  {
    LettersAreVisible(w[0]);
    LettersAreVisible(w[|w| - 1]);
    VisibleEnds(w);
  }

  lemma {:induction false} HeadAndTail(w: string)
    requires w != ""
    ensures w == [w[0]] + w[1..] && (|w| == 1 ==> w[1..] == "")
  {
  }

  lemma {:induction false} WordIsNormal(w: string)
    requires IsWord(w)
    ensures Collapse(w) == w && Upper(w) == w
  {
    HeadAndTail(w);
    if 1 < |w| { WordIsNormal(w[1..]); }
  }

  lemma {:induction false} CommitIsControl()
    ensures TransactionControlKind("COMMIT") != NoControl
  {
    WordIsNormal("COMMIT");
    WordIsTrimmed("COMMIT");
    CommitKind();
  }

  lemma {:induction false} OnePlain(found: seq<Statement>, kindOf: string -> Control)
    requires |found| == 1 && kindOf(found[0].text) == NoControl
    ensures AllPlain(Classified(found, kindOf))
  {
    ClassifiedAt(found, kindOf, 0);
  }

  lemma {:induction false} SecondControls(found: seq<Statement>, kindOf: string -> Control)
    requires |found| == 2 && kindOf(found[1].text) != NoControl
    ensures !AllPlain(Classified(found, kindOf))
  {
    ClassifiedAt(found, kindOf, 1);
    assert !Classified(found, kindOf)[1].kind.NoControl?;
  }

  lemma {:induction false} HiddenIsPlain(lead: string)
    requires IsBlank(lead) && lead != "" && lead[|lead| - 1] == BOM
    ensures AllPlain(Program(lead + HIDDEN))
  {
    var t, n := lead + HIDDEN, |lead|;
    LeadIsSkipped(t, n);
    HiddenBehindIdentifier(t, n);
    DollarIsNoControl(Scan(t)[0].text);
    OnePlain(Scan(t), TransactionControlKind);
  }

  lemma {:induction false} HiddenControls(lead: string)
    requires IsBlank(lead) && lead != "" && lead[|lead| - 1] == BOM
    ensures IsLead(lead, HIDDEN) && !AllPlain(Program(Sanitized(lead + HIDDEN)))
  {
    var u, n := Sanitized(lead + HIDDEN), |lead|;
    LeadIsSanitized(lead, HIDDEN);
    LeadIsSkipped(u, n);
    HiddenBehindBlank(u, n);
    CommitIsControl();
    SecondControls(Scan(u), TransactionControlKind);
  }

  /** Single blanks stay as they are. */
  lemma {:induction false} CollapseKeeps(s: string)
    requires forall i :: 0 <= i < |s| && IsSpace(s[i]) ==> s[i] == ' ' && (i + 1 < |s| ==> !IsSpace(s[i + 1]))
    ensures Collapse(s) == s
  {
    if s != "" {
      HeadAndTail(s);
      CollapseKeeps(s[1..]);
    }
  }

  lemma {:induction false} UpperSecond(s: string)
    requires 2 <= |s| && s[0] == 'e' && s[1] == ' '
    ensures 2 <= |Upper(s)| && Upper(s)[1] == ' '
  {
    assert s[1..][0] == ' ' && UpperChar('e') == "E" && UpperChar(' ') == " ";
    assert Upper(s) == "E" + (" " + Upper(s[1..][1..]));
  }

  lemma {:induction false} NoPhraseHasBlankSecond(text: string, phrase: nat -> string, n: nat)
    requires 2 <= |text| && text[1] == ' ' && forall k: nat :: 2 <= |phrase(k)| && phrase(k)[1] != ' '
    ensures !IsPhrase(text, phrase, n) && !BeginsWithPhrase(text, phrase, n)
  {
    forall k: nat | k < n ensures text != phrase(k) && !(phrase(k) + " " <= text) {
      assert (phrase(k) + " ")[1] == phrase(k)[1];
    }
  }

  lemma {:induction false} BlankSecondKind(normalized: string)
    requires 2 <= |normalized| && normalized[1] == ' '
    ensures KindOf(normalized) == NoControl
  {
    NoPhraseHasBlankSecond(normalized, BeginPhrase, 4);
    NoPhraseHasBlankSecond(normalized, CommitPhrase, 3);
    NoPhraseHasBlankSecond(normalized, ControlPhrase, 15);
  }

  lemma {:induction false} BlankSecondIsNormal(s: string)
    requires 3 <= |s| && s[0] == 'e' && s[1] == ' ' && !IsSpace(s[|s| - 1])
    requires forall i :: 0 <= i < |s| && IsSpace(s[i]) ==> s[i] == ' ' && (i + 1 < |s| ==> !IsSpace(s[i + 1]))
    ensures 2 <= |Normalized(s)| && Normalized(s)[1] == ' '
  {
    CollapseKeeps(s);
    VisibleEnds(s);
    UpperSecond(s);
  }

  lemma {:induction false} EStringKind()
    ensures TransactionControlKind("e 'literal'") == NoControl
  {
    BlankSecondIsNormal("e 'literal'");
    BlankSecondKind(Normalized("e 'literal'"));
  }

  /** The E string does the same: an accepted plain text whose executed form commits. */
  lemma {:induction false} EscapeHidesACommit(lead: string)
    requires IsBlank(lead) && lead != "" && lead[|lead| - 1] == BOM
    ensures AllPlain(Program(lead + HIDDEN_BY_E)) && !AllPlain(Program(Sanitized(lead + HIDDEN_BY_E)))
  {
    AnEscapeStringLetsACommitOut(lead);
    EStringKind();
    OnePlain(Scan(lead + HIDDEN_BY_E), TransactionControlKind);
    CommitIsControl();
    SecondControls(Scan(Sanitized(lead + HIDDEN_BY_E)), TransactionControlKind);
  }

  /** Exactly the leading runs whose clean-up can never let a transaction control appear in an accepted plain text. */
  lemma {:induction false} PlainTextsStayPlainExactlyWhen(lead: string)
    requires IsBlank(lead)
    ensures (forall tail :: IsLead(lead, tail) && AllPlain(Program(lead + tail)) ==> AllPlain(Program(Sanitized(lead + tail))))
            <==> (lead == "" || lead[|lead| - 1] != BOM)
  {
    if lead == "" || lead[|lead| - 1] != BOM {
      forall tail | IsLead(lead, tail) && AllPlain(Program(lead + tail))
        ensures AllPlain(Program(Sanitized(lead + tail)))
      {
        CleanupIsHarmless(lead, tail);
        ProgramFollowsScan(Sanitized(lead + tail), lead + tail);
      }
    } else {
      HiddenIsPlain(lead);
      HiddenControls(lead);
    }
  }

  /** Exactly the leading runs whose clean-up can never change the statements of what follows. */
  lemma {:induction false} CleanupIsHarmlessExactlyWhen(lead: string)
    requires IsBlank(lead)
    ensures (forall tail :: IsLead(lead, tail) ==> Scan(Sanitized(lead + tail)) == Scan(lead + tail))
            <==> (lead == "" || lead[|lead| - 1] != BOM)
  {
    if lead == "" || lead[|lead| - 1] != BOM {
      forall tail | IsLead(lead, tail) ensures Scan(Sanitized(lead + tail)) == Scan(lead + tail) {
        CleanupIsHarmless(lead, tail);
      }
    } else {
      HiddenIsPlain(lead);
      HiddenControls(lead);
      if Scan(Sanitized(lead + HIDDEN)) == Scan(lead + HIDDEN) { ProgramFollowsScan(Sanitized(lead + HIDDEN), lead + HIDDEN); }
    }
  }

  // ---------------------------------------------------------------- the text that is executed

  /** The first thing in the text is a string constant. No SQL command begins with one. */
  predicate BeginsWithString(text: string) {
    var tail := TrimStart(text);
    tail != "" && (tail[0] == '\'' || OpensPrefixed(tail))
  }

  lemma {:induction false} TrimStartOf(lead: string, tail: string)
    requires IsLead(lead, tail)
    ensures TrimStart(lead + tail) == tail
    decreases |lead|
  {
    if lead == "" {
      assert lead + tail == tail;
    } else {
      assert (lead + tail)[0] == lead[0] && (lead + tail)[1..] == lead[1..] + tail;
      TrimStartOf(lead[1..], tail);
    }
  }

  lemma {:induction false} SanitizedTail(lead: string, tail: string)
    requires IsLead(lead, tail)
    ensures TrimStart(Sanitized(lead + tail)) == tail
  {
    var u := Sanitized(lead + tail);
    LeadIsSanitized(lead, tail);
    assert u == u[..|lead|] + tail;
    TrimStartOf(u[..|lead|], tail);
  }

  /**
   The executed form of any accepted text controls no transaction, or begins with a string constant, which the server
   refuses before it executes anything.
   */
  lemma {:induction false} ExecutedTextIsPlainOrRefused(sql: string, t: string)
    requires WithoutOuterPair(sql) == Sql(t)
    ensures AllPlain(Program(Sanitized(t))) || BeginsWithString(Sanitized(t))
  {
    var tail := TrimStart(t);
    var lead := t[..|t| - |tail|];
    assert lead + tail == t;
    TrimmedIsBlank(t);
    UnwrappingPreservesTheProgram(sql);
    if SafeJoin(lead, tail) {
      CleanupIsHarmless(lead, tail);
      ProgramFollowsScan(Sanitized(t), t);
    } else {
      SanitizedTail(lead, tail);
    }
  }

  /** The second case occurs: an accepted text whose executed form has a COMMIT at the top level. */
  lemma {:induction false} AcceptedTextThatCommits()
    ensures var sql := [BOM] + HIDDEN;
            && WithoutOuterPair(sql) == Sql(sql)
            && !AllPlain(Program(Sanitized(sql)))
            && BeginsWithString(Sanitized(sql))
  {
    var sql := [BOM] + HIDDEN;
    HiddenIsPlain([BOM]);
    HiddenControls([BOM]);
    UnwrapOutcome(sql, Program(sql));
    ExecutedTextIsPlainOrRefused(sql, sql);
  }

  // ---------------------------------------------------------------- the function that migrations call

  /** The statements that control the transaction, each with its kind, in order. */
  method Controls(statements: seq<Statement>, kindOf: string -> Control) returns (controls: seq<Controlled>)
    ensures controls == Filtered(Classified(statements, kindOf))
  {
    controls := [];
    for i := 0 to |statements|
      invariant controls + Filtered(Classified(statements[i..], kindOf)) == Filtered(Classified(statements, kindOf))
    {
      assert statements[i..][1..] == statements[i + 1..];
      var control := Controlled(statements[i], kindOf(statements[i].text));
      if !control.kind.NoControl? { controls := controls + [control]; }
    }
  }

  /** One outer pair blanked, the last statement first; any other transaction control is refused. */
  method BlankOuterPair(sql: string, statements: seq<Statement>, kindOf: string -> Control) returns (executable: Executable)
    requires Placed(Classified(statements, kindOf), sql)
    ensures executable == Unwrap(sql, Classified(statements, kindOf))
  {
    var controls := Controls(statements, kindOf);
    if statements != [] {
      ClassifiedAt(statements, kindOf, 0);
      ClassifiedAt(statements, kindOf, |statements| - 1);
    }
    if |controls| == 2 && controls[0].kind.Begin? && controls[1].kind.Commit?
       && statements != [] && controls[0].statement.start == statements[0].start
       && controls[1].statement.start == statements[|statements| - 1].start
    {
      var text := BlankStatement(sql, controls[1].statement.start, controls[1].statement.end);
      text := BlankStatement(text, controls[0].statement.start, controls[0].statement.end);
      return Sql(text);
    }
    executable := if controls != [] then UnsupportedTransactionControl else Sql(sql);
  }

  method UnwrapPatch(sql: string, kindOf: string -> Control) returns (executable: Executable)
    ensures Placed(Classified(Scan(sql), kindOf), sql) && executable == Unwrap(sql, Classified(Scan(sql), kindOf))
  {
    var statements := TopLevelSqlStatements(sql);
    ScanIsWellFormed(sql);
    ClassifiedIsPlaced(statements, kindOf, sql);
    executable := BlankOuterPair(sql, statements, kindOf);
  }

  /** What is sent to the server, unless the patch is refused. */
  function Executed(sql: string): Executable {
    match WithoutOuterPair(sql)
    case UnsupportedTransactionControl => UnsupportedTransactionControl
    case Sql(text) => Sql(Sanitized(text))
  }

  /**
   A patch is refused exactly when its transaction control is anything but one outer pair; otherwise the executed form
   has its length, and controls no transaction or is refused by the server.
   */
  lemma {:induction false} ExecutedFormIsSafe(sql: string)
    ensures Executed(sql).Sql? <==> AllPlain(Program(sql)) || Wrapped(Program(sql))
    ensures Executed(sql).Sql? ==> |Executed(sql).sql| == |sql|
    ensures Executed(sql).Sql? ==> AllPlain(Program(Executed(sql).sql)) || BeginsWithString(Executed(sql).sql)
  {
    AcceptedExactlyWhen(sql);
    match WithoutOuterPair(sql)
    case UnsupportedTransactionControl =>
    case Sql(t) =>
      ExecutedTextIsPlainOrRefused(sql, t);
      LayoutSurvives(sql, Program(sql), t);
  }

  method SanitizeExecutable(unwrapped: Executable) returns (executable: Executable)
    ensures executable == match unwrapped
                          case UnsupportedTransactionControl => UnsupportedTransactionControl
                          case Sql(text) => Sql(Sanitized(text))
  {
    match unwrapped
    case UnsupportedTransactionControl => executable := unwrapped;
    case Sql(text) =>
      var sanitized := SanitizeLeadingBom(text);
      executable := Sql(sanitized);
  }

  method SqlWithoutOuterTransaction(sql: string) returns (executable: Executable)
    ensures executable == Executed(sql)
    ensures executable.Sql? <==> AllPlain(Program(sql)) || Wrapped(Program(sql))
    ensures executable.Sql? ==> |executable.sql| == |sql|
    ensures executable.Sql? ==> AllPlain(Program(executable.sql)) || BeginsWithString(executable.sql)
  {
    var unwrapped := UnwrapPatch(sql, TransactionControlKind);
    executable := SanitizeExecutable(unwrapped);
    ExecutedFormIsSafe(sql);
  }
}
