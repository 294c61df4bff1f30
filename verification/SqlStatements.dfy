/** Where statements lie in a text: in order, apart, and with nothing but blanks, comments and semicolons around them. */
module SqlStatements {
  import opened JsText
  import opened Options
  import opened SqlScanner

  /** A token that neither begins nor belongs to a statement when none is being collected. */
  predicate IsIdle(kind: Kind) {
    kind.LineComment? || kind.BlockComment? || kind.Space? || kind.Semicolon?
  }

  ghost predicate Open(p: Pending, i: nat) {
    p.start.Some? && p.start.value < i && !IsBlank(p.text)
  }

  lemma {:induction false} NotBlankAfter(text: string, more: string)
    requires !IsBlank(text) || !IsBlank(more)
    ensures !IsBlank(text + more)
  {
    if !IsBlank(text) {
      var k :| 0 <= k < |text| && !IsSpace(text[k]);
      assert (text + more)[k] == text[k];
    } else {
      var k :| 0 <= k < |more| && !IsSpace(more[k]);
      assert (text + more)[|text| + k] == more[k];
    }
  }

  lemma {:induction false} PlaceholdersAreNotBlank()
    ensures !IsBlank(LITERAL) && !IsBlank(IDENTIFIER) && !IsBlank(DOLLAR_QUOTED)
  {
    assert LITERAL[1] == '\'' && IDENTIFIER[1] == '"' && DOLLAR_QUOTED[1] == '$';
  }

  /** A token that begins a statement leaves it open; an open statement stays open until a semicolon. */
  lemma {:induction false} AbsorbKeepsOpen(p: Pending, x: Lexeme)
    requires x.start < x.end && !x.kind.Semicolon? && (x.kind.Other? ==> !IsSpace(x.c))
    requires Open(p, x.start) || (p == NOTHING && !IsIdle(x.kind))
    ensures Open(Absorb(p, x), x.end)
    ensures Absorb(p, x).start == (if p.start.Some? then p.start else Some(x.start))
  {
    PlaceholdersAreNotBlank();
    match x.kind
    case LineComment => NotBlankAfter(p.text, " ");
    case BlockComment => NotBlankAfter(p.text, " ");
    case Quoted(q) => NotBlankAfter(p.text, if q == '\'' then LITERAL else IDENTIFIER);
    case Dollar => NotBlankAfter(p.text, DOLLAR_QUOTED);
    case Space => NotBlankAfter(p.text, [x.c]);
    case Other =>
      assert [x.c][0] == x.c;
      NotBlankAfter(p.text, [x.c]);
  }

  /** The first statement of `found` began at `start` and ends at or after `i`, at a semicolon or with the text. */
  ghost predicate Closes(sql: string, found: seq<Statement>, start: nat, i: nat) {
    && found != [] && found[0].start == start && found[0].text != ""
    && i <= found[0].end <= |sql| && (i < |sql| ==> i < found[0].end)
    && (found[0].end < |sql| ==> 0 < found[0].end && sql[found[0].end - 1] == ';')
    && found[1..] == Rest(sql, found[0].end, NOTHING)
  }

  lemma {:induction false} FlushOpen(p: Pending, i: nat, end: nat)
    requires Open(p, i)
    ensures Flush(p, end) == [Statement(p.start.value, end, Trim(p.text))] && Trim(p.text) != ""
  {
  }

  lemma {:induction false} ClosesWith(sql: string, found: seq<Statement>, s: Statement, i: nat)
    requires i <= s.end <= |sql| && s.text != "" && (i < |sql| ==> i < s.end)
    requires s.end < |sql| ==> 0 < s.end && sql[s.end - 1] == ';'
    requires found == [s] + Rest(sql, s.end, NOTHING)
    ensures Closes(sql, found, s.start, i)
  {
  }

  lemma {:induction false} ClosesWithText(sql: string, p: Pending)
    requires Open(p, |sql|)
    ensures Closes(sql, Rest(sql, |sql|, p), p.start.value, |sql|)
  {
    FlushOpen(p, |sql|, |sql|);
    assert Rest(sql, |sql|, NOTHING) == [];
    ClosesWith(sql, Rest(sql, |sql|, p), Statement(p.start.value, |sql|, Trim(p.text)), |sql|);
  }

  lemma {:induction false} ClosesAtSemicolon(sql: string, i: nat, p: Pending)
    requires i < |sql| && Open(p, i) && LexemeAt(sql, i).kind.Semicolon?
    ensures Closes(sql, Rest(sql, i, p), p.start.value, i)
  {
    var end := LexemeAt(sql, i).end;
    RestSteps(sql, i, p);
    FlushOpen(p, i, end);
    ClosesWith(sql, Rest(sql, i, p), Statement(p.start.value, end, Trim(p.text)), i);
  }

  lemma {:induction false} ClosesLater(sql: string, found: seq<Statement>, start: nat, i: nat, j: nat)
    requires Closes(sql, found, start, j) && i < j
    ensures Closes(sql, found, start, i)
  {
  }

  /** How the statement being collected ends, and where the scan goes on after it. */
  lemma {:induction false} OpenStatement(sql: string, i: nat, p: Pending)
    requires i <= |sql| && Open(p, i)
    ensures Closes(sql, Rest(sql, i, p), p.start.value, i)
    decreases |sql| - i
  {
    if i == |sql| {
      ClosesWithText(sql, p);
    } else if LexemeAt(sql, i).kind.Semicolon? {
      ClosesAtSemicolon(sql, i, p);
    } else {
      var x := LexemeAt(sql, i);
      RestSteps(sql, i, p);
      AbsorbKeepsOpen(p, x);
      OpenStatement(sql, x.end, Absorb(p, x));
      ClosesLater(sql, Rest(sql, i, p), p.start.value, i, x.end);
    }
  }

  lemma {:induction false} IdleIsSkipped(sql: string, i: nat)
    requires i < |sql| && IsIdle(LexemeAt(sql, i).kind)
    ensures Rest(sql, i, NOTHING) == Rest(sql, LexemeAt(sql, i).end, NOTHING)
  {
    RestSteps(sql, i, NOTHING);
  }

  lemma {:induction false} BeginsHere(sql: string, i: nat)
    requires i < |sql| && !IsIdle(LexemeAt(sql, i).kind)
    ensures Closes(sql, Rest(sql, i, NOTHING), i, LexemeAt(sql, i).end) && !IsSpace(sql[i])
    ensures Rest(sql, i, NOTHING) == Rest(sql, LexemeAt(sql, i).end, Absorb(NOTHING, LexemeAt(sql, i)))
    ensures Open(Absorb(NOTHING, LexemeAt(sql, i)), LexemeAt(sql, i).end)
    ensures Absorb(NOTHING, LexemeAt(sql, i)).start == Some(i)
  {
    var x := LexemeAt(sql, i);
    RestSteps(sql, i, NOTHING);
    AbsorbKeepsOpen(NOTHING, x);
    OpenStatement(sql, x.end, Absorb(NOTHING, x));
  }

  // ---------------------------------------------------------------- well-formedness

  /** Statements in order from `from` on: non-empty, disjoint, inside the text, beginning with something visible. */
  ghost predicate InOrder(found: seq<Statement>, sql: string, from: nat) {
    found == [] ||
    (&& from <= found[0].start < found[0].end <= |sql|
     && !IsSpace(sql[found[0].start]) && found[0].text != ""
     && InOrder(found[1..], sql, found[0].end))
  }

  lemma {:induction false} InOrderSooner(found: seq<Statement>, sql: string, from: nat, later: nat)
    requires InOrder(found, sql, later) && from <= later
    ensures InOrder(found, sql, from)
  {
  }

  lemma {:induction false} ScanInOrder(sql: string, i: nat)
    requires i <= |sql|
    ensures InOrder(Rest(sql, i, NOTHING), sql, i)
    decreases |sql| - i
  {
    if i < |sql| {
      var x := LexemeAt(sql, i);
      if IsIdle(x.kind) {
        IdleIsSkipped(sql, i);
        ScanInOrder(sql, x.end);
        InOrderSooner(Rest(sql, i, NOTHING), sql, i, x.end);
      } else {
        BeginsHere(sql, i);
        ScanInOrder(sql, Rest(sql, i, NOTHING)[0].end);
      }
    }
  }

  lemma {:induction false} InOrderPairwise(found: seq<Statement>, sql: string, from: nat, j: nat, k: nat)
    requires InOrder(found, sql, from) && j <= k < |found|
    ensures from <= found[j].start < found[j].end <= |sql| && found[j].text != ""
    ensures !IsSpace(sql[found[j].start])
    ensures j < k ==> found[j].end <= found[k].start
  {
    if 0 < j {
      InOrderPairwise(found[1..], sql, found[0].end, j - 1, k - 1);
    } else if 0 < k {
      InOrderPairwise(found[1..], sql, found[0].end, k - 1, k - 1);
    }
  }

  /** A token of the open statement's text lies inside it, or comes after it. */
  lemma {:induction false} InsideOpen(sql: string, i: nat, p: Pending, x: Lexeme)
    requires i <= |sql| && Open(p, i) && x in Lex(sql, i)
    ensures Rest(sql, i, p) != [] && Rest(sql, i, p)[0].end <= |sql|
    ensures (x.end <= Rest(sql, i, p)[0].end && p.start.value <= x.start) || x in Lex(sql, Rest(sql, i, p)[0].end)
    decreases |sql| - i
  {
    OpenStatement(sql, i, p);
    if i < |sql| {
      var y := LexemeAt(sql, i);
      RestSteps(sql, i, p);
      if !y.kind.Semicolon? {
        AbsorbKeepsOpen(p, y);
        OpenStatement(sql, y.end, Absorb(p, y));
        if x != y { InsideOpen(sql, y.end, Absorb(p, y), x); }
      }
    }
  }

  ghost predicate Covered(found: seq<Statement>, x: Lexeme) {
    exists k :: 0 <= k < |found| && found[k].start <= x.start && x.end <= found[k].end
  }

  lemma {:induction false} OutsideIsIdle(sql: string, i: nat, x: Lexeme)
    requires i <= |sql| && x in Lex(sql, i)
    ensures IsIdle(x.kind) || Covered(Rest(sql, i, NOTHING), x)
    decreases |sql| - i
  {
    if i < |sql| {
      var y := LexemeAt(sql, i);
      var found := Rest(sql, i, NOTHING);
      if IsIdle(y.kind) {
        IdleIsSkipped(sql, i);
        if x != y { OutsideIsIdle(sql, y.end, x); }
      } else if x == y {
        BeginsHere(sql, i);
        assert Covered(found, x);
      } else {
        BeginsHere(sql, i);
        InsideOpen(sql, y.end, Absorb(NOTHING, y), x);
        if x.end <= found[0].end && i <= x.start {
          assert Covered(found, x);
        } else {
          OutsideIsIdle(sql, found[0].end, x);
          if !IsIdle(x.kind) {
            var k :| 0 <= k < |found[1..]| && found[1..][k].start <= x.start && x.end <= found[1..][k].end;
            assert found[k + 1] == found[1..][k];
          }
        }
      }
    }
  }

  /** Tokens that tile the text from `from` on: each begins where the one before ended, and the last ends with the text. */
  ghost predicate Tiles(xs: seq<Lexeme>, sql: string, from: nat) {
    if xs == [] then from == |sql|
    else from == xs[0].start < xs[0].end <= |sql| && xs[0] == LexemeAt(sql, from) && Tiles(xs[1..], sql, xs[0].end)
  }

  lemma {:induction false} TokensTile(sql: string, i: nat)
    requires i <= |sql|
    ensures Tiles(Lex(sql, i), sql, i)
    decreases |sql| - i
  {
    if i < |sql| {
      TokensTile(sql, LexemeAt(sql, i).end);
      assert Lex(sql, i)[1..] == Lex(sql, LexemeAt(sql, i).end);
    }
  }

  /**
   The statements of any text are non-empty, in order and disjoint, and every token outside them is white space (the
   byte-order mark included), a comment or a bare semicolon. The tokens tile the text.
   */
  lemma {:induction false} ScanIsWellFormed(sql: string)
    ensures Tiles(Lex(sql, 0), sql, 0)
    ensures forall j :: 0 <= j < |Scan(sql)| ==>
              Scan(sql)[j].start < Scan(sql)[j].end <= |sql| && Scan(sql)[j].text != ""
    ensures forall j, k :: 0 <= j < k < |Scan(sql)| ==> Scan(sql)[j].end <= Scan(sql)[k].start
    ensures forall x :: x in Lex(sql, 0) ==> IsIdle(x.kind) || Covered(Scan(sql), x)
  {
    TokensTile(sql, 0);
    ScanInOrder(sql, 0);
    forall j, k | 0 <= j <= k < |Scan(sql)|
      ensures Scan(sql)[j].start < Scan(sql)[j].end <= |sql| && Scan(sql)[j].text != ""
      ensures j < k ==> Scan(sql)[j].end <= Scan(sql)[k].start
    {
      InOrderPairwise(Scan(sql), sql, 0, j, k);
    }
    forall x | x in Lex(sql, 0) ensures IsIdle(x.kind) || Covered(Scan(sql), x) {
      OutsideIsIdle(sql, 0, x);
    }
  }
}
