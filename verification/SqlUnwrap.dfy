/** Taking the outer BEGIN and COMMIT out of a patch without touching anything else. */
module SqlUnwrap {
  import opened JsText
  import opened SqlScanner
  import opened SqlStatements
  import opened SqlLocality

  // ---------------------------------------------------------------- transaction control

  datatype Control = NoControl | Begin | Commit | Unsupported

  /** Upper case as JavaScript has it, for every character with an ASCII letter in its upper case. */
  function UpperChar(c: char): string {
    if 'a' <= c <= 'z' then [(c as int - 'a' as int + 'A' as int) as char]
    else match c
         case '\U{00DF}' => "SS"
         case '\U{0131}' => "I"
         case '\U{0149}' => ['\U{02BC}', 'N']
         case '\U{017F}' => "S"
         case '\U{01F0}' => ['J', '\U{030C}']
         case '\U{1E96}' => ['H', '\U{0331}']
         case '\U{1E97}' => ['T', '\U{0308}']
         case '\U{1E98}' => ['W', '\U{030A}']
         case '\U{1E99}' => ['Y', '\U{030A}']
         case '\U{1E9A}' => ['A', '\U{02BE}']
         case '\U{FB00}' => "FF"
         case '\U{FB01}' => "FI"
         case '\U{FB02}' => "FL"
         case '\U{FB03}' => "FFI"
         case '\U{FB04}' => "FFL"
         case '\U{FB05}' => "ST"
         case '\U{FB06}' => "ST"
         case _ => [c]
  }

  function Upper(s: string): string {
    if s == "" then "" else UpperChar(s[0]) + Upper(s[1..])
  }

  /** Every run of white space becomes one space. */
  function Collapse(s: string): string {
    if s == "" then ""
    else if IsSpace(s[0]) && 1 < |s| && IsSpace(s[1]) then Collapse(s[1..])
    else [if IsSpace(s[0]) then ' ' else s[0]] + Collapse(s[1..])
  }

  function Normalized(text: string): string { Upper(Trim(Collapse(text))) }

  function BeginPhrase(k: nat): string {
    match k
    case 0 => "BEGIN"
    case 1 => "BEGIN WORK"
    case 2 => "BEGIN TRANSACTION"
    case _ => "START TRANSACTION"
  }

  function CommitPhrase(k: nat): string {
    match k
    case 0 => "COMMIT"
    case 1 => "COMMIT WORK"
    case _ => "COMMIT TRANSACTION"
  }

  function ControlPhrase(k: nat): string {
    match k
    case 0 => "BEGIN"
    case 1 => "START TRANSACTION"
    case 2 => "COMMIT"
    case 3 => "END"
    case 4 => "ROLLBACK"
    case 5 => "ABORT"
    case 6 => "SAVEPOINT"
    case 7 => "RELEASE"
    case 8 => "RELEASE SAVEPOINT"
    case 9 => "PREPARE TRANSACTION"
    case 10 => "COMMIT PREPARED"
    case 11 => "ROLLBACK PREPARED"
    case 12 => "SET TRANSACTION"
    case 13 => "SET LOCAL TRANSACTION"
    case _ => "SET SESSION CHARACTERISTICS AS TRANSACTION"
  }

  /** The text is one of the first `n` phrases. */
  predicate IsPhrase(text: string, phrase: nat -> string, n: nat) {
    exists k: nat | k < n :: text == phrase(k)
  }

  /** The text is one of the first `n` phrases, or begins with one and a space. */
  predicate BeginsWithPhrase(text: string, phrase: nat -> string, n: nat) {
    exists k: nat | k < n :: text == phrase(k) || phrase(k) + " " <= text
  }

  function TransactionControlKind(text: string): Control { KindOf(Normalized(text)) }

  function KindOf(normalized: string): Control {
    if IsPhrase(normalized, BeginPhrase, 4) then Begin
    else if IsPhrase(normalized, CommitPhrase, 3) then Commit
    else if BeginsWithPhrase(normalized, ControlPhrase, 15) then Unsupported
    else NoControl
  }

  // ---------------------------------------------------------------- blanking one statement

  function BlankChars(s: string): (r: string)
    ensures |r| == |s|
    ensures forall k :: 0 <= k < |s| ==> r[k] == (if IsNewline(s[k]) then s[k] else ' ')
  {
    seq(|s|, k requires 0 <= k < |s| => if IsNewline(s[k]) then s[k] else ' ')
  }

  /** The text with everything but line ends blanked on `[start, end)`. */
  function BlankStatement(sql: string, start: nat, end: nat): (r: string)
    requires start <= end <= |sql|
    ensures |r| == |sql|
    ensures forall k :: 0 <= k < |sql| ==>
              r[k] == if start <= k < end && !IsNewline(sql[k]) then ' ' else sql[k]
  {
    sql[..start] + BlankChars(sql[start..end]) + sql[end..]
  }

  /** Blank characters are skipped one by one. */
  lemma {:induction false} SpacesAreSkipped(sql: string, i: nat, j: nat)
    requires i <= j <= |sql| && forall k :: i <= k < j ==> IsSpace(sql[k])
    ensures Rest(sql, i, NOTHING) == Rest(sql, j, NOTHING)
    decreases j - i
  {
    if i < j {
      assert IsSpace(sql[i]);
      assert LexemeAt(sql, i).kind.Space? && LexemeAt(sql, i).end == i + 1;
      IdleIsSkipped(sql, i);
      SpacesAreSkipped(sql, i + 1, j);
    }
  }

  /** A token that is read alike in both texts. */
  lemma {:induction false} SameLexeme(a: string, b: string, i: nat, p: nat)
    requires i < p <= |a| && SameBefore(a, b, i) && Same(a, b, i, p) && Sealed(b, p)
    requires LexemeAt(a, i).end <= p && EndsBefore(TokenAt(a, i), p, |a|)
    ensures LexemeAt(b, i) == LexemeAt(a, i) && SameBefore(a, b, LexemeAt(a, i).end)
  {
    TokenReads(a, b, i, p);
    SameBeforeNext(a, b, i, TokenAt(a, i).end);
  }

  /** A statement that ends at or before `p` is found alike in a text that agrees up to `p`. */
  lemma {:induction false} SameStatement(a: string, b: string, i: nat, pending: Pending, p: nat)
    requires i <= p <= |a| && Open(pending, i) && SameBefore(a, b, i) && Same(a, b, i, p) && Sealed(b, p)
    requires Rest(a, i, pending) != [] && Rest(a, i, pending)[0].end <= p
    ensures var s := Rest(a, i, pending)[0];
            && Rest(b, i, pending) != [] && Rest(b, i, pending)[0] == s
            && Rest(b, i, pending)[1..] == Rest(b, s.end, NOTHING)
            && SameBefore(a, b, s.end)
    decreases |a| - i
  {
    OpenStatement(a, i, pending);
    OpenStatement(b, i, pending);
    if i < |a| {
      var x := LexemeAt(a, i);
      RestSteps(a, i, pending);
      if !x.kind.Semicolon? {
        AbsorbKeepsOpen(pending, x);
        OpenStatement(a, x.end, Absorb(pending, x));
      } else {
        FlushOpen(pending, i, x.end);
      }
      SameLexeme(a, b, i, p);
      RestSteps(b, i, pending);
      if !x.kind.Semicolon? {
        SameStatement(a, b, x.end, Absorb(pending, x), p);
      }
    } else {
      FlushOpen(pending, i, i);
    }
  }

  /** `b` is `a` with one statement's characters replaced by blanks of the same width. */
  ghost predicate Blanked(a: string, b: string, s: Statement) {
    && |a| == |b| && s.start < s.end <= |a|
    && (forall k :: 0 <= k < |a| && !(s.start <= k < s.end) ==> b[k] == a[k])
    && (forall k :: s.start <= k < s.end ==> IsSpace(b[k]))
    && (forall k :: s.start <= k < s.end ==> !IsIdentifierContinuation(b[k]))
  }

  lemma {:induction false} BlankStatementBlanks(sql: string, s: Statement)
    requires s.start < s.end <= |sql|
    ensures Blanked(sql, BlankStatement(sql, s.start, s.end), s)
  {
  }

  /** Behind a semicolon or a blank, nothing before matters. */
  lemma {:induction false} SameAfterStatement(a: string, b: string, s: Statement)
    requires Blanked(a, b, s) && (s.end < |a| ==> a[s.end - 1] == ';')
    ensures Rest(b, s.end, NOTHING) == Rest(a, s.end, NOTHING)
  {
    if s.end < |a| {
      assert b[s.end - 1] != 'e' && b[s.end - 1] != 'E';
      LexReads(a, b, s.end);
    }
  }

  lemma {:induction false} BlankRemovesFirst(a: string, b: string, i: nat, s: Statement)
    requires i < |a| && Closes(a, Rest(a, i, NOTHING), i, i) && s == Rest(a, i, NOTHING)[0]
    requires Blanked(a, b, s)
    ensures Rest(b, i, NOTHING) == Rest(a, i, NOTHING)[1..]
  {
    SameAfterStatement(a, b, s);
    SpacesAreSkipped(b, i, s.end);
  }

  /** An idle token in front of the blanked statement is read alike in both texts. */
  lemma {:induction false} IdleBefore(a: string, b: string, s: Statement, i: nat)
    requires i < |a| && Blanked(a, b, s) && SameBefore(a, b, i) && !IsSpace(a[s.start])
    requires IsIdle(LexemeAt(a, i).kind) && LexemeAt(a, i).end <= s.start
    ensures LexemeAt(b, i) == LexemeAt(a, i) && SameBefore(a, b, LexemeAt(a, i).end)
  {
    assert IsSpace(b[s.start]);
    LineCommentEndsAtNewline(a, i);
    SameLexeme(a, b, i, s.start);
  }

  lemma {:induction false} LineCommentEndsAtNewline(sql: string, i: nat)
    requires i < |sql|
    ensures var t := TokenAt(sql, i); t.kind.LineComment? && t.end < |sql| ==> IsSpace(sql[t.end])
  {
  }

  /** A whole statement in front of the blanked one is found alike in both texts. */
  lemma {:induction false} StatementBefore(a: string, b: string, s: Statement, i: nat)
    requires i < |a| && Blanked(a, b, s) && SameBefore(a, b, i) && !IsIdle(LexemeAt(a, i).kind)
    requires Rest(a, i, NOTHING) != [] && Rest(a, i, NOTHING)[0].end <= s.start
    ensures var f := Rest(a, i, NOTHING)[0];
            && i < f.end <= |a| && Rest(a, i, NOTHING)[1..] == Rest(a, f.end, NOTHING)
            && Rest(b, i, NOTHING) == [f] + Rest(b, f.end, NOTHING)
            && SameBefore(a, b, f.end)
  {
    BeginsHere(a, i);
    var x := LexemeAt(a, i);
    assert IsSpace(b[s.start]);
    SameLexeme(a, b, i, s.start);
    BeginsHere(b, i);
    SameStatement(a, b, x.end, Absorb(NOTHING, x), s.start);
  }

  function RemoveAt<T>(xs: seq<T>, k: nat): seq<T>
    requires k < |xs|
  {
    xs[..k] + xs[k + 1..]
  }

  lemma {:induction false} RemoveLater<T>(xs: seq<T>, k: nat)
    requires 0 < k < |xs|
    ensures xs[1..][k - 1] == xs[k] && RemoveAt(xs, k) == [xs[0]] + RemoveAt(xs[1..], k - 1)
  {
  }

  lemma {:induction false} BlankIsBelow(a: string, i: nat, k: nat)
    requires i <= |a| && k < |Rest(a, i, NOTHING)|
    ensures var s := Rest(a, i, NOTHING)[k];
            i <= s.start < s.end <= |a| && !IsSpace(a[s.start]) && (0 < k ==> Rest(a, i, NOTHING)[0].end <= s.start)
  {
    ScanInOrder(a, i);
    InOrderPairwise(Rest(a, i, NOTHING), a, i, 0, k);
    InOrderPairwise(Rest(a, i, NOTHING), a, i, k, k);
  }

  /** Blanking one statement of a scan removes exactly that statement; every other keeps its start, end and text. */
  lemma {:induction false} BlankRemoves(a: string, b: string, i: nat, k: nat)
    requires i < |a| && SameBefore(a, b, i)
    requires k < |Rest(a, i, NOTHING)| && Blanked(a, b, Rest(a, i, NOTHING)[k])
    ensures Rest(b, i, NOTHING) == RemoveAt(Rest(a, i, NOTHING), k)
    decreases |a| - i, 1
  {
    var s := Rest(a, i, NOTHING)[k];
    BlankIsBelow(a, i, k);
    if IsIdle(LexemeAt(a, i).kind) {
      BlankRemovesBehindIdle(a, b, i, k);
    } else {
      BeginsHere(a, i);
      ClosesLater(a, Rest(a, i, NOTHING), i, i, LexemeAt(a, i).end);
      if k == 0 {
        BlankRemovesFirst(a, b, i, s);
      } else {
        BlankRemovesBehindStatement(a, b, i, k);
      }
    }
  }

  lemma {:induction false} BlankRemovesBehindIdle(a: string, b: string, i: nat, k: nat)
    requires i < |a| && SameBefore(a, b, i) && IsIdle(LexemeAt(a, i).kind)
    requires k < |Rest(a, i, NOTHING)| && Blanked(a, b, Rest(a, i, NOTHING)[k])
    ensures Rest(b, i, NOTHING) == RemoveAt(Rest(a, i, NOTHING), k)
    decreases |a| - i, 0
  {
    var end := LexemeAt(a, i).end;
    IdleIsSkipped(a, i);
    BlankIsBelow(a, end, k);
    IdleBefore(a, b, Rest(a, i, NOTHING)[k], i);
    IdleIsSkipped(b, i);
    BlankRemoves(a, b, end, k);
  }

  lemma {:induction false} BlankRemovesBehindStatement(a: string, b: string, i: nat, k: nat)
    requires i < |a| && SameBefore(a, b, i) && !IsIdle(LexemeAt(a, i).kind)
    requires 0 < k < |Rest(a, i, NOTHING)| && Blanked(a, b, Rest(a, i, NOTHING)[k])
    requires Rest(a, i, NOTHING)[0].end <= Rest(a, i, NOTHING)[k].start
    ensures Rest(b, i, NOTHING) == RemoveAt(Rest(a, i, NOTHING), k)
    decreases |a| - i, 0
  {
    var found := Rest(a, i, NOTHING);
    StatementBefore(a, b, found[k], i);
    RemoveLater(found, k);
    BlankRemoves(a, b, found[0].end, k - 1);
  }
}
