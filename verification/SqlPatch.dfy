/** The executable form of a patch: without its outer transaction and without leading byte-order marks. */
module SqlPatch {
  import opened JsText
  import opened SqlScanner
  import opened SqlStatements
  import opened SqlLocality
  import opened SqlUnwrap

  datatype Controlled = Controlled(statement: Statement, kind: Control)

  datatype Executable = Sql(sql: string) | UnsupportedTransactionControl

  /** Each statement with what `kindOf` says about its text. */
  function Classified(statements: seq<Statement>, kindOf: string -> Control): (r: seq<Controlled>)
    ensures |r| == |statements|
  {
    if statements == [] then []
    else [Controlled(statements[0], kindOf(statements[0].text))] + Classified(statements[1..], kindOf)
  }

  lemma {:induction false} ClassifiedAt(statements: seq<Statement>, kindOf: string -> Control, k: nat)
    requires k < |statements|
    ensures Classified(statements, kindOf)[k] == Controlled(statements[k], kindOf(statements[k].text))
  {
    if 0 < k { ClassifiedAt(statements[1..], kindOf, k - 1); }
  }

  function Filtered(all: seq<Controlled>): (r: seq<Controlled>)
    ensures |r| <= |all| && forall c :: c in r ==> c in all
  {
    if all == [] then [] else (if all[0].kind.NoControl? then [] else [all[0]]) + Filtered(all[1..])
  }

  /** The controls are one BEGIN that is the first statement and one COMMIT that is the last. */
  predicate OnlyOuterPair(all: seq<Controlled>, controls: seq<Controlled>) {
    && |controls| == 2 && controls[0].kind.Begin? && controls[1].kind.Commit?
    && all != [] && controls[0].statement.start == all[0].statement.start
    && controls[1].statement.start == all[|all| - 1].statement.start
  }

  /** The last statement is blanked first, so that the positions of the first still hold. */
  function BlankBoth(sql: string, first: Statement, last: Statement): string
    requires first.start <= first.end <= |sql| && last.start <= last.end <= |sql|
  {
    BlankStatement(BlankStatement(sql, last.start, last.end), first.start, first.end)
  }

  /** The classified statements lie inside the text, in order. */
  ghost predicate Placed(all: seq<Controlled>, sql: string) {
    && (forall c :: c in all ==> c.statement.start < c.statement.end <= |sql|)
    && forall j, k :: 0 <= j < k < |all| ==> all[j].statement.start < all[k].statement.start
  }

  /** One outer pair is blanked; any other transaction control is refused. */
  function Unwrap(sql: string, all: seq<Controlled>): Executable
    requires Placed(all, sql)
  {
    var controls := Filtered(all);
    if OnlyOuterPair(all, controls) then Sql(BlankBoth(sql, controls[0].statement, controls[1].statement))
    else if controls != [] then UnsupportedTransactionControl
    else Sql(sql)
  }

  /** The statements of a text, each with its transaction-control kind. */
  function Program(sql: string): (all: seq<Controlled>)
    ensures Placed(all, sql)
  {
    ProgramIsPlaced(sql);
    Classified(Scan(sql), TransactionControlKind)
  }

  lemma {:induction false} ClassifiedIsPlaced(statements: seq<Statement>, kindOf: string -> Control, sql: string)
    requires forall k :: 0 <= k < |statements| ==> statements[k].start < statements[k].end <= |sql|
    requires forall j, k :: 0 <= j < k < |statements| ==> statements[j].end <= statements[k].start
    ensures Placed(Classified(statements, kindOf), sql)
  {
    forall k | 0 <= k < |statements| ensures Classified(statements, kindOf)[k].statement == statements[k] {
      ClassifiedAt(statements, kindOf, k);
    }
    forall j, k | 0 <= j < k < |statements|
      ensures Classified(statements, kindOf)[j].statement.start < Classified(statements, kindOf)[k].statement.start
    {
      assert statements[j].end <= statements[k].start;
    }
  }

  lemma {:induction false} ProgramIsPlaced(sql: string)
    ensures Placed(Classified(Scan(sql), TransactionControlKind), sql)
  {
    ScanIsWellFormed(sql);
    ClassifiedIsPlaced(Scan(sql), TransactionControlKind, sql);
  }

  lemma {:induction false} ProgramFollowsScan(a: string, b: string)
    requires Scan(a) == Scan(b)
    ensures Program(a) == Program(b)
  {
  }

  function WithoutOuterPair(sql: string): Executable { Unwrap(sql, Program(sql)) }

  // ---------------------------------------------------------------- leading byte-order marks

  /** Every byte-order mark in the leading run of white space becomes a space. */
  function Sanitized(sql: string): (r: string)
    ensures |r| == |sql|
  {
    if sql == "" || !IsSpace(sql[0]) then sql
    else [if sql[0] == BOM then ' ' else sql[0]] + Sanitized(sql[1..])
  }

  /** How far the white space other than byte-order marks reaches. */
  function LeadingBlanks(sql: string): (n: nat)
    ensures n <= |sql| && forall k :: 0 <= k < n ==> IsSpace(sql[k]) && sql[k] != BOM
    ensures n < |sql| ==> !IsSpace(sql[n]) || sql[n] == BOM
  {
    if sql != "" && IsSpace(sql[0]) && sql[0] != BOM then 1 + LeadingBlanks(sql[1..]) else 0
  }

  /** One replacement of the loop below changes nothing about where it ends. */
  lemma {:induction false} ReplacingOne(sql: string, n: nat)
    requires n < |sql| && n == LeadingBlanks(sql) && sql[n] == BOM
    ensures Sanitized(sql[n := ' ']) == Sanitized(sql) && n < LeadingBlanks(sql[n := ' '])
  {
    var next := sql[n := ' '];
    if 0 < n {
      assert next[1..] == sql[1..][n - 1 := ' '];
      ReplacingOne(sql[1..], n - 1);
    } else {
      assert next[1..] == sql[1..];
    }
  }

  lemma {:induction false} NothingToReplace(sql: string)
    requires var n := LeadingBlanks(sql); n == |sql| || sql[n] != BOM
    ensures Sanitized(sql) == sql
  {
    if sql != "" && IsSpace(sql[0]) && sql[0] != BOM {
      NothingToReplace(sql[1..]);
    }
  }

  method SanitizeLeadingBom(sql: string) returns (sanitized: string)
    ensures sanitized == Sanitized(sql)
  {
    sanitized := sql;
    var n := LeadingBlanks(sanitized);
    while n < |sanitized| && sanitized[n] == BOM
      invariant n == LeadingBlanks(sanitized) && |sanitized| == |sql|
      invariant Sanitized(sanitized) == Sanitized(sql)
      decreases |sanitized| - n
    {
      ReplacingOne(sanitized, n);
      sanitized := sanitized[n := ' '];
      n := LeadingBlanks(sanitized);
    }
    NothingToReplace(sanitized);
  }

  // ---------------------------------------------------------------- what is accepted, and what remains

  predicate AllPlain(all: seq<Controlled>) {
    forall k :: 0 <= k < |all| ==> all[k].kind.NoControl?
  }

  /** One BEGIN first, one COMMIT last, nothing in between that controls the transaction. */
  predicate Wrapped(all: seq<Controlled>) {
    2 <= |all| && all[0].kind.Begin? && all[|all| - 1].kind.Commit? && AllPlain(all[1..|all| - 1])
  }

  /** The position of the first controlling statement, if there is one. */
  lemma {:induction false} FirstControl(all: seq<Controlled>) returns (j: nat)
    ensures j <= |all| && AllPlain(all[..j])
    ensures j == |all| <==> Filtered(all) == []
    ensures j < |all| ==> !all[j].kind.NoControl? && Filtered(all) == [all[j]] + Filtered(all[j + 1..])
  {
    if all == [] || !all[0].kind.NoControl? {
      j := 0;
    } else {
      var inner := FirstControl(all[1..]);
      j := inner + 1;
      assert all[..j] == [all[0]] + all[1..][..inner];
      if j < |all| { assert all[1..][inner + 1..] == all[j + 1..]; }
    }
  }

  /** When the first and the last statement are the only two controls, everything between them is plain. */
  lemma {:induction false} PairIsOutermost(sql: string, all: seq<Controlled>)
    requires |Filtered(all)| == 2 && Filtered(all)[0] == all[0] && Filtered(all)[1] == all[|all| - 1]
    requires Placed(all, sql)
    ensures 2 <= |all| && AllPlain(all[1..|all| - 1])
  {
    var j := FirstControl(all);
    var rest := all[j + 1..];
    var k := FirstControl(rest);
    assert rest[..k] == all[j + 1..j + 1 + k];
  }

  lemma {:induction false} PlainMeansNoControls(all: seq<Controlled>)
    ensures AllPlain(all) <==> Filtered(all) == []
  {
    var j := FirstControl(all);
    if j < |all| { assert !all[j].kind.NoControl?; } else { assert all[..j] == all; }
  }

  lemma {:induction false} FilteredSkipsPlain(plain: seq<Controlled>, rest: seq<Controlled>)
    requires AllPlain(plain)
    ensures Filtered(plain + rest) == Filtered(rest)
  {
    if plain == [] {
      assert plain + rest == rest;
    } else {
      assert (plain + rest)[0] == plain[0] && (plain + rest)[1..] == plain[1..] + rest;
      FilteredSkipsPlain(plain[1..], rest);
    }
  }

  lemma {:induction false} WrappedMeansPair(all: seq<Controlled>)
    requires Wrapped(all)
    ensures Filtered(all) == [all[0], all[|all| - 1]]
  {
    var plain, last := all[1..|all| - 1], [all[|all| - 1]];
    assert all[1..] == plain + last;
    FilteredSkipsPlain(plain, last);
    assert last[1..] == [];
  }

  lemma {:induction false} SameStartSameStatement(sql: string, all: seq<Controlled>, c: Controlled, k: nat)
    requires Placed(all, sql) && c in all && k < |all| && c.statement.start == all[k].statement.start
    ensures c == all[k]
  {
    var j :| 0 <= j < |all| && all[j] == c;
    assert !(j < k) && !(k < j);
  }

  /** The test of the program is the meaning intended: wrapped in one outer pair. */
  lemma {:induction false} OnlyOuterPairMeansWrapped(sql: string, all: seq<Controlled>)
    requires Placed(all, sql)
    ensures OnlyOuterPair(all, Filtered(all)) <==> Wrapped(all)
    ensures Wrapped(all) ==> Filtered(all) == [all[0], all[|all| - 1]]
  {
    var controls := Filtered(all);
    if Wrapped(all) {
      WrappedMeansPair(all);
    } else if OnlyOuterPair(all, controls) {
      SameStartSameStatement(sql, all, controls[0], 0);
      SameStartSameStatement(sql, all, controls[1], |all| - 1);
      PairIsOutermost(sql, all);
    }
  }

  /** Exactly what is accepted: no transaction control at all, or everything wrapped in one outer pair. */
  lemma {:induction false} UnwrapOutcome(sql: string, all: seq<Controlled>)
    requires Placed(all, sql)
    ensures Unwrap(sql, all).Sql? <==> AllPlain(all) || Wrapped(all)
    ensures AllPlain(all) ==> Unwrap(sql, all) == Sql(sql)
    ensures Wrapped(all) ==>
              && all[0] in all && all[|all| - 1] in all
              && Unwrap(sql, all) == Sql(BlankBoth(sql, all[0].statement, all[|all| - 1].statement))
  {
    PlainMeansNoControls(all);
    OnlyOuterPairMeansWrapped(sql, all);
  }

  // ---------------------------------------------------------------- the theorems

  lemma {:induction false} AcceptedExactlyWhen(sql: string)
    ensures WithoutOuterPair(sql).Sql? <==> AllPlain(Program(sql)) || Wrapped(Program(sql))
  {
    UnwrapOutcome(sql, Program(sql));
  }

  /** Blanking both ends leaves exactly the statements between them: same starts, ends and texts. */
  lemma {:induction false} BlankBothKeepsTheRest(sql: string, found: seq<Statement>)
    requires found == Scan(sql) && 2 <= |found|
    requires found[0].start < found[0].end <= |sql| && found[|found| - 1].start < found[|found| - 1].end <= |sql|
    ensures Scan(BlankBoth(sql, found[0], found[|found| - 1])) == found[1..|found| - 1]
  {
    var n := |found|;
    var once := BlankStatement(sql, found[n - 1].start, found[n - 1].end);
    BlankStatementBlanks(sql, found[n - 1]);
    BlankRemoves(sql, once, 0, n - 1);
    assert RemoveAt(found, n - 1) == found[..n - 1];
    BlankStatementBlanks(once, found[0]);
    BlankRemoves(once, BlankBoth(sql, found[0], found[n - 1]), 0, 0);
  }

  lemma {:induction false} PlainSlice(
      found: seq<Statement>, kindOf: string -> Control, from: nat, to: nat, left: seq<Statement>)
    requires from <= to <= |found| && left == found[from..to] && AllPlain(Classified(found, kindOf)[from..to])
    ensures AllPlain(Classified(left, kindOf))
  {
    forall k | 0 <= k < |left| ensures Classified(left, kindOf)[k].kind.NoControl? {
      ClassifiedAt(left, kindOf, k);
      ClassifiedAt(found, kindOf, from + k);
      assert Classified(found, kindOf)[from..to][k] == Classified(found, kindOf)[from + k];
    }
  }

  /** A wrapped patch, unwrapped, is the program between its BEGIN and its COMMIT. */
  lemma {:induction false} WrappedIsUnwrapped(sql: string, found: seq<Statement>, kindOf: string -> Control, t: string)
    requires found == Scan(sql) && Placed(Classified(found, kindOf), sql) && Wrapped(Classified(found, kindOf))
    requires Unwrap(sql, Classified(found, kindOf)) == Sql(t)
    ensures Scan(t) == found[1..|found| - 1] && AllPlain(Classified(Scan(t), kindOf))
  {
    UnwrapOutcome(sql, Classified(found, kindOf));
    ClassifiedAt(found, kindOf, 0);
    ClassifiedAt(found, kindOf, |found| - 1);
    BlankBothKeepsTheRest(sql, found);
    PlainSlice(found, kindOf, 1, |found| - 1, Scan(t));
  }

  lemma {:induction false} UnwrappedProgram(sql: string, found: seq<Statement>, kindOf: string -> Control, t: string)
    requires found == Scan(sql) && Placed(Classified(found, kindOf), sql) && Unwrap(sql, Classified(found, kindOf)) == Sql(t)
    ensures AllPlain(Classified(Scan(t), kindOf))
    ensures if AllPlain(Classified(found, kindOf)) then t == sql
            else Wrapped(Classified(found, kindOf)) && Scan(t) == found[1..|found| - 1]
  {
    UnwrapOutcome(sql, Classified(found, kindOf));
    if !AllPlain(Classified(found, kindOf)) { WrappedIsUnwrapped(sql, found, kindOf, t); }
  }

  /**
   Removing the outer transaction preserves the program: scanning the unwrapped text again finds exactly the original
   statements without the outer pair, with the same starts, ends and texts, and none of them controls the transaction.
   */
  lemma {:induction false} UnwrappingPreservesTheProgram(sql: string)
    requires WithoutOuterPair(sql).Sql?
    ensures var t := WithoutOuterPair(sql).sql;
            && AllPlain(Program(t))
            && if AllPlain(Program(sql)) then Scan(t) == Scan(sql)
               else Wrapped(Program(sql)) && Scan(t) == Scan(sql)[1..|Scan(sql)| - 1]
  {
    UnwrappedProgram(sql, Scan(sql), TransactionControlKind, WithoutOuterPair(sql).sql);
  }

  /** Every character survives, except that some become spaces; line ends never do. */
  ghost predicate OnlySpaced(sql: string, t: string, spaced: nat -> bool) {
    |t| == |sql| && forall k :: 0 <= k < |sql| ==>
      t[k] == sql[k] || (spaced(k) && t[k] == ' ' && !IsNewline(sql[k]))
  }

  predicate Within(s: Statement, k: nat) { s.start <= k < s.end }

  /** Length and line ends survive; every other change lies inside the outer pair or is a leading byte-order mark. */
  lemma {:induction false} LayoutSurvives(sql: string, all: seq<Controlled>, t: string)
    requires Placed(all, sql) && Unwrap(sql, all) == Sql(t)
    ensures OnlySpaced(sql, t, (k: nat) => Wrapped(all) && (Within(all[0].statement, k) || Within(all[|all| - 1].statement, k)))
    ensures OnlySpaced(t, Sanitized(t), (k: nat) => k < |t| && t[k] == BOM && IsBlank(t[..k]))
  {
    UnwrapOutcome(sql, all);
    SanitizedChanges(t);
  }

  /** Only byte-order marks in the leading white space are replaced, and all of those. */
  lemma {:induction false} SanitizedChanges(sql: string)
    ensures forall k :: 0 <= k < |sql| ==>
              Sanitized(sql)[k] == if sql[k] == BOM && IsBlank(sql[..k]) then ' ' else sql[k]
  {
    if sql != "" {
      if IsSpace(sql[0]) { SanitizedChanges(sql[1..]); }
      forall k | 0 <= k < |sql|
        ensures Sanitized(sql)[k] == if sql[k] == BOM && IsBlank(sql[..k]) then ' ' else sql[k]
      {
        if 0 < k {
          assert sql[1..][k - 1] == sql[k];
          BlankTail(sql[..k]);
          assert sql[..k][1..] == sql[1..][..k - 1];
        }
      }
    }
  }

  lemma {:induction false} BlankTail(s: string)
    requires s != ""
    ensures IsBlank(s) <==> IsSpace(s[0]) && IsBlank(s[1..])
  {
    if IsSpace(s[0]) && IsBlank(s[1..]) {
      assert forall i :: 0 < i < |s| ==> s[i] == s[1..][i - 1];
    }
  }
}
