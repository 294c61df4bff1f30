/** The builder as it runs: lines and findings pushed one by one, totals kept in a map. */
module AccountingBuilder {
  import opened AccountingDomain
  import opened Options

  method BuildItem(s: Source, m: Mapping, accounts: Accounts, item: TaxItem, first: nat) returns (built: Outcome<Built>)
    ensures built == ItemLines(s, m, accounts, item, first)
  {
    var sales, vat := accounts.sales(item.taxRate), accounts.vat(item.taxRate);
    if sales.DecimalError? || vat.DecimalError? { return DecimalError; }
    var lines, findings := [], [];
    if sales.value.None? {
      findings := findings + [Finding(SalesAccountMissing, s.sourceId)];
    } else {
      lines := lines + [Entry(s, m, first, Journal(s, m), sales.value.value, None, IsCredit(s), item.totalExTax,
                              Some(item.taxRate))];
    }
    if item.taxAmount != 0 {
      if vat.value.None? {
        findings := findings + [Finding(VatAccountMissing, s.sourceId)];
      } else {
        lines := lines + [Entry(s, m, first + |lines|, Journal(s, m), vat.value.value, None, IsCredit(s), item.taxAmount,
                                Some(item.taxRate))];
      }
    }
    ghost var expected := ItemLines(s, m, accounts, item, first).value;
    assert lines == expected.lines && findings == expected.findings;
    built := Ok(Built(lines, findings));
  }

  method BuildSource(s: Source, m: Mapping, accounts: Accounts, first: nat) returns (built: Outcome<Built>)
    ensures built == SourceLines(s, m, accounts, first)
  {
    if s.sourceType.Payment? {
      var payment := PaymentLines(s, m, first);
      return Ok(Built(payment.lines, HeaderFindings(s) + payment.findings));
    }
    var lines, findings := [], [];
    for i := 0 to |s.taxBreakdown|
      invariant TaxLines(s, m, accounts, s.taxBreakdown[..i], first + 1) == Ok(Built(lines, findings))
    {
      assert s.taxBreakdown[..i + 1][..i] == s.taxBreakdown[..i];
      var part := BuildItem(s, m, accounts, s.taxBreakdown[i], first + 1 + |lines|);
      if part.DecimalError? {
        FailureSticks(s, m, accounts, s.taxBreakdown, first + 1, i + 1);
        return DecimalError;
      }
      lines, findings := lines + part.value.lines, findings + part.value.findings;
    }
    assert s.taxBreakdown[..|s.taxBreakdown|] == s.taxBreakdown;
    built := Ok(Built([ThirdPartyLine(s, m, first)] + lines, HeaderFindings(s) + findings));
  }

  lemma {:induction false} FailureSticks(
      s: Source, m: Mapping, accounts: Accounts, items: seq<TaxItem>, first: nat, n: nat)
    requires n <= |items| && TaxLines(s, m, accounts, items[..n], first) == DecimalError
    ensures TaxLines(s, m, accounts, items, first) == DecimalError
  {
    if n < |items| {
      assert items[..|items| - 1][..n] == items[..n];
      FailureSticks(s, m, accounts, items[..|items| - 1], first, n);
    } else {
      assert items[..n] == items;
    }
  }

  lemma {:induction false} LastFailure(sources: seq<Source>, m: Mapping, accounts: Accounts)
    requires sources != [] && SourcesLines(sources[..|sources| - 1], m, accounts) == DecimalError
    ensures SourcesLines(sources, m, accounts) == DecimalError
  {
  }

  lemma {:induction false} DocumentFailureSticks(sources: seq<Source>, m: Mapping, accounts: Accounts, n: nat)
    requires n <= |sources| && SourcesLines(sources[..n], m, accounts) == DecimalError
    ensures SourcesLines(sources, m, accounts) == DecimalError
  {
    if n < |sources| {
      assert sources[..|sources| - 1][..n] == sources[..n];
      DocumentFailureSticks(sources[..|sources| - 1], m, accounts, n);
      LastFailure(sources, m, accounts);
    } else {
      assert sources[..n] == sources;
    }
  }

  method BuildSources(sources: seq<Source>, m: Mapping, accounts: Accounts) returns (built: Outcome<Built>)
    ensures built == SourcesLines(sources, m, accounts)
  {
    var lines, findings := [], [];
    for i := 0 to |sources|
      invariant SourcesLines(sources[..i], m, accounts) == Ok(Built(lines, findings))
    {
      assert sources[..i + 1][..i] == sources[..i];
      var mine := BuildSource(sources[i], m, accounts, |lines| + 1);
      if mine.DecimalError? {
        DocumentFailureSticks(sources, m, accounts, i + 1);
        return DecimalError;
      }
      lines, findings := lines + mine.value.lines, findings + mine.value.findings;
    }
    assert sources[..|sources|] == sources;
    built := Ok(Built(lines, findings));
  }

  /** Debit and credit of one currency so far. */
  datatype Total = Total(debit: int, credit: int)

  /** The map holds exactly the currencies seen, each with its two sums. */
  ghost predicate TotalsOf(totals: map<string, Total>, seen: seq<string>, lines: seq<Line>) {
    && seen == Currencies(lines)
    && (forall c :: c in totals <==> c in seen)
    && forall c :: c in totals ==> totals[c] == Total(DebitOf(lines, c), CreditOf(lines, c))
  }

  lemma {:induction false} UnseenIsZero(lines: seq<Line>, c: string)
    requires c !in Currencies(lines)
    ensures DebitOf(lines, c) == CreditOf(lines, c) == 0
  {
    if lines != [] { UnseenIsZero(lines[..|lines| - 1], c); }
  }

  lemma {:induction false} TotalsGrow(totals: map<string, Total>, seen: seq<string>, lines: seq<Line>, i: nat)
    requires i < |lines| && TotalsOf(totals, seen, lines[..i])
    ensures var c := lines[i].currency;
            var before := if c in totals then totals[c] else Total(0, 0);
            TotalsOf(totals[c := Total(before.debit + lines[i].debit, before.credit + lines[i].credit)],
                     if c in totals then seen else seen + [c], lines[..i + 1])
  {
    assert lines[..i + 1][..i] == lines[..i];
    if lines[i].currency !in totals { UnseenIsZero(lines[..i], lines[i].currency); }
  }

  /** The checks over all lines: one side each, and every currency balanced. */
  method CheckLines(sources: seq<Source>, lines: seq<Line>) returns (findings: seq<Finding>)
    ensures findings == BatchFindings(sources, lines)
  {
    var totals: map<string, Total> := map[];
    var seen: seq<string> := [];
    findings := [];
    for i := 0 to |lines|
      invariant TotalsOf(totals, seen, lines[..i])
      invariant findings == SideFindings(lines[..i])
    {
      TotalsGrow(totals, seen, lines, i);
      assert lines[..i + 1][..i] == lines[..i];
      var line := lines[i];
      var current := if line.currency in totals then totals[line.currency] else Total(0, 0);
      if line.currency !in totals { seen := seen + [line.currency]; }
      totals := totals[line.currency := Total(current.debit + line.debit, current.credit + line.credit)];
      if (line.debit == 0) == (line.credit == 0) {
        findings := findings + [Finding(LineSideInvalid, line.sourceId)];
      }
    }
    assert lines[..|lines|] == lines;
    for i := 0 to |seen|
      invariant findings == SideFindings(lines) + BalanceFindings(lines, seen[..i])
    {
      assert seen[..i + 1][..i] == seen[..i];
      assert seen[i] in totals;
      if totals[seen[i]].debit != totals[seen[i]].credit {
        findings := findings + [Finding(BatchUnbalanced, seen[i])];
      }
    }
    assert seen[..|seen|] == seen;
    if sources == [] { findings := findings + [Finding(SourceEmpty, "")]; }
  }

  method BuildAccountingPreview(sources: seq<Source>, m: Mapping, accounts: Accounts) returns (preview: Outcome<Built>)
    ensures preview == Preview(sources, m, accounts)
  {
    var built := BuildSources(sources, m, accounts);
    if built.DecimalError? { return DecimalError; }
    var findings := CheckLines(sources, built.value.lines);
    preview := Ok(Built(built.value.lines, built.value.findings + findings));
  }
}
