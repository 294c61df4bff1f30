/** Why the books balance: what the lines of a document, and of a batch, add up to. */
module AccountingBalance {
  import opened AccountingDomain
  import opened Options

  /** The total of one side in one currency. */
  function Side(lines: seq<Line>, currency: string, onDebit: bool): int {
    if onDebit then DebitOf(lines, currency) else CreditOf(lines, currency)
  }

  lemma {:induction false} SideAppends(a: seq<Line>, b: seq<Line>, currency: string, onDebit: bool)
    ensures Side(a + b, currency, onDebit) == Side(a, currency, onDebit) + Side(b, currency, onDebit)
  {
    if b == [] {
      assert a + b == a;
    } else {
      var last := |b| - 1;
      assert (a + b)[..|a| + last] == a + b[..last] && (a + b)[|a| + last] == b[last];
      SideAppends(a, b[..last], currency, onDebit);
    }
  }

  /** Lines that put `amount` on one side in one currency, and nothing anywhere else. */
  ghost predicate Weighs(lines: seq<Line>, currency: string, onDebit: bool, amount: int) {
    && Side(lines, currency, onDebit) == amount && Side(lines, currency, !onDebit) == 0
    && forall c :: c != currency ==> Side(lines, c, onDebit) == 0 && Side(lines, c, !onDebit) == 0
  }

  lemma {:induction false} WeighsAppends(a: seq<Line>, b: seq<Line>, currency: string, onDebit: bool, m: int, n: int)
    requires Weighs(a, currency, onDebit, m) && Weighs(b, currency, onDebit, n)
    ensures Weighs(a + b, currency, onDebit, m + n)
  {
    forall c, side ensures Side(a + b, c, side) == Side(a, c, side) + Side(b, c, side) {
      SideAppends(a, b, c, side);
    }
  }

  lemma {:induction false} NothingWeighs(currency: string, onDebit: bool)
    ensures Weighs([], currency, onDebit, 0)
  {
  }

  lemma {:induction false} EntryWeighs(
      s: Source, m: Mapping, no: nat, journal: string, account: string, thirdParty: Option<string>,
      onDebit: bool, amount: int, rate: Option<int>)
    ensures Weighs([Entry(s, m, no, journal, account, thirdParty, onDebit, amount, rate)], s.currency, onDebit, amount)
  {
    var e := Entry(s, m, no, journal, account, thirdParty, onDebit, amount, rate);
    assert [e][..0] == [];
    forall c, side ensures Side([e], c, side) == if c != s.currency then 0 else if side == onDebit then amount else 0 {
      assert Side([], c, side) == 0;
    }
  }

  lemma {:induction false} PartWeighs(
      s: Source, m: Mapping, account: Option<string>, rate: int, amount: int, missing: Code, no: nat)
    requires AccountPart(s, m, account, rate, amount, missing, no).findings == []
    ensures Weighs(AccountPart(s, m, account, rate, amount, missing, no).lines, s.currency, IsCredit(s), amount)
  {
    EntryWeighs(s, m, no, Journal(s, m), account.value, None, IsCredit(s), amount, Some(rate));
  }

  /** Without a finding, one rate's lines carry its base and its tax, on the side opposite the customer. */
  lemma {:induction false} ItemWeighs(s: Source, m: Mapping, accounts: Accounts, item: TaxItem, first: nat, part: Built)
    requires ItemLines(s, m, accounts, item, first) == Ok(part) && part.findings == []
    ensures Weighs(part.lines, s.currency, IsCredit(s), item.totalExTax + item.taxAmount)
  {
    var rate := item.taxRate;
    var sales, vat := accounts.sales(rate).value, accounts.vat(rate).value;
    var salesPart := AccountPart(s, m, sales, rate, item.totalExTax, SalesAccountMissing, first);
    PartWeighs(s, m, sales, rate, item.totalExTax, SalesAccountMissing, first);
    if item.taxAmount == 0 {
      assert part.lines == salesPart.lines;
    } else {
      var no := first + |salesPart.lines|;
      PartWeighs(s, m, vat, rate, item.taxAmount, VatAccountMissing, no);
      WeighsAppends(salesPart.lines, AccountPart(s, m, vat, rate, item.taxAmount, VatAccountMissing, no).lines,
                    s.currency, IsCredit(s), item.totalExTax, item.taxAmount);
    }
  }

  lemma {:induction false} TaxStep(s: Source, m: Mapping, accounts: Accounts, items: seq<TaxItem>, first: nat, tax: Built)
    returns (before: Built, part: Built)
    requires TaxLines(s, m, accounts, items, first) == Ok(tax) && items != []
    ensures TaxLines(s, m, accounts, items[..|items| - 1], first) == Ok(before)
    ensures ItemLines(s, m, accounts, items[|items| - 1], first + |before.lines|) == Ok(part)
    ensures tax == Built(before.lines + part.lines, before.findings + part.findings)
    ensures tax.findings == [] ==> before.findings == [] && part.findings == []
  {
    before := TaxLines(s, m, accounts, items[..|items| - 1], first).value;
    part := ItemLines(s, m, accounts, items[|items| - 1], first + |before.lines|).value;
  }

  lemma {:induction false} SumsGrow(items: seq<TaxItem>)
    requires items != []
    ensures var init, last := items[..|items| - 1], items[|items| - 1];
            SumExTax(items) + SumTax(items) == SumExTax(init) + SumTax(init) + (last.totalExTax + last.taxAmount)
  {
  }

  lemma {:induction false} TaxLinesWeigh(
      s: Source, m: Mapping, accounts: Accounts, items: seq<TaxItem>, first: nat, tax: Built)
    requires TaxLines(s, m, accounts, items, first) == Ok(tax) && tax.findings == []
    ensures Weighs(tax.lines, s.currency, IsCredit(s), SumExTax(items) + SumTax(items))
  {
    if items == [] {
      NothingWeighs(s.currency, IsCredit(s));
    } else {
      var init, last := items[..|items| - 1], items[|items| - 1];
      var before, part := TaxStep(s, m, accounts, items, first, tax);
      TaxLinesWeigh(s, m, accounts, init, first, before);
      ItemWeighs(s, m, accounts, last, first + |before.lines|, part);
      WeighsAppends(before.lines, part.lines, s.currency, IsCredit(s), SumExTax(init) + SumTax(init),
                    last.totalExTax + last.taxAmount);
      SumsGrow(items);
    }
  }

  /** Lines that balance at `amount` in one currency and are absent from every other. */
  ghost predicate BalancesAt(lines: seq<Line>, currency: string, amount: int) {
    && DebitOf(lines, currency) == CreditOf(lines, currency) == amount
    && forall c :: c != currency ==> DebitOf(lines, c) == CreditOf(lines, c) == 0
  }

  lemma {:induction false} OppositesBalance(a: seq<Line>, b: seq<Line>, currency: string, onDebit: bool, amount: int)
    requires Weighs(a, currency, onDebit, amount) && Weighs(b, currency, !onDebit, amount)
    ensures BalancesAt(a + b, currency, amount)
  {
    forall c ensures DebitOf(a + b, c) == DebitOf(a, c) + DebitOf(b, c) && CreditOf(a + b, c) == CreditOf(a, c) + CreditOf(b, c) {
      SideAppends(a, b, c, true);
      SideAppends(a, b, c, false);
    }
    assert Side(a, currency, onDebit) == amount && Side(b, currency, !onDebit) == amount;
    forall c | c != currency ensures DebitOf(a, c) == 0 && CreditOf(a, c) == 0 && DebitOf(b, c) == 0 && CreditOf(b, c) == 0 {
      assert Side(a, c, onDebit) == 0 && Side(b, c, !onDebit) == 0;
    }
  }

  lemma {:induction false} PaymentConserves(s: Source, m: Mapping, first: nat)
    requires PaymentLines(s, m, first).findings == []
    ensures BalancesAt(PaymentLines(s, m, first).lines, s.currency, s.totalInclTax)
  {
    var journal := OrElse(Lookup(m.bankJournalByMode, Mode(s)), m.defaultBankJournal).value;
    var account := OrElse(Lookup(m.bankAccountByMode, Mode(s)), m.defaultBankAccount).value;
    var bank := Entry(s, m, first, journal, account, None, true, s.totalInclTax, None);
    var third := Entry(s, m, first + 1, journal, RawThirdParty(s), Visible(s.thirdParty), false, s.totalInclTax, None);
    EntryWeighs(s, m, first, journal, account, None, true, s.totalInclTax, None);
    EntryWeighs(s, m, first + 1, journal, RawThirdParty(s), Visible(s.thirdParty), false, s.totalInclTax, None);
    assert PaymentLines(s, m, first).lines == [bank] + [third];
    OppositesBalance([bank], [third], s.currency, true, s.totalInclTax);
  }

  lemma {:induction false} TotalsAgree(s: Source)
    requires TotalFindings(s) == [] && !s.sourceType.Payment?
    ensures SumExTax(s.taxBreakdown) + SumTax(s.taxBreakdown) == s.totalInclTax
  {
  }

  lemma {:induction false} InvoiceConserves(s: Source, m: Mapping, accounts: Accounts, first: nat, tax: Built)
    requires TaxLines(s, m, accounts, s.taxBreakdown, first + 1) == Ok(tax) && tax.findings == []
    requires SumExTax(s.taxBreakdown) + SumTax(s.taxBreakdown) == s.totalInclTax
    ensures BalancesAt([ThirdPartyLine(s, m, first)] + tax.lines, s.currency, s.totalInclTax)
  {
    EntryWeighs(s, m, first, Journal(s, m), RawThirdParty(s), Visible(s.thirdParty), !IsCredit(s), s.totalInclTax, None);
    TaxLinesWeigh(s, m, accounts, s.taxBreakdown, first + 1, tax);
    OppositesBalance([ThirdPartyLine(s, m, first)], tax.lines, s.currency, !IsCredit(s), s.totalInclTax);
  }

  /** What the lines and findings of a document consist of. */
  lemma {:induction false} DocumentParts(s: Source, m: Mapping, accounts: Accounts, first: nat, built: Built)
    returns (rest: Built)
    requires SourceLines(s, m, accounts, first) == Ok(built)
    ensures built.findings == HeaderFindings(s) + rest.findings
    ensures if s.sourceType.Payment? then rest == PaymentLines(s, m, first) && built.lines == rest.lines
            else TaxLines(s, m, accounts, s.taxBreakdown, first + 1) == Ok(rest)
                 && built.lines == [ThirdPartyLine(s, m, first)] + rest.lines
  {
    rest := if s.sourceType.Payment? then PaymentLines(s, m, first)
            else TaxLines(s, m, accounts, s.taxBreakdown, first + 1).value;
  }

  lemma {:induction false} NoFindings(s: Source, more: seq<Finding>)
    requires HeaderFindings(s) + more == []
    ensures more == [] && TotalFindings(s) == [] && (s.claimedBy.None? || s.claimedBy.value == "")
  {
  }

  /** A document without a finding: debit and credit both come to its total including tax. */
  lemma {:induction false} DocumentConserves(s: Source, m: Mapping, accounts: Accounts, first: nat, built: Built)
    requires SourceLines(s, m, accounts, first) == Ok(built) && built.findings == []
    ensures BalancesAt(built.lines, s.currency, s.totalInclTax)
  {
    var rest := DocumentParts(s, m, accounts, first, built);
    NoFindings(s, rest.findings);
    if s.sourceType.Payment? {
      PaymentConserves(s, m, first);
    } else {
      TotalsAgree(s);
      InvoiceConserves(s, m, accounts, first, rest);
    }
  }

  lemma {:induction false} DocumentsBalance(sources: seq<Source>, m: Mapping, accounts: Accounts, built: Built, currency: string)
    requires SourcesLines(sources, m, accounts) == Ok(built) && built.findings == []
    ensures Balanced(built.lines, currency)
  {
    if sources != [] {
      var init, s := sources[..|sources| - 1], sources[|sources| - 1];
      var before := SourcesLines(init, m, accounts).value;
      var mine := SourceLines(s, m, accounts, |before.lines| + 1).value;
      DocumentsBalance(init, m, accounts, before, currency);
      DocumentConserves(s, m, accounts, |before.lines| + 1, mine);
      SideAppends(before.lines, mine.lines, currency, true);
      SideAppends(before.lines, mine.lines, currency, false);
    }
  }

  lemma {:induction false} BalanceFindingsExactlyWhen(lines: seq<Line>, currencies: seq<string>)
    ensures BalanceFindings(lines, currencies) == [] <==> forall c :: c in currencies ==> Balanced(lines, c)
  {
    if currencies != [] {
      var init, last := currencies[..|currencies| - 1], currencies[|currencies| - 1];
      BalanceFindingsExactlyWhen(lines, init);
      assert currencies == init + [last];
    }
  }

  /** An unbalanced batch is never the only complaint: some document of it has a finding of its own. */
  lemma {:induction false} UnbalancedOnlyWithDocumentFinding(sources: seq<Source>, m: Mapping, accounts: Accounts, built: Built)
    requires SourcesLines(sources, m, accounts) == Ok(built)
    requires BalanceFindings(built.lines, Currencies(built.lines)) != []
    ensures built.findings != []
  {
    BalanceFindingsExactlyWhen(built.lines, Currencies(built.lines));
    if built.findings == [] {
      forall c ensures Balanced(built.lines, c) { DocumentsBalance(sources, m, accounts, built, c); }
    }
  }

  // ---------------------------------------------------------------- numbering

  predicate NumberedFrom(lines: seq<Line>, first: nat) {
    forall k :: 0 <= k < |lines| ==> lines[k].lineNo == first + k
  }

  lemma {:induction false} NumberedAppends(a: seq<Line>, b: seq<Line>, first: nat)
    requires NumberedFrom(a, first) && NumberedFrom(b, first + |a|)
    ensures NumberedFrom(a + b, first)
  {
  }

  lemma {:induction false} ItemIsNumbered(s: Source, m: Mapping, accounts: Accounts, item: TaxItem, first: nat, part: Built)
    requires ItemLines(s, m, accounts, item, first) == Ok(part)
    ensures NumberedFrom(part.lines, first)
  {
  }

  lemma {:induction false} TaxLinesAreNumbered(
      s: Source, m: Mapping, accounts: Accounts, items: seq<TaxItem>, first: nat, tax: Built)
    requires TaxLines(s, m, accounts, items, first) == Ok(tax)
    ensures NumberedFrom(tax.lines, first)
  {
    if items != [] {
      var before, part := TaxStep(s, m, accounts, items, first, tax);
      TaxLinesAreNumbered(s, m, accounts, items[..|items| - 1], first, before);
      ItemIsNumbered(s, m, accounts, items[|items| - 1], first + |before.lines|, part);
      NumberedAppends(before.lines, part.lines, first);
    }
  }

  lemma {:induction false} InvoiceIsNumbered(s: Source, m: Mapping, accounts: Accounts, first: nat, tax: Built)
    requires TaxLines(s, m, accounts, s.taxBreakdown, first + 1) == Ok(tax)
    ensures NumberedFrom([ThirdPartyLine(s, m, first)] + tax.lines, first)
  {
    TaxLinesAreNumbered(s, m, accounts, s.taxBreakdown, first + 1, tax);
    NumberedAppends([ThirdPartyLine(s, m, first)], tax.lines, first);
  }

  lemma {:induction false} PaymentIsNumbered(s: Source, m: Mapping, first: nat)
    ensures NumberedFrom(PaymentLines(s, m, first).lines, first)
  {
  }

  lemma {:induction false} DocumentIsNumbered(s: Source, m: Mapping, accounts: Accounts, first: nat, built: Built)
    requires SourceLines(s, m, accounts, first) == Ok(built)
    ensures NumberedFrom(built.lines, first)
  {
    var rest := DocumentParts(s, m, accounts, first, built);
    if s.sourceType.Payment? {
      PaymentIsNumbered(s, m, first);
    } else {
      InvoiceIsNumbered(s, m, accounts, first, rest);
    }
  }

  /** The lines of all documents are numbered from one without gaps. */
  lemma {:induction false} LinesAreNumbered(sources: seq<Source>, m: Mapping, accounts: Accounts, built: Built)
    requires SourcesLines(sources, m, accounts) == Ok(built)
    ensures NumberedFrom(built.lines, 1)
  {
    if sources != [] {
      var before := SourcesLines(sources[..|sources| - 1], m, accounts).value;
      var mine := SourceLines(sources[|sources| - 1], m, accounts, |before.lines| + 1).value;
      LinesAreNumbered(sources[..|sources| - 1], m, accounts, before);
      DocumentIsNumbered(sources[|sources| - 1], m, accounts, |before.lines| + 1, mine);
      NumberedAppends(before.lines, mine.lines, 1);
    }
  }

  // ---------------------------------------------------------------- what an advancing preview guarantees

  lemma {:induction false} SideFindingsExactlyWhen(lines: seq<Line>)
    ensures SideFindings(lines) == [] <==> forall k :: 0 <= k < |lines| ==> OneSided(lines[k])
  {
    if lines != [] { SideFindingsExactlyWhen(lines[..|lines| - 1]); }
  }

  lemma {:induction false} NoDocumentIsClaimed(sources: seq<Source>, m: Mapping, accounts: Accounts, built: Built, k: nat)
    requires SourcesLines(sources, m, accounts) == Ok(built) && built.findings == [] && k < |sources|
    ensures sources[k].claimedBy.None? || sources[k].claimedBy.value == ""
  {
    var before := SourcesLines(sources[..|sources| - 1], m, accounts).value;
    var mine := SourceLines(sources[|sources| - 1], m, accounts, |before.lines| + 1).value;
    if k < |sources| - 1 {
      NoDocumentIsClaimed(sources[..|sources| - 1], m, accounts, before, k);
    } else {
      var rest := DocumentParts(sources[k], m, accounts, |before.lines| + 1, mine);
      NoFindings(sources[k], rest.findings);
    }
  }

  /** A preview that can advance: not empty, nothing claimed, every line one-sided, every currency balanced. */
  lemma {:induction false} AdvancingPreview(sources: seq<Source>, m: Mapping, accounts: Accounts, preview: Built)
    requires Preview(sources, m, accounts) == Ok(preview) && CanAdvance(preview)
    ensures sources != [] && SourcesLines(sources, m, accounts) == Ok(Built(preview.lines, []))
    ensures forall k :: 0 <= k < |sources| ==> sources[k].claimedBy.None? || sources[k].claimedBy.value == ""
    ensures forall k :: 0 <= k < |preview.lines| ==> OneSided(preview.lines[k])
    ensures forall c :: Balanced(preview.lines, c)
  {
    var built := SourcesLines(sources, m, accounts).value;
    SideFindingsExactlyWhen(built.lines);
    forall k | 0 <= k < |sources| ensures sources[k].claimedBy.None? || sources[k].claimedBy.value == "" {
      NoDocumentIsClaimed(sources, m, accounts, built, k);
    }
    forall c ensures Balanced(built.lines, c) {
      DocumentsBalance(sources, m, accounts, built, c);
    }
  }
}
