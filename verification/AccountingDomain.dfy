/** Double-entry lines and findings of an export, built from the documents of a period. Amounts are cents. */
module AccountingDomain {
  import opened DecimalMoney
  import opened JsText
  import opened Options

  /** A mapping key that is not an exact decimal stops the whole build. */
  datatype Outcome<+T> = Ok(value: T) | DecimalError

  datatype SourceType = Invoice | CreditNote | Payment

  /** Rates count ten-thousandths of a percent. */
  datatype TaxItem = TaxItem(taxRate: int, totalExTax: int, taxAmount: int)

  datatype Source = Source(
    sourceType: SourceType, sourceId: string, sourceNumber: string, updatedAt: string, entryDate: string,
    thirdParty: Option<string>, currency: string, paymentMode: Option<string>,
    totalExTax: int, totalTax: int, totalInclTax: int, taxBreakdown: seq<TaxItem>,
    claimedBy: Option<string>)

  /** A configuration object: its entries in order. */
  type Entries = seq<(string, string)>

  /** `axes` is the canonical text of the default analytic axes. */
  datatype Mapping = Mapping(
    delimiter: char, salesJournal: string, creditJournal: string,
    bankJournalByMode: Entries, bankAccountByMode: Entries,
    defaultBankJournal: Option<string>, defaultBankAccount: Option<string>,
    salesAccountByTax: Entries, vatAccountByTax: Entries, axes: string)

  datatype Line = Line(
    lineNo: nat, sourceType: SourceType, sourceId: string, updatedAt: string, entryDate: string, journal: string,
    account: string, thirdParty: Option<string>, entryLabel: string, pieceReference: string, currency: string,
    debit: int, credit: int, taxRate: Option<int>, axes: string)

  datatype Code =
    | PaymentAmountInvalid | SourceTotalMismatch | TaxBreakdownMismatch | SourceAlreadyExported
    | ThirdPartyAccountMissing | CurrencyInvalid | PaymentMappingMissing | SalesAccountMissing | VatAccountMissing
    | LineSideInvalid | BatchUnbalanced | SourceEmpty

  /** Every finding this code reports is a blocker. */
  datatype Finding = Finding(code: Code, subject: string)

  datatype Built = Built(lines: seq<Line>, findings: seq<Finding>)

  // ---------------------------------------------------------------- accounts by rate

  const RATE_SCALE: nat := 4

  function Lookup(entries: Entries, key: string): Option<string> {
    if entries == [] then None
    else if entries[0].0 == key then Some(entries[0].1)
    else Lookup(entries[1..], key)
  }

  function Visible(value: Option<string>): Option<string> {
    if value.Some? && Trim(value.value) != "" then Some(Trim(value.value)) else None
  }

  /** The first entry whose key denotes the rate, under any spelling. */
  function FindRate(entries: Entries, rate: int): Outcome<Option<string>> {
    if entries == [] then Ok(None)
    else match ParseDecimal(entries[0].0, RATE_SCALE)
         case Units(candidate) => if candidate == rate then Ok(Some(entries[0].1)) else FindRate(entries[1..], rate)
         case _ => DecimalError
  }

  /** The account for a rate: under its canonical spelling, or else under another one. */
  function MappingValue(entries: Entries, rate: int): Outcome<Option<string>> {
    var direct := Visible(Lookup(entries, FormatDecimal(rate, RATE_SCALE)));
    if direct.Some? then Ok(direct)
    else match FindRate(entries, rate)
         case DecimalError => DecimalError
         case Ok(found) => Ok(Visible(found))
  }

  /** How the accounts of a rate are found; the builder is stated for any such rule. */
  datatype Accounts = Accounts(sales: int -> Outcome<Option<string>>, vat: int -> Outcome<Option<string>>)

  function AccountsOf(m: Mapping): Accounts {
    Accounts((rate: int) => MappingValue(m.salesAccountByTax, rate), (rate: int) => MappingValue(m.vatAccountByTax, rate))
  }

  // ---------------------------------------------------------------- one document

  function SumExTax(items: seq<TaxItem>): int {
    if items == [] then 0 else SumExTax(items[..|items| - 1]) + items[|items| - 1].totalExTax
  }

  function SumTax(items: seq<TaxItem>): int {
    if items == [] then 0 else SumTax(items[..|items| - 1]) + items[|items| - 1].taxAmount
  }

  function Report(condition: bool, code: Code, s: Source): seq<Finding> {
    if condition then [Finding(code, s.sourceId)] else []
  }

  function TotalFindings(s: Source): seq<Finding> {
    if s.sourceType.Payment? then Report(s.totalInclTax <= 0, PaymentAmountInvalid, s)
    else
      Report(s.totalExTax + s.totalTax != s.totalInclTax, SourceTotalMismatch, s)
      + Report(SumExTax(s.taxBreakdown) != s.totalExTax || SumTax(s.taxBreakdown) != s.totalTax, TaxBreakdownMismatch, s)
  }

  predicate IsCurrency(s: string) {
    |s| == 3 && 'A' <= s[0] <= 'Z' && 'A' <= s[1] <= 'Z' && 'A' <= s[2] <= 'Z'
  }

  function HeaderFindings(s: Source): seq<Finding> {
    TotalFindings(s)
    + Report(s.claimedBy.Some? && s.claimedBy.value != "", SourceAlreadyExported, s)
    + Report(Visible(s.thirdParty).None?, ThirdPartyAccountMissing, s)
    + Report(!IsCurrency(s.currency), CurrencyInvalid, s)
  }

  /** A line of the document with the amount on one side. */
  function Entry(
    s: Source, m: Mapping, no: nat, journal: string, account: string, thirdParty: Option<string>,
    onDebit: bool, amount: int, rate: Option<int>): Line
  {
    Line(no, s.sourceType, s.sourceId, s.updatedAt, s.entryDate, journal, account, thirdParty, s.sourceNumber,
         s.sourceNumber, s.currency, if onDebit then amount else 0, if onDebit then 0 else amount, rate, m.axes)
  }

  function RawThirdParty(s: Source): string {
    if s.thirdParty.Some? then s.thirdParty.value else ""
  }

  function Mode(s: Source): string {
    if Visible(s.paymentMode).Some? then Visible(s.paymentMode).value else "DEFAULT"
  }

  function OrElse(value: Option<string>, other: Option<string>): Option<string> {
    if value.Some? then value else other
  }

  function PaymentLines(s: Source, m: Mapping, first: nat): Built {
    var journal := OrElse(Lookup(m.bankJournalByMode, Mode(s)), m.defaultBankJournal);
    var account := OrElse(Lookup(m.bankAccountByMode, Mode(s)), m.defaultBankAccount);
    if journal.None? || journal.value == "" || account.None? || account.value == "" then
      Built([], [Finding(PaymentMappingMissing, s.sourceId)])
    else
      Built([Entry(s, m, first, journal.value, account.value, None, true, s.totalInclTax, None),
             Entry(s, m, first + 1, journal.value, RawThirdParty(s), Visible(s.thirdParty), false, s.totalInclTax, None)],
            [])
  }

  predicate IsCredit(s: Source) { s.sourceType.CreditNote? }

  function Journal(s: Source, m: Mapping): string {
    if IsCredit(s) then m.creditJournal else m.salesJournal
  }

  /** The line of one account, or the report that the account is missing. */
  function AccountPart(
    s: Source, m: Mapping, account: Option<string>, rate: int, amount: int, missing: Code, no: nat): Built
  {
    if account.None? then Built([], [Finding(missing, s.sourceId)])
    else Built([Entry(s, m, no, Journal(s, m), account.value, None, IsCredit(s), amount, Some(rate))], [])
  }

  /** The sales line and, unless the tax is zero, the tax line of one rate. */
  function ItemLines(s: Source, m: Mapping, accounts: Accounts, item: TaxItem, first: nat): Outcome<Built> {
    match (accounts.sales(item.taxRate), accounts.vat(item.taxRate))
    case (Ok(sales), Ok(vat)) =>
      var salesPart := AccountPart(s, m, sales, item.taxRate, item.totalExTax, SalesAccountMissing, first);
      var vatPart :=
        if item.taxAmount == 0 then Built([], [])
        else AccountPart(s, m, vat, item.taxRate, item.taxAmount, VatAccountMissing, first + |salesPart.lines|);
      Ok(Built(salesPart.lines + vatPart.lines, salesPart.findings + vatPart.findings))
    case _ => DecimalError
  }

  function TaxLines(s: Source, m: Mapping, accounts: Accounts, items: seq<TaxItem>, first: nat): Outcome<Built> {
    if items == [] then Ok(Built([], []))
    else
      match TaxLines(s, m, accounts, items[..|items| - 1], first)
      case DecimalError => DecimalError
      case Ok(before) =>
        match ItemLines(s, m, accounts, items[|items| - 1], first + |before.lines|)
        case DecimalError => DecimalError
        case Ok(part) => Ok(Built(before.lines + part.lines, before.findings + part.findings))
  }

  /** The customer's line, against which the tax lines stand. */
  function ThirdPartyLine(s: Source, m: Mapping, first: nat): Line {
    Entry(s, m, first, Journal(s, m), RawThirdParty(s), Visible(s.thirdParty), !IsCredit(s), s.totalInclTax, None)
  }

  function SourceLines(s: Source, m: Mapping, accounts: Accounts, first: nat): Outcome<Built> {
    if s.sourceType.Payment? then
      var b := PaymentLines(s, m, first);
      Ok(Built(b.lines, HeaderFindings(s) + b.findings))
    else
      match TaxLines(s, m, accounts, s.taxBreakdown, first + 1)
      case DecimalError => DecimalError
      case Ok(tax) => Ok(Built([ThirdPartyLine(s, m, first)] + tax.lines, HeaderFindings(s) + tax.findings))
  }

  // ---------------------------------------------------------------- the whole batch

  /** Lines and document findings, in the order given; line numbers run on. */
  function SourcesLines(sources: seq<Source>, m: Mapping, accounts: Accounts): Outcome<Built> {
    if sources == [] then Ok(Built([], []))
    else
      match SourcesLines(sources[..|sources| - 1], m, accounts)
      case DecimalError => DecimalError
      case Ok(before) =>
        match SourceLines(sources[|sources| - 1], m, accounts, |before.lines| + 1)
        case DecimalError => DecimalError
        case Ok(built) => Ok(Built(before.lines + built.lines, before.findings + built.findings))
  }

  function DebitOf(lines: seq<Line>, currency: string): int {
    if lines == [] then 0
    else
      var last := lines[|lines| - 1];
      DebitOf(lines[..|lines| - 1], currency) + (if last.currency == currency then last.debit else 0)
  }

  function CreditOf(lines: seq<Line>, currency: string): int {
    if lines == [] then 0
    else
      var last := lines[|lines| - 1];
      CreditOf(lines[..|lines| - 1], currency) + (if last.currency == currency then last.credit else 0)
  }

  predicate OneSided(line: Line) {
    (line.debit == 0) != (line.credit == 0)
  }

  function SideFindings(lines: seq<Line>): seq<Finding> {
    if lines == [] then []
    else
      var last := lines[|lines| - 1];
      SideFindings(lines[..|lines| - 1]) + (if OneSided(last) then [] else [Finding(LineSideInvalid, last.sourceId)])
  }

  /** The currencies of the lines, in order of first appearance. */
  function Currencies(lines: seq<Line>): seq<string> {
    if lines == [] then []
    else
      var before, last := Currencies(lines[..|lines| - 1]), lines[|lines| - 1].currency;
      if last in before then before else before + [last]
  }

  predicate Balanced(lines: seq<Line>, currency: string) {
    DebitOf(lines, currency) == CreditOf(lines, currency)
  }

  function BalanceFindings(lines: seq<Line>, currencies: seq<string>): seq<Finding> {
    if currencies == [] then []
    else BalanceFindings(lines, currencies[..|currencies| - 1])
         + (if Balanced(lines, currencies[|currencies| - 1]) then []
            else [Finding(BatchUnbalanced, currencies[|currencies| - 1])])
  }

  /** The findings about the lines as a whole, after those about the documents. */
  function BatchFindings(sources: seq<Source>, lines: seq<Line>): seq<Finding> {
    SideFindings(lines) + BalanceFindings(lines, Currencies(lines))
    + (if sources == [] then [Finding(SourceEmpty, "")] else [])
  }

  function Preview(sources: seq<Source>, m: Mapping, accounts: Accounts): Outcome<Built> {
    match SourcesLines(sources, m, accounts)
    case DecimalError => DecimalError
    case Ok(b) => Ok(Built(b.lines, b.findings + BatchFindings(sources, b.lines)))
  }

  predicate CanAdvance(preview: Built) { preview.findings == [] }
}
