/** The delimited file of an export, and a reader of such files as section 2 of RFC 4180 describes them. */
module AccountingFile {
  import opened JsText
  import opened Options

  const CRLF := "\r\n"

  function Header(): seq<string> {
    ["JournalCode", "EcritureDate", "PieceRef", "CompteNum", "CompteAuxNum", "EcritureLib", "Debit", "Credit", "Devise",
     "TaxRate", "Axes"]
  }

  predicate IsDelimiter(d: char) { d == ';' || d == ',' || d == '\t' }

  // ---------------------------------------------------------------- the printer

  function QuotesDoubled(v: string): string {
    if v == "" then "" else (if v[0] == '"' then "\"\"" else [v[0]]) + QuotesDoubled(v[1..])
  }

  predicate NeedsQuotes(escaped: string, d: char) {
    exists i :: 0 <= i < |escaped| && (escaped[i] == d || escaped[i] == '"' || IsNewline(escaped[i]))
  }

  function CsvCell(value: string, d: char): string {
    var escaped := QuotesDoubled(value);
    if NeedsQuotes(escaped, d) then "\"" + escaped + "\"" else escaped
  }

  function JoinCells(cells: seq<string>, d: char): string {
    if cells == [] then ""
    else if |cells| == 1 then CsvCell(cells[0], d)
    else CsvCell(cells[0], d) + [d] + JoinCells(cells[1..], d)
  }

  function Records(rows: seq<seq<string>>, d: char): string {
    if rows == [] then "" else JoinCells(rows[0], d) + CRLF + Records(rows[1..], d)
  }

  /** Column names are joined as they stand. */
  function Joined(names: seq<string>, d: char): string {
    if names == [] then "" else if |names| == 1 then names[0] else names[0] + [d] + Joined(names[1..], d)
  }

  /** The whole file: byte-order mark, header, one record per row, each ended by CRLF. */
  function Render(rows: seq<seq<string>>, d: char): string {
    [BOM] + Joined(Header(), d) + CRLF + Records(rows, d)
  }

  // ---------------------------------------------------------------- the reader

  datatype Field = Field(value: string, rest: string)

  /** What remains of a quoted field behind its opening quote. */
  function ReadQuoted(text: string): Option<Field> {
    if text == "" then None
    else if text[0] != '"' then
      match ReadQuoted(text[1..])
      case None => None
      case Some(f) => Some(Field([text[0]] + f.value, f.rest))
    else if 1 < |text| && text[1] == '"' then
      match ReadQuoted(text[2..])
      case None => None
      case Some(f) => Some(Field("\"" + f.value, f.rest))
    else Some(Field("", text[1..]))
  }

  function ReadPlain(text: string, d: char): Field {
    if text == "" || text[0] == d || text[0] == '"' || IsNewline(text[0]) then Field("", text)
    else var f := ReadPlain(text[1..], d); Field([text[0]] + f.value, f.rest)
  }

  function ReadField(text: string, d: char): Option<Field> {
    if text != "" && text[0] == '"' then ReadQuoted(text[1..]) else Some(ReadPlain(text, d))
  }

  datatype Record = Record(cells: seq<string>, rest: string)

  lemma {:induction false} QuotedShrinks(text: string)
    ensures ReadQuoted(text).Some? ==> |ReadQuoted(text).value.rest| < |text|
  {
    if text != "" && text[0] != '"' { QuotedShrinks(text[1..]); }
    else if 1 < |text| && text[1] == '"' { QuotedShrinks(text[2..]); }
  }

  lemma {:induction false} PlainShrinks(text: string, d: char)
    ensures |ReadPlain(text, d).rest| <= |text|
  {
    if !(text == "" || text[0] == d || text[0] == '"' || IsNewline(text[0])) { PlainShrinks(text[1..], d); }
  }

  lemma {:induction false} FieldShrinks(text: string, d: char)
    ensures ReadField(text, d).Some? ==> |ReadField(text, d).value.rest| <= |text|
  {
    if text != "" && text[0] == '"' { QuotedShrinks(text[1..]); } else { PlainShrinks(text, d); }
  }

  /** Fields separated by the delimiter up to the CRLF that ends the record. */
  function ReadRecord(text: string, d: char): (r: Option<Record>)
    ensures r.Some? ==> |r.value.rest| < |text|
    decreases |text|
  {
    FieldShrinks(text, d);
    match ReadField(text, d)
    case None => None
    case Some(f) =>
      if f.rest != "" && f.rest[0] == d then
        match ReadRecord(f.rest[1..], d)
        case None => None
        case Some(r) => Some(Record([f.value] + r.cells, r.rest))
      else if |CRLF| <= |f.rest| && f.rest[..|CRLF|] == CRLF then Some(Record([f.value], f.rest[|CRLF|..]))
      else None
  }

  function ReadRecords(text: string, d: char): Option<seq<seq<string>>>
    decreases |text|
  {
    if text == "" then Some([])
    else match ReadRecord(text, d)
         case None => None
         case Some(r) =>
           match ReadRecords(r.rest, d)
           case None => None
           case Some(rows) => Some([r.cells] + rows)
  }

  /** Reads a file that may begin with a byte-order mark. */
  function ReadFile(text: string, d: char): Option<seq<seq<string>>> {
    ReadRecords(if text != "" && text[0] == BOM then text[1..] else text, d)
  }

  // ---------------------------------------------------------------- round trip

  /** What may stand behind a cell: the delimiter, or the end of the record. */
  predicate EndsCell(rest: string, d: char) {
    rest != "" && (rest[0] == d || rest[0] == '\r')
  }

  lemma {:induction false} QuotedIsReadBack(v: string, rest: string)
    requires rest == "" || rest[0] != '"'
    ensures ReadQuoted(QuotesDoubled(v) + "\"" + rest) == Some(Field(v, rest))
  {
    var text := QuotesDoubled(v) + "\"" + rest;
    if v == "" {
      assert text == "\"" + rest && text[1..] == rest;
    } else {
      var more := QuotesDoubled(v[1..]) + "\"" + rest;
      QuotedIsReadBack(v[1..], rest);
      if v[0] == '"' {
        assert text == "\"\"" + more && text[2..] == more;
      } else {
        assert text == [v[0]] + more && text[1..] == more;
      }
      assert v == [v[0]] + v[1..];
    }
  }

  lemma {:induction false} PlainIsReadBack(v: string, d: char, rest: string)
    requires EndsCell(rest, d) && !NeedsQuotes(v, d)
    ensures ReadPlain(v + rest, d) == Field(v, rest)
  {
    if v == "" {
      assert v + rest == rest;
    } else {
      assert (v + rest)[1..] == v[1..] + rest;
      assert !NeedsQuotes(v[1..], d) by {
        assert forall i :: 0 <= i < |v[1..]| ==> v[1..][i] == v[i + 1];
      }
      PlainIsReadBack(v[1..], d, rest);
    }
  }

  /** A value without a quote is its own escaped form. */
  lemma {:induction false} NothingToDouble(v: string)
    ensures (forall i :: 0 <= i < |QuotesDoubled(v)| ==> QuotesDoubled(v)[i] != '"') ==> QuotesDoubled(v) == v
  {
    if v != "" {
      var more := QuotesDoubled(v[1..]);
      NothingToDouble(v[1..]);
      if v[0] == '"' {
        assert QuotesDoubled(v) == "\"\"" + more && QuotesDoubled(v)[0] == '"';
      } else {
        assert QuotesDoubled(v) == [v[0]] + more;
        assert forall i :: 0 <= i < |more| ==> more[i] == QuotesDoubled(v)[i + 1];
      }
    }
  }

  /** Every printed cell is read back as its value, whatever it contains. */
  lemma {:induction false} CellIsReadBack(v: string, d: char, rest: string)
    requires IsDelimiter(d) && EndsCell(rest, d)
    ensures ReadField(CsvCell(v, d) + rest, d) == Some(Field(v, rest))
  {
    var escaped := QuotesDoubled(v);
    if NeedsQuotes(escaped, d) {
      QuotedIsReadBack(v, rest);
      assert CsvCell(v, d) + rest == "\"" + (escaped + "\"" + rest);
    } else {
      NothingToDouble(v);
      PlainIsReadBack(v, d, rest);
      assert v + rest != "" && ((v + rest)[0] == if v == "" then rest[0] else v[0]);
    }
  }

  lemma {:induction false} LastCell(text: string, d: char, v: string, rest: string)
    requires IsDelimiter(d) && ReadField(text, d) == Some(Field(v, CRLF + rest))
    ensures ReadRecord(text, d) == Some(Record([v], rest))
  {
    var tail := CRLF + rest;
    assert tail[0] == '\r' && tail[..2] == CRLF && tail[2..] == rest;
  }

  lemma {:induction false} MoreCells(text: string, d: char, v: string, more: string, cells: seq<string>, rest: string)
    requires IsDelimiter(d) && ReadField(text, d) == Some(Field(v, [d] + more))
    requires ReadRecord(more, d) == Some(Record(cells, rest))
    ensures ReadRecord(text, d) == Some(Record([v] + cells, rest))
  {
    assert ([d] + more)[0] == d && ([d] + more)[1..] == more;
  }

  lemma {:induction false} OneCellRecord(v: string, d: char, rest: string)
    requires IsDelimiter(d)
    ensures ReadRecord(CsvCell(v, d) + CRLF + rest, d) == Some(Record([v], rest))
  {
    var tail := CRLF + rest;
    CellIsReadBack(v, d, tail);
    assert CsvCell(v, d) + CRLF + rest == CsvCell(v, d) + tail;
    LastCell(CsvCell(v, d) + tail, d, v, rest);
  }

  lemma {:induction false} Regroup(a: string, b: string, c: string, d: string, e: string)
    ensures a + b + c + d + e == a + (b + (c + d + e))
  {
  }

  lemma {:induction false} LongerRecord(v: string, d: char, joined: string, cells: seq<string>, rest: string)
    requires IsDelimiter(d) && ReadRecord(joined + CRLF + rest, d) == Some(Record(cells, rest))
    ensures ReadRecord(CsvCell(v, d) + [d] + joined + CRLF + rest, d) == Some(Record([v] + cells, rest))
  {
    var more := joined + CRLF + rest;
    CellIsReadBack(v, d, [d] + more);
    Regroup(CsvCell(v, d), [d], joined, CRLF, rest);
    MoreCells(CsvCell(v, d) + ([d] + more), d, v, more, cells, rest);
  }

  lemma {:induction false} RecordIsReadBack(cells: seq<string>, d: char, rest: string)
    requires IsDelimiter(d) && cells != []
    ensures ReadRecord(JoinCells(cells, d) + CRLF + rest, d) == Some(Record(cells, rest))
  {
    if |cells| == 1 {
      OneCellRecord(cells[0], d, rest);
      assert cells == [cells[0]];
    } else {
      RecordIsReadBack(cells[1..], d, rest);
      LongerRecord(cells[0], d, JoinCells(cells[1..], d), cells[1..], rest);
      assert cells == [cells[0]] + cells[1..];
    }
  }

  lemma {:induction false} RecordsAreReadBack(rows: seq<seq<string>>, d: char)
    requires IsDelimiter(d) && forall i :: 0 <= i < |rows| ==> rows[i] != []
    ensures ReadRecords(Records(rows, d), d) == Some(rows)
  {
    if rows != [] {
      RecordIsReadBack(rows[0], d, Records(rows[1..], d));
      RecordsAreReadBack(rows[1..], d);
      FirstRecord(Records(rows, d), d, rows[0], Records(rows[1..], d), rows[1..]);
      assert rows == [rows[0]] + rows[1..];
    }
  }

  lemma {:induction false} FirstRecord(text: string, d: char, cells: seq<string>, rest: string, rows: seq<seq<string>>)
    requires ReadRecord(text, d) == Some(Record(cells, rest)) && ReadRecords(rest, d) == Some(rows)
    ensures ReadRecords(text, d) == Some([cells] + rows)
  {
    assert |rest| < |text|;
  }

  predicate AllLetters(v: string) { forall i :: 0 <= i < |v| ==> IsLetter(v[i]) }

  lemma {:induction false} LettersStandAsTheyAre(v: string, d: char)
    requires AllLetters(v) && IsDelimiter(d)
    ensures QuotesDoubled(v) == v && CsvCell(v, d) == v
  {
    if v != "" {
      assert AllLetters(v[1..]);
      LettersStandAsTheyAre(v[1..], d);
      assert v == [v[0]] + v[1..];
    }
    assert forall i :: 0 <= i < |v| ==> IsLetter(v[i]) && v[i] != d && v[i] != '"' && !IsNewline(v[i]);
  }

  lemma {:induction false} NamesJoinAsCells(names: seq<string>, d: char)
    requires IsDelimiter(d) && forall i :: 0 <= i < |names| ==> AllLetters(names[i])
    ensures JoinCells(names, d) == Joined(names, d)
  {
    if names != [] {
      LettersStandAsTheyAre(names[0], d);
      if 1 < |names| { NamesJoinAsCells(names[1..], d); }
    }
  }

  lemma {:induction false} HeaderIsLetters()
    ensures |Header()| == 11 && forall i :: 0 <= i < |Header()| ==> AllLetters(Header()[i])
  {
    assert |Header()| == 11;
    assert AllLetters(Header()[0]) && AllLetters(Header()[1]) && AllLetters(Header()[2]) && AllLetters(Header()[3]);
    assert AllLetters(Header()[4]) && AllLetters(Header()[5]) && AllLetters(Header()[6]) && AllLetters(Header()[7]);
    assert AllLetters(Header()[8]) && AllLetters(Header()[9]) && AllLetters(Header()[10]);
  }

  lemma {:induction false} RenderIsRecords(header: seq<string>, rows: seq<seq<string>>, d: char)
    requires IsDelimiter(d) && forall i :: 0 <= i < |header| ==> AllLetters(header[i])
    ensures Records([header] + rows, d) == Joined(header, d) + CRLF + Records(rows, d)
  {
    NamesJoinAsCells(header, d);
    assert ([header] + rows)[1..] == rows;
  }

  lemma {:induction false} BehindMark(a: string, b: string, c: string)
    ensures var text := [BOM] + a + b + c; text[0] == BOM && text[1..] == a + b + c
  {
  }

  lemma {:induction false} FileIsReadBack(header: seq<string>, rows: seq<seq<string>>, d: char)
    requires IsDelimiter(d) && header != [] && forall i :: 0 <= i < |header| ==> AllLetters(header[i])
    requires forall i :: 0 <= i < |rows| ==> rows[i] != []
    ensures ReadFile([BOM] + Joined(header, d) + CRLF + Records(rows, d), d) == Some([header] + rows)
  {
    RenderIsRecords(header, rows, d);
    RecordsAreReadBack([header] + rows, d);
    BehindMark(Joined(header, d), CRLF, Records(rows, d));
  }

  /** Reading a rendered file gives back the header and exactly the cells of every row, for each allowed delimiter. */
  lemma {:induction false} FileRoundTrip(rows: seq<seq<string>>, d: char)
    requires IsDelimiter(d) && forall i :: 0 <= i < |rows| ==> |rows[i]| == 11
    ensures ReadFile(Render(rows, d), d) == Some([Header()] + rows)
  {
    HeaderIsLetters();
    FileIsReadBack(Header(), rows, d);
  }
}
