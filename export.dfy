/**
 * The CSV export of server.js: a header line, then one line per stored turn with
 * every field in double quotes. In the message text a double quote is doubled, as
 * in rule 7 of section 2 of RFC 4180, and a line feed becomes a space, so that
 * every record stays on one line (instead of the quoted line breaks of rule 6).
 * The client, date and role fields are quoted but not escaped. The date text is
 * an abstract function of the timestamp, standing for `toLocaleString`.
 */
module Export {
  import opened Wrappers
  import Store
  import Seqs

  const CsvHeader := "Client,Date,Role,Message\n"

  /** `replace(/"/g, '""')` */
  function DoubleQuotes(s: string): (r: string)
    ensures |r| == |s| + Count(s, '"')
  {
    if s == [] then [] else (if s[0] == '"' then "\"\"" else [s[0]]) + DoubleQuotes(s[1..])
  }

  /** `replace(/\n/g, ' ')` */
  function FlattenNewlines(s: string): (r: string)
    ensures |r| == |s| && forall i | 0 <= i < |s| :: r[i] == if s[i] == '\n' then ' ' else s[i]
  {
    if s == [] then [] else [if s[0] == '\n' then ' ' else s[0]] + FlattenNewlines(s[1..])
  }

  /** The message field's content: quotes doubled first, then line feeds flattened. */
  function EscapeContent(s: string): string {
    FlattenNewlines(DoubleQuotes(s))
  }

  function Quoted(s: string): string {
    "\"" + s + "\""
  }

  /** One exported line for a stored turn. */
  function CsvRow(t: Store.Turn, dateText: int -> string): string {
    Quoted(t.number) + "," + Quoted(dateText(t.timestamp)) + "," + Quoted(t.role) + "," + Quoted(EscapeContent(t.content)) + "\n"
  }

  function CsvRows(rows: seq<Store.Turn>, dateText: int -> string): string {
    if rows == [] then "" else CsvRows(rows[..|rows| - 1], dateText) + CsvRow(rows[|rows| - 1], dateText)
  }

  function Csv(rows: seq<Store.Turn>, dateText: int -> string): string {
    CsvHeader + CsvRows(rows, dateText)
  }

  /** The `forEach` that appends one line per row to the header. */
  method BuildCsv(rows: seq<Store.Turn>, dateText: int -> string) returns (csv: string)
    ensures csv == Csv(rows, dateText)
  {
    csv := CsvHeader;
    for i := 0 to |rows|
      invariant csv == CsvHeader + CsvRows(rows[..i], dateText)
    {
      RowsSnoc(rows, i, dateText);
      Seqs.AppendAssoc(CsvHeader, CsvRows(rows[..i], dateText), CsvRow(rows[i], dateText));
      csv := csv + CsvRow(rows[i], dateText);
    }
    assert rows[..|rows|] == rows;
  }

  lemma RowsSnoc(rows: seq<Store.Turn>, i: nat, dateText: int -> string)
    requires i < |rows|
    ensures CsvRows(rows[..i + 1], dateText) == CsvRows(rows[..i], dateText) + CsvRow(rows[i], dateText)
  {
    assert rows[..i + 1][..i] == rows[..i];
  }

  /** How many times `c` occurs in `s`. */
  function Count(s: string, c: char): nat {
    if s == [] then 0 else (if s[0] == c then 1 else 0) + Count(s[1..], c)
  }

  /**
   * Reading a field's inside back: `""` is one quote, a lone quote is malformed.
   * This is the reader that rule 7 of RFC 4180 calls for.
   */
  function Unescape(e: string): Option<string> {
    if e == [] then Some([])
    else if e[0] != '"' then
      match Unescape(e[1..])
      case Some(rest) => Some([e[0]] + rest)
      case None => None
    else if |e| >= 2 && e[1] == '"' then
      match Unescape(e[2..])
      case Some(rest) => Some("\"" + rest)
      case None => None
    else None
  }

  // ---------------------------------------------------------------------------
  // Properties

  /** Doubling the quotes loses nothing: the reader of rule 7 gets the text back. */
  lemma {:induction false} DoubleQuotesRoundTrip(s: string)
    ensures Unescape(DoubleQuotes(s)) == Some(s)
  {
    if s != [] {
      DoubleQuotesRoundTrip(s[1..]);
      var e := DoubleQuotes(s);
      if s[0] == '"' {
        assert e[2..] == DoubleQuotes(s[1..]);
      } else {
        assert e[1..] == DoubleQuotes(s[1..]);
      }
      assert [s[0]] + s[1..] == s;
    }
  }

  lemma {:induction false} FlattenCommutes(s: string)
    ensures FlattenNewlines(DoubleQuotes(s)) == DoubleQuotes(FlattenNewlines(s))
  {
    if s != [] {
      FlattenCommutes(s[1..]);
      var head := if s[0] == '"' then "\"\"" else [s[0]];
      FlattenAppend(head, DoubleQuotes(s[1..]));
      assert FlattenNewlines(s) == FlattenNewlines([s[0]]) + FlattenNewlines(s[1..]);
    }
  }

  lemma FlattenAppend(a: string, b: string)
    ensures FlattenNewlines(a + b) == FlattenNewlines(a) + FlattenNewlines(b)
  {
  }

  /**
   * The message field holds no line feed, every other character keeps its place
   * relative to the quotes, and reading it back gives the message with its line
   * feeds turned into spaces.
   */
  lemma EscapeContentSpec(s: string)
    ensures '\n' !in EscapeContent(s)
    ensures |EscapeContent(s)| == |s| + Count(s, '"')
    ensures Unescape(EscapeContent(s)) == Some(FlattenNewlines(s))
  {
    FlattenCommutes(s);
    DoubleQuotesRoundTrip(FlattenNewlines(s));
  }

  function CountLines(s: string): nat {
    Count(s, '\n')
  }

  lemma {:induction false} CountAbsent(s: string, c: char)
    requires c !in s
    ensures Count(s, c) == 0
  {
    if s != [] {
      CountAbsent(s[1..], c);
    }
  }

  /**
   * When no client number, date text or role holds a line feed, the export has
   * exactly one line per stored turn after the header, whatever the messages hold.
   */
  lemma {:induction false} OneLinePerTurn(rows: seq<Store.Turn>, dateText: int -> string)
    requires forall t | t in rows :: '\n' !in t.number && '\n' !in dateText(t.timestamp) && '\n' !in t.role
    ensures CountLines(Csv(rows, dateText)) == |rows| + 1
  {
    HeaderLine();
    CountOfAppend(CsvHeader, CsvRows(rows, dateText), '\n');
    RowsLines(rows, dateText);
  }

  lemma {:induction false} CountOfAppend(a: string, b: string, c: char)
    ensures Count(a + b, c) == Count(a, c) + Count(b, c)
  {
    if a == [] {
      assert a + b == b;
    } else {
      assert (a + b)[1..] == a[1..] + b;
      CountOfAppend(a[1..], b, c);
    }
  }

  /** A text without a line feed, then a line feed, is one line. */
  lemma OneLine(s: string)
    requires '\n' !in s
    ensures Count(s + "\n", '\n') == 1
  {
    CountAbsent(s, '\n');
    CountOfAppend(s, "\n", '\n');
  }

  lemma HeaderLine()
    ensures Count(CsvHeader, '\n') == 1
  {
    var names := "Client,Date,Role,Message";
    assert '\n' !in names;
    assert CsvHeader == names + "\n";
    OneLine(names);
  }

  lemma {:induction false} RowsLines(rows: seq<Store.Turn>, dateText: int -> string)
    requires forall t | t in rows :: '\n' !in t.number && '\n' !in dateText(t.timestamp) && '\n' !in t.role
    ensures Count(CsvRows(rows, dateText), '\n') == |rows|
  {
    if rows != [] {
      var init, t := rows[..|rows| - 1], rows[|rows| - 1];
      assert forall u | u in init :: u in rows;
      RowsLines(init, dateText);
      RowLine(t, dateText);
      CountOfAppend(CsvRows(init, dateText), CsvRow(t, dateText), '\n');
    }
  }

  lemma RowLine(t: Store.Turn, dateText: int -> string)
    requires '\n' !in t.number && '\n' !in dateText(t.timestamp) && '\n' !in t.role
    ensures Count(CsvRow(t, dateText), '\n') == 1
  {
    var body := Quoted(t.number) + "," + Quoted(dateText(t.timestamp)) + "," + Quoted(t.role) + "," + Quoted(EscapeContent(t.content));
    EscapeContentSpec(t.content);
    assert '\n' !in body;
    OneLine(body);
  }
}
