/** The rows that the end of a reaction-time session writes out: a header row
    followed by one row per recorded reaction time, in recording order, each
    time written as a plain decimal number.

    The file, its line terminators and the CSV quoting rules are not modelled;
    a row here is the text of its single cell. `ParseExport` is the reader that
    the rows are proved to round-trip through. */
module Export {

  datatype Option<T> = None | Some(value: T)

  /** Text of the header row. */
  const HEADER: string := "Reaction Time (ms)"

  predicate IsDigit(c: char) {
    '0' <= c <= '9'
  }

  predicate AllDigits(s: string) {
    forall i :: 0 <= i < |s| ==> IsDigit(s[i])
  }

  function DigitChar(d: nat): (c: char)
    requires d < 10
    ensures IsDigit(c) && c as int - '0' as int == d
  {
    ('0' as int + d) as char
  }

  /** The decimal text of a non-negative integer, as Python's `str` writes it:
      at least one digit, and no leading zero except in "0" itself. */
  function NatToString(n: nat): (s: string)
    ensures |s| >= 1 && AllDigits(s)
    ensures s[0] == '0' <==> n == 0
    ensures n == 0 ==> s == "0"
    decreases n
  {
    if n < 10 then [DigitChar(n)] else NatToString(n / 10) + [DigitChar(n % 10)]
  }

  /** The value of a string of decimal digits, most significant digit first. */
  function DigitsValue(s: string): nat
    requires AllDigits(s)
  {
    if s == [] then 0 else DigitsValue(s[..|s| - 1]) * 10 + (s[|s| - 1] as int - '0' as int)
  }

  /** Reads one data row back: the value of a non-empty row of digits, and
      nothing for any other text. What it promises is stated by the round-trip
      lemmas below. */
  function ParseRow(row: string): Option<nat> {
    if row != [] && AllDigits(row) then Some(DigitsValue(row)) else None
  }

  lemma {:induction false} NatToStringRoundTrip(n: nat)
    ensures DigitsValue(NatToString(n)) == n
    ensures ParseRow(NatToString(n)) == Some(n)
    decreases n
  {
    if n >= 10 {
      var prefix := NatToString(n / 10);
      var s := prefix + [DigitChar(n % 10)];
      assert s[..|s| - 1] == prefix;
      NatToStringRoundTrip(n / 10);
      assert DigitsValue(s) == (n / 10) * 10 + n % 10;
    }
  }

  /** Writing a time as text loses nothing: different times give different rows. */
  lemma NatToStringInjective(a: nat, b: nat)
    requires NatToString(a) == NatToString(b)
    ensures a == b
  {
    NatToStringRoundTrip(a);
    NatToStringRoundTrip(b);
  }

  /** One row per recorded time, in the order the times were recorded. */
  function DataRows(times: seq<nat>): (rows: seq<string>)
    ensures |rows| == |times|
    ensures forall i :: 0 <= i < |times| ==> rows[i] == NatToString(times[i])
  {
    if times == [] then [] else [NatToString(times[0])] + DataRows(times[1..])
  }

  /** Everything the end of the session writes: the header, then the data rows. */
  function ExportRows(times: seq<nat>): (rows: seq<string>)
    ensures |rows| == 1 + |times|
    ensures rows[0] == HEADER
    ensures forall i :: 0 <= i < |times| ==> rows[i + 1] == NatToString(times[i])
  {
    [HEADER] + DataRows(times)
  }

  /** Reads data rows back; nothing if any row is not a number. */
  function ParseRows(rows: seq<string>): (r: Option<seq<nat>>)
    ensures r.Some? ==> |r.value| == |rows|
  {
    if rows == [] then Some([])
    else match (ParseRow(rows[0]), ParseRows(rows[1..]))
      case (Some(v), Some(vs)) => Some([v] + vs)
      case _ => None
  }

  /** Reads an export back: nothing unless it starts with the header. */
  function ParseExport(rows: seq<string>): (r: Option<seq<nat>>)
    ensures r.Some? ==> |rows| >= 1 && rows[0] == HEADER && |r.value| == |rows| - 1
  {
    if rows == [] || rows[0] != HEADER then None else ParseRows(rows[1..])
  }

  /** The header is never read as a reaction time. */
  lemma HeaderIsNotData()
    ensures ParseRow(HEADER) == None
  {
  }

  lemma {:induction false} DataRowsRoundTrip(times: seq<nat>)
    ensures ParseRows(DataRows(times)) == Some(times)
  {
    if times != [] {
      var rows := DataRows(times);
      assert rows[1..] == DataRows(times[1..]);
      NatToStringRoundTrip(times[0]);
      DataRowsRoundTrip(times[1..]);
      assert [times[0]] + times[1..] == times;
    }
  }

  /** Reading the export back gives exactly the recorded times, in order. */
  lemma ExportRoundTrip(times: seq<nat>)
    ensures ParseExport(ExportRows(times)) == Some(times)
  {
    var rows := ExportRows(times);
    assert rows[1..] == DataRows(times);
    DataRowsRoundTrip(times);
  }

  /** Two sessions export the same rows only if they recorded the same times. */
  lemma ExportInjective(a: seq<nat>, b: seq<nat>)
    requires ExportRows(a) == ExportRows(b)
    ensures a == b
  {
    ExportRoundTrip(a);
    ExportRoundTrip(b);
  }

  /** The writing loop of the end of the session: the header row first, then
      one row per recorded time. */
  method WriteRows(times: seq<nat>) returns (rows: seq<string>)
    ensures rows == ExportRows(times)
  {
    rows := [HEADER];
    for i := 0 to |times|
      invariant rows == ExportRows(times[..i])
    {
      assert times[..i + 1] == times[..i] + [times[i]];
      rows := rows + [NatToString(times[i])];
    }
    assert times[..|times|] == times;
  }
}
