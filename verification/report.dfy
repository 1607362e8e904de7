/** The chat message the handler sends (pages/api/send-report.js, lines
    59-82). Amounts are rendered by a formatter passed in as a parameter,
    standing for the `en-IN` locale formatting with two fraction digits that
    the model does not describe. */
module Report {
  import opened Wrappers
  import opened Types
  import opened Text
  import Window
  import Totals

  const Checkmark: char := '\U{2705}'
  const Rupee: char := '\U{20B9}'
  const UnknownName := "Unknown"
  const NullAmount := "0.00"
  const NoTransactions := "No successful transactions in this window."
  const TotalLabel := "Total:"

  /** `.replace(/\n/g, " ")`: every line break becomes a space, every other
      character is kept. */
  function FlattenNewlines(s: string): (r: string)
    ensures |r| == |s|
    ensures forall i :: 0 <= i < |s| ==> r[i] == (if s[i] == '\n' then ' ' else s[i])
    decreases |s|
  {
    if |s| == 0 then "" else [if s[0] == '\n' then ' ' else s[0]] + FlattenNewlines(s[1..])
  }

  /** The merchant name as printed: "Unknown" for NULL or empty, otherwise
      the name with its line breaks turned into spaces. */
  function SafeName(name: Option<string>): (r: string)
    ensures LineFree(r)
    ensures r != ""
    ensures name.None? || name.value == "" ==> r == UnknownName
    ensures name.Some? && name.value != "" ==>
              && |r| == |name.value|
              && forall i :: 0 <= i < |r| ==> r[i] == (if name.value[i] == '\n' then ' ' else name.value[i])
  {
    if name.None? || name.value == "" then UnknownName
    else
      var r := FlattenNewlines(name.value);
      assert LineFree(r) by {
        forall i | 0 <= i < |r| ensures r[i] != '\n' { }
      }
      r
  }

  /** The amount as printed: the literal "0.00" for NULL, else the formatter's text. */
  function AmountText(amount: Option<int>, fmt: int -> string): string {
    match amount
    case None => NullAmount
    case Some(a) => fmt(a)
  }

  /** One row's line of the message, without its line break. */
  function RowText(r: Row, fmt: int -> string): string {
    SafeName(r.name) + ": " + [Rupee] + AmountText(r.amount, fmt)
  }

  /** The row lines, one per row, in the order of the rows. */
  function RowTexts(rows: seq<Row>, fmt: int -> string): (texts: seq<string>)
    ensures |texts| == |rows|
    ensures forall i :: 0 <= i < |rows| ==> texts[i] == RowText(rows[i], fmt)
  {
    if |rows| == 0 then [] else [RowText(rows[0], fmt)] + RowTexts(rows[1..], fmt)
  }

  /** The rows section: each row's line followed by a line break. */
  function RowSection(rows: seq<Row>, fmt: int -> string): string {
    if |rows| == 0 then "" else RowText(rows[0], fmt) + "\n" + RowSection(rows[1..], fmt)
  }

  /** The first line: the window length, with "hour" or "hours". */
  function HeaderLine(hours: int): string {
    [Checkmark] + " Transaction summary (last " + Window.DecimalString(hours) + " "
    + Window.HourNoun(hours) + "):"
  }

  function TotalLine(total: int, fmt: int -> string): string {
    TotalLabel + " " + [Rupee] + fmt(total)
  }

  /** What follows the header: the fixed sentence when there are no rows,
      otherwise the rows section, a blank line and the total line. */
  function MessageBody(rows: seq<Row>, fmt: int -> string): string {
    if |rows| == 0 then NoTransactions
    else RowSection(rows, fmt) + ("\n" + TotalLine(Totals.Sum(rows), fmt))
  }

  /** The whole message for a window length and the query's rows. */
  function BuildMessage(hours: int, rows: seq<Row>, fmt: int -> string): (message: string)
    // it opens with the header line and a blank line
    ensures StartsWith(message, HeaderLine(hours) + "\n\n")
    // and closes with the fixed sentence, or with a blank line and the total line
    ensures |rows| == 0 ==> EndsWith(message, NoTransactions)
    ensures |rows| > 0 ==> EndsWith(message, "\n" + TotalLine(Totals.Sum(rows), fmt))
  {
    HeaderLine(hours) + "\n\n" + MessageBody(rows, fmt)
  }

  /** The formatter never produces a line break. */
  ghost predicate LineFreeFormatter(fmt: int -> string) {
    forall n :: '\n' !in fmt(n)
  }

  predicate StartsWith(s: string, prefix: string) {
    |prefix| <= |s| && s[..|prefix|] == prefix
  }

  predicate EndsWith(s: string, suffix: string) {
    |suffix| <= |s| && s[|s| - |suffix|..] == suffix
  }

  function Last(pieces: seq<string>): string
    requires |pieces| >= 1
  {
    pieces[|pieces| - 1]
  }

  lemma HeaderLineIsLineFree(hours: int)
    ensures LineFree(HeaderLine(hours))
  {
  }

  lemma RowTextIsLineFree(r: Row, fmt: int -> string)
    requires LineFreeFormatter(fmt)
    ensures LineFree(RowText(r, fmt))
  {
  }

  lemma TotalLineIsLineFree(total: int, fmt: int -> string)
    requires LineFreeFormatter(fmt)
    ensures LineFree(TotalLine(total, fmt))
  {
  }

  /** Splitting the rows section followed by more text yields one line per
      row, in row order, then the lines of the rest. */
  lemma {:induction false} RowSectionLines(rows: seq<Row>, fmt: int -> string, tail: string)
    requires LineFreeFormatter(fmt)
    ensures Lines(RowSection(rows, fmt) + tail) == RowTexts(rows, fmt) + Lines(tail)
    decreases |rows|
  {
    if |rows| == 0 {
      assert RowSection(rows, fmt) + tail == tail;
    } else {
      var head := RowText(rows[0], fmt);
      RowTextIsLineFree(rows[0], fmt);
      assert RowSection(rows, fmt) + tail == head + "\n" + (RowSection(rows[1..], fmt) + tail);
      LinesAfterLine(head, RowSection(rows[1..], fmt) + tail);
      RowSectionLines(rows[1..], fmt, tail);
    }
  }

  /** A line, a blank line, and a last line. */
  lemma HeaderBlankThen(header: string, rest: string)
    requires LineFree(header)
    ensures Lines(header + "\n\n" + rest) == [header, ""] + Lines(rest)
  {
    assert header + "\n\n" + rest == header + "\n" + ("" + "\n" + rest);
    LinesAfterLine(header, "" + "\n" + rest);
    LinesAfterLine("", rest);
  }

  lemma NoTransactionsFacts()
    ensures LineFree(NoTransactions)
    ensures !StartsWith(NoTransactions, TotalLabel)
  {
    assert NoTransactions[0] != TotalLabel[0];
  }

  /** A line, a blank line, and one more line. */
  lemma ThreeLines(first: string, last: string)
    requires LineFree(first) && LineFree(last)
    ensures Lines(first + "\n\n" + last) == [first, "", last]
  {
    HeaderBlankThen(first, last);
    LinesOfLineFree(last);
  }

  /** A line break followed by one line: a blank line, then that line. */
  lemma BlankThenLine(last: string)
    requires LineFree(last)
    ensures Lines("\n" + last) == ["", last]
  {
    assert "\n" + last == "" + "\n" + last;
    LinesAfterLine("", last);
    LinesOfLineFree(last);
  }

  /** With no rows the message is the header, a blank line and the fixed
      sentence, and no line of it starts with "Total:". */
  lemma MessageWithoutRows(hours: int, rows: seq<Row>, fmt: int -> string)
    requires |rows| == 0
    ensures Lines(BuildMessage(hours, rows, fmt)) == [HeaderLine(hours), "", NoTransactions]
    ensures forall i :: 0 <= i < |Lines(BuildMessage(hours, rows, fmt))| ==>
              !StartsWith(Lines(BuildMessage(hours, rows, fmt))[i], TotalLabel)
  {
    var header := HeaderLine(hours);
    HeaderLineIsLineFree(hours);
    NoTransactionsFacts();
    ThreeLines(header, NoTransactions);
    assert !StartsWith(header, TotalLabel) by {
      assert header[0] == Checkmark;
    }
  }

  /** With rows the message is the header, a blank line, one line per row in
      row order, a blank line, and the total line. */
  lemma MessageWithRows(hours: int, rows: seq<Row>, fmt: int -> string)
    requires |rows| > 0
    requires LineFreeFormatter(fmt)
    ensures Lines(BuildMessage(hours, rows, fmt))
            == [HeaderLine(hours), ""] + RowTexts(rows, fmt) + ["", TotalLine(Totals.Sum(rows), fmt)]
  {
    var header := HeaderLine(hours);
    var total := TotalLine(Totals.Sum(rows), fmt);
    var section := RowSection(rows, fmt);
    HeaderLineIsLineFree(hours);
    TotalLineIsLineFree(Totals.Sum(rows), fmt);
    HeaderBlankThen(header, section + ("\n" + total));
    RowSectionLines(rows, fmt, "\n" + total);
    BlankThenLine(total);
  }

  /** The store's row order does not change the total line. */
  lemma TotalLineIgnoresRowOrder(hours: int, a: seq<Row>, b: seq<Row>, fmt: int -> string)
    requires multiset(a) == multiset(b)
    requires LineFreeFormatter(fmt)
    ensures Last(Lines(BuildMessage(hours, a, fmt))) == Last(Lines(BuildMessage(hours, b, fmt)))
  {
    if |a| == 0 {
      assert |b| == |multiset(b)| == 0;
      assert a == b;
    } else {
      assert |b| == |multiset(b)| == |a|;
      MessageWithRows(hours, a, fmt);
      MessageWithRows(hours, b, fmt);
      Totals.SumPermutation(a, b);
    }
  }

  /** A two-hour window with a named row of 150 rupees and an all-NULL row. */
  lemma TwoRowExample(fmt: int -> string)
    requires fmt(15000) == "150.00"
    ensures BuildMessage(2, [Row(Some("Acme"), Some(15000)), Row(None, None)], fmt)
            == [Checkmark] + " Transaction summary (last 2 hours):" + "\n\n"
               + (  "Acme: " + [Rupee] + "150.00" + "\n"
                  + ("Unknown: " + [Rupee] + "0.00" + "\n")
                  + ("\n" + ("Total: " + [Rupee] + "150.00")))
  {
    var acme := Row(Some("Acme"), Some(15000));
    var blank := Row(None, None);
    var rows := [acme, blank];
    var header := [Checkmark] + " Transaction summary (last 2 hours):";
    var line0 := "Acme: " + [Rupee] + "150.00";
    var line1 := "Unknown: " + [Rupee] + "0.00";
    var total := "Total: " + [Rupee] + "150.00";
    assert HeaderLine(2) == header by {
      assert Window.DecimalString(2) == "2";
    }
    assert RowText(acme, fmt) == line0 by {
      var r := SafeName(Some("Acme"));
      assert |r| == 4;
      assert r[0] == 'A' && r[1] == 'c' && r[2] == 'm' && r[3] == 'e';
      assert r == "Acme";
    }
    assert RowText(blank, fmt) == line1;
    assert RowSection(rows, fmt) == line0 + "\n" + (line1 + "\n") by {
      assert rows[1..] == [blank];
      assert [blank][1..] == [];
      assert RowSection([blank], fmt) == line1 + "\n" + "";
      assert line1 + "\n" + "" == line1 + "\n";
    }
    assert Totals.Sum(rows) == 15000 by {
      assert rows[1..] == [blank];
      assert rows[1..][1..] == [];
    }
    assert TotalLine(Totals.Sum(rows), fmt) == total;
  }
}
