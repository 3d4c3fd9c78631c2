/** getCSV: the move history as comma-separated text, a header line and
    then one line per history record. The record's timestamp is the
    abstract clock reading of module Rules, written in decimal. */
module Export {
  import opened Rules

  /** The column names of the header line, in order. */
  const COLUMNS: seq<string> := ["Timestamp", "CircleID", "FromRow", "FromCol", "ToRow", "ToCol", "Success", "Message"]

  /** The header line, without its newline. */
  const HEADER: string := Join(COLUMNS, ',')

  predicate IsDigit(ch: char)
  {
    '0' as int <= ch as int <= '9' as int
  }

  function DigitChar(d: nat): (ch: char)
    requires d < 10
    ensures IsDigit(ch) && (ch as int) - ('0' as int) == d
  {
    (('0' as int) + d) as char
  }

  /** Decimal digits of a natural number, most significant first. */
  function NatText(n: nat): (s: string)
    ensures |s| > 0 && forall i :: 0 <= i < |s| ==> IsDigit(s[i])
  {
    if n < 10 then [DigitChar(n)] else NatText(n / 10) + [DigitChar(n % 10)]
  }

  /** How an integer is interpolated into the text: a minus sign before
      the digits of a negative one (a target row or column of -1). */
  function IntText(n: int): (s: string)
    ensures |s| > 0 && (forall i :: 0 < i < |s| ==> IsDigit(s[i]))
    ensures s[0] == '-' <==> n < 0
  {
    if n < 0 then "-" + NatText(-n) else NatText(n)
  }

  /** The value of one decimal digit. */
  function DigitValue(ch: char): (d: nat)
    requires IsDigit(ch)
    ensures d < 10 && DigitChar(d) == ch
  {
    (ch as int) - ('0' as int)
  }

  /** The value of a string of decimal digits. */
  function ParseNat(s: string): nat
    requires forall i :: 0 <= i < |s| ==> IsDigit(s[i])
  {
    if |s| == 0 then 0 else ParseNat(s[..|s| - 1]) * 10 + DigitValue(s[|s| - 1])
  }

  /** The value of an optional minus sign followed by decimal digits. */
  function ParseInt(s: string): int
    requires |s| > 0 && forall i :: 0 < i < |s| ==> IsDigit(s[i])
    requires s[0] == '-' || IsDigit(s[0])
  {
    if s[0] == '-' then -(ParseNat(s[1..]) as int) else ParseNat(s)
  }

  lemma {:induction false} NatTextRoundTrip(n: nat)
    ensures ParseNat(NatText(n)) == n
    decreases n
  {
    if n >= 10 {
      var s := NatText(n);
      assert s[..|s| - 1] == NatText(n / 10);
      NatTextRoundTrip(n / 10);
    }
  }

  lemma IntTextRoundTrip(n: int)
    ensures ParseInt(IntText(n)) == n
  {
    if n < 0 {
      assert IntText(n)[1..] == NatText(-n);
      NatTextRoundTrip(-n);
    } else {
      NatTextRoundTrip(n);
    }
  }

  function BoolText(b: bool): string
  {
    if b then "true" else "false"
  }

  /** `h.message || ''`: the refusal text, or nothing for a valid move. */
  function MessageText(m: Option<Reason>): string
  {
    match m
    case None => ""
    case Some(r) => Message(r)
  }

  /** `xs.join(sep)`: the parts with one separator between neighbours. */
  function Join(xs: seq<string>, sep: char): string
    decreases |xs|
  {
    if |xs| == 0 then "" else if |xs| == 1 then xs[0] else xs[0] + [sep] + Join(xs[1..], sep)
  }

  /** `s.split(sep)`: the pieces between separators, empty ones included. */
  function Split(s: string, sep: char): (parts: seq<string>)
    ensures |parts| > 0
    decreases |s|
  {
    if |s| == 0 then [""]
    else
      var rest := Split(s[1..], sep);
      if s[0] == sep then [""] + rest else [[s[0]] + rest[0]] + rest[1..]
  }

  lemma {:induction false} SplitPlain(s: string, sep: char)
    requires sep !in s
    ensures Split(s, sep) == [s]
    decreases |s|
  {
    if |s| > 0 {
      assert s[0] in s;
      assert sep !in s[1..] by {
        forall i | 0 <= i < |s[1..]| ensures s[1..][i] != sep {
          assert s[1..][i] == s[i + 1];
        }
      }
      SplitPlain(s[1..], sep);
      assert [s[0]] + s[1..] == s;
    }
  }

  /** A separator after a piece free of it splits off exactly that piece. */
  lemma {:induction false} SplitAfter(a: string, sep: char, b: string)
    requires sep !in a
    ensures Split(a + [sep] + b, sep) == [a] + Split(b, sep)
    decreases |a|
  {
    if |a| == 0 {
      assert a + [sep] + b == [sep] + b;
      assert ([sep] + b)[1..] == b;
    } else {
      assert a[0] in a;
      assert sep !in a[1..] by {
        forall i | 0 <= i < |a[1..]| ensures a[1..][i] != sep {
          assert a[1..][i] == a[i + 1];
        }
      }
      SplitAfter(a[1..], sep, b);
      assert (a + [sep] + b)[1..] == a[1..] + [sep] + b;
      assert [a[0]] + a[1..] == a;
    }
  }

  /** Splitting undoes joining when no part holds the separator. */
  lemma {:induction false} SplitJoin(xs: seq<string>, sep: char)
    requires |xs| > 0 && forall i :: 0 <= i < |xs| ==> sep !in xs[i]
    ensures Split(Join(xs, sep), sep) == xs
    decreases |xs|
  {
    if |xs| == 1 {
      SplitPlain(xs[0], sep);
    } else {
      SplitJoin(xs[1..], sep);
      SplitAfter(xs[0], sep, Join(xs[1..], sep));
      assert [xs[0]] + xs[1..] == xs;
    }
  }

  /** The eight columns of one record, in header order. */
  function Fields(h: Record): (f: seq<string>)
    ensures |f| == 8
  {
    [NatText(h.timestamp), h.circleId, IntText(h.from.row), IntText(h.from.col),
     IntText(h.to.row), IntText(h.to.col), BoolText(h.success), "\"" + MessageText(h.message) + "\""]
  }

  /** One line of the export: the eight columns separated by commas. When
      the id holds no comma, splitting the line at commas gives them back. */
  function Row(h: Record): (r: string)
    ensures ',' !in h.circleId ==> Split(r, ',') == Fields(h)
  {
    var r := Join(Fields(h), ',');
    if ',' !in h.circleId then
      FieldsPlain(h, ',');
      SplitJoin(Fields(h), ',');
      r
    else
      r
  }

  /** The lines after the header, one per record, in history order. */
  function Rows(history: seq<Record>): (rows: seq<string>)
    ensures |rows| == |history|
    ensures forall i :: 0 <= i < |history| ==> rows[i] == Row(history[i])
  {
    seq(|history|, i requires 0 <= i < |history| => Row(history[i]))
  }

  /** getCSV: the header, a newline, and the lines joined by newlines. */
  function Csv(history: seq<Record>): (s: string)
    ensures |s| > |HEADER| && s[..|HEADER| + 1] == HEADER + "\n"
    ensures history == [] ==> s == HEADER + "\n"
  {
    HEADER + "\n" + Join(Rows(history), '\n')
  }

  lemma OutOfBoundsPlain()
    ensures ',' !in Message(OutOfBounds) && '\n' !in Message(OutOfBounds)
  {
  }

  lemma CircleNotFoundPlain()
    ensures ',' !in Message(CircleNotFound) && '\n' !in Message(CircleNotFound)
  {
  }

  lemma DiagonalPlain()
    ensures ',' !in Message(Diagonal) && '\n' !in Message(Diagonal)
  {
  }

  lemma NotTopPlain()
    ensures ',' !in Message(NotTop) && '\n' !in Message(NotTop)
  {
  }

  lemma OnRedPlain()
    ensures ',' !in Message(OnRed) && '\n' !in Message(OnRed)
  {
  }

  lemma OnlyRedOnBluePlain()
    ensures ',' !in Message(OnlyRedOnBlue) && '\n' !in Message(OnlyRedOnBlue)
  {
  }

  /** The refusal texts hold neither a comma nor a newline. */
  lemma MessagePlain(m: Option<Reason>)
    ensures ',' !in MessageText(m) && '\n' !in MessageText(m)
  {
    match m
    case None =>
    case Some(r) =>
      match r
      case OutOfBounds => OutOfBoundsPlain();
      case CircleNotFound => CircleNotFoundPlain();
      case Diagonal => DiagonalPlain();
      case NotTop => NotTopPlain();
      case OnRed => OnRedPlain();
      case OnlyRedOnBlue => OnlyRedOnBluePlain();
  }

  /** The header names the eight columns each line carries, and holds no
      newline. */
  lemma HeaderColumns()
    ensures Split(HEADER, ',') == COLUMNS && |COLUMNS| == 8
    ensures '\n' !in HEADER
  {
    assert forall i :: 0 <= i < |COLUMNS| ==> ',' !in COLUMNS[i] && '\n' !in COLUMNS[i] by {
      assert ',' !in "Timestamp" && ',' !in "CircleID" && ',' !in "FromRow" && ',' !in "FromCol" &&
        ',' !in "ToRow" && ',' !in "ToCol" && ',' !in "Success" && ',' !in "Message";
      assert '\n' !in "Timestamp" && '\n' !in "CircleID" && '\n' !in "FromRow" && '\n' !in "FromCol" &&
        '\n' !in "ToRow" && '\n' !in "ToCol" && '\n' !in "Success" && '\n' !in "Message";
    }
    SplitJoin(COLUMNS, ',');
    JoinPlain(COLUMNS, ',', '\n');
  }

  lemma DigitsOnly(s: string, ch: char)
    requires forall i :: 0 < i < |s| ==> IsDigit(s[i])
    requires !IsDigit(ch) && ch != '-'
    requires |s| > 0 ==> IsDigit(s[0]) || s[0] == '-'
    ensures ch !in s
  {
    forall i | 0 <= i < |s| ensures s[i] != ch {
    }
  }

  /** Only the id can carry a comma or a newline into a line. */
  lemma FieldsPlain(h: Record, ch: char)
    requires ch == ',' || ch == '\n'
    requires ch !in h.circleId
    ensures forall i :: 0 <= i < 8 ==> ch !in Fields(h)[i]
  {
    var f := Fields(h);
    DigitsOnly(f[0], ch);
    DigitsOnly(f[2], ch);
    DigitsOnly(f[3], ch);
    DigitsOnly(f[4], ch);
    DigitsOnly(f[5], ch);
    MessagePlain(h.message);
    assert f[7] == ['"'] + MessageText(h.message) + ['"'];
  }

  /** A line reads back as the record it was written from: when the id
      holds no comma, its eight comma-separated columns give back the
      timestamp, the id, both positions, the outcome and the message. */
  lemma RowDecodes(h: Record)
    requires ',' !in h.circleId
    ensures var f := Split(Row(h), ',');
      |f| == 8 && f == Fields(h) &&
      ParseNat(f[0]) == h.timestamp && f[1] == h.circleId &&
      ParseInt(f[2]) == h.from.row && ParseInt(f[3]) == h.from.col &&
      ParseInt(f[4]) == h.to.row && ParseInt(f[5]) == h.to.col &&
      (f[6] == "true" <==> h.success) && f[7] == "\"" + MessageText(h.message) + "\""
  {
    NatTextRoundTrip(h.timestamp);
    IntTextRoundTrip(h.from.row);
    IntTextRoundTrip(h.from.col);
    IntTextRoundTrip(h.to.row);
    IntTextRoundTrip(h.to.col);
  }

  /** A line holds no newline unless its id does. */
  lemma RowOneLine(h: Record)
    requires '\n' !in h.circleId
    ensures '\n' !in Row(h)
  {
    FieldsPlain(h, '\n');
    JoinPlain(Fields(h), ',', '\n');
  }

  lemma {:induction false} JoinPlain(xs: seq<string>, sep: char, ch: char)
    requires sep != ch && forall i :: 0 <= i < |xs| ==> ch !in xs[i]
    ensures ch !in Join(xs, sep)
    decreases |xs|
  {
    if |xs| > 1 {
      JoinPlain(xs[1..], sep, ch);
      assert xs[0] in xs;
    }
  }

  /** The export has one line for the header and one per record: split at
      newlines it gives back the header and then each record's line in
      history order (an empty history leaves a trailing empty line, since
      the header ends with a newline). */
  lemma CsvLines(history: seq<Record>)
    requires forall i :: 0 <= i < |history| ==> '\n' !in history[i].circleId
    ensures Split(Csv(history), '\n') == [HEADER] + (if history == [] then [""] else Rows(history))
  {
    var rows := Rows(history);
    var lines := [HEADER] + (if history == [] then [""] else rows);
    forall i | 0 <= i < |rows| ensures '\n' !in rows[i] {
      RowOneLine(history[i]);
    }
    assert Join(lines, '\n') == Csv(history) by {
      assert lines[1..] == (if history == [] then [""] else rows);
    }
    HeaderColumns();
    SplitJoin(lines, '\n');
  }
}
