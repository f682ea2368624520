/** The CSV text of the sales export: every field quoted, embedded quotes
    doubled, fields joined by commas and rows by line feeds (the quoting rules
    of section 2 of RFC 4180). `Read` is a reference reader for that format,
    used to state that the export can be read back exactly. */
module Csv {
  import opened Model

  /** `parts.join(sep)`: the empty list gives "", one part gives itself. */
  function Join(parts: seq<string>, sep: string): (r: string)
    ensures |parts| == 1 ==> r == parts[0]
    decreases |parts|
  {
    if |parts| == 0 then ""
    else if |parts| == 1 then parts[0]
    else parts[0] + sep + Join(parts[1..], sep)
  }

  /** Joining one more part adds the separator and the part at the end. */
  lemma {:induction false} JoinAppend(parts: seq<string>, p: string, sep: string)
    requires |parts| >= 1
    ensures Join(parts + [p], sep) == Join(parts, sep) + sep + p
    decreases |parts|
  {
    if |parts| == 1 {
      assert (parts + [p])[1..] == [p];
    } else {
      assert (parts + [p])[1..] == parts[1..] + [p];
      JoinAppend(parts[1..], p, sep);
    }
  }

  /** `v.replace(/"/g, '""')`: every double quote doubled. */
  function Escape(s: string): (r: string)
    ensures |r| >= |s|
    decreases |s|
  {
    if s == [] then ""
    else (if s[0] == '"' then "\"\"" else [s[0]]) + Escape(s[1..])
  }

  /** A field as written to the file: the escaped value between double quotes. */
  function Quote(s: string): (r: string)
    ensures |r| >= 2 && r[0] == '"' && r[|r| - 1] == '"'
  {
    "\"" + Escape(s) + "\""
  }

  /** Inverse of `Escape`: every pair of double quotes becomes one. */
  function Collapse(s: string): string
    decreases |s|
  {
    if s == [] then ""
    else if |s| >= 2 && s[0] == '"' && s[1] == '"' then "\"" + Collapse(s[2..])
    else [s[0]] + Collapse(s[1..])
  }

  /** Strips the outer quotes of a field and collapses the doubled ones. */
  function Unquote(q: string): string
  {
    if |q| < 2 then "" else Collapse(q[1..|q| - 1])
  }

  lemma {:induction false} CollapseEscape(s: string)
    ensures Collapse(Escape(s)) == s
    decreases |s|
  {
    if s != [] {
      var rest := Escape(s[1..]);
      CollapseEscape(s[1..]);
      if s[0] == '"' {
        assert ("\"\"" + rest)[2..] == rest;
      } else {
        assert ([s[0]] + rest)[1..] == rest;
      }
    }
  }

  /** Quoting a field and unquoting it gives back the original value. */
  lemma UnquoteQuote(s: string)
    ensures Unquote(Quote(s)) == s
  {
    var q := Quote(s);
    assert q[1..|q| - 1] == Escape(s);
    CollapseEscape(s);
  }

  /** One exported row. */
  function RowText(fields: seq<string>): string
  {
    Join(seq(|fields|, i requires 0 <= i < |fields| => Quote(fields[i])), ",")
  }

  /** The whole export. */
  function Document(rows: seq<seq<string>>): string
  {
    Join(seq(|rows|, i requires 0 <= i < |rows| => RowText(rows[i])), "\n")
  }

  /** Reads the rest of a quoted field, `s` starting just after its opening
      quote; gives the value and the text after the closing quote. */
  function ReadQuoted(s: string): (r: Option<(string, string)>)
    ensures r.Some? ==> |r.value.1| < |s|
    decreases |s|
  {
    if s == [] then None
    else if s[0] == '"' then
      if |s| >= 2 && s[1] == '"' then
        match ReadQuoted(s[2..])
        case None => None
        case Some((v, rest)) => Some(("\"" + v, rest))
      else Some(("", s[1..]))
    else
      match ReadQuoted(s[1..])
      case None => None
      case Some((v, rest)) => Some(([s[0]] + v, rest))
  }

  /** Reads quoted fields into records: `row` is the record being read and
      `done` the records already complete. */
  function ReadFrom(s: string, row: seq<string>, done: seq<seq<string>>): Option<seq<seq<string>>>
    decreases |s|
  {
    if s == [] || s[0] != '"' then None
    else
      match ReadQuoted(s[1..])
      case None => None
      case Some((v, rest)) =>
        if rest == [] then Some(done + [row + [v]])
        else if rest[0] == ',' then ReadFrom(rest[1..], row + [v], done)
        else if rest[0] == '\n' then ReadFrom(rest[1..], [], done + [row + [v]])
        else None
  }

  /** A reader for files whose every field is quoted. */
  function Read(s: string): Option<seq<seq<string>>>
  {
    ReadFrom(s, [], [])
  }

  lemma {:induction false} ReadQuotedEscape(v: string, rest: string)
    requires rest == [] || rest[0] != '"'
    ensures ReadQuoted(Escape(v) + "\"" + rest) == Some((v, rest))
    decreases |v|
  {
    var s := Escape(v) + "\"" + rest;
    if v == [] {
      assert s == "\"" + rest;
      assert s[1..] == rest;
    } else {
      var tail := Escape(v[1..]) + "\"" + rest;
      ReadQuotedEscape(v[1..], rest);
      if v[0] == '"' {
        assert s == "\"\"" + tail;
        assert s[2..] == tail;
        assert "\"" + v[1..] == v;
      } else {
        assert s == [v[0]] + tail;
        assert s[1..] == tail;
        assert [v[0]] + v[1..] == v;
      }
    }
  }

  lemma RowTextCons(fields: seq<string>)
    requires |fields| >= 1
    ensures RowText(fields) == Quote(fields[0]) + (if |fields| == 1 then "" else "," + RowText(fields[1..]))
  {
    var quoted := seq(|fields|, i requires 0 <= i < |fields| => Quote(fields[i]));
    if |fields| > 1 {
      assert quoted[1..] == seq(|fields| - 1, i requires 0 <= i < |fields| - 1 => Quote(fields[1..][i]));
    }
  }

  /** Reading one field whose text is followed by `after`. */
  lemma ReadField(v: string, after: string, row: seq<string>, done: seq<seq<string>>)
    requires after == [] || after[0] == ',' || after[0] == '\n'
    ensures ReadFrom(Quote(v) + after, row, done)
            == if after == [] then Some(done + [row + [v]])
               else if after[0] == ',' then ReadFrom(after[1..], row + [v], done)
               else ReadFrom(after[1..], [], done + [row + [v]])
  {
    var s := Quote(v) + after;
    assert s[1..] == Escape(v) + "\"" + after;
    ReadQuotedEscape(v, after);
  }

  lemma {:induction false} ReadRow(fields: seq<string>, tail: string, row: seq<string>, done: seq<seq<string>>)
    requires |fields| >= 1
    requires tail == [] || tail[0] == '\n'
    ensures ReadFrom(RowText(fields) + tail, row, done)
            == if tail == [] then Some(done + [row + fields])
               else ReadFrom(tail[1..], [], done + [row + fields])
    decreases |fields|
  {
    RowTextCons(fields);
    if |fields| == 1 {
      ReadField(fields[0], tail, row, done);
      assert row + [fields[0]] == row + fields;
    } else {
      var after := "," + RowText(fields[1..]) + tail;
      assert RowText(fields) + tail == Quote(fields[0]) + after;
      ReadField(fields[0], after, row, done);
      assert after[1..] == RowText(fields[1..]) + tail;
      ReadRow(fields[1..], tail, row + [fields[0]], done);
      assert row + [fields[0]] + fields[1..] == row + fields;
    }
  }

  lemma {:induction false} ReadDocument(rows: seq<seq<string>>, done: seq<seq<string>>)
    requires |rows| >= 1
    requires forall k :: 0 <= k < |rows| ==> |rows[k]| >= 1
    ensures ReadFrom(Document(rows), [], done) == Some(done + rows)
    decreases |rows|
  {
    var texts := seq(|rows|, i requires 0 <= i < |rows| => RowText(rows[i]));
    if |rows| == 1 {
      ReadRow(rows[0], "", [], done);
      assert RowText(rows[0]) + "" == Document(rows);
      assert [] + rows[0] == rows[0];
      assert done + [rows[0]] == done + rows;
    } else {
      assert texts[1..] == seq(|rows| - 1, i requires 0 <= i < |rows| - 1 => RowText(rows[1..][i]));
      var tail := "\n" + Document(rows[1..]);
      assert Document(rows) == RowText(rows[0]) + tail;
      ReadRow(rows[0], tail, [], done);
      assert tail[1..] == Document(rows[1..]);
      ReadDocument(rows[1..], done + [rows[0]]);
      assert [] + rows[0] == rows[0];
      assert done + [rows[0]] + rows[1..] == done + rows;
    }
  }

  /** Any non-empty table of non-empty rows is read back exactly as written,
      whatever commas, quotes or line feeds its fields hold. */
  lemma ReadBack(rows: seq<seq<string>>)
    requires |rows| >= 1
    requires forall k :: 0 <= k < |rows| ==> |rows[k]| >= 1
    ensures Read(Document(rows)) == Some(rows)
  {
    ReadDocument(rows, []);
    assert [] + rows == rows;
  }

  /** The decimal text of a digit. */
  function DigitChar(d: int): (c: char)
    requires 0 <= d < 10
    ensures '0' <= c <= '9'
  {
    "0123456789"[d]
  }

  /** `String(n)` for a natural number: its decimal digits. */
  function NatText(n: nat): (r: string)
    ensures |r| >= 1
    ensures forall i :: 0 <= i < |r| ==> '0' <= r[i] <= '9'
    ensures n >= 10 ==> r[0] != '0'
    decreases n
  {
    if n < 10 then [DigitChar(n)] else NatText(n / 10) + [DigitChar(n % 10)]
  }

  /** `String(n)` for an integer, with a leading minus sign when negative. */
  function IntText(n: int): (r: string)
    ensures |r| >= 1
    ensures (r[0] == '-') == (n < 0)
  {
    if n < 0 then "-" + NatText(-n) else NatText(n)
  }

  /** The digits of `IntText(n)`, after the sign if any, denote |n|. */
  lemma IntTextValue(n: int)
    ensures n >= 0 ==> DigitsValue(IntText(n)) == n
    ensures n < 0 ==> DigitsValue(IntText(n)[1..]) == -n
  {
    if n < 0 {
      NatTextValue(-n);
      assert IntText(n)[1..] == NatText(-n);
    } else {
      NatTextValue(n);
    }
  }

  /** The value of a string of decimal digits. */
  function DigitsValue(s: string): nat
    requires forall i :: 0 <= i < |s| ==> '0' <= s[i] <= '9'
    decreases |s|
  {
    if s == [] then 0
    else DigitsValue(s[..|s| - 1]) * 10 + (s[|s| - 1] as int - '0' as int)
  }

  lemma {:induction false} NatTextValue(n: nat)
    ensures DigitsValue(NatText(n)) == n
    decreases n
  {
    var r := NatText(n);
    if n >= 10 {
      NatTextValue(n / 10);
      assert r[..|r| - 1] == NatText(n / 10);
    }
  }
}
