/** When a carriage return in a CSV file makes no difference to what is read. */
module CsvLineEnds {
  import opened Csv
  import opened Text

  function Quotes(s: string): nat {
    if s == [] then 0 else (if s[0] == '"' then 1 else 0) + Quotes(s[1..])
  }

  predicate EndsInQuote(s: string) {
    s != [] && s[|s| - 1] == '"'
  }

  predicate StartsWithQuote(s: string) {
    s != [] && s[0] == '"'
  }

  // ---- The reader on a text in two parts ----

  /** The reader is inside quotes exactly after an odd number of them. */
  lemma {:induction false} ScanParity(text: string, m: Machine)
    ensures Scan(text, m).inQuotes <==> (m.inQuotes <==> Quotes(text) % 2 == 0)
    decreases |text|
  {
    if text != [] {
      if m.inQuotes && |text| > 1 && text[0] == '"' && text[1] == '"' {
        assert text[1..][1..] == text[2..];
        ScanParity(text[2..], m.(field := m.field + ['"']));
      } else {
        ScanParity(text[1..], Eat(text[0], m));
      }
    }
  }

  lemma {:induction false} ScanParts(a: string, b: string, m: Machine)
    requires !EndsInQuote(a) || !StartsWithQuote(b)
    ensures Scan(a + b, m) == Scan(b, Scan(a, m))
    decreases |a|
  {
    if a == [] {
      assert a + b == b;
    } else if m.inQuotes && |a| > 1 && a[0] == '"' && a[1] == '"' {
      assert (a + b)[2..] == a[2..] + b;
      ScanParts(a[2..], b, m.(field := m.field + ['"']));
    } else {
      assert (a + b)[1..] == a[1..] + b;
      ScanParts(a[1..], b, Eat(a[0], m));
    }
  }

  /** A closing quote followed by another quote is no closing quote. */
  lemma {:induction false} ScanDoubled(a: string, b: string, m: Machine)
    requires EndsInQuote(a) && !Scan(a, m).inQuotes
    ensures var end := Scan(a, m);
            Scan(a + "\"" + b, m) == Scan(b, end.(field := end.field + ['"'], inQuotes := true))
    decreases |a|
  {
    var text := a + "\"" + b;
    if |a| == 1 {
      assert text[2..] == b && text[0] == '"' && text[1] == '"';
      assert Scan(a, m) == Eat('"', m);
    } else if m.inQuotes && a[0] == '"' && a[1] == '"' {
      assert text[2..] == a[2..] + "\"" + b;
      ScanDoubled(a[2..], b, m.(field := m.field + ['"']));
    } else {
      assert text[1..] == a[1..] + "\"" + b;
      ScanDoubled(a[1..], b, Eat(a[0], m));
    }
  }

  // ---- Quotes in what is read ----

  function RowQuotes(row: Row): nat {
    if row == [] then 0 else RowQuotes(row[..|row| - 1]) + Quotes(row[|row| - 1])
  }

  function TableQuotes(table: Table): nat {
    if table == [] then 0 else TableQuotes(table[..|table| - 1]) + RowQuotes(table[|table| - 1])
  }

  function Held(m: Machine): nat {
    TableQuotes(m.rows) + RowQuotes(m.row) + Quotes(m.field)
  }

  lemma {:induction false} QuotesAppend(a: string, b: string)
    ensures Quotes(a + b) == Quotes(a) + Quotes(b)
  {
    if a == [] {
      assert a + b == b;
    } else {
      assert (a + b)[1..] == a[1..] + b;
      QuotesAppend(a[1..], b);
    }
  }

  lemma RowQuotesAppend(row: Row, cell: string)
    ensures RowQuotes(row + [cell]) == RowQuotes(row) + Quotes(cell)
  {
    assert (row + [cell])[..|row|] == row;
  }

  lemma TableQuotesAppend(table: Table, row: Row)
    ensures TableQuotes(table + [row]) == TableQuotes(table) + RowQuotes(row)
  {
    assert (table + [row])[..|table|] == table;
  }

  /** What one character adds does not depend on what was read before. */
  lemma EatQuotes(c: char, m: Machine)
    ensures Held(Eat(c, m)) == Held(m) + if m.inQuotes || c in {'"', ',', '\r', '\n'} then 0 else Quotes([c])
    ensures c != '"' ==> Quotes([c]) == 0
  {
    QuotesAppend(m.field, [c]);
    RowQuotesAppend(m.row, m.field);
    TableQuotesAppend(m.rows, m.row + [m.field]);
  }

  lemma {:induction false} ScanQuotes(text: string, m: Machine, m': Machine)
    requires m.inQuotes == m'.inQuotes
    ensures Held(Scan(text, m)) + Held(m') == Held(Scan(text, m')) + Held(m)
    decreases |text|
  {
    if text != [] {
      if m.inQuotes && |text| > 1 && text[0] == '"' && text[1] == '"' {
        QuotesAppend(m.field, ['"']);
        QuotesAppend(m'.field, ['"']);
        ScanQuotes(text[2..], m.(field := m.field + ['"']), m'.(field := m'.field + ['"']));
      } else {
        EatQuotes(text[0], m);
        EatQuotes(text[0], m');
        ScanQuotes(text[1..], Eat(text[0], m), Eat(text[0], m'));
      }
    }
  }

  lemma CloseQuotes(m: Machine)
    ensures TableQuotes(Close(m)) == Held(m)
  {
    RowQuotesAppend(m.row, m.field);
    TableQuotesAppend(m.rows, m.row + [m.field]);
  }

  lemma {:induction false} TrimmedAway(s: string)
    requires Trim(s) == []
    ensures Quotes(s) == 0
  {
    if s != [] {
      if IsSpace(s[0]) {
        TrimmedAway(s[1..]);
      } else {
        FirstStays(s);
      }
    }
  }

  lemma {:induction false} FirstStays(s: string)
    requires s != [] && !IsSpace(s[0])
    ensures TrimEnd(s) != []
  {
    if IsSpace(s[|s| - 1]) {
      FirstStays(s[..|s| - 1]);
    }
  }

  lemma {:induction false} BlankQuotes(row: Row)
    requires IsBlankRow(row)
    ensures RowQuotes(row) == 0
  {
    if row != [] {
      var n := |row| - 1;
      assert forall j | 0 <= j < n :: row[..n][j] == row[j];
      BlankQuotes(row[..n]);
      TrimmedAway(row[n]);
    }
  }

  lemma {:induction false} DropBlankQuotes(table: Table)
    ensures TableQuotes(DropBlankRows(table)) == TableQuotes(table)
  {
    if table != [] {
      var n := |table| - 1;
      var last := [table[n]];
      DropBlankQuotes(table[..n]);
      DropBlankAppend(table[..n], last);
      assert table == table[..n] + last;
      if IsBlankRow(table[n]) {
        BlankQuotes(table[n]);
        assert DropBlankRows(last) == [];
        assert DropBlankRows(table[..n]) + [] == DropBlankRows(table[..n]);
      } else {
        assert DropBlankRows(last) == last;
        TableQuotesAppend(DropBlankRows(table[..n]), table[n]);
      }
    }
  }

  // ---- The carriage return ----

  lemma WithCr(a: string, b: string)
    requires Quotes(a) % 2 == 0
    ensures Scan(a + "\r" + b, START) == Scan(b, Scan(a, START)) && !Scan(a, START).inQuotes
  {
    assert a + "\r" + b == a + ("\r" + b);
    ScanParts(a, "\r" + b, START);
    ScanParity(a, START);
    assert ("\r" + b)[1..] == b;
  }

  lemma DoubledReadsOtherwise(a: string, b: string)
    requires Quotes(a) % 2 == 0 && EndsInQuote(a)
    ensures DropBlankRows(Close(Scan(a + "\r" + ("\"" + b), START))) != DropBlankRows(Close(Scan(a + ("\"" + b), START)))
  {
    WithCr(a, "\"" + b);
    var end := Scan(a, START);
    assert ("\"" + b)[1..] == b;
    var apart, doubled := end.(inQuotes := true), end.(field := end.field + ['"'], inQuotes := true);
    assert Scan(a + "\r" + ("\"" + b), START) == Scan(b, apart);
    ScanDoubled(a, b, START);
    assert a + ("\"" + b) == a + "\"" + b;
    ScanQuotes(b, apart, doubled);
    QuotesAppend(end.field, ['"']);
    CloseQuotes(Scan(b, apart));
    CloseQuotes(Scan(b, doubled));
    DropBlankQuotes(Close(Scan(b, apart)));
    DropBlankQuotes(Close(Scan(b, doubled)));
  }

  /**
   * Outside quotes, that is, after an even number of them, a carriage return changes nothing in what is
   * read; but between two quotes it keeps them from being read as one.
   */
  lemma CrIgnoredExactly(mark: string, a: string, b: string)
    requires Quotes(a) % 2 == 0 && Follows(mark, a + "\r" + b) && Follows(mark, a + b)
    ensures ReadTable(mark + (a + "\r" + b)) == ReadTable(mark + (a + b)) <==> !(EndsInQuote(a) && StartsWithQuote(b))
  {
    assert WithoutBom(mark + (a + "\r" + b)) == a + "\r" + b;
    assert WithoutBom(mark + (a + b)) == a + b;
    if EndsInQuote(a) && StartsWithQuote(b) {
      assert b == "\"" + b[1..];
      DoubledReadsOtherwise(a, b[1..]);
    } else {
      WithCr(a, b);
      ScanParts(a, b, START);
    }
  }
}
