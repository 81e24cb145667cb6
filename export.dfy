/**
 * The text form of the measurement results: tab-separated fields, one line
 * per row, every line ended by a newline, and the decimal numerals used
 * for lane and selection numbers. A parser for that form shows that the
 * text keeps the table's structure.
 */
module Export {

  const Tab: char := '\t'
  const Newline: char := '\n'

  // ---------------------------------------------------------------------------
  // Decimal numerals (Python's str on a non-negative int)

  function DigitChar(d: nat): char
    requires d < 10
  {
    "0123456789"[d]
  }

  function DigitValue(c: char): nat
  {
    if '0' <= c <= '9' then (c as int - '0' as int) as nat else 0
  }

  predicate IsDigit(c: char)
  {
    '0' <= c <= '9'
  }

  /** The decimal numeral of n, without leading zeros. */
  function NatToString(n: nat): (s: string)
    ensures |s| >= 1
    ensures forall k :: 0 <= k < |s| ==> IsDigit(s[k])
    ensures |s| > 1 ==> s[0] != '0'
  {
    if n < 10 then [DigitChar(n)] else NatToString(n / 10) + [DigitChar(n % 10)]
  }

  /** The value of a string of decimal digits. */
  function DigitsValue(s: string): nat
  {
    if s == [] then 0 else DigitsValue(s[..|s| - 1]) * 10 + DigitValue(s[|s| - 1])
  }

  lemma {:induction false} NatToStringValue(n: nat)
    ensures DigitsValue(NatToString(n)) == n
  {
    if n >= 10 {
      NatToStringValue(n / 10);
      var s := NatToString(n);
      assert s[..|s| - 1] == NatToString(n / 10);
    }
  }

  /** Distinct numbers get distinct numerals. */
  lemma NatToStringInjective(m: nat, n: nat)
    requires NatToString(m) == NatToString(n)
    ensures m == n
  {
    NatToStringValue(m);
    NatToStringValue(n);
  }

  // ---------------------------------------------------------------------------
  // Joining and splitting

  /** Python's sep.join(fields) for a one-character separator. */
  function Join(fields: seq<string>, sep: char): string
  {
    if |fields| == 0 then ""
    else if |fields| == 1 then fields[0]
    else fields[0] + [sep] + Join(fields[1..], sep)
  }

  /** The pieces of s between occurrences of sep (Python's s.split(sep)). */
  function Split(s: string, sep: char): (r: seq<string>)
    ensures |r| >= 1
  {
    if s == [] then [""]
    else
      var rest := Split(s[1..], sep);
      if s[0] == sep then [""] + rest else [[s[0]] + rest[0]] + rest[1..]
  }

  predicate Free(f: string, c: char)
  {
    forall k :: 0 <= k < |f| ==> f[k] != c
  }

  lemma {:induction false} SplitFree(f: string, sep: char)
    requires Free(f, sep)
    ensures Split(f, sep) == [f]
  {
    if f != [] {
      SplitFree(f[1..], sep);
      assert [f[0]] + f[1..] == f;
    }
  }

  lemma {:induction false} SplitAfterField(f: string, sep: char, rest: string)
    requires Free(f, sep)
    ensures Split(f + [sep] + rest, sep) == [f] + Split(rest, sep)
  {
    if f == [] {
      assert f + [sep] + rest == [sep] + rest;
      assert ([sep] + rest)[1..] == rest;
    } else {
      var s := f + [sep] + rest;
      SplitAfterField(f[1..], sep, rest);
      assert s[1..] == f[1..] + [sep] + rest;
      assert [f[0]] + f[1..] == f;
    }
  }

  /** Splitting a joined non-empty row gives the row back. */
  lemma {:induction false} SplitJoin(fields: seq<string>, sep: char)
    requires |fields| >= 1
    requires forall i :: 0 <= i < |fields| ==> Free(fields[i], sep)
    ensures Split(Join(fields, sep), sep) == fields
    decreases |fields|
  {
    if |fields| == 1 {
      SplitFree(fields[0], sep);
    } else {
      SplitJoin(fields[1..], sep);
      SplitAfterField(fields[0], sep, Join(fields[1..], sep));
      assert [fields[0]] + fields[1..] == fields;
    }
  }

  lemma {:induction false} JoinFree(fields: seq<string>, sep: char, c: char)
    requires c != sep
    requires forall i :: 0 <= i < |fields| ==> Free(fields[i], c)
    ensures Free(Join(fields, sep), c)
    decreases |fields|
  {
    if |fields| > 1 {
      JoinFree(fields[1..], sep, c);
      var j := Join(fields[1..], sep);
      assert Join(fields, sep) == fields[0] + [sep] + j;
      forall k | 0 <= k < |Join(fields, sep)|
        ensures Join(fields, sep)[k] != c
      {
        if k < |fields[0]| {
          assert Join(fields, sep)[k] == fields[0][k];
        } else if k > |fields[0]| {
          assert Join(fields, sep)[k] == j[k - |fields[0]| - 1];
        }
      }
    }
  }

  // ---------------------------------------------------------------------------
  // Tables

  /** Each row joined with tabs and ended by a newline. */
  function Table(rows: seq<seq<string>>): string
  {
    if rows == [] then "" else Table(rows[..|rows| - 1]) + Join(rows[|rows| - 1], Tab) + [Newline]
  }

  /** A table whose fields hold neither separator and whose rows are not empty. */
  predicate WellFormed(rows: seq<seq<string>>)
  {
    forall i :: 0 <= i < |rows| ==>
      |rows[i]| >= 1 && forall j :: 0 <= j < |rows[i]| ==> Free(rows[i][j], Tab) && Free(rows[i][j], Newline)
  }

  /** The lines of a newline-terminated text, each split at tabs. */
  function ParseTable(text: string): seq<seq<string>>
  {
    var lines := Split(text, Newline);
    seq(|lines| - 1, i requires 0 <= i < |lines| - 1 => Split(lines[i], Tab))
  }

  lemma {:induction false} TableLines(rows: seq<seq<string>>)
    requires WellFormed(rows)
    ensures Split(Table(rows), Newline) == seq(|rows|, i requires 0 <= i < |rows| => Join(rows[i], Tab)) + [""]
    decreases |rows|
  {
    if rows == [] {
    } else {
      var u := |rows| - 1;
      var line := Join(rows[u], Tab);
      JoinFree(rows[u], Tab, Newline);
      assert WellFormed(rows[..u]);
      TableLines(rows[..u]);
      var prev := seq(u, i requires 0 <= i < u => Join(rows[..u][i], Tab));
      assert Split(Table(rows[..u]) + line + [Newline], Newline) == prev + [line] + [""] by {
        SplitPrefix(Table(rows[..u]), line, prev);
      }
      assert Table(rows) == Table(rows[..u]) + line + [Newline];
      assert prev + [line] == seq(|rows|, i requires 0 <= i < |rows| => Join(rows[i], Tab));
    }
  }

  /**
   * When `prefix` splits into `prev` plus a final empty piece, appending a
   * newline-free line and a newline adds exactly that line.
   */
  lemma {:induction false} SplitPrefix(prefix: string, line: string, prev: seq<string>)
    requires Free(line, Newline)
    requires Split(prefix, Newline) == prev + [""]
    ensures Split(prefix + line + [Newline], Newline) == prev + [line] + [""]
    decreases |prefix|
  {
    if prefix == [] {
      assert prev == [];
      assert prefix + line + [Newline] == line + [Newline] + [];
      SplitAfterField(line, Newline, []);
    } else {
      var rest := Split(prefix[1..], Newline);
      var sp := Split(prefix, Newline);
      var whole := prefix + line + [Newline];
      assert whole[0] == prefix[0];
      assert whole[1..] == prefix[1..] + line + [Newline];
      var after := Split(whole[1..], Newline);
      if prefix[0] == Newline {
        assert sp == [""] + rest;
        assert |prev| == |rest| >= 1;
        assert prev[0] == sp[0] == "";
        assert rest == sp[1..] == (prev + [""])[1..] == prev[1..] + [""];
        SplitPrefix(prefix[1..], line, prev[1..]);
        assert Split(whole, Newline) == [""] + after;
        assert prev + [line] + [""] == [""] + (prev[1..] + [line] + [""]);
      } else {
        assert sp == [[prefix[0]] + rest[0]] + rest[1..];
        assert |sp[0]| >= 1;
        assert |prev| >= 1;
        assert prev[0] == sp[0] == [prefix[0]] + rest[0];
        var prev' := [rest[0]] + prev[1..];
        assert rest[1..] == sp[1..] == (prev + [""])[1..] == prev[1..] + [""];
        assert rest == [rest[0]] + rest[1..];
        SplitPrefix(prefix[1..], line, prev');
        assert Split(whole, Newline) == [[prefix[0]] + after[0]] + after[1..];
        ExtendFirst(prefix[0], rest[0], prev, after, line);
      }
    }
  }

  /**
   * The first piece of prev is c followed by r; if `after` is prev with that
   * first piece shortened to r, plus [line, ""], then putting c back in front
   * of after's first piece gives prev + [line, ""].
   */
  lemma ExtendFirst(c: char, r: string, prev: seq<string>, after: seq<string>, line: string)
    requires |prev| >= 1 && prev[0] == [c] + r
    requires after == [r] + prev[1..] + [line] + [""]
    ensures [[c] + after[0]] + after[1..] == prev + [line] + [""]
  {
    assert after[1..] == prev[1..] + [line] + [""];
  }

  /** Parsing the text of a well-formed table gives the table back. */
  lemma ParseTableRoundTrip(rows: seq<seq<string>>)
    requires WellFormed(rows)
    ensures ParseTable(Table(rows)) == rows
  {
    TableLines(rows);
    var parsed := ParseTable(Table(rows));
    assert |parsed| == |rows|;
    forall i | 0 <= i < |rows|
      ensures parsed[i] == rows[i]
    {
      SplitJoin(rows[i], Tab);
    }
  }
}
