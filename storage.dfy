/** The file system as the core sees it: raw capture files hold text, and
    structured files hold the rows a CSV writer was given. Raw files live under
    `data/raw/` and structured files under `data/structured/`, so one path
    never names a file of each kind; the two maps together are one namespace. */
module Storage {
  import opened Wrappers
  import opened Lex

  type Path = string
  type Table = seq<seq<string>>

  datatype Disk = Disk(texts: map<Path, string>, tables: map<Path, Table>)

  /** `os.path.exists` */
  predicate Exists(d: Disk, p: Path) {
    p in d.texts || p in d.tables
  }

  /** Opening a path for writing and writing text to it: the path now holds
      exactly that text, and every other path is as it was. */
  function WriteText(d: Disk, p: Path, t: string): (r: Disk)
    ensures Exists(r, p) && p in r.texts && r.texts[p] == t && p !in r.tables
    ensures forall q :: q != p ==> (Exists(r, q) <==> Exists(d, q))
    ensures forall q :: q != p && q in d.texts ==> q in r.texts && r.texts[q] == d.texts[q]
    ensures forall q :: q != p && q in d.tables ==> q in r.tables && r.tables[q] == d.tables[q]
  {
    Disk(d.texts[p := t], d.tables - {p})
  }

  /** Creating or truncating a structured file and writing rows to it. */
  function WriteTable(d: Disk, p: Path, rows: Table): (r: Disk)
    ensures Exists(r, p) && p in r.tables && r.tables[p] == rows && p !in r.texts
    ensures forall q :: q != p ==> (Exists(r, q) <==> Exists(d, q))
    ensures forall q :: q != p && q in d.texts ==> q in r.texts && r.texts[q] == d.texts[q]
    ensures forall q :: q != p && q in d.tables ==> q in r.tables && r.tables[q] == d.tables[q]
  {
    Disk(d.texts - {p}, d.tables[p := rows])
  }

  /** `os.remove` of every path of `ps` that exists; absent paths are skipped. */
  function RemoveAll(d: Disk, ps: set<Path>): (r: Disk)
    ensures forall q :: Exists(r, q) <==> Exists(d, q) && q !in ps
    ensures forall q :: q in r.texts ==> q in d.texts && r.texts[q] == d.texts[q]
    ensures forall q :: q in r.tables ==> q in d.tables && r.tables[q] == d.tables[q]
  {
    Disk(d.texts - ps, d.tables - ps)
  }

  /** Removing one set of paths and then another removes their union. */
  lemma RemoveAllTwice(d: Disk, a: set<Path>, b: set<Path>)
    ensures RemoveAll(RemoveAll(d, a), b) == RemoveAll(d, a + b)
  {
    assert d.texts - a - b == d.texts - (a + b);
    assert d.tables - a - b == d.tables - (a + b);
  }

  /** The text a buffer holds after the lines were written to it in order. */
  function Concat(lines: seq<string>): string {
    if lines == [] then "" else lines[0] + Concat(lines[1..])
  }

  lemma {:induction false} ConcatAppend(lines: seq<string>, line: string)
    ensures Concat(lines + [line]) == Concat(lines) + line
  {
    if lines != [] {
      assert (lines + [line])[1..] == lines[1..] + [line];
      ConcatAppend(lines[1..], line);
    }
  }

  /** The text cut after each line feed: each line runs up to and including
      a line feed, and a last piece without one is still a line. */
  function SplitLines(t: string): (r: seq<string>)
    ensures Concat(r) == t
    ensures IsLines(r)
    decreases |t|
  {
    if t == [] then []
    else
      var k := Span(t, 0, NotNewline);
      if k == |t| then
        assert Concat([t]) == t + "";
        [t]
      else
        var rest := SplitLines(t[k + 1..]);
        assert ([t[..k + 1]] + rest)[1..] == rest;
        assert t[..k + 1] + t[k + 1..] == t;
        [t[..k + 1]] + rest
  }

  /** A line is non-empty and holds a line feed at most at its end. */
  predicate IsLine(l: string) {
    |l| > 0 && AllIn(l, 0, |l| - 1, NotNewline)
  }

  /** The lines a text file can be split into: all but the last end with a line feed. */
  predicate IsLines(lines: seq<string>) {
    (forall i :: 0 <= i < |lines| ==> IsLine(lines[i])) &&
    (forall i :: 0 <= i < |lines| - 1 ==> lines[i][|lines[i]| - 1] == '\n')
  }

  /** Cutting the concatenation of lines after each line feed gives back the
      same lines. */
  lemma {:induction false} SplitConcat(lines: seq<string>)
    requires IsLines(lines)
    ensures SplitLines(Concat(lines)) == lines
    decreases |lines|
  {
    if lines != [] {
      var l := lines[0];
      var t := Concat(lines);
      var rest := lines[1..];
      assert t == l + Concat(rest);
      assert IsLines(rest) by {
        forall i | 0 <= i < |rest| ensures IsLine(rest[i]) {
          assert rest[i] == lines[i + 1];
        }
        forall i | 0 <= i < |rest| - 1 ensures rest[i][|rest[i]| - 1] == '\n' {
          assert rest[i] == lines[i + 1];
        }
      }
      assert IsLine(lines[0]);
      if rest == [] {
        assert t == l;
        if l[|l| - 1] == '\n' {
          SpanAt(t, 0, |l| - 1, NotNewline);
          assert t[..|l|] == l;
          assert t[|l|..] == [];
        } else {
          SpanAt(t, 0, |l|, NotNewline);
        }
      } else {
        assert l[|l| - 1] == '\n';
        assert forall k :: 0 <= k < |l| ==> t[k] == l[k];
        SpanAt(t, 0, |l| - 1, NotNewline);
        assert t[..|l|] == l;
        assert t[|l|..] == Concat(rest);
        SplitConcat(rest);
      }
    }
  }

  /** Reading a file in text mode with universal newlines: a carriage return
      followed by a line feed, and a carriage return on its own, each read as
      one line feed; every other character is read as written. */
  function Universal(t: string): (r: string)
    ensures '\r' !in r
    ensures '\r' !in t ==> r == t
    ensures |r| <= |t|
    decreases |t|
  {
    if t == [] then []
    else if t[0] == '\r' then
      "\n" + Universal(if |t| > 1 && t[1] == '\n' then t[2..] else t[1..])
    else
      assert '\r' !in t ==> '\r' !in t[1..];
      [t[0]] + Universal(t[1..])
  }

  /** What iterating over a file opened for reading in text mode yields: the
      lines of the text after the newline translation, none of which holds a
      carriage return. */
  function ReadLines(t: string): (r: seq<string>)
    ensures Concat(r) == Universal(t)
    ensures IsLines(r)
    ensures forall i :: 0 <= i < |r| ==> '\r' !in r[i]
  {
    var r := SplitLines(Universal(t));
    forall i | 0 <= i < |r| ensures '\r' !in r[i] {
      if '\r' in r[i] {
        ConcatContains(r, i, '\r');
      }
    }
    r
  }

  /** A character of one of the lines is a character of the text they make up. */
  lemma {:induction false} ConcatContains(lines: seq<string>, i: nat, c: char)
    requires i < |lines| && c in lines[i]
    ensures c in Concat(lines)
  {
    if i > 0 {
      ConcatContains(lines[1..], i - 1, c);
    }
  }

  /** Lines without carriage returns make up a text without one. */
  lemma {:induction false} ConcatPlain(lines: seq<string>)
    requires forall i :: 0 <= i < |lines| ==> '\r' !in lines[i]
    ensures '\r' !in Concat(lines)
  {
    if lines != [] {
      assert '\r' !in lines[0];
      ConcatPlain(lines[1..]);
    }
  }

  /** Writing lines without carriage returns to a file and reading it back in
      text mode gives the same lines. */
  lemma ReadConcat(lines: seq<string>)
    requires IsLines(lines)
    requires forall i :: 0 <= i < |lines| ==> '\r' !in lines[i]
    ensures ReadLines(Concat(lines)) == lines
  {
    ConcatPlain(lines);
    SplitConcat(lines);
  }

  lemma LinesExample(a: string, b: string)
    requires |a| > 0 && |b| > 0 && a[|a| - 1] == '\n' && AllIn(a, 0, |a| - 1, NotNewline)
    requires AllIn(b, 0, |b| - 1, NotNewline)
    ensures SplitLines(a + b) == [a, b]
  {
    assert Concat([a, b]) == a + b by {
      assert Concat([a, b][1..]) == b + "";
    }
    SplitConcat([a, b]);
  }

  /** A carriage return before a line feed is dropped. */
  lemma ExampleCrLf()
    ensures ReadLines("ab\r\ncd") == ["ab\n", "cd"]
  {
    var t := "ab\r\ncd";
    assert Universal(t[4..]) == "cd";
    assert Universal(t[2..]) == "\n" + Universal(t[4..]);
    assert Universal(t[1..]) == "b" + Universal(t[2..]);
    assert Universal(t) == "a" + Universal(t[1..]) == "ab\n" + "cd";
    LinesExample("ab\n", "cd");
    assert ReadLines(t) == SplitLines(Universal(t));
  }

  /** A carriage return on its own ends a line. */
  lemma ExampleLoneCr()
    ensures ReadLines("a\rb\n") == ["a\n", "b\n"]
  {
    var t := "a\rb\n";
    assert Universal(t[2..]) == "b\n";
    assert Universal(t[1..]) == "\n" + Universal(t[2..]);
    assert Universal(t) == "a" + Universal(t[1..]) == "a\n" + "b\n";
    LinesExample("a\n", "b\n");
    assert ReadLines(t) == SplitLines(Universal(t));
  }

  // ---------------------------------------------------------------------------
  // Reading a raw file line by line
  // ---------------------------------------------------------------------------

  /** What a loop over the lines of a file collects when it keeps the value
      the matcher m gives for each line m accepts: those values, in file
      order; a line m rejects adds nothing. */
  function Matched<E>(lines: seq<string>, m: string -> Option<E>): (r: seq<E>)
    ensures |r| <= |lines|
  {
    if lines == [] then []
    else
      var init := Matched(lines[..|lines| - 1], m);
      match m(lines[|lines| - 1])
      case Some(e) => init + [e]
      case None => init
  }

  /** Reading a file in two pieces gives the values of the first piece,
      then those of the second. */
  lemma {:induction false} MatchedAppend<E>(a: seq<string>, b: seq<string>, m: string -> Option<E>)
    ensures Matched(a + b, m) == Matched(a, m) + Matched(b, m)
    decreases |b|
  {
    if b == [] {
      assert a + b == a;
    } else {
      var b' := b[..|b| - 1];
      assert (a + b)[..|a + b| - 1] == a + b';
      assert (a + b)[|a + b| - 1] == b[|b| - 1];
      MatchedAppend(a, b', m);
    }
  }

  /** A line the matcher rejects contributes nothing, wherever it stands. */
  lemma MatchedSkips<E>(a: seq<string>, line: string, b: seq<string>, m: string -> Option<E>)
    requires m(line).None?
    ensures Matched(a + [line] + b, m) == Matched(a + b, m)
  {
    MatchedAppend(a + [line], b, m);
    MatchedAppend(a, [line], m);
    MatchedAppend(a, b, m);
    assert [line][..0] == [];
  }

  /** A line the matcher accepts contributes exactly its value, in its place. */
  lemma MatchedKeeps<E>(a: seq<string>, line: string, b: seq<string>, m: string -> Option<E>, e: E)
    requires m(line) == Some(e)
    ensures Matched(a + [line] + b, m) == Matched(a, m) + [e] + Matched(b, m)
  {
    MatchedAppend(a + [line], b, m);
    MatchedAppend(a, [line], m);
    assert [line][..0] == [];
  }

  /** As soon as one line is accepted, something is collected. */
  lemma MatchedNonEmpty<E>(lines: seq<string>, i: nat, m: string -> Option<E>)
    requires i < |lines| && m(lines[i]).Some?
    ensures Matched(lines, m) != []
  {
    assert lines == lines[..i] + [lines[i]] + lines[i + 1..];
    MatchedKeeps(lines[..i], lines[i], lines[i + 1..], m, m(lines[i]).value);
  }

  /** The CSV rows of the records, one per record and in the same order. */
  function Tabulate<E>(records: seq<E>, row: E -> seq<string>): (r: Table)
    ensures |r| == |records|
    ensures forall i :: 0 <= i < |records| ==> r[i] == row(records[i])
  {
    if records == [] then []
    else Tabulate(records[..|records| - 1], row) + [row(records[|records| - 1])]
  }

  /** Reading one more line adds that line's value, if any, at the end. */
  lemma MatchedStep<E>(lines: seq<string>, i: nat, m: string -> Option<E>)
    requires i < |lines|
    ensures m(lines[i]).Some? ==> Matched(lines[..i + 1], m) == Matched(lines[..i], m) + [m(lines[i]).value]
    ensures m(lines[i]).None? ==> Matched(lines[..i + 1], m) == Matched(lines[..i], m)
  {
    assert lines[..i + 1][..i] == lines[..i];
  }

  lemma TabulateStep<E>(records: seq<E>, e: E, row: E -> seq<string>)
    ensures Tabulate(records + [e], row) == Tabulate(records, row) + [row(e)]
  {
    assert (records + [e])[..|records|] == records;
  }

  /** The loop of a parse: for each line in order, keep the value the matcher
      gives and write its row after the header row. */
  method ReadMatches<E>(lines: seq<string>, m: string -> Option<E>, header: seq<string>,
                        row: E -> seq<string>)
    returns (records: seq<E>, rows: Table)
    ensures records == Matched(lines, m)
    ensures rows == [header] + Tabulate(records, row)
  {
    records := [];
    rows := [header];
    for i := 0 to |lines|
      invariant records == Matched(lines[..i], m)
      invariant rows == [header] + Tabulate(records, row)
    {
      MatchedStep(lines, i, m);
      match m(lines[i]) {
        case Some(e) =>
          TabulateStep(records, e, row);
          records := records + [e];
          rows := rows + [row(e)];
        case None =>
      }
    }
    assert lines[..|lines|] == lines;
  }
}
