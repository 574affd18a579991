/** The logcat side: the line pattern of `android.py`, the display filter, the
    parse that writes the structured file, and the existence branch of `main`. */
module Android {
  import opened Wrappers
  import opened Lex
  import opened Storage

  /** One matched line: the named groups of the pattern, verbatim. */
  datatype Entry = Entry(
    month: string, day: string, hour: string, min: string, sec: string, milsec: string,
    pid: string, tid: string, level: string, component: string, content: string)

  const Header: seq<string> :=
    ["Month", "Day", "Hour", "Min", "Sec", "Milsec", "PID", "TID", "Log Level", "Component", "Content"]

  /** The dictionary built for a match, looked up by key. */
  function Lookup(e: Entry, key: string): Option<string> {
    if key == "Month" then Some(e.month)
    else if key == "Day" then Some(e.day)
    else if key == "Hour" then Some(e.hour)
    else if key == "Min" then Some(e.min)
    else if key == "Sec" then Some(e.sec)
    else if key == "Milsec" then Some(e.milsec)
    else if key == "PID" then Some(e.pid)
    else if key == "TID" then Some(e.tid)
    else if key == "Log Level" then Some(e.level)
    else if key == "Component" then Some(e.component)
    else if key == "Content" then Some(e.content)
    else None
  }

  /** The CSV row of an entry: the dictionary's values in insertion order,
      which is the header's order. */
  function Row(e: Entry): (r: seq<string>)
    ensures |r| == |Header|
    ensures forall i :: 0 <= i < |Header| ==> Lookup(e, Header[i]) == Some(r[i])
  {
    [e.month, e.day, e.hour, e.min, e.sec, e.milsec, e.pid, e.tid, e.level, e.component, e.content]
  }

  // ---------------------------------------------------------------------------
  // The line pattern
  //   (0[1-9]|1[0-2])-(0[1-9]|[12]\d|3[01])\s+([01]\d|2[0-4]):([0-5]\d):([0-5]\d)\.(\d{3})
  //   \s+(\d+)\s+(\d+)\s+([VDIWEFS])\s+(.+?)\s*:\s+(.*)
  // matched at the start of the line.
  // ---------------------------------------------------------------------------

  /** `0[1-9]|1[0-2]` at i */
  predicate MonthAt(s: string, i: nat)
    requires i + 2 <= |s|
  {
    (s[i] == '0' && '1' <= s[i + 1] <= '9') || (s[i] == '1' && '0' <= s[i + 1] <= '2')
  }

  /** `0[1-9]|[12]\d|3[01]` at i */
  predicate DayAt(s: string, i: nat)
    requires i + 2 <= |s|
  {
    (s[i] == '0' && '1' <= s[i + 1] <= '9') || ('1' <= s[i] <= '2' && IsDigit(s[i + 1]))
    || (s[i] == '3' && '0' <= s[i + 1] <= '1')
  }

  /** `[01]\d|2[0-4]` at i */
  predicate HourAt(s: string, i: nat)
    requires i + 2 <= |s|
  {
    ('0' <= s[i] <= '1' && IsDigit(s[i + 1])) || (s[i] == '2' && '0' <= s[i + 1] <= '4')
  }

  /** `[0-5]\d` at i */
  predicate SixtyAt(s: string, i: nat)
    requires i + 2 <= |s|
  {
    '0' <= s[i] <= '5' && IsDigit(s[i + 1])
  }

  /** `HH:MM:SS.mmm` at h */
  predicate ClockAt(s: string, h: nat)
    requires h + 12 <= |s|
  {
    HourAt(s, h) && s[h + 2] == ':' && SixtyAt(s, h + 3) && s[h + 5] == ':' && SixtyAt(s, h + 6)
    && s[h + 8] == '.' && AllIn(s, h + 9, h + 12, Digit)
  }

  /** `[VDIWEFS]` */
  predicate IsLevel(c: char) {
    c in "VDIWEFS"
  }

  /** `\s*:\s+` at q: spaces, then a colon and a space. A colon is not a
      space, so the greedy `\s*` gives up nothing to reach it. */
  predicate ColonAfter(s: string, q: nat)
    decreases |s| - q
  {
    q + 1 < |s| && ((s[q] == ':' && IsSpace(s[q + 1])) || (IsSpace(s[q]) && ColonAfter(s, q + 1)))
  }

  /** Spaces on [q, c), then `:` and a space: `\s*:\s+` is at q. */
  lemma {:induction false} ColonAt(s: string, q: nat, c: nat)
    requires q <= c && c + 1 < |s| && AllIn(s, q, c, Space) && s[c] == ':' && IsSpace(s[c + 1])
    ensures ColonAfter(s, q)
    decreases c - q
  {
    if q < c {
      assert In(s[q], Space);
      ColonAt(s, q + 1, c);
    }
  }

  /** Where `\s*:\s+` is at q, the greedy run of spaces from q ends at the colon. */
  lemma {:induction false} ColonSpan(s: string, q: nat)
    requires ColonAfter(s, q)
    ensures var c := Span(s, q, Space); c + 1 < |s| && s[c] == ':' && IsSpace(s[c + 1])
    decreases |s| - q
  {
    if !(s[q] == ':' && IsSpace(s[q + 1])) {
      ColonSpan(s, q + 1);
    }
  }

  /** `\s*:\s+` as the delimiter that ends the lazy component. */
  function ColonDelim(s: string): nat -> bool {
    (q: nat) => ColonAfter(s, q)
  }

  /** No `\s*:\s+` starts strictly inside [b, e): a lazy group from b could not have stopped earlier. */
  predicate NoColonWithin(s: string, b: nat, e: nat) {
    forall x: nat :: b < x < e ==> !ColonAfter(s, x)
  }

  /** No reading of `\s+(.+?)\s*:\s+` from p has its component start after b:
      the lazy group starts as late as the spaces before it allow. */
  ghost predicate NoLaterComponent(s: string, p: nat, b: nat) {
    forall b': nat, e: nat {:trigger AllIn(s, b', e, NotNewline)} ::
      b < b' && p < b' < e <= |s| && AllIn(s, p, b', Space) && AllIn(s, b', e, NotNewline) ==>
      !ColonAfter(s, e)
  }

  /** The same fact read off the delimiter as a function value. */
  lemma LaterComponentOfFits(s: string, p: nat, b: nat)
    requires forall b': nat, e: nat :: b < b' ==> !Fits(s, p, b', e, ColonDelim(s))
    ensures NoLaterComponent(s, p, b)
  {
    forall b': nat, e: nat | b < b' && p < b' < e <= |s| && AllIn(s, p, b', Space) && AllIn(s, b', e, NotNewline)
      ensures !ColonAfter(s, e)
    {
      assert !Fits(s, p, b', e, ColonDelim(s));
    }
  }

  /** Where the parts of a match lie in the line (month and day are at 0 and 3). */
  datatype Spans = Spans(
    hour: nat, pid: nat, pidEnd: nat, tid: nat, tidEnd: nat, level: nat,
    component: nat, componentEnd: nat, colon: nat, content: nat, contentEnd: nat)

  /** `MM-DD\s+HH:MM:SS.mmm` with the hour at h. */
  predicate HeadAt(s: string, h: nat) {
    && 5 <= |s| && MonthAt(s, 0) && s[2] == '-' && DayAt(s, 3)
    && 5 < h && h + 12 <= |s| && AllIn(s, 5, h, Space) && ClockAt(s, h)
  }

  /** `\s+(\d+)\s+(\d+)\s+([VDIWEFS])` after the milliseconds, which end at m. */
  predicate NumbersAt(s: string, m: nat, pid: nat, pidEnd: nat, tid: nat, tidEnd: nat, level: nat) {
    && m < pid < pidEnd < tid < tidEnd < level < |s|
    && AllIn(s, m, pid, Space) && AllIn(s, pid, pidEnd, Digit)
    && AllIn(s, pidEnd, tid, Space) && AllIn(s, tid, tidEnd, Digit)
    && AllIn(s, tidEnd, level, Space) && IsLevel(s[level])
  }

  /** `\s+(.+?)\s*:\s+(.*)` from position p, just after the level. */
  predicate TailAt(s: string, p: nat, component: nat, componentEnd: nat, colon: nat,
                   content: nat, contentEnd: nat) {
    && p < component < componentEnd <= colon < |s|
    && AllIn(s, p, component, Space)
    && AllIn(s, component, componentEnd, NotNewline)
    && AllIn(s, componentEnd, colon, Space) && s[colon] == ':'
    && colon + 1 < content <= contentEnd <= |s|
    && AllIn(s, colon + 1, content, Space)
    && AllIn(s, content, contentEnd, NotNewline)
  }

  /** The pattern read without priorities: sp is one way of cutting the start
      of s into the pattern's parts. */
  predicate Shaped(s: string, sp: Spans) {
    && HeadAt(s, sp.hour)
    && NumbersAt(s, sp.hour + 12, sp.pid, sp.pidEnd, sp.tid, sp.tidEnd, sp.level)
    && TailAt(s, sp.level + 1, sp.component, sp.componentEnd, sp.colon, sp.content, sp.contentEnd)
  }

  function ScanHead(s: string): (r: Option<nat>)
    ensures r.Some? ==> HeadAt(s, r.value) && r.value == Span(s, 5, Space)
    ensures r.None? ==> forall h: nat :: !HeadAt(s, h)
  {
    if !(5 <= |s| && MonthAt(s, 0) && s[2] == '-' && DayAt(s, 3)) then None
    else
      var h := Span(s, 5, Space);
      if h == 5 || |s| < h + 12 || !ClockAt(s, h) then
        HeadAtSpan(s);
        None
      else Some(h)
  }

  /** The spaces before the hour are the greedy run: the hour starts with a digit. */
  lemma HeadAtSpan(s: string)
    requires 5 <= |s|
    ensures forall h: nat :: HeadAt(s, h) ==> h == Span(s, 5, Space)
  {
    forall h: nat | HeadAt(s, h) ensures h == Span(s, 5, Space) {
      assert !In(s[h], Space);
      SpanAt(s, 5, h, Space);
    }
  }

  function ScanNumbers(s: string, m: nat): (r: Option<(nat, nat, nat, nat, nat)>)
    requires m <= |s|
    ensures r.Some? ==> NumbersAt(s, m, r.value.0, r.value.1, r.value.2, r.value.3, r.value.4)
  {
    var pid := Span(s, m, Space);
    var pidEnd := Span(s, pid, Digit);
    var tid := Span(s, pidEnd, Space);
    var tidEnd := Span(s, tid, Digit);
    var level := Span(s, tidEnd, Space);
    if pid == m || pidEnd == pid || tid == pidEnd || tidEnd == tid || level == tidEnd
       || level == |s| || !IsLevel(s[level])
    then None
    else Some((pid, pidEnd, tid, tidEnd, level))
  }

  function ScanTail(s: string, p: nat): (r: Option<(nat, nat, nat, nat, nat)>)
    requires p <= |s|
    ensures r.Some? ==> TailAt(s, p, r.value.0, r.value.1, r.value.2, r.value.3, r.value.4)
    ensures r.Some? ==> NoLaterComponent(s, p, r.value.0)
    ensures r.Some? ==> NoColonWithin(s, r.value.0, r.value.1)
    ensures r.Some? ==> r.value.3 == |s| || !IsSpace(s[r.value.3])
    ensures r.Some? ==> r.value.4 == |s| || s[r.value.4] == '\n'
  {
    var delim := ColonDelim(s);
    assert forall e: nat :: delim(e) == ColonAfter(s, e);
    match LazyAfterSpaces(s, p, delim)
    case None => None
    case Some((component, componentEnd)) =>
      LaterComponentOfFits(s, p, component);
      ColonSpan(s, componentEnd);
      var colon := Span(s, componentEnd, Space);
      var content := Span(s, colon + 1, Space);
      var contentEnd := Span(s, content, NotNewline);
      Some((component, componentEnd, colon, content, contentEnd))
  }

  /** The cut a backtracking engine makes: runs are greedy, the component is
      lazy, and the content runs to the end of the line. */
  function Scan(s: string): (r: Option<Spans>)
    ensures r.Some? ==> Shaped(s, r.value)
    ensures r.Some? ==> NoLaterComponent(s, r.value.level + 1, r.value.component)
    ensures r.Some? ==> NoColonWithin(s, r.value.component, r.value.componentEnd)
    ensures r.Some? ==> r.value.content == |s| || !IsSpace(s[r.value.content])
    ensures r.Some? ==> r.value.contentEnd == |s| || s[r.value.contentEnd] == '\n'
  {
    var head := ScanHead(s);
    if head.None? then None
    else
      var h := head.value;
      var nums := ScanNumbers(s, h + 12);
      if nums.None? then None
      else
        var n := nums.value;
        var tail := ScanTail(s, n.4 + 1);
        if tail.None? then None
        else
          var t := tail.value;
          var sp := Spans(h, n.0, n.1, n.2, n.3, n.4, t.0, t.1, t.2, t.3, t.4);
          Some(sp)
  }

  /** The dictionary of groups for a cut of the line. */
  function Extract(s: string, sp: Spans): Entry
    requires Shaped(s, sp)
  {
    var h := sp.hour;
    Entry(s[0..2], s[3..5], s[h..h + 2], s[h + 3..h + 5], s[h + 6..h + 8], s[h + 9..h + 12],
          s[sp.pid..sp.pidEnd], s[sp.tid..sp.tidEnd], s[sp.level..sp.level + 1],
          s[sp.component..sp.componentEnd], s[sp.content..sp.contentEnd])
  }

  /** The groups of the head, joined by the separators the pattern puts
      between them, give back the line's date and clock text. */
  lemma ExtractHead(s: string, sp: Spans)
    requires Shaped(s, sp)
    ensures var e := Extract(s, sp);
      && s[..5] == e.month + "-" + e.day
      && s[sp.hour..sp.hour + 12] == e.hour + ":" + e.min + ":" + e.sec + "." + e.milsec
      && e.level == [s[sp.level]]
  {
    var h := sp.hour;
    assert s[..5] == s[0..2] + [s[2]] + s[3..5];
    assert s[h..h + 12] == s[h..h + 2] + [s[h + 2]] + s[h + 3..h + 5] + [s[h + 5]] + s[h + 6..h + 8]
                          + [s[h + 8]] + s[h + 9..h + 12];
  }

  /** `log_pattern.match(line)` and the dictionary built from its groups. */
  function Match(line: string): Option<Entry> {
    match Scan(line)
    case None => None
    case Some(sp) => Some(Extract(line, sp))
  }

  // ---------------------------------------------------------------------------
  // What a match guarantees
  // ---------------------------------------------------------------------------

  function DigitValue(c: char): nat
    requires IsDigit(c)
  {
    c as int - '0' as int
  }

  /** The number a two-digit field denotes. */
  function TwoDigitValue(t: string): nat
    requires |t| == 2 && Numeral(t)
  {
    10 * DigitValue(t[0]) + DigitValue(t[1])
  }

  /** The fixed-width head: month 1-12, day 1-31, hour 0-24, minute and
      second 0-59, and exactly three millisecond digits. */
  lemma HeadFields(s: string, h: nat)
    requires HeadAt(s, h)
    ensures |s[0..2]| == 2 && Numeral(s[0..2]) && 1 <= TwoDigitValue(s[0..2]) <= 12
    ensures |s[3..5]| == 2 && Numeral(s[3..5]) && 1 <= TwoDigitValue(s[3..5]) <= 31
    ensures |s[h..h + 2]| == 2 && Numeral(s[h..h + 2]) && TwoDigitValue(s[h..h + 2]) <= 24
    ensures |s[h + 3..h + 5]| == 2 && Numeral(s[h + 3..h + 5]) && TwoDigitValue(s[h + 3..h + 5]) <= 59
    ensures |s[h + 6..h + 8]| == 2 && Numeral(s[h + 6..h + 8]) && TwoDigitValue(s[h + 6..h + 8]) <= 59
    ensures |s[h + 9..h + 12]| == 3 && Numeral(s[h + 9..h + 12])
  {
    var ms := s[h + 9..h + 12];
    assert forall i :: 0 <= i < 3 ==> ms[i] == s[h + 9 + i] && In(s[h + 9 + i], Digit);
  }

  /** Process and thread ids are digit runs and the level is one of the seven letters. */
  lemma NumberFields(s: string, m: nat, pid: nat, pidEnd: nat, tid: nat, tidEnd: nat, level: nat)
    requires NumbersAt(s, m, pid, pidEnd, tid, tidEnd, level)
    ensures Numeral(s[pid..pidEnd]) && Numeral(s[tid..tidEnd])
    ensures s[level..level + 1] in ["V", "D", "I", "W", "E", "F", "S"]
  {
    var p, t := s[pid..pidEnd], s[tid..tidEnd];
    assert forall i :: 0 <= i < |p| ==> p[i] == s[pid + i] && In(s[pid + i], Digit);
    assert forall i :: 0 <= i < |t| ==> t[i] == s[tid + i] && In(s[tid + i], Digit);
    assert s[level..level + 1] == [s[level]];
  }

  /** The component is non-empty; neither it nor the content holds a line feed. */
  lemma TailFields(s: string, p: nat, component: nat, componentEnd: nat, colon: nat,
                   content: nat, contentEnd: nat)
    requires TailAt(s, p, component, componentEnd, colon, content, contentEnd)
    ensures s[component..componentEnd] != []
    ensures '\n' !in s[component..componentEnd] && '\n' !in s[content..contentEnd]
  {
    var c, x := s[component..componentEnd], s[content..contentEnd];
    assert forall i :: 0 <= i < |c| ==> c[i] == s[component + i] && In(s[component + i], NotNewline);
    assert forall i :: 0 <= i < |x| ==> x[i] == s[content + i] && In(s[content + i], NotNewline);
  }

  /** The bounds every cut of a line into the pattern's parts obeys. */
  lemma ShapedFields(s: string, sp: Spans)
    requires Shaped(s, sp)
    ensures var e := Extract(s, sp);
      && e.level in ["V", "D", "I", "W", "E", "F", "S"]
      && |e.month| == 2 && Numeral(e.month) && 1 <= TwoDigitValue(e.month) <= 12
      && |e.day| == 2 && Numeral(e.day) && 1 <= TwoDigitValue(e.day) <= 31
      && |e.hour| == 2 && Numeral(e.hour) && TwoDigitValue(e.hour) <= 24
      && |e.min| == 2 && Numeral(e.min) && TwoDigitValue(e.min) <= 59
      && |e.sec| == 2 && Numeral(e.sec) && TwoDigitValue(e.sec) <= 59
      && |e.milsec| == 3 && Numeral(e.milsec)
      && Numeral(e.pid) && Numeral(e.tid)
      && e.component != [] && '\n' !in e.component && '\n' !in e.content
  {
    HeadFields(s, sp.hour);
    NumberFields(s, sp.hour + 12, sp.pid, sp.pidEnd, sp.tid, sp.tidEnd, sp.level);
    TailFields(s, sp.level + 1, sp.component, sp.componentEnd, sp.colon, sp.content, sp.contentEnd);
  }

  /** The bounds every matched line obeys: a level letter from the seven,
      month 1-12, day 1-31, hour 0-24, minute and second 0-59, exactly three
      millisecond digits, digit-only process and thread ids, a non-empty
      component, and no line feed in the component or the content. */
  lemma MatchFields(line: string, e: Entry)
    requires Match(line) == Some(e)
    ensures e.level in ["V", "D", "I", "W", "E", "F", "S"]
    ensures |e.month| == 2 && Numeral(e.month) && 1 <= TwoDigitValue(e.month) <= 12
    ensures |e.day| == 2 && Numeral(e.day) && 1 <= TwoDigitValue(e.day) <= 31
    ensures |e.hour| == 2 && Numeral(e.hour) && TwoDigitValue(e.hour) <= 24
    ensures |e.min| == 2 && Numeral(e.min) && TwoDigitValue(e.min) <= 59
    ensures |e.sec| == 2 && Numeral(e.sec) && TwoDigitValue(e.sec) <= 59
    ensures |e.milsec| == 3 && Numeral(e.milsec)
    ensures Numeral(e.pid) && Numeral(e.tid)
    ensures e.component != [] && '\n' !in e.component && '\n' !in e.content
  {
    ShapedFields(line, Scan(line).value);
  }

  /** A lazy group that is followed by `\s*:\s+` and stops at the first
      such place does not end in a space unless it is one character long. */
  lemma TailTrimmed(s: string, p: nat, component: nat, componentEnd: nat, colon: nat,
                    content: nat, contentEnd: nat)
    requires TailAt(s, p, component, componentEnd, colon, content, contentEnd)
    requires NoColonWithin(s, component, componentEnd)
    requires componentEnd - component >= 2
    ensures !IsSpace(s[componentEnd - 1])
  {
    if IsSpace(s[componentEnd - 1]) {
      assert In(s[colon + 1], Space);
      assert AllIn(s, componentEnd - 1, colon, Space);
      ColonAt(s, componentEnd - 1, colon);
    }
  }

  /** The same for a cut with no earlier `\s*:\s+`, read off the text of its
      component group. */
  lemma CutTrimmed(s: string, sp: Spans, c: string)
    requires Shaped(s, sp) && NoColonWithin(s, sp.component, sp.componentEnd)
    requires c == s[sp.component..sp.componentEnd]
    ensures |c| >= 2 ==> !IsSpace(c[|c| - 1])
  {
    if |c| >= 2 {
      TailTrimmed(s, sp.level + 1, sp.component, sp.componentEnd, sp.colon, sp.content, sp.contentEnd);
      assert c[|c| - 1] == s[sp.componentEnd - 1];
    }
  }

  /** The component never ends in whitespace unless it is one character
      long: the lazy group stops at the first `\s*:\s+`, which takes the
      spaces before the colon. */
  lemma ComponentTrimmed(line: string, e: Entry)
    requires Match(line) == Some(e)
    requires |e.component| >= 2
    ensures !IsSpace(e.component[|e.component| - 1])
  {
    var sp := MatchCut(line, e);
    CutTrimmed(line, sp, e.component);
  }

  /** The cut behind a match, with its component group as the entry's. */
  lemma MatchCut(line: string, e: Entry) returns (sp: Spans)
    requires Match(line) == Some(e)
    ensures Shaped(line, sp) && NoColonWithin(line, sp.component, sp.componentEnd)
    ensures e.component == line[sp.component..sp.componentEnd]
  {
    sp := Scan(line).value;
  }

  lemma HeadScans(s: string, h: nat)
    requires HeadAt(s, h)
    ensures ScanHead(s) == Some(h)
  {
    SpanAt(s, 5, h, Space);
  }

  lemma NumbersScan(s: string, m: nat, pid: nat, pidEnd: nat, tid: nat, tidEnd: nat, level: nat)
    requires NumbersAt(s, m, pid, pidEnd, tid, tidEnd, level)
    ensures ScanNumbers(s, m) == Some((pid, pidEnd, tid, tidEnd, level))
  {
    assert In(s[pid], Digit) && In(s[pidEnd], Space) && In(s[tid], Digit) && In(s[tidEnd], Space);
    SpanAt(s, m, pid, Space);
    SpanAt(s, pid, pidEnd, Digit);
    SpanAt(s, pidEnd, tid, Space);
    SpanAt(s, tid, tidEnd, Digit);
    SpanAt(s, tidEnd, level, Space);
  }

  lemma TailScans(s: string, p: nat, component: nat, componentEnd: nat, colon: nat,
                  content: nat, contentEnd: nat)
    requires TailAt(s, p, component, componentEnd, colon, content, contentEnd)
    ensures ScanTail(s, p).Some?
  {
    var delim := ColonDelim(s);
    assert In(s[colon + 1], Space);
    ColonAt(s, componentEnd, colon);
    assert Fits(s, p, component, componentEnd, delim);
  }

  /** Any reading of the tail has its component start no later than the one the
      engine picks. */
  lemma TailLatest(s: string, p: nat, component: nat, componentEnd: nat, colon: nat,
                  content: nat, contentEnd: nat)
    requires TailAt(s, p, component, componentEnd, colon, content, contentEnd)
    ensures ScanTail(s, p).Some? && component <= ScanTail(s, p).value.0
  {
    TailScans(s, p, component, componentEnd, colon, content, contentEnd);
    assert In(s[colon + 1], Space);
    ColonAt(s, componentEnd, colon);
  }

  lemma ShapedHead(s: string, sp: Spans)
    requires Shaped(s, sp)
    ensures ScanHead(s) == Some(sp.hour) && sp.hour + 12 <= |s| && sp.level + 1 <= |s|
  {
    HeadScans(s, sp.hour);
  }

  lemma ShapedNumbers(s: string, sp: Spans)
    requires Shaped(s, sp)
    ensures ScanNumbers(s, sp.hour + 12) == Some((sp.pid, sp.pidEnd, sp.tid, sp.tidEnd, sp.level))
  {
    NumbersScan(s, sp.hour + 12, sp.pid, sp.pidEnd, sp.tid, sp.tidEnd, sp.level);
  }

  /** Once each stage scans where the previous one ended, so does the whole line. */
  lemma StagesScan(s: string, h: nat, nums: (nat, nat, nat, nat, nat))
    requires h + 12 <= |s| && ScanHead(s) == Some(h)
    requires ScanNumbers(s, h + 12) == Some(nums) && nums.4 + 1 <= |s|
    requires ScanTail(s, nums.4 + 1).Some?
    ensures Scan(s).Some?
  {
  }

  /** Whenever the line can be cut into the pattern's parts at all, the
      matcher finds a match: a non-matching line is one the pattern rejects. */
  lemma ShapedMatches(s: string, sp: Spans)
    requires Shaped(s, sp)
    ensures Match(s).Some?
  {
    ShapedScans(s, sp);
  }

  lemma ShapedScans(s: string, sp: Spans)
    requires Shaped(s, sp)
    ensures Scan(s).Some?
  {
    var nums := (sp.pid, sp.pidEnd, sp.tid, sp.tidEnd, sp.level);
    ShapedStages(s, sp, nums);
    StagesScan(s, sp.hour, nums);
  }

  /** Each stage of a cut scans where the previous one ended. */
  lemma ShapedStages(s: string, sp: Spans, nums: (nat, nat, nat, nat, nat))
    requires Shaped(s, sp) && nums == (sp.pid, sp.pidEnd, sp.tid, sp.tidEnd, sp.level)
    ensures sp.hour + 12 <= |s| && ScanHead(s) == Some(sp.hour)
    ensures ScanNumbers(s, sp.hour + 12) == Some(nums) && nums.4 + 1 <= |s|
    ensures ScanTail(s, nums.4 + 1).Some?
  {
    ShapedHead(s, sp);
    ShapedNumbers(s, sp);
    TailScans(s, sp.level + 1, sp.component, sp.componentEnd, sp.colon, sp.content, sp.contentEnd);
  }

  /** The matcher accepts a line exactly when the pattern can be laid over its start. */
  lemma MatchIffShaped(s: string)
    ensures Match(s).Some? <==> exists sp :: Shaped(s, sp)
  {
    if exists sp :: Shaped(s, sp) {
      var sp :| Shaped(s, sp);
      ShapedMatches(s, sp);
    }
  }

  // ---------------------------------------------------------------------------
  // An example line
  // ---------------------------------------------------------------------------

  /** `03-14 12:01:02.345 1234 5678 E ActivityManager: Crash detected` */
  const ExampleLine: string :=
    "03-14 " + "12:01:02.345" + " 1234 5678 " + "E Activity" + "Manager: " + "Crash detected"

  lemma ExampleScan()
    ensures Scan(ExampleLine) == Some(Spans(6, 19, 23, 24, 28, 29, 31, 46, 46, 48, 62))
  {
    ExampleHead();
    ExampleNumbers();
    ExampleTail();
  }

  lemma ExampleHead()
    ensures ScanHead(ExampleLine) == Some(6)
  {
    SpanAt(ExampleLine, 5, 6, Space);
  }

  lemma ExampleNumbers()
    ensures ScanNumbers(ExampleLine, 18) == Some((19, 23, 24, 28, 29))
  {
    var s := ExampleLine;
    SpanAt(s, 18, 19, Space);
    SpanAt(s, 19, 23, Digit);
    SpanAt(s, 23, 24, Space);
    SpanAt(s, 24, 28, Digit);
    SpanAt(s, 28, 29, Space);
  }

  lemma ExampleComponent()
    ensures FirstDelim(ExampleLine, 32, ColonDelim(ExampleLine)) == Some(46)
  {
    var s := ExampleLine;
    var delim := ColonDelim(s);
    assert delim(46);
    assert forall x: nat :: 32 <= x < 46 ==> !delim(x);
    FirstDelimAt(s, 32, 46, delim);
  }

  lemma ExampleLazy()
    ensures LazyAfterSpaces(ExampleLine, 30, ColonDelim(ExampleLine)) == Some((31, 46))
  {
    var s := ExampleLine;
    SpanAt(s, 30, 31, Space);
    ExampleComponent();
    assert LazyFrom(s, 31, ColonDelim(s)) == Some(46);
  }

  lemma ExampleTail()
    ensures ScanTail(ExampleLine, 30) == Some((31, 46, 46, 48, 62))
  {
    var s := ExampleLine;
    ExampleLazy();
    SpanAt(s, 46, 46, Space);
    SpanAt(s, 47, 48, Space);
    SpanAt(s, 48, 62, NotNewline);
  }

  lemma ExampleDate()
    ensures ExampleLine[0..2] == "03" && ExampleLine[3..5] == "14"
  {
    var s := ExampleLine;
    assert s[0] == '0' && s[1] == '3' && s[3] == '1' && s[4] == '4';
  }

  lemma ExampleClock()
    ensures ExampleLine[6..8] == "12" && ExampleLine[9..11] == "01"
    ensures ExampleLine[12..14] == "02" && ExampleLine[15..18] == "345"
  {
    var s := ExampleLine;
    assert s[6] == '1' && s[7] == '2' && s[9] == '0' && s[10] == '1';
    assert s[12] == '0' && s[13] == '2' && s[15] == '3' && s[16] == '4' && s[17] == '5';
  }

  lemma ExampleIds()
    ensures ExampleLine[19..23] == "1234" && ExampleLine[24..28] == "5678" && ExampleLine[29..30] == "E"
  {
    var s := ExampleLine;
    assert s[19] == '1' && s[20] == '2' && s[21] == '3' && s[22] == '4';
    assert s[24] == '5' && s[25] == '6' && s[26] == '7' && s[27] == '8' && s[29] == 'E';
  }

  lemma ExampleText()
    ensures ExampleLine[31..46] == "ActivityManager" && ExampleLine[48..62] == "Crash detected"
  {
    assert ExampleLine[31..46] == "ActivityManager";
  }

  /** The example parses to the groups written out by hand. */
  lemma ExampleMatch()
    ensures Match(ExampleLine) == Some(Entry("03", "14", "12", "01", "02", "345", "1234", "5678",
                                             "E", "ActivityManager", "Crash detected"))
  {
    ExampleScan();
    ExampleDate();
    ExampleClock();
    ExampleIds();
    ExampleText();
  }

  // ---------------------------------------------------------------------------
  // The display filter
  // ---------------------------------------------------------------------------

  /** The levels kept when no list is given: fatal, error, warning. */
  const DefaultLevels: seq<string> := ["F", "E", "W"]

  /** a can be obtained from b by deleting elements, keeping the order of the rest. */
  predicate IsSubsequence<T(==)>(a: seq<T>, b: seq<T>)
    decreases |b|
  {
    a == [] || (b != [] && ((a[0] == b[0] && IsSubsequence(a[1..], b[1..])) || IsSubsequence(a, b[1..])))
  }

  /** `[entry for entry in log_entries if entry['Log Level'] in levels]` */
  function Filter(entries: seq<Entry>, levels: seq<string>): (r: seq<Entry>)
    ensures IsSubsequence(r, entries)
    ensures forall e :: e in r ==> e.level in levels
    ensures forall e :: e in entries && e.level in levels ==> e in r
    decreases |entries|
  {
    if entries == [] then []
    else
      var rest := Filter(entries[1..], levels);
      if entries[0].level in levels then
        assert ([entries[0]] + rest)[1..] == rest;
        [entries[0]] + rest
      else rest
  }

  /** Filtering a concatenation filters each part: the filter looks at each
      entry on its own. */
  lemma {:induction false} FilterAppend(a: seq<Entry>, b: seq<Entry>, levels: seq<string>)
    ensures Filter(a + b, levels) == Filter(a, levels) + Filter(b, levels)
    decreases |a|
  {
    if a == [] {
      assert a + b == b;
    } else {
      assert (a + b)[0] == a[0];
      assert (a + b)[1..] == a[1..] + b;
      FilterAppend(a[1..], b, levels);
    }
  }

  /** Filtering twice with the same levels changes nothing more. */
  lemma {:induction false} FilterIdempotent(entries: seq<Entry>, levels: seq<string>)
    ensures Filter(Filter(entries, levels), levels) == Filter(entries, levels)
    decreases |entries|
  {
    if entries != [] {
      FilterIdempotent(entries[1..], levels);
      var rest := Filter(entries[1..], levels);
      if entries[0].level in levels {
        assert ([entries[0]] + rest)[1..] == rest;
      }
    }
  }

  // ---------------------------------------------------------------------------
  // Parsing a raw file into entries and CSV rows
  // ---------------------------------------------------------------------------

  /** The entries a raw file with text `raw` yields, in file order. */
  function Entries(raw: string): seq<Entry> {
    Matched(ReadLines(raw), Match)
  }

  /** The structured file written for a raw file with text `raw`: the header,
      then one row per entry. */
  function Csv(raw: string): Table {
    [Header] + Tabulate(Entries(raw), Row)
  }

  /** `parse_logcat`: matches each line of the raw file in order, collecting
      the entries and writing the header and one row per entry; filtering
      applies to the returned entries only, never to the rows. */
  method ParseLogcat(lines: seq<string>, filterForDisplay: bool) returns (entries: seq<Entry>, rows: Table)
    ensures rows == [Header] + Tabulate(Matched(lines, Match), Row)
    ensures entries == if filterForDisplay then Filter(Matched(lines, Match), DefaultLevels) else Matched(lines, Match)
  {
    var logEntries;
    logEntries, rows := ReadMatches(lines, Match, Header, Row);
    entries := if filterForDisplay then Filter(logEntries, DefaultLevels) else logEntries;
  }

  // ---------------------------------------------------------------------------
  // Artifact paths and `main`
  // ---------------------------------------------------------------------------

  /** `data/raw/logs_{id}.txt` */
  function RawPath(sessionId: string): Path {
    "data/raw/logs_" + sessionId + ".txt"
  }

  /** `data/structured/logs_structured_{id}.csv` */
  function StructuredPath(sessionId: string): Path {
    "data/structured/logs_structured_" + sessionId + ".csv"
  }

  /** `main`: when the session's raw file exists, parse it and write the
      structured file; otherwise return no entries and leave the disk alone. */
  method RunSession(d: Disk, sessionId: string, filterForDisplay: bool) returns (entries: seq<Entry>, d': Disk)
    ensures RawPath(sessionId) !in d.texts ==> entries == [] && d' == d
    ensures RawPath(sessionId) in d.texts ==>
      var raw := d.texts[RawPath(sessionId)];
      && d' == WriteTable(d, StructuredPath(sessionId), Csv(raw))
      && entries == if filterForDisplay then Filter(Entries(raw), DefaultLevels) else Entries(raw)
  {
    var raw := RawPath(sessionId);
    if raw in d.texts {
      var rows;
      entries, rows := ParseLogcat(ReadLines(d.texts[raw]), filterForDisplay);
      d' := WriteTable(d, StructuredPath(sessionId), rows);
    } else {
      entries, d' := [], d;
    }
  }
}
