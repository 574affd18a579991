/** The syslog side: the line pattern of `ios.py`, its display filter (which
    looks up a key its records never hold), the parse that writes the
    structured file, and `main`, which captures the device log first. */
module Ios {
  import opened Wrappers
  import opened Lex
  import opened Storage

  /** One matched line: the groups the record keeps. The pattern also matches
      a `<level>` tag, but the record does not store it. */
  datatype Entry = Entry(
    month: string, day: string, hour: string, min: string, sec: string,
    device: string, process: string, pid: string, content: string)

  const Header: seq<string> :=
    ["Month", "Day", "Hour", "Min", "Sec", "Device", "Process", "PID", "Content"]

  /** The dictionary built for a match, looked up by key. */
  function Lookup(e: Entry, key: string): Option<string> {
    if key == "Month" then Some(e.month)
    else if key == "Day" then Some(e.day)
    else if key == "Hour" then Some(e.hour)
    else if key == "Min" then Some(e.min)
    else if key == "Sec" then Some(e.sec)
    else if key == "Device" then Some(e.device)
    else if key == "Process" then Some(e.process)
    else if key == "PID" then Some(e.pid)
    else if key == "Content" then Some(e.content)
    else None
  }

  /** The CSV row of an entry: the dictionary's values in the header's order. */
  function Row(e: Entry): (r: seq<string>)
    ensures |r| == |Header|
    ensures forall i :: 0 <= i < |Header| ==> Lookup(e, Header[i]) == Some(r[i])
  {
    [e.month, e.day, e.hour, e.min, e.sec, e.device, e.process, e.pid, e.content]
  }

  // ---------------------------------------------------------------------------
  // The line pattern
  //   [A-Za-z]{3}\s+(\d{2})\s+(\d{2}):(\d{2}):(\d{2})\s+(\S+)\s+(.+?)\[(\d+)\]
  //   \s+<(\w+)>:\s+(.*)
  // matched at the start of the line.
  // ---------------------------------------------------------------------------

  /** `\d{2}:\d{2}:\d{2}` at h */
  predicate ClockAt(s: string, h: nat)
    requires h + 8 <= |s|
  {
    AllIn(s, h, h + 2, Digit) && s[h + 2] == ':' && AllIn(s, h + 3, h + 5, Digit)
    && s[h + 5] == ':' && AllIn(s, h + 6, h + 8, Digit)
  }

  /** `\[(\d+)\]\s+<(\w+)>:\s+` at q read without priorities: the pid ends
      at pidEnd, the `<` is at angle and the level ends at levelEnd. */
  predicate TagParts(s: string, q: nat, pidEnd: nat, angle: nat, levelEnd: nat) {
    && q + 1 < pidEnd && pidEnd + 1 < angle && angle + 1 < levelEnd && levelEnd + 2 < |s|
    && s[q] == '[' && AllIn(s, q + 1, pidEnd, Digit) && s[pidEnd] == ']'
    && AllIn(s, pidEnd + 1, angle, Space) && s[angle] == '<'
    && AllIn(s, angle + 1, levelEnd, Word) && s[levelEnd] == '>' && s[levelEnd + 1] == ':'
    && IsSpace(s[levelEnd + 2])
  }

  /** The tag at q as the engine reads it. Every run in it is followed by a
      character outside its class, so each run is the greedy one. */
  function ScanTag(s: string, q: nat): (r: Option<(nat, nat, nat)>)
    requires q <= |s|
    ensures r.Some? ==> TagParts(s, q, r.value.0, r.value.1, r.value.2)
  {
    if q == |s| || s[q] != '[' then None
    else
      var pidEnd := Span(s, q + 1, Digit);
      if pidEnd == q + 1 || pidEnd == |s| || s[pidEnd] != ']' then None
      else
        var angle := Span(s, pidEnd + 1, Space);
        if angle == pidEnd + 1 || angle == |s| || s[angle] != '<' then None
        else
          var levelEnd := Span(s, angle + 1, Word);
          if levelEnd == angle + 1 || |s| <= levelEnd + 2 || s[levelEnd] != '>'
             || s[levelEnd + 1] != ':' || !IsSpace(s[levelEnd + 2])
          then None
          else Some((pidEnd, angle, levelEnd))
  }

  /** A tag starts at q. */
  predicate TagAt(s: string, q: nat) {
    q <= |s| && ScanTag(s, q).Some?
  }

  /** The tag as the delimiter that ends the lazy process. */
  function TagDelim(s: string): nat -> bool {
    (q: nat) => TagAt(s, q)
  }

  lemma TagScans(s: string, q: nat, pidEnd: nat, angle: nat, levelEnd: nat)
    requires TagParts(s, q, pidEnd, angle, levelEnd)
    ensures ScanTag(s, q) == Some((pidEnd, angle, levelEnd))
  {
    SpanAt(s, q + 1, pidEnd, Digit);
    SpanAt(s, pidEnd + 1, angle, Space);
    SpanAt(s, angle + 1, levelEnd, Word);
  }

  /** No tag starts strictly inside [b, e): a lazy group from b could not have stopped earlier. */
  predicate NoTagWithin(s: string, b: nat, e: nat) {
    forall x: nat :: b < x < e ==> !TagAt(s, x)
  }

  /** No reading of `\s+(.+?)\[(\d+)\]\s+<(\w+)>:` from p has its process start
      after b: the lazy group starts as late as the spaces before it allow. */
  ghost predicate NoLaterProcess(s: string, p: nat, b: nat) {
    forall b': nat, e: nat {:trigger AllIn(s, b', e, NotNewline)} ::
      b < b' && p < b' < e <= |s| && AllIn(s, p, b', Space) && AllIn(s, b', e, NotNewline) ==>
      !TagAt(s, e)
  }

  /** The same fact read off the delimiter as a function value. */
  lemma LaterProcessOfFits(s: string, p: nat, b: nat)
    requires forall b': nat, e: nat :: b < b' ==> !Fits(s, p, b', e, TagDelim(s))
    ensures NoLaterProcess(s, p, b)
  {
    forall b': nat, e: nat | b < b' && p < b' < e <= |s| && AllIn(s, p, b', Space) && AllIn(s, b', e, NotNewline)
      ensures !TagAt(s, e)
    {
      assert !Fits(s, p, b', e, TagDelim(s));
    }
  }

  /** Where the parts of a match lie in the line (the month is at 0). */
  datatype Spans = Spans(
    day: nat, hour: nat, device: nat, deviceEnd: nat, process: nat, processEnd: nat,
    pidEnd: nat, angle: nat, levelEnd: nat, content: nat, contentEnd: nat)

  /** `[A-Za-z]{3}\s+\d{2}\s+\d{2}:\d{2}:\d{2}` with the day at d and the hour at h. */
  predicate HeadAt(s: string, d: nat, h: nat) {
    && 3 < d && d + 2 < h && h + 8 <= |s|
    && AllIn(s, 0, 3, Letter) && AllIn(s, 3, d, Space) && AllIn(s, d, d + 2, Digit)
    && AllIn(s, d + 2, h, Space) && ClockAt(s, h)
  }

  /** `\s+(\S+)` after the seconds, which end at m. */
  predicate DeviceAt(s: string, m: nat, device: nat, deviceEnd: nat) {
    m < device < deviceEnd <= |s| && AllIn(s, m, device, Space) && AllIn(s, device, deviceEnd, NonSpace)
  }

  /** `\s+(.+?)\[(\d+)\]\s+<(\w+)>:\s+(.*)` from position p, just after the device. */
  predicate TailAt(s: string, p: nat, process: nat, processEnd: nat, pidEnd: nat, angle: nat,
                   levelEnd: nat, content: nat, contentEnd: nat) {
    && p < process < processEnd < |s|
    && AllIn(s, p, process, Space) && AllIn(s, process, processEnd, NotNewline)
    && TagParts(s, processEnd, pidEnd, angle, levelEnd)
    && levelEnd + 2 < content <= contentEnd <= |s|
    && AllIn(s, levelEnd + 2, content, Space) && AllIn(s, content, contentEnd, NotNewline)
  }

  /** The pattern read without priorities: sp is one way of cutting the start
      of s into the pattern's parts. */
  predicate Shaped(s: string, sp: Spans) {
    && HeadAt(s, sp.day, sp.hour)
    && DeviceAt(s, sp.hour + 8, sp.device, sp.deviceEnd)
    && TailAt(s, sp.deviceEnd, sp.process, sp.processEnd, sp.pidEnd, sp.angle, sp.levelEnd,
              sp.content, sp.contentEnd)
  }

  function ScanHead(s: string): (r: Option<(nat, nat)>)
    ensures r.Some? ==> HeadAt(s, r.value.0, r.value.1)
  {
    if !(3 <= |s| && AllIn(s, 0, 3, Letter)) then None
    else
      var d := Span(s, 3, Space);
      if d == 3 || |s| < d + 2 || !AllIn(s, d, d + 2, Digit) then None
      else
        var h := Span(s, d + 2, Space);
        if h == d + 2 || |s| < h + 8 || !ClockAt(s, h) then None
        else Some((d, h))
  }

  function ScanDevice(s: string, m: nat): (r: Option<(nat, nat)>)
    requires m <= |s|
    ensures r.Some? ==> DeviceAt(s, m, r.value.0, r.value.1)
    ensures r.Some? ==> r.value.1 == |s| || IsSpace(s[r.value.1])
  {
    var device := Span(s, m, Space);
    var deviceEnd := Span(s, device, NonSpace);
    if device == m || deviceEnd == device then None
    else Some((device, deviceEnd))
  }

  function ScanTail(s: string, p: nat): (r: Option<(nat, nat, nat, nat, nat, nat, nat)>)
    requires p <= |s|
    ensures r.Some? ==> TailAt(s, p, r.value.0, r.value.1, r.value.2, r.value.3, r.value.4,
                               r.value.5, r.value.6)
    ensures r.Some? ==> NoLaterProcess(s, p, r.value.0)
    ensures r.Some? ==> NoTagWithin(s, r.value.0, r.value.1)
    ensures r.Some? ==> r.value.5 == |s| || !IsSpace(s[r.value.5])
    ensures r.Some? ==> r.value.6 == |s| || s[r.value.6] == '\n'
  {
    var delim := TagDelim(s);
    assert forall e: nat :: delim(e) == TagAt(s, e);
    match LazyAfterSpaces(s, p, delim)
    case None => None
    case Some((process, processEnd)) =>
      LaterProcessOfFits(s, p, process);
      var (pidEnd, angle, levelEnd, content, contentEnd) := ScanAfterProcess(s, processEnd);
      Some((process, processEnd, pidEnd, angle, levelEnd, content, contentEnd))
  }

  /** The tag where the process ends, greedy spaces, and the content up to
      the end of the line. */
  function ScanAfterProcess(s: string, processEnd: nat): (r: (nat, nat, nat, nat, nat))
    requires TagAt(s, processEnd)
    ensures TagParts(s, processEnd, r.0, r.1, r.2)
    ensures r.2 + 2 < r.3 <= r.4 <= |s| && AllIn(s, r.2 + 2, r.3, Space) && AllIn(s, r.3, r.4, NotNewline)
    ensures r.3 == |s| || !IsSpace(s[r.3])
    ensures r.4 == |s| || s[r.4] == '\n'
  {
    var (pidEnd, angle, levelEnd) := ScanTag(s, processEnd).value;
    var content := Span(s, levelEnd + 2, Space);
    (pidEnd, angle, levelEnd, content, Span(s, content, NotNewline))
  }

  /** The cut a backtracking engine makes: runs are greedy, the process is
      lazy, and the content runs to the end of the line. */
  function Scan(s: string): (r: Option<Spans>)
    ensures r.Some? ==> Shaped(s, r.value)
    ensures r.Some? ==> r.value.deviceEnd == |s| || IsSpace(s[r.value.deviceEnd])
    ensures r.Some? ==> NoLaterProcess(s, r.value.deviceEnd, r.value.process)
    ensures r.Some? ==> NoTagWithin(s, r.value.process, r.value.processEnd)
    ensures r.Some? ==> r.value.content == |s| || !IsSpace(s[r.value.content])
    ensures r.Some? ==> r.value.contentEnd == |s| || s[r.value.contentEnd] == '\n'
  {
    match ScanHead(s)
    case None => None
    case Some((d, h)) =>
      match ScanDevice(s, h + 8)
      case None => None
      case Some((device, deviceEnd)) =>
        match ScanTail(s, deviceEnd)
        case None => None
        case Some((process, processEnd, pidEnd, angle, levelEnd, content, contentEnd)) =>
          Some(Spans(d, h, device, deviceEnd, process, processEnd, pidEnd, angle, levelEnd,
                     content, contentEnd))
  }

  /** The dictionary of groups for a cut of the line. */
  function Extract(s: string, sp: Spans): Entry
    requires Shaped(s, sp)
  {
    var h := sp.hour;
    Entry(s[0..3], s[sp.day..sp.day + 2], s[h..h + 2], s[h + 3..h + 5], s[h + 6..h + 8],
          s[sp.device..sp.deviceEnd], s[sp.process..sp.processEnd],
          s[sp.processEnd + 1..sp.pidEnd], s[sp.content..sp.contentEnd])
  }

  /** The clock groups joined by colons give back the line's clock text, and
      the pid is the text between the tag's brackets. */
  lemma ExtractHead(s: string, sp: Spans)
    requires Shaped(s, sp)
    ensures var e := Extract(s, sp);
      && s[sp.hour..sp.hour + 8] == e.hour + ":" + e.min + ":" + e.sec
      && s[sp.processEnd..sp.pidEnd + 1] == "[" + e.pid + "]"
  {
    var h := sp.hour;
    assert s[h..h + 8] == s[h..h + 2] + [s[h + 2]] + s[h + 3..h + 5] + [s[h + 5]] + s[h + 6..h + 8];
    assert s[sp.processEnd..sp.pidEnd + 1] == [s[sp.processEnd]] + s[sp.processEnd + 1..sp.pidEnd] + [s[sp.pidEnd]];
  }

  /** `log_pattern.match(line)` and the dictionary built from its groups. */
  function Match(line: string): Option<Entry> {
    match Scan(line)
    case None => None
    case Some(sp) => Some(Extract(line, sp))
  }

  // ---------------------------------------------------------------------------
  // What a match guarantees
  // ---------------------------------------------------------------------------

  /** Three letters of month, then two digits each of day, hour, minute and second. */
  lemma HeadFields(s: string, d: nat, h: nat)
    requires HeadAt(s, d, h)
    ensures |s[0..3]| == 3 && Only(s[0..3], Letter)
    ensures |s[d..d + 2]| == 2 && Numeral(s[d..d + 2])
    ensures |s[h..h + 2]| == 2 && Numeral(s[h..h + 2])
    ensures |s[h + 3..h + 5]| == 2 && Numeral(s[h + 3..h + 5])
    ensures |s[h + 6..h + 8]| == 2 && Numeral(s[h + 6..h + 8])
  {
    var mo, dd := s[0..3], s[d..d + 2];
    assert forall i :: 0 <= i < 3 ==> mo[i] == s[i] && In(s[i], Letter);
    assert forall i :: 0 <= i < 2 ==> dd[i] == s[d + i] && In(s[d + i], Digit);
    var hh, mm, ss := s[h..h + 2], s[h + 3..h + 5], s[h + 6..h + 8];
    assert forall i :: 0 <= i < 2 ==> hh[i] == s[h + i] && In(s[h + i], Digit);
    assert forall i :: 0 <= i < 2 ==> mm[i] == s[h + 3 + i] && In(s[h + 3 + i], Digit);
    assert forall i :: 0 <= i < 2 ==> ss[i] == s[h + 6 + i] && In(s[h + 6 + i], Digit);
  }

  /** The device is a non-empty run without whitespace. */
  lemma DeviceFields(s: string, m: nat, device: nat, deviceEnd: nat)
    requires DeviceAt(s, m, device, deviceEnd)
    ensures s[device..deviceEnd] != [] && Only(s[device..deviceEnd], NonSpace)
  {
    var t := s[device..deviceEnd];
    assert forall i :: 0 <= i < |t| ==> t[i] == s[device + i];
  }

  /** The process is non-empty, the pid is a digit run, and neither the
      process nor the content holds a line feed. */
  lemma TailFields(s: string, p: nat, process: nat, processEnd: nat, pidEnd: nat, angle: nat,
                   levelEnd: nat, content: nat, contentEnd: nat)
    requires TailAt(s, p, process, processEnd, pidEnd, angle, levelEnd, content, contentEnd)
    ensures s[process..processEnd] != [] && '\n' !in s[process..processEnd]
    ensures Numeral(s[processEnd + 1..pidEnd])
    ensures '\n' !in s[content..contentEnd]
  {
    var c, n, x := s[process..processEnd], s[processEnd + 1..pidEnd], s[content..contentEnd];
    assert forall i :: 0 <= i < |c| ==> c[i] == s[process + i] && In(s[process + i], NotNewline);
    assert forall i :: 0 <= i < |n| ==> n[i] == s[processEnd + 1 + i] && In(s[processEnd + 1 + i], Digit);
    assert forall i :: 0 <= i < |x| ==> x[i] == s[content + i] && In(s[content + i], NotNewline);
  }

  /** The bounds every cut of a line into the pattern's parts obeys. */
  lemma ShapedFields(s: string, sp: Spans)
    requires Shaped(s, sp)
    ensures var e := Extract(s, sp);
      && |e.month| == 3 && Only(e.month, Letter)
      && |e.day| == 2 && Numeral(e.day) && |e.hour| == 2 && Numeral(e.hour)
      && |e.min| == 2 && Numeral(e.min) && |e.sec| == 2 && Numeral(e.sec)
      && e.device != [] && Only(e.device, NonSpace)
      && e.process != [] && '\n' !in e.process && Numeral(e.pid) && '\n' !in e.content
  {
    HeadFields(s, sp.day, sp.hour);
    DeviceFields(s, sp.hour + 8, sp.device, sp.deviceEnd);
    TailFields(s, sp.deviceEnd, sp.process, sp.processEnd, sp.pidEnd, sp.angle, sp.levelEnd,
               sp.content, sp.contentEnd);
  }

  /** The bounds every matched line obeys: a three-letter month; two-digit
      day, hour, minute and second; a non-empty device without whitespace; a
      non-empty process; a digit-only pid; no line feed in process or content. */
  lemma MatchFields(line: string, e: Entry)
    requires Match(line) == Some(e)
    ensures |e.month| == 3 && Only(e.month, Letter)
    ensures |e.day| == 2 && Numeral(e.day) && |e.hour| == 2 && Numeral(e.hour)
    ensures |e.min| == 2 && Numeral(e.min) && |e.sec| == 2 && Numeral(e.sec)
    ensures e.device != [] && Only(e.device, NonSpace)
    ensures e.process != [] && '\n' !in e.process
    ensures Numeral(e.pid) && '\n' !in e.content
  {
    ShapedFields(line, Scan(line).value);
  }

  lemma HeadScans(s: string, d: nat, h: nat)
    requires HeadAt(s, d, h)
    ensures ScanHead(s) == Some((d, h))
  {
    assert In(s[d], Digit) && In(s[h], Digit);
    SpanAt(s, 3, d, Space);
    SpanAt(s, d + 2, h, Space);
  }

  lemma DeviceScans(s: string, m: nat, device: nat, deviceEnd: nat)
    requires DeviceAt(s, m, device, deviceEnd)
    requires deviceEnd == |s| || IsSpace(s[deviceEnd])
    ensures ScanDevice(s, m) == Some((device, deviceEnd))
  {
    assert In(s[device], NonSpace);
    SpanAt(s, m, device, Space);
    SpanAt(s, device, deviceEnd, NonSpace);
  }

  lemma TailScans(s: string, p: nat, process: nat, processEnd: nat, pidEnd: nat, angle: nat,
                  levelEnd: nat, content: nat, contentEnd: nat)
    requires TailAt(s, p, process, processEnd, pidEnd, angle, levelEnd, content, contentEnd)
    ensures ScanTail(s, p).Some?
  {
    var delim := TagDelim(s);
    TagScans(s, processEnd, pidEnd, angle, levelEnd);
    assert Fits(s, p, process, processEnd, delim);
  }

  /** Any reading of the tail has its process start no later than the one the
      engine picks. */
  lemma TailLatest(s: string, p: nat, process: nat, processEnd: nat, pidEnd: nat, angle: nat,
                  levelEnd: nat, content: nat, contentEnd: nat)
    requires TailAt(s, p, process, processEnd, pidEnd, angle, levelEnd, content, contentEnd)
    ensures ScanTail(s, p).Some? && process <= ScanTail(s, p).value.0
  {
    TailScans(s, p, process, processEnd, pidEnd, angle, levelEnd, content, contentEnd);
    TagScans(s, processEnd, pidEnd, angle, levelEnd);
  }

  /** A device that is not the maximal non-space run leaves a non-space
      character where the next `\s+` must start. */
  lemma DeviceMaximal(s: string, sp: Spans)
    requires Shaped(s, sp)
    ensures DeviceAt(s, sp.hour + 8, sp.device, Span(s, sp.device, NonSpace))
    ensures Span(s, sp.device, NonSpace) == sp.deviceEnd
  {
    assert In(s[sp.deviceEnd], Space);
    SpanAt(s, sp.device, sp.deviceEnd, NonSpace);
  }

  /** The scan succeeds once each of its stages does. */
  lemma StagesScan(s: string, d: nat, h: nat, device: nat, deviceEnd: nat)
    requires h + 8 <= |s| && deviceEnd <= |s|
    requires ScanHead(s) == Some((d, h))
    requires ScanDevice(s, h + 8) == Some((device, deviceEnd))
    requires ScanTail(s, deviceEnd).Some?
    ensures Scan(s).Some?
  {
  }

  lemma ShapedDevice(s: string, sp: Spans)
    requires Shaped(s, sp)
    ensures ScanDevice(s, sp.hour + 8) == Some((sp.device, sp.deviceEnd))
  {
    assert In(s[sp.deviceEnd], Space);
    DeviceScans(s, sp.hour + 8, sp.device, sp.deviceEnd);
  }

  lemma ShapedTail(s: string, sp: Spans)
    requires Shaped(s, sp)
    ensures ScanTail(s, sp.deviceEnd).Some?
  {
    TailScans(s, sp.deviceEnd, sp.process, sp.processEnd, sp.pidEnd, sp.angle, sp.levelEnd,
              sp.content, sp.contentEnd);
  }

  lemma ShapedHead(s: string, sp: Spans)
    requires Shaped(s, sp)
    ensures ScanHead(s) == Some((sp.day, sp.hour))
    ensures sp.hour + 8 <= |s| && sp.deviceEnd <= |s|
  {
    HeadScans(s, sp.day, sp.hour);
  }

  lemma ShapedScans(s: string, sp: Spans)
    requires Shaped(s, sp)
    ensures Scan(s).Some?
  {
    ShapedHead(s, sp);
    ShapedDevice(s, sp);
    ShapedTail(s, sp);
    StagesScan(s, sp.day, sp.hour, sp.device, sp.deviceEnd);
  }

  /** Whenever the line can be cut into the pattern's parts at all, the
      matcher finds a match: a non-matching line is one the pattern rejects. */
  lemma ShapedMatches(s: string, sp: Spans)
    requires Shaped(s, sp)
    ensures Match(s).Some?
  {
    ShapedScans(s, sp);
  }

  /** The matcher accepts a line exactly when the pattern can be laid over its start. */
  lemma MatchIffShaped(s: string)
    ensures Match(s).Some? <==> exists sp :: Shaped(s, sp)
  {
    if exists sp :: Shaped(s, sp) {
      var sp :| Shaped(s, sp);
      ShapedMatches(s, sp);
    }
  }

  // ---------------------------------------------------------------------------
  // An example line
  // ---------------------------------------------------------------------------

  /** `Jun 05 08:00:00 iPhone SpringBoard[99] <Notice>: App launched` */
  const ExampleLine: string :=
    "Jun 05 " + "08:00:00 " + "iPhone " + "SpringBoard" + "[99] " + "<Notice>: " + "App launched"

  lemma ExampleHead()
    ensures ScanHead(ExampleLine) == Some((4, 7))
  {
    var s := ExampleLine;
    SpanAt(s, 3, 4, Space);
    SpanAt(s, 6, 7, Space);
  }

  lemma ExampleDevice()
    ensures ScanDevice(ExampleLine, 15) == Some((16, 22))
  {
    var s := ExampleLine;
    SpanAt(s, 15, 16, Space);
    SpanAt(s, 16, 22, NonSpace);
  }

  lemma ExampleTagParts()
    ensures ScanTag(ExampleLine, 34) == Some((37, 39, 46))
  {
    TagScans(ExampleLine, 34, 37, 39, 46);
  }

  lemma ExampleNoTagBefore()
    ensures forall x: nat :: 24 <= x < 34 ==> !TagAt(ExampleLine, x)
  {
    var s := ExampleLine;
    assert s[23..34] == "SpringBoard";
    forall x: nat | 24 <= x < 34 ensures !TagAt(s, x) {
      assert s[x] == s[23..34][x - 23];
    }
  }

  lemma ExampleTag()
    ensures FirstDelim(ExampleLine, 24, TagDelim(ExampleLine)) == Some(34)
  {
    var s := ExampleLine;
    var delim := TagDelim(s);
    ExampleTagParts();
    assert delim(34);
    ExampleNoTagBefore();
    FirstDelimAt(s, 24, 34, delim);
  }

  lemma ExampleTail()
    ensures ScanTail(ExampleLine, 22) == Some((23, 34, 37, 39, 46, 49, 61))
  {
    var s := ExampleLine;
    var delim := TagDelim(s);
    SpanAt(s, 22, 23, Space);
    ExampleTag();
    assert LazyAfterSpaces(s, 22, delim) == Some((23, 34));
    ExampleTagParts();
    SpanAt(s, 48, 49, Space);
    SpanAt(s, 49, 61, NotNewline);
  }

  lemma ExampleSlices()
    ensures ExampleLine[0..3] == "Jun" && ExampleLine[4..6] == "05" && ExampleLine[7..9] == "08"
    ensures ExampleLine[10..12] == "00" && ExampleLine[13..15] == "00"
    ensures ExampleLine[16..22] == "iPhone"
  {
  }

  lemma ExampleText()
    ensures ExampleLine[23..34] == "SpringBoard" && ExampleLine[35..37] == "99"
    ensures ExampleLine[49..61] == "App launched"
  {
    assert ExampleLine[23..34] == "SpringBoard";
  }

  /** The example parses to the groups written out by hand; the `Notice`
      level is matched and dropped. */
  lemma ExampleMatch()
    ensures Match(ExampleLine) == Some(Entry("Jun", "05", "08", "00", "00", "iPhone", "SpringBoard",
                                             "99", "App launched"))
  {
    ExampleHead();
    ExampleDevice();
    ExampleTail();
    ExampleSlices();
    ExampleText();
  }

  // ---------------------------------------------------------------------------
  // The display filter
  // ---------------------------------------------------------------------------

  /** The exception a dictionary lookup of a missing key raises. */
  datatype KeyError = KeyError(key: string)

  const DefaultLevels: seq<string> := ["F", "E", "W"]

  /** The record has no `Log Level` key. */
  lemma NoLevelKey(e: Entry)
    ensures Lookup(e, "Log Level").None?
  {
  }

  /** `[entry for entry in log_entries if entry['Log Level'] in levels]`: each
      entry is looked up in order, and the first failed lookup raises. */
  function FilterForDisplay(entries: seq<Entry>, levels: seq<string>): (r: Result<seq<Entry>, KeyError>)
    ensures r.Success? <==> forall i :: 0 <= i < |entries| ==> Lookup(entries[i], "Log Level").Some?
    ensures r.Failure? ==> r.error == KeyError("Log Level")
    decreases |entries|
  {
    if entries == [] then Success([])
    else
      match Lookup(entries[0], "Log Level")
      case None => Failure(KeyError("Log Level"))
      case Some(level) =>
        match FilterForDisplay(entries[1..], levels)
        case Failure(err) => Failure(err)
        case Success(rest) => Success(if level in levels then [entries[0]] + rest else rest)
  }

  /** Because no record holds a level, filtering succeeds only on an empty
      list, and then keeps nothing; any entry at all raises the missing key. */
  lemma FilterFailsUnlessEmpty(entries: seq<Entry>, levels: seq<string>)
    ensures FilterForDisplay(entries, levels).Success? <==> entries == []
    ensures FilterForDisplay(entries, levels).Success? ==> FilterForDisplay(entries, levels).value == []
    ensures FilterForDisplay(entries, levels).Failure? ==>
      FilterForDisplay(entries, levels).error == KeyError("Log Level")
  {
    if entries != [] {
      NoLevelKey(entries[0]);
    }
  }

  // ---------------------------------------------------------------------------
  // Parsing a raw file into entries and CSV rows
  // ---------------------------------------------------------------------------

  /** The entries a raw file with text `raw` yields, in file order. */
  function Entries(raw: string): seq<Entry> {
    Matched(ReadLines(raw), Match)
  }

  /** The structured file written for a raw file with text `raw`: the header,
      then one row per entry. */
  function Csv(raw: string): Table {
    [Header] + Tabulate(Entries(raw), Row)
  }

  /** `parse_syslog`: matches each line of the raw file in order, collecting
      the entries and writing the header and one row per entry. The rows are
      complete before the filter runs, so a failing filter still leaves them. */
  method ParseSyslog(lines: seq<string>, filterForDisplay: bool)
    returns (result: Result<seq<Entry>, KeyError>, rows: Table)
    ensures rows == [Header] + Tabulate(Matched(lines, Match), Row)
    ensures result == if filterForDisplay then FilterForDisplay(Matched(lines, Match), DefaultLevels)
                      else Success(Matched(lines, Match))
  {
    var logEntries;
    logEntries, rows := ReadMatches(lines, Match, Header, Row);
    result := if filterForDisplay then FilterForDisplay(logEntries, DefaultLevels) else Success(logEntries);
  }

  // ---------------------------------------------------------------------------
  // Artifact paths and `main`
  // ---------------------------------------------------------------------------

  /** `data/raw/ios_logs_{id}.txt` */
  function RawPath(sessionId: string): Path {
    "data/raw/ios_logs_" + sessionId + ".txt"
  }

  /** `data/structured/ios_logs_structured_{id}.csv` */
  function StructuredPath(sessionId: string): Path {
    "data/structured/ios_logs_structured_" + sessionId + ".csv"
  }

  /** The branch of `main` after the capture: when the raw file exists, parse
      it and write the structured file; otherwise return no entries and leave
      the disk alone. */
  method ParseIfPresent(d: Disk, sessionId: string, filterForDisplay: bool)
    returns (result: Result<seq<Entry>, KeyError>, d': Disk)
    ensures RawPath(sessionId) !in d.texts ==> result == Success([]) && d' == d
    ensures RawPath(sessionId) in d.texts ==>
      var raw := d.texts[RawPath(sessionId)];
      && d' == WriteTable(d, StructuredPath(sessionId), Csv(raw))
      && result == if filterForDisplay then FilterForDisplay(Entries(raw), DefaultLevels) else Success(Entries(raw))
  {
    var raw := RawPath(sessionId);
    if raw in d.texts {
      var rows;
      result, rows := ParseSyslog(ReadLines(d.texts[raw]), filterForDisplay);
      d' := WriteTable(d, StructuredPath(sessionId), rows);
    } else {
      result, d' := Success([]), d;
    }
  }

  /** `main`: the device log captured by `idevicesyslog` during the capture
      window is the text `captured`; it replaces the raw file, which is then
      parsed. The raw file always exists by then, so the absent branch is
      never taken from here. */
  method RunSession(d: Disk, sessionId: string, filterForDisplay: bool, captured: string)
    returns (result: Result<seq<Entry>, KeyError>, d': Disk)
    ensures d' == WriteTable(WriteText(d, RawPath(sessionId), captured), StructuredPath(sessionId), Csv(captured))
    ensures result == if filterForDisplay then FilterForDisplay(Entries(captured), DefaultLevels)
                      else Success(Entries(captured))
  {
    var withRaw := WriteText(d, RawPath(sessionId), captured);
    result, d' := ParseIfPresent(withRaw, sessionId, filterForDisplay);
  }

  /** With the display filter on, a session whose capture holds one matching
      line fails with the missing key, after the structured file is written. */
  lemma DisplayFails(captured: string, i: nat)
    requires i < |ReadLines(captured)| && Match(ReadLines(captured)[i]).Some?
    ensures FilterForDisplay(Entries(captured), DefaultLevels) == Failure(KeyError("Log Level"))
  {
    MatchedNonEmpty(ReadLines(captured), i, Match);
    FilterFailsUnlessEmpty(Entries(captured), DefaultLevels);
  }
}
