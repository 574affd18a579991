/** The HTTP front end of `server.py`: session ids and artifact paths, the
    routing of GET requests, the per-platform capture slots with the session
    maps they share, the drain that buffers a capture's output and writes it
    to the raw file, and the hourly expiry sweep.

    The handlers are specified by pure steps on a `State` value; the class
    `Service` holds the module-level globals of the server as fields and its
    methods update them in place, each proved to take the step of its
    specification. Fresh session ids, the clock, what a capture process
    prints and what the device syslog holds are parameters. */
module Server {
  import opened Wrappers
  import opened Storage
  import Android
  import Ios

  type SessionId = string

  /** Timestamps in whole seconds. */
  type Time = int

  const LogsRawDir: Path := "data/raw"
  const LogsStructuredDir: Path := "data/structured"

  /** `timedelta(hours=1)` in seconds. */
  const RetentionSeconds: int := 3600

  // ---------------------------------------------------------------------------
  // Paths
  // ---------------------------------------------------------------------------

  /** `os.path.join(dir, name)` for one more component: an absolute name
      replaces the directory, otherwise a separator is put in when missing. */
  function Join(dir: Path, name: Path): Path {
    if |name| > 0 && name[0] == '/' then name
    else if dir == [] || dir[|dir| - 1] == '/' then dir + name
    else dir + "/" + name
  }

  /** The joined path ends with the name; a relative name is put after the
      directory, with one separator between them when the directory is not empty. */
  lemma JoinPlaces(dir: Path, name: Path)
    ensures var r := Join(dir, name);
      && |name| <= |r| && r[|r| - |name|..] == name
      && ((name == [] || name[0] != '/') ==>
            |dir| + |name| <= |r| <= |dir| + 1 + |name| && r[..|dir|] == dir)
      && ((name == [] || name[0] != '/') && dir != [] ==> |r| > |name| && r[|r| - |name| - 1] == '/')
  {
  }

  /** The raw path `generate_session_id` builds: the file `android.py` reads. */
  function RawPath(id: SessionId): (p: Path)
    ensures p == Android.RawPath(id)
  {
    var name := "logs_" + id + ".txt";
    assert LogsRawDir + "/" + name == "data/raw/logs_" + id + ".txt";
    Join(LogsRawDir, name)
  }

  /** The structured path `generate_session_id` and the download build: the
      file `android.py` writes. */
  function StructuredPath(id: SessionId): (p: Path)
    ensures p == Android.StructuredPath(id)
  {
    var name := "logs_structured_" + id + ".csv";
    assert LogsStructuredDir + "/" + name == "data/structured/logs_structured_" + id + ".csv";
    Join(LogsStructuredDir, name)
  }

  /** The server's artifact paths, raw and structured, never name a file
      of `ios.py`, and a raw path is never a structured one. */
  lemma PathsDiffer(id: SessionId, other: SessionId)
    ensures RawPath(id) != StructuredPath(other)
    ensures RawPath(id) != Ios.RawPath(other) && RawPath(id) != Ios.StructuredPath(other)
    ensures StructuredPath(id) != Ios.RawPath(other) && StructuredPath(id) != Ios.StructuredPath(other)
  {
    assert RawPath(id)[5] == 'r' && RawPath(id)[9] == 'l';
    assert StructuredPath(id)[5] == 's' && StructuredPath(id)[16] == 'l';
    assert Ios.RawPath(other)[5] == 'r' && Ios.RawPath(other)[9] == 'i';
    assert Ios.StructuredPath(other)[5] == 's' && Ios.StructuredPath(other)[16] == 'i';
  }

  /** `path.split('/')[-1]`: the text after the last slash, or all of the
      path when it has none. */
  function LastSegment(path: string): (r: string)
    ensures |r| <= |path| && r == path[|path| - |r|..]
    ensures '/' !in r
    ensures |r| == |path| || path[|path| - |r| - 1] == '/'
    decreases |path|
  {
    if path == [] || path[|path| - 1] == '/' then []
    else LastSegment(path[..|path| - 1]) + [path[|path| - 1]]
  }

  // ---------------------------------------------------------------------------
  // Routing
  // ---------------------------------------------------------------------------

  /** `str.startswith` */
  predicate StartsWith(s: string, prefix: string) {
    |prefix| <= |s| && s[..|prefix|] == prefix
  }

  datatype Route = AndroidStart | IosStart | AndroidStop | IosStop | Download | NotFound

  /** The branch of `do_GET` a request path takes: the first prefix that matches. */
  function RouteOf(path: string): Route {
    if StartsWith(path, "/android/start") then AndroidStart
    else if StartsWith(path, "/ios/start") then IosStart
    else if StartsWith(path, "/android/stop") then AndroidStop
    else if StartsWith(path, "/ios/stop") then IosStop
    else if StartsWith(path, "/download") then Download
    else NotFound
  }

  lemma PrefixChar(s: string, prefix: string, k: nat)
    requires k < |prefix|
    ensures StartsWith(s, prefix) ==> s[k] == prefix[k]
  {
    if StartsWith(s, prefix) {
      assert s[..|prefix|][k] == prefix[k];
    }
  }

  /** No path starts with two of the five prefixes, so the order in which
      they are tried does not matter: each route is taken exactly when its
      own prefix matches. */
  lemma RoutePrefixes(path: string)
    ensures RouteOf(path) == AndroidStart <==> StartsWith(path, "/android/start")
    ensures RouteOf(path) == IosStart <==> StartsWith(path, "/ios/start")
    ensures RouteOf(path) == AndroidStop <==> StartsWith(path, "/android/stop")
    ensures RouteOf(path) == IosStop <==> StartsWith(path, "/ios/stop")
    ensures RouteOf(path) == Download <==> StartsWith(path, "/download")
  {
    PrefixChar(path, "/android/start", 1);
    PrefixChar(path, "/android/start", 11);
    PrefixChar(path, "/android/stop", 1);
    PrefixChar(path, "/android/stop", 11);
    PrefixChar(path, "/ios/start", 1);
    PrefixChar(path, "/ios/start", 7);
    PrefixChar(path, "/ios/stop", 1);
    PrefixChar(path, "/ios/stop", 7);
    PrefixChar(path, "/download", 1);
  }

  // ---------------------------------------------------------------------------
  // State and replies
  // ---------------------------------------------------------------------------

  datatype Platform = AndroidDevice | IosDevice

  /** A capture slot (`logcat_process` / `ios_process`): empty, or running a
      capture whose drain writes to `rawPath`. */
  datatype Slot = Idle | Capturing(rawPath: Path)

  datatype Body =
    | Started(message: string, sessionId: SessionId)
    | AndroidLogs(logcat: seq<Android.Entry>)
    | IosLogs(syslog: seq<Ios.Entry>)
    | Message(text: string)
    | Attachment(filename: string)
    | NoBody

  /** A response with its status, or an exception that escaped the handler
      before any response was sent. */
  datatype Reply = Reply(status: int, body: Body) | Raised(error: Ios.KeyError)

  /** The server's globals and the files. */
  datatype State = State(
    android: Slot, ios: Slot,
    active: map<SessionId, Time>, saved: map<SessionId, Time>,
    disk: Disk)

  /** What a handler leaves behind and what it answers. */
  datatype Step = Step(next: State, reply: Reply)

  function SlotOf(s: State, p: Platform): Slot {
    if p == AndroidDevice then s.android else s.ios
  }

  function WithSlot(s: State, p: Platform, slot: Slot): State {
    if p == AndroidDevice then s.(android := slot) else s.(ios := slot)
  }

  function StartMessage(p: Platform, started: bool): string {
    match p
    case AndroidDevice => if started then "Logcat started" else "Logcat already running"
    case IosDevice => if started then "iOS syslog capture started" else "iOS syslog capture already running"
  }

  function StopRefusal(p: Platform): string {
    match p
    case AndroidDevice => "No active logcat process or invalid session ID."
    case IosDevice => "No active iOS process or invalid session ID."
  }

  // ---------------------------------------------------------------------------
  // The handlers as steps
  // ---------------------------------------------------------------------------

  /** `/android/start`, `/ios/start`: record the fresh session in both maps
      with the same time, and start a capture bound to its raw path only
      when none is running on that platform. */
  function StartStep(s: State, p: Platform, id: SessionId, now: Time): Step {
    var idle := SlotOf(s, p).Idle?;
    var booked := s.(active := s.active[id := now], saved := s.saved[id := now]);
    var next := if idle then WithSlot(booked, p, Capturing(RawPath(id))) else booked;
    Step(next, Reply(200, Started(StartMessage(p, idle), id)))
  }

  /** The answer of `/ios/stop` once `ios.main` has returned or raised. */
  function IosReply(r: Result<seq<Ios.Entry>, Ios.KeyError>): Reply {
    match r
    case Success(entries) => Reply(200, IosLogs(entries))
    case Failure(e) => Raised(e)
  }

  /** `/android/stop/<id>`, `/ios/stop/<id>`: refused unless the platform's
      slot is occupied and the id is active on either platform. Otherwise the
      capture ends: its drain writes what the capture printed to the raw path
      the slot is bound to; the slot empties and the id leaves the active map;
      then the platform's `main` runs for the id with the display filter on.
      For iOS that `main` first captures the device syslog again. */
  function StopStep(s: State, p: Platform, id: SessionId, emitted: seq<string>, captured: string): Step {
    var slot := SlotOf(s, p);
    if !(slot.Capturing? && id in s.active) then Step(s, Reply(200, Message(StopRefusal(p))))
    else
      var drained := WriteText(s.disk, slot.rawPath, Concat(emitted));
      MainStep(WithSlot(s, p, Idle).(active := s.active - {id}, disk := drained), p, id, captured)
  }

  /** The platform's `main` run for the id with the display filter on: Android
      parses its raw file if there is one; iOS captures the syslog to its own
      raw file and parses that. */
  function MainStep(s: State, p: Platform, id: SessionId, captured: string): Step {
    match p
    case AndroidDevice =>
      if Android.RawPath(id) in s.disk.texts then
        var raw := s.disk.texts[Android.RawPath(id)];
        Step(s.(disk := WriteTable(s.disk, Android.StructuredPath(id), Android.Csv(raw))),
             Reply(200, AndroidLogs(Android.Filter(Android.Entries(raw), Android.DefaultLevels))))
      else Step(s, Reply(200, AndroidLogs([])))
    case IosDevice =>
      var parsed := WriteTable(WriteText(s.disk, Ios.RawPath(id), captured), Ios.StructuredPath(id),
                               Ios.Csv(captured));
      Step(s.(disk := parsed), IosReply(Ios.FilterForDisplay(Ios.Entries(captured), Ios.DefaultLevels)))
  }

  /** `/download/<id>`: the structured file as an attachment, or 404. */
  function DownloadReply(d: Disk, id: SessionId): (r: Reply)
    ensures r.Reply? && (r.status == 200 <==> Exists(d, StructuredPath(id)))
    ensures r.status != 200 ==> r == Reply(404, Message("Log file not found."))
  {
    if Exists(d, StructuredPath(id)) then Reply(200, Attachment("logs_structured_" + id + ".csv"))
    else Reply(404, Message("Log file not found."))
  }

  /** `do_GET` */
  function HandleStep(s: State, path: string, freshId: SessionId, now: Time,
                      emitted: seq<string>, captured: string): Step {
    match RouteOf(path)
    case AndroidStart => StartStep(s, AndroidDevice, freshId, now)
    case IosStart => StartStep(s, IosDevice, freshId, now)
    case AndroidStop => StopStep(s, AndroidDevice, LastSegment(path), emitted, captured)
    case IosStop => StopStep(s, IosDevice, LastSegment(path), emitted, captured)
    case Download => Step(s, DownloadReply(s.disk, LastSegment(path)))
    case NotFound => Step(s, Reply(404, NoBody))
  }

  /** A session has expired when its age is strictly more than an hour. */
  predicate Expired(start: Time, now: Time) {
    now - start > RetentionSeconds
  }

  function ExpiredIds(saved: map<SessionId, Time>, now: Time): set<SessionId> {
    set id | id in saved && Expired(saved[id], now)
  }

  /** The raw and structured paths of the sessions. */
  function ArtifactPaths(ids: set<SessionId>): set<Path> {
    (set id | id in ids :: RawPath(id)) + (set id | id in ids :: StructuredPath(id))
  }

  function Survivors(saved: map<SessionId, Time>, now: Time): map<SessionId, Time> {
    map id | id in saved && !Expired(saved[id], now) :: saved[id]
  }

  /** `schedule_log_cleanup` at time `now`. */
  function SweepState(s: State, now: Time): State {
    s.(saved := Survivors(s.saved, now), disk := RemoveAll(s.disk, ArtifactPaths(ExpiredIds(s.saved, now))))
  }

  // ---------------------------------------------------------------------------
  // What the handlers guarantee
  // ---------------------------------------------------------------------------

  /** Start records the fresh id in both maps at the same time, leaves every
      other session and the files alone, and answers with that id whether or
      not a capture was already running. */
  lemma StartRegisters(s: State, p: Platform, id: SessionId, now: Time)
    ensures var r := StartStep(s, p, id, now);
      && id in r.next.active && id in r.next.saved
      && r.next.active[id] == now && r.next.saved[id] == r.next.active[id]
      && (forall k :: k != id ==> (k in r.next.active <==> k in s.active))
      && (forall k :: k != id && k in s.active ==> r.next.active[k] == s.active[k])
      && (forall k :: k != id ==> (k in r.next.saved <==> k in s.saved))
      && (forall k :: k != id && k in s.saved ==> r.next.saved[k] == s.saved[k])
      && r.next.disk == s.disk
      && r.reply.Reply? && r.reply.status == 200 && r.reply.body.Started? && r.reply.body.sessionId == id
  {
  }

  /** A running capture keeps its slot, raw path included; an empty slot is
      taken by the new session's raw path; the other platform's slot is
      untouched; the message says which happened. */
  lemma StartSlot(s: State, p: Platform, id: SessionId, now: Time)
    ensures var r := StartStep(s, p, id, now);
      && (SlotOf(s, p).Capturing? ==> SlotOf(r.next, p) == SlotOf(s, p))
      && (SlotOf(s, p).Idle? ==> SlotOf(r.next, p) == Capturing(Android.RawPath(id)))
      && (p == AndroidDevice ==> r.next.ios == s.ios)
      && (p == IosDevice ==> r.next.android == s.android)
      && r.reply.body.message == StartMessage(p, SlotOf(s, p).Idle?)
  {
  }

  /** Stop is refused exactly when the slot is empty or the id is not active. */
  lemma StopSucceedsIff(s: State, p: Platform, id: SessionId, emitted: seq<string>, captured: string)
    ensures StopStep(s, p, id, emitted, captured).reply != Reply(200, Message(StopRefusal(p)))
        <==> SlotOf(s, p).Capturing? && id in s.active
  {
  }

  /** A refused stop changes nothing. */
  lemma StopRefusedChangesNothing(s: State, p: Platform, id: SessionId, emitted: seq<string>, captured: string)
    requires !(SlotOf(s, p).Capturing? && id in s.active)
    ensures StopStep(s, p, id, emitted, captured).next == s
  {
  }

  /** A successful stop empties the slot, removes the id from the active map
      only, and leaves the other slot and the saved map as they were. */
  lemma StopSucceeds(s: State, p: Platform, id: SessionId, emitted: seq<string>, captured: string)
    requires SlotOf(s, p).Capturing? && id in s.active
    ensures var r := StopStep(s, p, id, emitted, captured);
      && SlotOf(r.next, p) == Idle
      && (p == AndroidDevice ==> r.next.ios == s.ios)
      && (p == IosDevice ==> r.next.android == s.android)
      && r.next.active == s.active - {id}
      && r.next.saved == s.saved
  {
  }

  /** After a successful stop the raw file of the session that started the
      capture holds exactly what the capture printed, in order. */
  lemma StopStoresDrained(s: State, p: Platform, id: SessionId, owner: SessionId,
                          emitted: seq<string>, captured: string)
    requires SlotOf(s, p) == Capturing(RawPath(owner)) && id in s.active
    ensures var d := StopStep(s, p, id, emitted, captured).next.disk;
      RawPath(owner) in d.texts && d.texts[RawPath(owner)] == Concat(emitted)
  {
    PathsDiffer(owner, id);
  }

  /** Stopping the session whose capture is running returns the matching
      lines it printed, filtered for display, and writes all of them to its
      structured file: the drain and the parse agree on the raw file as long
      as no printed line holds a carriage return, which reading the file back
      in text mode would turn into a line end. */
  lemma StopParsesCapture(s: State, id: SessionId, emitted: seq<string>, captured: string)
    requires s.android == Capturing(RawPath(id)) && id in s.active
    requires IsLines(emitted)
    requires forall i :: 0 <= i < |emitted| ==> '\r' !in emitted[i]
    ensures var r := StopStep(s, AndroidDevice, id, emitted, captured);
      var entries := Matched(emitted, Android.Match);
      && r.reply == Reply(200, AndroidLogs(Android.Filter(entries, Android.DefaultLevels)))
      && Android.StructuredPath(id) in r.next.disk.tables
      && r.next.disk.tables[Android.StructuredPath(id)] == [Android.Header] + Tabulate(entries, Android.Row)
  {
    ReadConcat(emitted);
  }

  /** With any matching line in the device syslog, `/ios/stop` raises the
      missing `Log Level` key instead of answering, after the slot, the
      active map and the files have already changed. */
  lemma IosStopRaises(s: State, id: SessionId, emitted: seq<string>, captured: string, i: nat)
    requires s.ios.Capturing? && id in s.active
    requires i < |ReadLines(captured)| && Ios.Match(ReadLines(captured)[i]).Some?
    ensures var r := StopStep(s, IosDevice, id, emitted, captured);
      && r.reply == Raised(Ios.KeyError("Log Level"))
      && r.next.ios == Idle && id !in r.next.active
      && r.next.disk.tables[Ios.StructuredPath(id)] == Ios.Csv(captured)
  {
    Ios.DisplayFails(captured, i);
  }

  /** Writing the iOS structured file never changes what `/download` finds. */
  lemma DownloadIgnoresIos(d: Disk, id: SessionId, other: SessionId, rows: Table)
    ensures DownloadReply(WriteTable(d, Ios.StructuredPath(other), rows), id) == DownloadReply(d, id)
  {
    PathsDiffer(id, other);
  }

  /** The sweep keeps every saved session no older than an hour, with its time. */
  lemma SweepKeepsRecent(s: State, now: Time, id: SessionId)
    requires id in s.saved && now - s.saved[id] <= RetentionSeconds
    ensures id in SweepState(s, now).saved && SweepState(s, now).saved[id] == s.saved[id]
  {
  }

  /** The sweep forgets every saved session older than an hour and deletes
      its raw and structured files. */
  lemma SweepRemovesExpired(s: State, now: Time, id: SessionId)
    requires id in s.saved && now - s.saved[id] > RetentionSeconds
    ensures id !in SweepState(s, now).saved
    ensures !Exists(SweepState(s, now).disk, RawPath(id))
    ensures !Exists(SweepState(s, now).disk, StructuredPath(id))
  {
    assert RawPath(id) in ArtifactPaths(ExpiredIds(s.saved, now));
    assert StructuredPath(id) in ArtifactPaths(ExpiredIds(s.saved, now));
  }

  /** The sweep never touches the slots or the active map, adds no session,
      and deletes no file other than those of expired sessions. */
  lemma SweepSparesTheRest(s: State, now: Time)
    ensures var r := SweepState(s, now);
      && r.android == s.android && r.ios == s.ios && r.active == s.active
      && (forall id :: id in r.saved ==> id in s.saved)
      && (forall p :: Exists(r.disk, p) <==> Exists(s.disk, p) && p !in ArtifactPaths(ExpiredIds(s.saved, now)))
  {
  }

  /** The files `ios.py` writes are never swept. */
  lemma SweepSparesIos(s: State, now: Time, other: SessionId)
    ensures Exists(s.disk, Ios.RawPath(other)) ==> Exists(SweepState(s, now).disk, Ios.RawPath(other))
    ensures Exists(s.disk, Ios.StructuredPath(other)) ==> Exists(SweepState(s, now).disk, Ios.StructuredPath(other))
  {
    forall id | id in ExpiredIds(s.saved, now)
      ensures RawPath(id) != Ios.RawPath(other) && StructuredPath(id) != Ios.RawPath(other)
      ensures RawPath(id) != Ios.StructuredPath(other) && StructuredPath(id) != Ios.StructuredPath(other)
    {
      PathsDiffer(id, other);
    }
  }

  /** A session started at t survives a sweep at t + 59 minutes and at
      exactly t + 1 hour, and is gone after a sweep at t + 61 minutes. */
  lemma SweepBoundary(s: State, id: SessionId, t: Time)
    requires id in s.saved && s.saved[id] == t
    ensures id in SweepState(s, t + 59 * 60).saved
    ensures id in SweepState(s, t + 60 * 60).saved
    ensures id !in SweepState(s, t + 61 * 60).saved
  {
  }

  const Initial: State := State(Idle, Idle, map[], map[], Disk(map[], map[]))

  /** Every saved session need not stay active, nor every active one saved:
      a capture still running after an hour is swept from the saved map
      while its id stays active. */
  lemma ActiveOutlivesSaved()
    ensures var s := SweepState(StartStep(Initial, AndroidDevice, "a", 0).next, 3601);
      "a" in s.active && "a" !in s.saved
  {
  }

  /** Stop takes any active id, not only the one whose capture runs: after
      starting "a" on Android and "b" on iOS, stopping Android with "b"
      ends the capture that writes to the raw file of "a" and parses the
      (absent) raw file of "b". */
  lemma StopTakesAnyActiveId(emitted: seq<string>, captured: string)
    ensures var s := StartStep(StartStep(Initial, AndroidDevice, "a", 0).next, IosDevice, "b", 1).next;
      var r := StopStep(s, AndroidDevice, "b", emitted, captured);
      && s.android == Capturing(RawPath("a"))
      && r.reply == Reply(200, AndroidLogs([]))
      && r.next.android == Idle && r.next.ios == Capturing(RawPath("b"))
      && "a" in r.next.active && "b" !in r.next.active
      && r.next.disk.texts[RawPath("a")] == Concat(emitted)
  {
    var s := StartStep(StartStep(Initial, AndroidDevice, "a", 0).next, IosDevice, "b", 1).next;
    assert RawPath("a")[14] == 'a' && RawPath("b")[14] == 'b';
    assert RawPath("b") !in WriteText(s.disk, RawPath("a"), Concat(emitted)).texts;
  }

  // ---------------------------------------------------------------------------
  // The drain
  // ---------------------------------------------------------------------------

  /** `capture_*_output`: each line the capture prints is written to a
      buffer, and the buffer's whole value is what goes to the raw file. */
  method Drain(lines: seq<string>) returns (content: string)
    ensures content == Concat(lines)
  {
    var buffer := "";
    for i := 0 to |lines|
      invariant buffer == Concat(lines[..i])
    {
      ConcatAppend(lines[..i], lines[i]);
      assert lines[..i + 1] == lines[..i] + [lines[i]];
      buffer := buffer + lines[i];
    }
    assert lines[..|lines|] == lines;
    content := buffer;
  }

  lemma ArtifactPathsAdd(ids: set<SessionId>, id: SessionId)
    ensures ArtifactPaths(ids + {id}) == ArtifactPaths(ids) + {RawPath(id)} + {StructuredPath(id)}
  {
  }

  /** Where the sweep's loop stands once it has visited every saved session
      but `pending`: `done` are the expired sessions among those visited,
      whose entries are gone from `kept` and whose files are gone from `files`. */
  ghost predicate SweptSoFar(entries: map<SessionId, Time>, now: Time, pending: set<SessionId>,
                             done: set<SessionId>, kept: map<SessionId, Time>, files: Disk, disk: Disk) {
    && pending <= entries.Keys
    && (forall id :: id in done <==> id in entries && id !in pending && Expired(entries[id], now))
    && (forall id :: id in kept <==> id in entries && id !in done)
    && (forall id :: id in kept ==> kept[id] == entries[id])
    && files == RemoveAll(disk, ArtifactPaths(done))
  }

  lemma SweepStarts(entries: map<SessionId, Time>, now: Time, disk: Disk)
    ensures SweptSoFar(entries, now, entries.Keys, {}, entries, disk, disk)
  {
    assert ArtifactPaths({}) == {};
    assert disk.texts - {} == disk.texts && disk.tables - {} == disk.tables;
  }

  /** Visiting one more session: an expired one is forgotten and its two
      files removed one after the other; a recent one is left alone. */
  lemma SweepVisits(entries: map<SessionId, Time>, now: Time, pending: set<SessionId>,
                    done: set<SessionId>, kept: map<SessionId, Time>, files: Disk, disk: Disk,
                    id: SessionId)
    requires SweptSoFar(entries, now, pending, done, kept, files, disk) && id in pending
    ensures Expired(entries[id], now) ==>
      SweptSoFar(entries, now, pending - {id}, done + {id}, kept - {id},
                 RemoveAll(RemoveAll(files, {RawPath(id)}), {StructuredPath(id)}), disk)
    ensures !Expired(entries[id], now) ==> SweptSoFar(entries, now, pending - {id}, done, kept, files, disk)
  {
    ArtifactPathsAdd(done, id);
    RemoveAllTwice(disk, ArtifactPaths(done), {RawPath(id)});
    RemoveAllTwice(disk, ArtifactPaths(done) + {RawPath(id)}, {StructuredPath(id)});
  }

  lemma SweepEnds(entries: map<SessionId, Time>, now: Time, done: set<SessionId>,
                  kept: map<SessionId, Time>, files: Disk, disk: Disk)
    requires SweptSoFar(entries, now, {}, done, kept, files, disk)
    ensures kept == Survivors(entries, now)
    ensures files == RemoveAll(disk, ArtifactPaths(ExpiredIds(entries, now)))
  {
    assert done == ExpiredIds(entries, now);
  }

  /** The loop of `schedule_log_cleanup`: walks a copy of the saved map,
      and for each expired session removes whichever of its two files exist
      and forgets it. */
  method SweepSessions(entries: map<SessionId, Time>, before: Disk, now: Time)
    returns (kept: map<SessionId, Time>, files: Disk)
    ensures kept == Survivors(entries, now)
    ensures files == RemoveAll(before, ArtifactPaths(ExpiredIds(entries, now)))
  {
    kept, files := entries, before;
    var pending := entries.Keys;
    ghost var done: set<SessionId> := {};
    SweepStarts(entries, now, before);
    while pending != {}
      invariant SweptSoFar(entries, now, pending, done, kept, files, before)
      decreases |pending|
    {
      var id :| id in pending;
      SweepVisits(entries, now, pending, done, kept, files, before, id);
      if Expired(entries[id], now) {
        files := RemoveAll(files, {RawPath(id)});
        files := RemoveAll(files, {StructuredPath(id)});
        kept := kept - {id};
        done := done + {id};
      }
      pending := pending - {id};
    }
    SweepEnds(entries, now, done, kept, files, before);
  }

  // ---------------------------------------------------------------------------
  // The server's globals
  // ---------------------------------------------------------------------------

  class Service {
    var android: Slot
    var ios: Slot
    var active: map<SessionId, Time>
    var saved: map<SessionId, Time>
    var disk: Disk

    function Snapshot(): State
      reads this
    {
      State(android, ios, active, saved, disk)
    }

    /** The server at start-up: no capture, no session, the given files. */
    constructor(d: Disk)
      ensures Snapshot() == Initial.(disk := d)
    {
      android, ios := Idle, Idle;
      active, saved := map[], map[];
      disk := d;
    }

    method Start(p: Platform, id: SessionId, now: Time) returns (reply: Reply)
      modifies this
      ensures Step(Snapshot(), reply) == StartStep(old(Snapshot()), p, id, now)
    {
      active := active[id := now];
      saved := saved[id := active[id]];
      var started;
      if p == AndroidDevice {
        started := android.Idle?;
        if started {
          android := Capturing(RawPath(id));
        }
      } else {
        started := ios.Idle?;
        if started {
          ios := Capturing(RawPath(id));
        }
      }
      reply := Reply(200, Started(StartMessage(p, started), id));
    }

    method Stop(p: Platform, id: SessionId, emitted: seq<string>, captured: string) returns (reply: Reply)
      modifies this
      ensures Step(Snapshot(), reply) == StopStep(old(Snapshot()), p, id, emitted, captured)
    {
      var slot := if p == AndroidDevice then android else ios;
      if slot.Capturing? && id in active {
        var content := Drain(emitted);
        disk := WriteText(disk, slot.rawPath, content);
        if p == AndroidDevice {
          android := Idle;
        } else {
          ios := Idle;
        }
        active := active - {id};
        assert Snapshot() == WithSlot(old(Snapshot()), p, Idle).(active := old(active) - {id},
                                                                disk := WriteText(old(disk), slot.rawPath, Concat(emitted)));
        reply := RunMain(p, id, captured);
      } else {
        reply := Reply(200, Message(StopRefusal(p)));
      }
    }

    method RunMain(p: Platform, id: SessionId, captured: string) returns (reply: Reply)
      modifies this
      ensures Step(Snapshot(), reply) == MainStep(old(Snapshot()), p, id, captured)
    {
      if p == AndroidDevice {
        var entries, d' := Android.RunSession(disk, id, true);
        disk := d';
        reply := Reply(200, AndroidLogs(entries));
      } else {
        var result, d' := Ios.RunSession(disk, id, true, captured);
        disk := d';
        reply := IosReply(result);
      }
    }

    /** `schedule_log_cleanup` at time `now`. */
    method Sweep(now: Time)
      modifies this
      ensures Snapshot() == SweepState(old(Snapshot()), now)
    {
      saved, disk := SweepSessions(saved, disk, now);
    }

    method HandleGet(path: string, freshId: SessionId, now: Time, emitted: seq<string>, captured: string)
      returns (reply: Reply)
      modifies this
      ensures Step(Snapshot(), reply) == HandleStep(old(Snapshot()), path, freshId, now, emitted, captured)
    {
      match RouteOf(path)
      case AndroidStart =>
        reply := Start(AndroidDevice, freshId, now);
      case IosStart =>
        reply := Start(IosDevice, freshId, now);
      case AndroidStop =>
        reply := Stop(AndroidDevice, LastSegment(path), emitted, captured);
      case IosStop =>
        reply := Stop(IosDevice, LastSegment(path), emitted, captured);
      case Download =>
        reply := DownloadReply(disk, LastSegment(path));
      case NotFound =>
        reply := Reply(404, NoBody);
    }
  }
}
