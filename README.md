# Mobile log capture service, modelled in Dafny

The system captures device logs for a mobile app session and turns them into
structured CSV files. A small HTTP server starts and stops a capture per
platform: `adb logcat` for Android, a syslog capture for iOS. Each capture
belongs to a session id and goes to a raw text file. On stop, the platform's
parser matches every raw line against a fixed regular expression. It writes the
matched records, one CSV row each, to a structured file, and returns the
records filtered for display. Structured files can be downloaded. A sweep
every five minutes forgets sessions older than an hour and deletes their files.

The project has six modules:

- `Wrappers` (wrappers.dfy): `Option` and `Result`.
- `Lex` (lex.dfy): ASCII character classes, greedy runs, and the backtracking
  of `\s+(.+?)D` (spaces, then a lazy group, then a delimiter).
- `Storage` (storage.dfy):
  - the file system as a map of text files plus a map of CSV tables;
  - writing text to a buffer, and reading a file back in text mode, where
    `\r\n` and a lone `\r` both end a line and read as `\n`;
  - the generic line-by-line parse loop `ReadMatches`.
- `Android` (android.dfy): the logcat grammar, the level filter, `parse_logcat`
  and `main`.
- `Ios` (ios.dfy): the syslog grammar, the filter that looks up a key the
  records never hold, `parse_syslog` and `main`.
- `Server` (server.dfy):
  - artifact paths, the session id taken from the request path, and routing;
  - each handler as a pure step on a `State` value;
  - the class `Service`, which holds the server's globals as fields;
  - the drain and the sweep.

Each grammar is modelled twice. `Shaped` reads the pattern without priorities:
any way of cutting the line into the pattern's parts. `Scan` makes the cut a
backtracking engine makes: runs are greedy, and the lazy group starts as late
as possible and ends as early as possible. `Scan` is proved sound and
complete: the matcher accepts exactly the lines that some cut fits. The
character classes are ASCII.

Every `Service` method is proved to take exactly the step of its pure
specification function (`StartStep`, `StopStep`, `MainStep`, `SweepState`,
`HandleStep`). The lemmas about those functions state what the server
promises.

Some behaviour of the code is kept as written:

- Both platforms share one map of active sessions. Stop accepts any active id,
  not only the one whose capture is running.
- The sweep removes sessions from the saved map only. So a session can be
  active without being saved.
- iOS records never hold a level, so the iOS display filter fails with a
  missing `Log Level` key as soon as one line matches.
- iOS `main` captures the device syslog again into its own `ios_logs_*` files.
  It does not read the file the server's drain wrote. Download and the sweep
  only ever look at the `logs_*` paths.

## Model

| member | source | states |
|---|---|---|
| Lex.Span | android.py:11 | a greedy run: every character of it is in the class and the next one is not |
| Lex.FirstDelim | ios.py:10 | the lazy `.*?`: the first reachable position where the delimiter matches, with no line feed crossed; None means no reachable position matches |
| Lex.LazyFrom | ios.py:10 | the lazy `.+?` from a fixed start: a non-empty newline-free group ending at the first delimiter; None means no end works |
| Lex.Backtrack | android.py:11 | trying the group's start from the end of the spaces downwards: the first fit found has no fit at any later start, and None means no start fits |
| Lex.LazyAfterSpaces | android.py:11 | `\s+(.+?)D`: the result fits the pattern, starts as late as possible and ends at the first delimiter; None means no reading of the pattern fits |
| Lex.SpanAt | android.py:11 | a run whose next character is outside the class is the greedy run |
| Lex.FirstDelimAt | ios.py:10 | the first reachable delimiter is the one FirstDelim finds |
| Storage.WriteText | server.py:144-146 | the path holds exactly the text; every other path, text or table, is as before |
| Storage.WriteTable | android.py:20-25 | the path holds exactly the rows; every other path is as before |
| Storage.RemoveAll | server.py:172-181 | exactly the given paths stop existing, and an absent path is skipped without error; every surviving file keeps its contents |
| Storage.RemoveAllTwice | server.py:172-181 | removing one set of paths, then another, is removing their union |
| Storage.ConcatAppend | server.py:140-142 | writing one more line to the buffer appends it to the buffer's text |
| Storage.Concat | server.py:140-146 | the text the StringIO buffer holds after the lines were written to it, in order; ConcatAppend states its step |
| Storage.SplitLines | android.py:27 | cutting a text after each line feed yields lines whose concatenation is the text, each ending in its only line feed except possibly the last |
| Storage.SplitConcat | android.py:27 | cutting the concatenation of such lines after each line feed gives back the same lines |
| Storage.Universal | android.py:20 | reading in text mode with universal newlines: the result holds no carriage return, is no longer than the text, and is the text itself when the text holds none |
| Storage.ReadLines | android.py:27 | iterating over a file opened in text mode: the lines concatenate to the translated text, each ends in its only line feed except possibly the last, and none holds a carriage return |
| Storage.ReadConcat | server.py:145-146 | writing lines without carriage returns to a file and reading it back in text mode gives back the same lines |
| Storage.ExampleCrLf | android.py:27 | `ab\r\ncd` is read as the lines `ab\n` and `cd` |
| Storage.ExampleLoneCr | android.py:27 | `a\rb\n` is read as the two lines `a\n` and `b\n` |
| Storage.Matched | android.py:27-43 | the records the `for line` loop collects: the matcher's value for each accepted line, in file order, never more records than lines; MatchedAppend, MatchedSkips and MatchedKeeps state its behaviour |
| Storage.MatchedAppend | android.py:27-43 | the records of two consecutive pieces of a file are the first piece's records followed by the second's |
| Storage.MatchedSkips | android.py:28-29 | a line the pattern rejects contributes nothing, and no error, wherever it stands |
| Storage.MatchedKeeps | android.py:28-43 | a line the pattern accepts contributes exactly its record, in its place |
| Storage.MatchedNonEmpty | ios.py:34-48 | one accepted line is enough for the record list to be non-empty |
| Storage.Tabulate | android.py:44 | one row per record, in record order |
| Storage.MatchedStep | android.py:27-43 | reading one more line appends that line's record when the matcher accepts it, and nothing otherwise |
| Storage.TabulateStep | android.py:44 | one more record adds exactly its row at the end |
| Storage.ReadMatches | android.py:27-44 | the loop collects the matched records in file order; the rows are the header, then one row per record |
| Android.Row | android.py:30-44 | the row has the 11 columns of the header, and column i holds the dictionary's value for header key i |
| Android.ScanHead | android.py:11 | the head `MM-DD\s+HH:MM:SS.mmm` is found where the greedy spaces end, or it cannot be laid at any hour position |
| Android.ScanNumbers | android.py:11 | the pid, tid and level runs found satisfy the `\s+\d+\s+\d+\s+[VDIWEFS]` part |
| Android.ScanTail | android.py:11 | the component, colon and content found satisfy `\s+(.+?)\s*:\s+(.*)`; no reading of `\s+(.+?)\s*:\s+` has a later component start; no earlier `\s*:\s+` follows a prefix of the component; the content starts after all the spaces and runs to the line's end |
| Android.Scan | android.py:11 | every cut the engine makes fits the pattern; the component starts as late as any reading allows and ends at the first `\s*:\s+` after that; the content is greedy |
| Android.Extract | android.py:30-42 | the dictionary of a cut: each field is the text of its group; ExtractHead and ShapedFields state what that text is |
| Android.ExtractHead | android.py:30-39 | the month and day joined by `-` are the line's first five characters, the clock fields joined by `:`, `:` and `.` are the clock text, and the level is the one letter at the level position |
| Android.Match | android.py:28-42 | `log_pattern.match(line)` and the dictionary built from it: the engine's cut, extracted; MatchIffShaped, MatchFields and ExampleMatch state its behaviour |
| Android.HeadFields | android.py:11 | from the head: month 01-12, day 01-31, hour 00-24, minute and second 00-59, three millisecond digits |
| Android.NumberFields | android.py:11 | pid and tid are digit runs, and the level is one of V, D, I, W, E, F, S |
| Android.TailFields | android.py:11 | the component is non-empty, and neither it nor the content holds a line feed |
| Android.ShapedFields | android.py:11 | every cut of a line into the pattern's parts gives fields with all the bounds above |
| Android.MatchFields | android.py:11 | every matched record obeys those bounds |
| Android.ColonAt | android.py:11 | spaces, then a colon and a space, put `\s*:\s+` at the start of the spaces |
| Android.ColonSpan | android.py:11 | where `\s*:\s+` starts, the greedy run of spaces ends at the colon, which a space follows |
| Android.TailTrimmed | android.py:11 | a component of two or more characters that stops at the first `\s*:\s+` does not end in whitespace |
| Android.CutTrimmed | android.py:11 | the same, read off the text of such a cut's component group |
| Android.MatchCut | android.py:28-42 | behind every match there is a cut that fits the pattern, has no earlier `\s*:\s+` and gives the entry's component |
| Android.ComponentTrimmed | android.py:11 | a matched component longer than one character never ends in whitespace |
| Android.HeadAtSpan | android.py:11 | the head can be laid only with the hour where the greedy spaces after the day end |
| Android.HeadScans | android.py:11 | wherever the head can be laid, the scan finds it there |
| Android.NumbersScan | android.py:11 | wherever the number part can be laid, the scan finds exactly those runs |
| Android.TailScans | android.py:11 | wherever the tail can be laid, the tail scan succeeds |
| Android.TailLatest | android.py:11 | any reading of the tail has its component start no later than the one the engine picks |
| Android.ShapedHead | android.py:11 | a cut's head is the one the scan finds |
| Android.ShapedNumbers | android.py:11 | a cut's numbers are the ones the scan finds |
| Android.StagesScan | android.py:11 | once the head, the numbers and the tail each scan from where the stage before ended, the whole scan succeeds |
| Android.ShapedStages | android.py:11 | for a line that a cut fits, the head scan and the number scan return that cut's positions and the tail scan succeeds |
| Android.ShapedScans | android.py:11 | a line that some cut fits is scanned successfully |
| Android.ShapedMatches | android.py:28 | a line that some cut fits is matched: the matcher misses no line the pattern accepts |
| Android.MatchIffShaped | android.py:28 | a line is matched if and only if the pattern can be laid over its start |
| Android.ExampleScan | android.py:11 | the positions of every group in `03-14 12:01:02.345 1234 5678 E ActivityManager: Crash detected` |
| Android.ExampleNumbers | android.py:11 | the pid, tid and level positions in the example line |
| Android.ExampleComponent | android.py:11 | the lazy component of the example line ends at its colon |
| Android.ExampleHead | android.py:11 | the hour of the example line starts after the single space at 5 |
| Android.ExampleLazy | android.py:11 | the lazy component of the example runs from 31 to the `: ` at 46 |
| Android.ExampleTail | android.py:11 | the component, colon and content positions in the example line |
| Android.ExampleDate | android.py:31-32 | the example's month and day fields are `03` and `14` |
| Android.ExampleClock | android.py:33-36 | the example's hour, minute, second and millisecond fields |
| Android.ExampleIds | android.py:37-39 | the example's pid, tid and level fields |
| Android.ExampleText | android.py:40-41 | the example's component and content fields |
| Android.ExampleMatch | android.py:30-42 | the example parses to 03, 14, 12, 01, 02, 345, 1234, 5678, E, ActivityManager, Crash detected |
| Android.Filter | android.py:14-16 | the result is an order-preserving subsequence of the input; every kept record's level is listed; every listed-level record is kept |
| Android.FilterAppend | android.py:14-16 | filtering a concatenation is concatenating the filtered parts |
| Android.FilterIdempotent | android.py:14-16 | filtering twice with the same levels is filtering once |
| Android.ParseLogcat | android.py:18-50 | the rows are the 11-column header plus one row per matched line in file order; the returned records are those matches, filtered only when asked, and filtering never touches the rows |
| Android.RunSession | android.py:52-62 | without a raw file: no records and no file written; with one: its structured file holds the header and all matches, and the records are the matches, filtered when asked |
| Android.RawPath | android.py:6 | `LOGS_RAW_TEMPLATE` with the session id filled in; Server.RawPath states that the server builds the same path |
| Android.StructuredPath | android.py:7 | `LOGS_STRUCTURED_TEMPLATE` with the session id filled in; Server.StructuredPath states that the server builds the same path |
| Ios.Row | ios.py:37-49 | the row has the 9 columns of the header, and column i holds the record's value for header key i |
| Ios.ScanTag | ios.py:10 | the tag found satisfies `\[\d+\]\s+<\w+>:\s+` |
| Ios.TagScans | ios.py:10 | wherever the tag can be laid, the scan reads exactly those runs |
| Ios.ScanHead | ios.py:10 | the head found satisfies `[A-Za-z]{3}\s+\d{2}\s+\d{2}:\d{2}:\d{2}` |
| Ios.ScanDevice | ios.py:10 | the device found is a non-empty non-space run after spaces, followed by whitespace or the end |
| Ios.ScanTail | ios.py:10 | the process, tag and content found satisfy the rest of the pattern; no reading of `\s+(.+?)` followed by a tag has a later process start; no tag starts strictly inside the process; the content runs to the line's end |
| Ios.ScanAfterProcess | ios.py:10 | after a tag the pid, `<`, level, greedy spaces and content lie where `\[(\d+)\]\s+<(\w+)>:\s+(.*)` puts them; the spaces are all taken and the content runs to the line's end |
| Ios.Scan | ios.py:10 | every cut the engine makes fits the pattern, with a maximal device; the process starts as late as any reading allows and ends at the first tag after that; the content is greedy |
| Ios.Extract | ios.py:37-47 | the dictionary of a cut: each field is the text of its group; ExtractHead and ShapedFields state what that text is |
| Ios.ExtractHead | ios.py:40-45 | the clock fields joined by colons are the line's clock text, and the pid is the text between the tag's brackets |
| Ios.Match | ios.py:35-47 | `log_pattern.match(line)` and the dictionary built from it: the engine's cut, extracted; MatchIffShaped, MatchFields and ExampleMatch state its behaviour |
| Ios.HeadFields | ios.py:10 | a three-letter month, then two digits each of day, hour, minute and second, no range check |
| Ios.DeviceFields | ios.py:10 | the device is non-empty and holds no whitespace |
| Ios.TailFields | ios.py:10 | the process is non-empty and has no line feed, the pid is a digit run, and the content has no line feed |
| Ios.ShapedFields | ios.py:10 | every cut of a line into the pattern's parts gives fields with all the bounds above |
| Ios.MatchFields | ios.py:35-47 | every matched record obeys those bounds |
| Ios.HeadScans | ios.py:10 | wherever the head can be laid, the scan finds it there |
| Ios.DeviceScans | ios.py:10 | a maximal device where a cut puts it is the one the scan finds |
| Ios.TailScans | ios.py:10 | wherever the tail can be laid, the tail scan succeeds |
| Ios.TailLatest | ios.py:10 | any reading of the tail has its process start no later than the one the engine picks |
| Ios.DeviceMaximal | ios.py:10 | in any cut, the device is the maximal non-space run |
| Ios.ShapedDevice | ios.py:10 | a cut's device is the one the scan finds |
| Ios.ShapedTail | ios.py:10 | after a cut's device, the tail scan succeeds |
| Ios.ShapedHead | ios.py:10 | a cut's head is the one the scan finds |
| Ios.StagesScan | ios.py:10 | once the head, the device and the tail each scan from where the stage before ended, the whole scan succeeds |
| Ios.ShapedScans | ios.py:10 | a line that some cut fits is scanned successfully |
| Ios.ShapedMatches | ios.py:35 | the matcher misses no line the pattern accepts |
| Ios.MatchIffShaped | ios.py:35 | a line is matched if and only if the pattern can be laid over its start |
| Ios.ExampleHead | ios.py:10 | the day and hour positions of `Jun 05 08:00:00 iPhone SpringBoard[99] <Notice>: App launched` |
| Ios.ExampleDevice | ios.py:10 | the device positions of the example line |
| Ios.ExampleTagParts | ios.py:10 | the tag positions of the example line |
| Ios.ExampleNoTagBefore | ios.py:10 | no tag starts inside the example's process |
| Ios.ExampleTag | ios.py:10 | the lazy process of the example stops at its tag |
| Ios.ExampleTail | ios.py:10 | the process, tag and content positions of the example |
| Ios.ExampleSlices | ios.py:38-45 | the example's month, day, clock, device and pid fields |
| Ios.ExampleText | ios.py:44-46 | the example's process and content fields |
| Ios.ExampleMatch | ios.py:37-47 | the example parses to Jun, 05, 08, 00, 00, iPhone, SpringBoard, 99, App launched, and the Notice level is stored nowhere |
| Ios.NoLevelKey | ios.py:37-47 | a record has no `Log Level` key |
| Ios.FilterForDisplay | ios.py:22-24 | the comprehension succeeds if and only if every record has a `Log Level` key, and a failure is the KeyError for that key |
| Ios.FilterFailsUnlessEmpty | ios.py:22-24 | the display filter succeeds if and only if there are no records, and then returns none; otherwise it fails with a KeyError for `Log Level` |
| Ios.ParseSyslog | ios.py:26-54 | the rows are the 9-column header plus one row per matched line in file order; the result is the matches, or the filter's outcome on them when asked |
| Ios.ParseIfPresent | ios.py:62-66 | without a raw file: no records and no file written; with one: its structured file and the records or the filter's failure |
| Ios.RunSession | ios.py:56-66 | the captured syslog becomes the `ios_logs_` raw file, its parse becomes the structured file, and the result is the parse, filtered when asked |
| Ios.RawPath | ios.py:6 | `LOGS_RAW_TEMPLATE` with the session id filled in; Server.PathsDiffer states that no server path is one of these |
| Ios.StructuredPath | ios.py:7 | `LOGS_STRUCTURED_TEMPLATE` with the session id filled in; Server.PathsDiffer states that no server path is one of these |
| Ios.DisplayFails | ios.py:51-52 | with the display filter on, one matching line of the capture makes `main` fail with the missing `Log Level` key |
| Server.Join | server.py:29 | `os.path.join(dir, name)` for one component; JoinPlaces states where the parts end up |
| Server.JoinPlaces | server.py:29-30 | the joined path ends with the name, and a relative name follows the directory with exactly one `/` between them when the directory is not empty |
| Server.RouteOf | server.py:36-136 | the branch of `do_GET` taken: the first of the five prefixes that the path starts with; RoutePrefixes states that at most one matches |
| Server.StartStep | server.py:36-73 | the start step on the globals; StartRegisters and StartSlot state its effect |
| Server.StopStep | server.py:75-115 | the stop step on the globals; StopSucceedsIff, StopRefusedChangesNothing, StopSucceeds, StopStoresDrained and StopParsesCapture state its effect |
| Server.MainStep | server.py:84-85 | the platform's `main` run with the display filter on; StopParsesCapture and IosStopRaises state its effect |
| Server.HandleStep | server.py:34-136 | `do_GET`: the step of the route the path selects, with the id taken from its last segment |
| Server.SweepState | server.py:164-184 | `schedule_log_cleanup` at a given time; SweepKeepsRecent, SweepRemovesExpired, SweepSparesTheRest and SweepSparesIos state its effect |
| Server.RawPath | server.py:29 | the server's raw path of a session is the file the Android parser reads |
| Server.StructuredPath | server.py:30 | the server's structured path of a session is the file the Android parser writes |
| Server.PathsDiffer | server.py:27-31 | a raw path is never a structured path, and no server path is ever an iOS artifact path |
| Server.LastSegment | server.py:76 | the id is a suffix of the path with no slash in it, preceded by a slash or spanning the whole path |
| Server.PrefixChar | server.py:36 | a string that starts with a prefix agrees with it at each position |
| Server.RoutePrefixes | server.py:36-136 | each of the five routes is taken if and only if its own prefix matches: no path matches two of them |
| Server.DownloadReply | server.py:117-132 | status 200 if and only if the structured file exists; otherwise 404 with `Log file not found.` |
| Server.StartRegisters | server.py:37-39 | start records the fresh id in both maps with the same time, changes no other session and no file, and answers 200 with that id |
| Server.StartSlot | server.py:41-48 | a running capture keeps its slot and raw path; an empty slot is bound to the new session's raw path; the other platform is untouched; the message says which |
| Server.StopSucceedsIff | server.py:77 | stop is accepted if and only if the platform's slot is busy and the id is active on either platform |
| Server.StopRefusedChangesNothing | server.py:88-89 | a refused stop leaves the whole state unchanged |
| Server.StopSucceeds | server.py:81-82 | an accepted stop empties the slot and removes the id from the active map only; the other slot and the saved map stay as before |
| Server.StopStoresDrained | server.py:138-146 | after an accepted stop, the raw file of the session that started the capture holds exactly the concatenated emitted lines |
| Server.StopParsesCapture | server.py:84-87 | stopping the capture's own session, whose printed lines hold no carriage return, answers with the matching printed lines, filtered, and writes all of them to its structured file |
| Server.IosStopRaises | server.py:105-106 | one matching syslog line makes `/ios/stop` raise after the slot, the active map and the files have changed |
| Server.DownloadIgnoresIos | server.py:119-121 | writing an iOS structured file never changes what download answers |
| Server.SweepKeepsRecent | server.py:168 | a session at most one hour old survives the sweep with its time |
| Server.SweepRemovesExpired | server.py:168-182 | a session more than one hour old is forgotten, and its raw and structured files no longer exist |
| Server.SweepSparesTheRest | server.py:164-184 | the sweep leaves the slots and the active map alone, adds no session, and deletes only expired sessions' files |
| Server.SweepSparesIos | server.py:169-181 | the sweep never deletes an iOS artifact |
| Server.SweepBoundary | server.py:165-168 | a session survives a sweep 59 and 60 minutes after its start and is gone after 61 minutes |
| Server.ActiveOutlivesSaved | server.py:182 | a capture still running after an hour is swept from the saved map while staying active |
| Server.StopTakesAnyActiveId | server.py:77-85 | stopping Android with the iOS session's id ends the Android capture, drains it into the other session's raw file, and answers with no records |
| Server.Drain | server.py:138-146 | the text written to the raw file is the concatenation of the emitted lines in order |
| Server.ArtifactPathsAdd | server.py:169-170 | one more session adds exactly its raw and structured paths |
| Server.SweepStarts | server.py:167 | before the loop, nothing has been visited, removed or deleted |
| Server.SweepVisits | server.py:168-184 | visiting an expired session forgets it and deletes its two files in turn; visiting a recent one changes nothing |
| Server.SweepEnds | server.py:167 | once every session is visited, the survivors are the sessions at most an hour old and the deleted files are the expired sessions' paths |
| Server.SweepSessions | server.py:164-184 | the loop leaves exactly the sessions at most an hour old and deletes exactly the expired sessions' files |
| Server.Service.constructor | server.py:17-25 | the server starts with both slots empty, both maps empty and the given files |
| Server.Service.Start | server.py:37-68 | the globals take exactly the start step |
| Server.Service.Stop | server.py:75-110 | the globals take exactly the stop step |
| Server.Service.RunMain | server.py:84-85 | the files take exactly the step of the platform's `main` with the display filter on |
| Server.Service.Sweep | server.py:164-184 | the saved map and the files take exactly the sweep's step |
| Server.Service.HandleGet | server.py:34-136 | the globals take exactly the step of the route the path selects |

## Left out

- HTTP plumbing is not modelled: `send_response`, headers, JSON encoding, streaming the CSV file (`shutil.copyfileobj`) and `run`. A reply is its status and a summary of its body.
- Subprocesses (`adb logcat`, `python ios.py`, `idevicesyslog`) and their `terminate`/`wait`/timeout handling are not modelled. The lines a capture prints (`emitted`) and the text `ios.capture_syslog` captures (`captured`) are parameters.
- Threads are not modelled: the drain thread, `join`, and the scheduler loop with its five-minute period. The drain's effect is applied when stop runs, and the sweep is one call given `now`.
- `uuid.uuid4` and `datetime.now` are parameters. Times are whole seconds.
- UTF-8 decoding with replacement, CSV quoting and `os.makedirs` are not modelled. Files hold strings, and tables hold rows of field strings.
- Lex: `\s`, `\d` and `\w` are ASCII only. Python's Unicode classes also accept other whitespace, digits and letters.
- Console logging (`print` in android.py, ios.py and server.py) is not modelled: it changes no state and no reply.
- Server.StopParsesCapture: promises the round trip only for printed lines without a carriage return. The drain splits the capture's output at `\n` only, but the parser reads the raw file in text mode, so a `\r` inside a printed line ends a line there; Android.Entries and Storage.ReadLines model that read, but the lemma does not state its outcome for such lines.
- The `__main__` blocks of android.py, ios.py and server.py are not modelled.
- Exceptions inside the drain thread (its `except` branch) are not modelled; the write always succeeds.
- Android.RunSession, Ios.ParseIfPresent: the existence check looks for a raw text file. The model never writes a table at a raw path, so this matches `os.path.exists`.
