/** The client side of the R worker process: classifying plumber's HTTP
    responses, reading the worker's output streams, validating variable names,
    and the Start/Stop lifecycle of the Rscript process and its HTTP session.
    The operating system, the HTTP transport and the timing are oracles: each
    method takes, as parameters, the outcomes those calls would have had. */
module RWorker {
  import opened Wrappers
  import opened PyStr
  import opened PyDict
  import opened MongoCodec

  /** The exceptions the client raises. */
  datatype RError =
    | FromR(message: string)              // HTTP 500 carrying R's own error message
    | CstLineNotStr                       // `rstrip` on a call stack entry that is not a str: an AttributeError
    | HttpStatus(code: int, reason: string)
    | JsonParseError                      // the JSON body did not parse
    | FeatherParseError                   // the feather body did not read as a table
    | UnknownContentType(contentType: string)
    | ValueError(message: string)
    | EncodeError(message: string)        // `json.dumps` refused the value
    | RscriptNotFound(message: string)
    | SpawnFailed
    | LoggingThreadFailed
    | StartupTimeout
    | StartupPending                      // the wait observations ended before the worker was ready
    | ExitedUnexpectedly(exitCode: int)
    | NameError                           // an undefined name evaluated at run time
    | NoSession                           // `None.post(...)`: an AttributeError

  // ---------------------------------------------------------------------------
  // `_ProcessResponse`.

  /** What the client sees of a plumber response. `body` is the body parsed as
      JSON (`None` when it is not JSON), `table` the body read as a feather
      table (`None` when pyarrow cannot read it). */
  datatype Response = Response(status: int, reason: string, contentType: Option<string>,
                               body: Option<Json>, table: Option<nat>)

  const JsonType: string := "application/json"
  const ArrowType: string := "application/vnd.apache.arrow.file"
  const FeatherType: string := "application/x-feather"

  /** R's error message: the body is a JSON object whose `"message"` (its last
      value, as Python's dict keeps it) is a string. */
  function RMessage(resp: Response): Option<string> {
    if resp.body.Some? && resp.body.value.JObj? then
      var m := Get(FromPairs(resp.body.value.members), "message");
      if m.Some? && m.value.JStr? then Some(m.value.s) else None
    else None
  }

  /** The call stack tree R sent with its error: the body's last `"cst"`
      value, when it is a JSON array. */
  function CallStackTree(resp: Response): Option<seq<Json>> {
    if resp.body.Some? && resp.body.value.JObj? then
      var c := Get(FromPairs(resp.body.value.members), "cst");
      if c.Some? && c.value.JArr? then Some(c.value.items) else None
    else None
  }

  /** Every entry of the call stack tree, if there is one, is a string, so
      each can be `rstrip`ped when it is logged. */
  predicate CallStackIsText(resp: Response) {
    CallStackTree(resp).None? || forall i :: 0 <= i < |CallStackTree(resp).value| ==> CallStackTree(resp).value[i].JStr?
  }

  /** Only a 200 response yields a value. A 500 that carries R's message
      raises exactly that message, unless logging its call stack tree meets
      an entry that is not a string, which raises first; every other non-200
      status is a status error. */
  function ProcessResponse(resp: Response, parseReturnValue: bool, defaultOffset: int): (r: Result<PyVal, RError>)
    ensures r.Ok? ==> resp.status == 200
    ensures r.Err? && r.error.FromR? <==> resp.status == 500 && RMessage(resp).Some? && CallStackIsText(resp)
    ensures r.Err? && r.error.FromR? ==> r.error == FromR(RMessage(resp).value)
    ensures r == Err(CstLineNotStr) <==> resp.status == 500 && RMessage(resp).Some? && !CallStackIsText(resp)
    ensures r == Err(HttpStatus(resp.status, resp.reason)) <==> resp.status != 200 && !(resp.status == 500 && RMessage(resp).Some?)
  {
    if resp.status == 500 && RMessage(resp).Some? then
      if CallStackIsText(resp) then Err(FromR(RMessage(resp).value)) else Err(CstLineNotStr)
    else if resp.status != 200 then Err(HttpStatus(resp.status, resp.reason))
    else if !parseReturnValue then Ok(PNone)
    else if resp.contentType == Some(JsonType) then
      if resp.body.Some? then Ok(Decode(resp.body.value, defaultOffset)) else Err(JsonParseError)
    else if resp.contentType == Some(ArrowType) || resp.contentType == Some(FeatherType) then
      if resp.table.Some? then Ok(PTable(resp.table.value)) else Err(FeatherParseError)
    else if resp.contentType.Some? then Err(UnknownContentType(resp.contentType.value))
    else Ok(PNone)
  }

  /** A 200 response: nothing is parsed unless asked for, JSON is decoded with the
      mongo decoder (a body that does not parse raises), an Arrow or feather
      body becomes its table (one that does not read raises), an unknown type
      raises naming it, and a missing Content-Type yields None. */
  lemma ProcessResponseSuccess(resp: Response, parse: bool, defaultOffset: int)
    requires resp.status == 200
    ensures !parse ==> ProcessResponse(resp, parse, defaultOffset) == Ok(PNone)
    ensures parse && resp.contentType.None? ==> ProcessResponse(resp, parse, defaultOffset) == Ok(PNone)
    ensures parse && resp.contentType == Some(JsonType) && resp.body.Some? ==>
      ProcessResponse(resp, parse, defaultOffset) == Ok(Decode(resp.body.value, defaultOffset))
    ensures parse && resp.contentType == Some(JsonType) && resp.body.None? ==>
      ProcessResponse(resp, parse, defaultOffset) == Err(JsonParseError)
    ensures parse && (resp.contentType == Some(ArrowType) || resp.contentType == Some(FeatherType)) && resp.table.Some? ==>
      ProcessResponse(resp, parse, defaultOffset) == Ok(PTable(resp.table.value))
    ensures parse && (resp.contentType == Some(ArrowType) || resp.contentType == Some(FeatherType)) && resp.table.None? ==>
      ProcessResponse(resp, parse, defaultOffset) == Err(FeatherParseError)
    ensures parse && resp.contentType.Some? && resp.contentType.value !in {JsonType, ArrowType, FeatherType} ==>
      ProcessResponse(resp, parse, defaultOffset) == Err(UnknownContentType(resp.contentType.value))
    ensures parse && resp.contentType.Some? ==>
      (ProcessResponse(resp, parse, defaultOffset).Ok? <==>
        (resp.contentType == Some(JsonType) && resp.body.Some?)
        || ((resp.contentType == Some(ArrowType) || resp.contentType == Some(FeatherType)) && resp.table.Some?))
  {
  }

  /** A request whose return value is not parsed yields None when it succeeds. */
  lemma UnparsedResponse(resp: Response, defaultOffset: int)
    ensures ProcessResponse(resp, false, defaultOffset).Ok? ==> ProcessResponse(resp, false, defaultOffset) == Ok(PNone)
  {
    if resp.status == 200 {
      ProcessResponseSuccess(resp, false, defaultOffset);
    }
  }

  /** A JSON 500 body that is not an object, or whose message is not a string, is a plain status error. */
  lemma Process500WithoutMessage(resp: Response, parse: bool, defaultOffset: int)
    requires resp.status == 500 && resp.body.Some? && resp.body.value.JObj?
    requires forall i :: 0 <= i < |resp.body.value.members| ==> resp.body.value.members[i].0 != "message"
    ensures ProcessResponse(resp, parse, defaultOffset) == Err(HttpStatus(500, resp.reason))
  {
    var ms := resp.body.value.members;
    UpdateGet([], ms, "message");
    LastValueSome(ms, "message");
  }

  // ---------------------------------------------------------------------------
  // Variable names.

  /** The check `__getitem__`, `__setitem__` and `__delitem__` make before
      anything else: a `str` that is not blank; the name sent is the stripped key. */
  function ValidateKey(key: PyVal): (r: Result<string, RError>)
    ensures r.Ok? <==> key.PStr? && |Strip(key.s)| > 0
    ensures r.Ok? ==> r.value == Strip(key.s)
  {
    if key.PStr? && |Strip(key.s)| > 0 then Ok(Strip(key.s))
    else Err(ValueError("key must be a str with length > 0"))
  }

  /** The name sent is non-blank, has no surrounding whitespace, lies inside the
      key, and is accepted unchanged when used as a key itself. */
  lemma ValidateKeyName(key: PyVal)
    requires ValidateKey(key).Ok?
    ensures var n := ValidateKey(key).value;
            |n| > 0 && !IsSpace(n[0]) && !IsSpace(n[|n| - 1])
            && (exists i, j :: 0 <= i <= j <= |key.s| && n == key.s[i..j])
            && ValidateKey(PStr(n)) == Ok(n)
  {
    var n := Strip(key.s);
    StripIsContained(key.s);
    StripIdempotent(key.s);
    assert n == RStrip(LStrip(key.s));
    var l := LStrip(key.s);
    assert n == l[..|n|];
    assert n[0] == l[0];
  }

  // ---------------------------------------------------------------------------
  // `_LogStream`: one output stream of the worker.

  datatype LogLevel = Debug | Info | Warning
  datatype LogRecord = LogRecord(level: LogLevel, message: string)

  datatype LineKind =
    | PlumberReady
    | InstallingPackages
    | SwaggerDocs
    | DebugLine(rest: string)
    | Other(line: string)

  const ReadyPrefix: string := "Running plumber API at"
  const InstallingPrefix: string := "INSTALLING_R_PACKAGES"
  const SwaggerPrefix: string := "Running swagger Docs at"
  const DebugPrefix: string := "DEBUG:"

  /** A line with its trailing whitespace removed, compared with the prefixes
      in order. No line starts with two of them, so each kind is exactly the
      lines starting with its own prefix. */
  function ClassifyLine(raw: string): (k: LineKind)
    ensures k == PlumberReady <==> StartsWith(RStrip(raw), ReadyPrefix)
    ensures k == InstallingPackages <==> StartsWith(RStrip(raw), InstallingPrefix)
    ensures k == SwaggerDocs <==> StartsWith(RStrip(raw), SwaggerPrefix)
    ensures k.DebugLine? <==> StartsWith(RStrip(raw), DebugPrefix)
    ensures k.DebugLine? ==> RStrip(raw) == DebugPrefix + k.rest
    ensures k.Other? <==> !StartsWith(RStrip(raw), ReadyPrefix) && !StartsWith(RStrip(raw), InstallingPrefix)
                          && !StartsWith(RStrip(raw), SwaggerPrefix) && !StartsWith(RStrip(raw), DebugPrefix)
    ensures k.Other? ==> k.line == RStrip(raw)
  {
    var line := RStrip(raw);
    PrefixesExclusive(line);
    if StartsWith(line, ReadyPrefix) then PlumberReady
    else if StartsWith(line, InstallingPrefix) then InstallingPackages
    else if StartsWith(line, SwaggerPrefix) then SwaggerDocs
    else if StartsWith(line, DebugPrefix) then DebugLine(line[6..])
    else Other(line)
  }

  lemma PrefixChar(line: string, p: string, i: nat)
    requires StartsWith(line, p) && i < |p|
    ensures line[i] == p[i]
  {
    assert line[..|p|][i] == line[i];
  }

  /** The four prefixes differ in their first or ninth character. */
  lemma PrefixesExclusive(line: string)
    ensures StartsWith(line, ReadyPrefix) ==>
      !StartsWith(line, InstallingPrefix) && !StartsWith(line, SwaggerPrefix) && !StartsWith(line, DebugPrefix)
    ensures StartsWith(line, InstallingPrefix) ==> !StartsWith(line, SwaggerPrefix) && !StartsWith(line, DebugPrefix)
    ensures StartsWith(line, SwaggerPrefix) ==> !StartsWith(line, DebugPrefix)
  {
    if StartsWith(line, ReadyPrefix) {
      PrefixChar(line, ReadyPrefix, 0);
      PrefixChar(line, ReadyPrefix, 8);
      if StartsWith(line, SwaggerPrefix) { PrefixChar(line, SwaggerPrefix, 8); }
    }
    if StartsWith(line, InstallingPrefix) {
      PrefixChar(line, InstallingPrefix, 0);
    }
    if StartsWith(line, SwaggerPrefix) {
      PrefixChar(line, SwaggerPrefix, 0);
    }
  }

  datatype ReaderState = ReaderState(ready: bool, installing: bool, log: seq<LogRecord>)

  /** The record one decoded line adds to the log: a "DEBUG:" line at debug
      level as "R:" and the rest, any line of no other kind whole at the
      stream's level, and none for the three announcement lines. */
  function RecordsOf(raw: string, level: LogLevel): seq<LogRecord> {
    match ClassifyLine(raw)
    case DebugLine(rest) => [LogRecord(Debug, "R:" + rest)]
    case Other(line) => [LogRecord(level, line)]
    case _ => []
  }

  /** The records a sequence of decoded lines adds, in order. */
  function Records(raws: seq<string>, level: LogLevel): seq<LogRecord> {
    if raws == [] then [] else RecordsOf(raws[0], level) + Records(raws[1..], level)
  }

  /** The lines decoded before the end of the stream or the first line that
      is not UTF-8. */
  function DecodedPrefix(lines: seq<Option<string>>): (r: seq<string>)
    ensures |r| <= |lines| && (|r| < |lines| ==> lines[|r|].None?)
    ensures forall i :: 0 <= i < |r| ==> lines[i] == Some(r[i])
  {
    if lines == [] || lines[0].None? then [] else [lines[0].value] + DecodedPrefix(lines[1..])
  }

  /** The effect of one decoded line: the ready line sets Ready and ends an
      installation, the installing line starts one, and the line's record, if
      any, is appended. */
  function Step(s: ReaderState, raw: string, level: LogLevel): (r: ReaderState)
    ensures r.ready <==> s.ready || ClassifyLine(raw) == PlumberReady
    ensures r.installing <==> ClassifyLine(raw) == InstallingPackages || (s.installing && ClassifyLine(raw) != PlumberReady)
    ensures r.log == s.log + RecordsOf(raw, level)
  {
    match ClassifyLine(raw)
    case PlumberReady => s.(installing := false, ready := true)
    case InstallingPackages => s.(installing := true)
    case SwaggerDocs => assert s.log + [] == s.log; s
    case DebugLine(rest) => s.(log := s.log + [LogRecord(Debug, "R:" + rest)])
    case Other(line) => s.(log := s.log + [LogRecord(level, line)])
  }

  /** The lines read until the end of the stream or the first line that is not
      UTF-8 (`None`), whose decoding error ends the loop. */
  function Consume(s: ReaderState, lines: seq<Option<string>>, level: LogLevel): ReaderState
    decreases |lines|
  {
    if lines == [] || lines[0].None? then s else Consume(Step(s, lines[0].value, level), lines[1..], level)
  }

  /** The whole reader: the lines, then the installing flag cleared on the way
      out. Ready is set exactly when it was already, or a decoded line announces
      the plumber API; the log gains exactly the records of the decoded lines. */
  function ReadStream(s: ReaderState, lines: seq<Option<string>>, level: LogLevel): (r: ReaderState)
    ensures !r.installing
    ensures r.ready <==> s.ready || exists k :: ReadyLineAt(lines, k)
    ensures r.log == s.log + Records(DecodedPrefix(lines), level)
  {
    ConsumeReady(s, lines, level);
    ConsumeLog(s, lines, level);
    Consume(s, lines, level).(installing := false)
  }

  /** `k` is the index of a decoded "ready" line, with every line up to it decoded. */
  predicate ReadyLineAt(lines: seq<Option<string>>, k: int) {
    0 <= k < |lines| && (forall j :: 0 <= j <= k ==> lines[j].Some?) && ClassifyLine(lines[k].value) == PlumberReady
  }

  lemma {:induction false} ConsumeReady(s: ReaderState, lines: seq<Option<string>>, level: LogLevel)
    ensures Consume(s, lines, level).ready <==> s.ready || exists k :: ReadyLineAt(lines, k)
    decreases |lines|
  {
    if lines != [] && lines[0].Some? {
      ConsumeReady(Step(s, lines[0].value, level), lines[1..], level);
      ReadyLineShift(lines);
    }
  }

  lemma {:induction false} ConsumeLog(s: ReaderState, lines: seq<Option<string>>, level: LogLevel)
    ensures Consume(s, lines, level).log == s.log + Records(DecodedPrefix(lines), level)
    decreases |lines|
  {
    if lines == [] || lines[0].None? {
      assert s.log + [] == s.log;
    } else {
      var t := Step(s, lines[0].value, level);
      var head, rest := RecordsOf(lines[0].value, level), Records(DecodedPrefix(lines[1..]), level);
      assert Consume(s, lines, level).log == t.log + rest by {
        ConsumeLog(t, lines[1..], level);
      }
      assert Records(DecodedPrefix(lines), level) == head + rest by {
        RecordsOfDecoded(lines, level);
      }
      assert (s.log + head) + rest == s.log + (head + rest);
    }
  }

  lemma RecordsOfDecoded(lines: seq<Option<string>>, level: LogLevel)
    requires lines != [] && lines[0].Some?
    ensures Records(DecodedPrefix(lines), level) == RecordsOf(lines[0].value, level) + Records(DecodedPrefix(lines[1..]), level)
  {
    var d := DecodedPrefix(lines);
    assert d[0] == lines[0].value && d[1..] == DecodedPrefix(lines[1..]);
  }

  /** A decoded first line is the ready line, or the ready line comes later. */
  lemma ReadyLineShift(lines: seq<Option<string>>)
    requires lines != [] && lines[0].Some?
    ensures (exists k :: ReadyLineAt(lines, k)) <==>
      ClassifyLine(lines[0].value) == PlumberReady || exists k :: ReadyLineAt(lines[1..], k)
  {
    if ClassifyLine(lines[0].value) == PlumberReady {
      assert ReadyLineAt(lines, 0);
    }
    if exists k :: ReadyLineAt(lines[1..], k) {
      var k :| ReadyLineAt(lines[1..], k);
      assert ReadyLineAt(lines, k + 1);
    }
    if exists k :: ReadyLineAt(lines, k) {
      var k :| ReadyLineAt(lines, k);
      if k > 0 { assert ReadyLineAt(lines[1..], k - 1); }
    }
  }

  /** A record the reader may add: a "DEBUG:" line at debug level as "R:" and
      the rest, or another line at the stream's level. */
  predicate ReaderRecord(r: LogRecord, level: LogLevel) {
    r.level == level || (r.level == Debug && StartsWith(r.message, "R:"))
  }

  /** `after` keeps `before` as a prefix and adds only reader records. */
  predicate LogExtends(before: seq<LogRecord>, after: seq<LogRecord>, level: LogLevel) {
    |before| <= |after| && after[..|before|] == before
    && forall i :: |before| <= i < |after| ==> ReaderRecord(after[i], level)
  }

  /** Every record a run of lines adds is a reader record. */
  lemma {:induction false} RecordsAreReaderRecords(raws: seq<string>, level: LogLevel)
    ensures forall i :: 0 <= i < |Records(raws, level)| ==> ReaderRecord(Records(raws, level)[i], level)
  {
    if raws != [] {
      RecordsAreReaderRecords(raws[1..], level);
      var head := RecordsOf(raws[0], level);
      if ClassifyLine(raws[0]).DebugLine? {
        assert ("R:" + ClassifyLine(raws[0]).rest)[..2] == "R:";
      }
      forall i | 0 <= i < |Records(raws, level)| ensures ReaderRecord(Records(raws, level)[i], level) {
        if i >= |head| { assert Records(raws, level)[i] == Records(raws[1..], level)[i - |head|]; }
      }
    }
  }

  /** Reading a stream never rewrites earlier log records: it appends, in
      order, the record of each line decoded before the first undecodable
      one, each a "DEBUG:" line at debug level or a line at the stream's level. */
  lemma ReadStreamLog(s: ReaderState, lines: seq<Option<string>>, level: LogLevel)
    ensures ReadStream(s, lines, level).log == s.log + Records(DecodedPrefix(lines), level)
    ensures LogExtends(s.log, ReadStream(s, lines, level).log, level)
  {
    var added := Records(DecodedPrefix(lines), level);
    RecordsAreReaderRecords(DecodedPrefix(lines), level);
    var after := ReadStream(s, lines, level).log;
    assert after[..|s.log|] == s.log;
    forall i | |s.log| <= i < |after| ensures ReaderRecord(after[i], level) {
      assert after[i] == added[i - |s.log|];
    }
  }

  // ---------------------------------------------------------------------------
  // The startup wait.

  /** What one `ready.wait(timeout)` observed: the event set in time, or the
      timeout elapsed with the installing flag as it then was. */
  datatype ReadyWait = BecameReady | TimedOut(installing: bool)

  datatype WaitResult = Ready | TimedOutWaiting | StillWaiting

  /** The loop `while not ready.is_set(): if not ready.wait(t): if not installing.is_set(): raise`. */
  function WaitSpec(ready: bool, waits: seq<ReadyWait>): WaitResult {
    if ready then Ready
    else if waits == [] then StillWaiting
    else match waits[0]
      case BecameReady => Ready
      case TimedOut(installing) => if installing then WaitSpec(false, waits[1..]) else TimedOutWaiting
  }

  /** Every wait before `k` timed out while packages were being installed. */
  predicate InstallingUpTo(waits: seq<ReadyWait>, k: int) {
    0 <= k <= |waits| && forall j :: 0 <= j < k ==> waits[j] == TimedOut(true)
  }

  /** The wait ends ready exactly when the event is set during some wait that
      only installations have extended. */
  lemma {:induction false} WaitReadyIff(waits: seq<ReadyWait>)
    ensures WaitSpec(false, waits) == Ready <==>
      exists k :: 0 <= k < |waits| && waits[k] == BecameReady && InstallingUpTo(waits, k)
  {
    if waits != [] {
      WaitReadyIff(waits[1..]);
      if WaitSpec(false, waits[1..]) == Ready && waits[0] == TimedOut(true) {
        var k :| 0 <= k < |waits[1..]| && waits[1..][k] == BecameReady && InstallingUpTo(waits[1..], k);
        assert waits[k + 1] == BecameReady && InstallingUpTo(waits, k + 1);
      }
      if exists k :: 0 <= k < |waits| && waits[k] == BecameReady && InstallingUpTo(waits, k) {
        var k :| 0 <= k < |waits| && waits[k] == BecameReady && InstallingUpTo(waits, k);
        if k > 0 {
          assert waits[0] == TimedOut(true);
          assert waits[1..][k - 1] == BecameReady && InstallingUpTo(waits[1..], k - 1);
        }
      }
    }
  }

  /** The timeout is raised exactly at the first elapsed wait during which no
      installation was signalled, all earlier ones having been installations. */
  lemma {:induction false} WaitTimeoutIff(waits: seq<ReadyWait>)
    ensures WaitSpec(false, waits) == TimedOutWaiting <==>
      exists k :: 0 <= k < |waits| && waits[k] == TimedOut(false) && InstallingUpTo(waits, k)
  {
    if waits != [] {
      WaitTimeoutIff(waits[1..]);
      if WaitSpec(false, waits[1..]) == TimedOutWaiting && waits[0] == TimedOut(true) {
        var k :| 0 <= k < |waits[1..]| && waits[1..][k] == TimedOut(false) && InstallingUpTo(waits[1..], k);
        assert waits[k + 1] == TimedOut(false) && InstallingUpTo(waits, k + 1);
      }
      if exists k :: 0 <= k < |waits| && waits[k] == TimedOut(false) && InstallingUpTo(waits, k) {
        var k :| 0 <= k < |waits| && waits[k] == TimedOut(false) && InstallingUpTo(waits, k);
        if k > 0 {
          assert waits[0] == TimedOut(true);
          assert waits[1..][k - 1] == TimedOut(false) && InstallingUpTo(waits[1..], k - 1);
        }
      }
    }
  }

  // ---------------------------------------------------------------------------
  // The lifecycle.

  /** A request the client sends to plumber. */
  datatype Body = NoBody | JsonBody(json: Json) | FeatherBody(table: nat)
  datatype HttpRequest = HttpRequest(verb: string, path: string, name: string, body: Body)

  /** The external actions the client takes, in order. */
  datatype OsCall =
    | OpenSession(session: nat)
    | CloseSession(session: nat)
    | SpawnRscript(rscriptPort: int)
    | PostShutdown(port: Option<int>)
    | WaitExit(pid: nat)
    | Kill(pid: nat)
    | Send(port: Option<int>, request: HttpRequest)

  /** What `Popen` did: raised, started a process and then raised while
      assigning it to a Win32 job object, or started it. */
  datatype SpawnOutcome = SpawnRaised | SpawnedThenRaised(pid: nat) | Spawned(pid: nat)

  /** What `wait(timeout)` on the worker did while stopping it. */
  datatype ExitWait = Exited | WaitTimedOut | WaitRaised

  /** What `poll()` reported. */
  datatype PollOutcome = StillRunning | ExitedWith(exitCode: int) | PollRaised

  /** The outcomes of everything `Start` asks of the system. */
  datatype StartOracle = StartOracle(
    session: nat,                       // the new requests.Session
    locate: Result<string, string>,     // the Rscript path, or why it was not found
    ephemeralPort: int,                 // the free port bound when none was requested
    spawn: SpawnOutcome,
    threadsStarted: bool,               // both logging threads started
    stopWait: ExitWait,                 // for the Stop() after a thread failure
    stopKill: bool,
    waits: seq<ReadyWait>)

  datatype StartResult = AlreadyRunning | StartFailed(error: RError) | Started(wait: WaitResult)

  /** The actions `Stop` takes on a held worker: the shutdown request is sent
      only through a session, and the process is killed only when waiting for
      it did not succeed. */
  function StopCalls(pid: nat, session: Option<nat>, port: Option<int>, wait: ExitWait): seq<OsCall> {
    (if session.Some? then [PostShutdown(port)] else [])
    + [WaitExit(pid)]
    + (if wait != Exited then [Kill(pid)] else [])
    + (if session.Some? then [CloseSession(session.value)] else [])
  }

  const WaitTimeoutWarning: string := "worker process did not exit within the timeout"
  const WaitFailedWarning: string := "failed to wait for the worker process to exit"
  const KillFailedWarning: string := "failed to kill the worker process"
  const KilledWarning: string := "killed the worker process"

  /** The warnings `Stop` logs: none when the worker exited in time; otherwise
      why the wait failed, then whether the kill succeeded. */
  function StopWarnings(wait: ExitWait, killSucceeded: bool): (r: seq<LogRecord>)
    ensures |r| == (if wait == Exited then 0 else 2)
    ensures forall i :: 0 <= i < |r| ==> r[i].level == Warning
    ensures wait == WaitTimedOut ==> r[0].message == WaitTimeoutWarning
    ensures wait == WaitRaised ==> r[0].message == WaitFailedWarning
    ensures wait != Exited ==> r[1].message == (if killSucceeded then KilledWarning else KillFailedWarning)
  {
    match wait
    case Exited => []
    case WaitTimedOut => [LogRecord(Warning, WaitTimeoutWarning), LogRecord(Warning, if killSucceeded then KilledWarning else KillFailedWarning)]
    case WaitRaised => [LogRecord(Warning, WaitFailedWarning), LogRecord(Warning, if killSucceeded then KilledWarning else KillFailedWarning)]
  }

  /** A kill is attempted exactly when the wait did not succeed, and then once. */
  lemma StopKillIff(pid: nat, session: Option<nat>, port: Option<int>, wait: ExitWait)
    ensures Kill(pid) in StopCalls(pid, session, port, wait) <==> wait != Exited
    ensures forall c :: c in StopCalls(pid, session, port, wait) && c.Kill? ==> c == Kill(pid)
  {
    var pre := (if session.Some? then [PostShutdown(port)] else []) + [WaitExit(pid)];
    var post := if session.Some? then [CloseSession(session.value)] else [];
    if wait == Exited {
      assert StopCalls(pid, session, port, wait) == pre + post;
      assert Kill(pid) !in pre && Kill(pid) !in post;
    }
  }

  /** The body `__setitem__` sends: a table as feather, anything else as the
      JSON of `{'value': value}`, whose encoding can fail. */
  function SetBody(value: PyVal, defaultOffset: int): (r: Result<Body, RError>)
    ensures value.PTable? ==> r == Ok(FeatherBody(value.id))
    ensures !value.PTable? ==> (r.Ok? <==> SerializeValue(value, defaultOffset).Ok?)
    ensures !value.PTable? && r.Ok? ==> r.value == JsonBody(SerializeValue(value, defaultOffset).value)
  {
    if value.PTable? then Ok(FeatherBody(value.id))
    else match SerializeValue(value, defaultOffset)
      case Err(e) => Err(EncodeError(e))
      case Ok(j) => Ok(JsonBody(j))
  }

  /** What stops an item operation before its request, given the worker and
      session held, the ready flag, and what `Start` and `poll()` would see:
      with a worker held, only its exit or a missing session; otherwise the
      first startup failure, a startup wait that did not end ready, or an
      exit seen right after the start. */
  function PrepareError(held: Option<nat>, session: Option<nat>, ready: bool, o: StartOracle, poll: PollOutcome): Option<RError> {
    if held.Some? then
      if poll.ExitedWith? then Some(ExitedUnexpectedly(poll.exitCode))
      else if session.None? then Some(NoSession)
      else None
    else if o.locate.Err? then Some(RscriptNotFound(o.locate.error))
    else if !o.spawn.Spawned? then Some(SpawnFailed)
    else if !o.threadsStarted then Some(LoggingThreadFailed)
    else match WaitSpec(ready, o.waits)
      case TimedOutWaiting => Some(StartupTimeout)
      case StillWaiting => Some(StartupPending)
      case Ready => if poll.ExitedWith? then Some(ExitedUnexpectedly(poll.exitCode)) else None
  }

  /** Some wait saw the worker become ready, every earlier one having timed
      out while packages were being installed. */
  predicate WaitsEndReady(waits: seq<ReadyWait>) {
    exists k :: 0 <= k < |waits| && waits[k] == BecameReady && InstallingUpTo(waits, k)
  }

  /** An item operation reaches its request exactly when the worker has not
      exited and either a worker and session are already held, or Rscript is
      found, spawned, logged, and announces readiness during some wait that
      only package installations extended. */
  lemma PrepareSucceeds(held: Option<nat>, session: Option<nat>, ready: bool, o: StartOracle, poll: PollOutcome)
    ensures PrepareError(held, session, ready, o, poll).None? <==>
      !poll.ExitedWith? &&
      (held.Some? ==> session.Some?) &&
      (held.None? ==> o.locate.Ok? && o.spawn.Spawned? && o.threadsStarted && (ready || WaitsEndReady(o.waits)))
  {
    WaitReadyIff(o.waits);
  }

  /** The result of an item operation: the preparation's error, else the
      body's error, else the processed response. */
  function ItemOutcome(prep: Option<RError>, body: Result<Body, RError>, response: Result<PyVal, RError>): Result<PyVal, RError> {
    if prep.Some? then Err(prep.value)
    else if body.Err? then Err(body.error)
    else response
  }

  class RWorkerProcess {
    const requestedPort: Option<int>
    /** The UTC offset of the client's default zone, in microseconds. */
    const defaultOffset: int
    var workerProcess: Option<nat>
    var session: Option<nat>
    var port: Option<int>
    var ready: bool
    var installing: bool
    var log: seq<LogRecord>
    var calls: seq<OsCall>

    ghost predicate Valid() reads this {
      workerProcess.Some? ==> port.Some?
    }

    constructor (requestedPort: Option<int>, defaultOffset: int)
      ensures Valid()
      ensures this.requestedPort == requestedPort && this.defaultOffset == defaultOffset
      ensures workerProcess.None? && session.None? && port.None?
      ensures !ready && !installing && log == [] && calls == []
    {
      this.requestedPort := requestedPort;
      this.defaultOffset := defaultOffset;
      workerProcess := None;
      session := None;
      port := None;
      ready := false;
      installing := false;
      log := [];
      calls := [];
    }

    /** One `_LogStream` thread run to completion over the lines of its stream. */
    method LogStream(lines: seq<Option<string>>, level: LogLevel)
      modifies this`ready, this`installing, this`log
      ensures ReaderState(ready, installing, log) == ReadStream(old(ReaderState(ready, installing, log)), lines, level)
    {
      var i := 0;
      while i < |lines| && lines[i].Some?
        invariant 0 <= i <= |lines|
        decreases |lines| - i
        invariant Consume(ReaderState(ready, installing, log), lines[i..], level)
               == Consume(old(ReaderState(ready, installing, log)), lines, level)
      {
        match ClassifyLine(lines[i].value) {
          case PlumberReady =>
            installing := false;
            ready := true;
          case InstallingPackages =>
            installing := true;
          case SwaggerDocs =>
          case DebugLine(rest) =>
            log := log + [LogRecord(Debug, "R:" + rest)];
          case Other(line) =>
            log := log + [LogRecord(level, line)];
        }
        i := i + 1;
      }
      installing := false;
    }

    /** The startup wait, reading one observation per `wait(timeout)`. */
    method AwaitReady(waits: seq<ReadyWait>) returns (r: WaitResult)
      modifies this`ready, this`installing
      ensures r == WaitSpec(old(ready), waits)
      ensures ready <==> r == Ready
      ensures old(ready) ==> installing == old(installing)
    {
      var i := 0;
      while !ready
        invariant 0 <= i <= |waits|
        invariant old(ready) ==> ready && installing == old(installing)
        invariant WaitSpec(old(ready), waits) == if ready then Ready else WaitSpec(false, waits[i..])
        decreases |waits| - i
      {
        if i == |waits| {
          return StillWaiting;
        }
        match waits[i] {
          case BecameReady =>
            ready := true;
          case TimedOut(inst) =>
            installing := inst;
            if !inst {
              return TimedOutWaiting;
            }
        }
        i := i + 1;
      }
      return Ready;
    }

    /** `Stop`: a no-op without a worker; otherwise ask R to shut down, wait,
        kill if the wait did not succeed, and release the worker and session.
        The ready flag is left as it is. */
    method Stop(wait: ExitWait, killSucceeded: bool)
      requires Valid()
      modifies this
      ensures Valid()
      ensures old(workerProcess).None? ==> unchanged(this)
      ensures old(workerProcess).Some? ==> workerProcess.None? && session.None?
      ensures old(workerProcess).Some? ==> port == old(port) && ready == old(ready) && installing == old(installing)
      ensures old(workerProcess).Some? ==> calls == old(calls) + StopCalls(old(workerProcess).value, old(session), old(port), wait)
      ensures old(workerProcess).Some? ==> log == old(log) + StopWarnings(wait, killSucceeded)
    {
      if workerProcess.None? {
        return;
      }
      var pid := workerProcess.value;
      var sent, logged := calls, log;
      if session.Some? {
        sent := sent + [PostShutdown(port)];
      }
      sent := sent + [WaitExit(pid)];
      var needToKill := true;
      match wait {
        case WaitTimedOut =>
          logged := logged + [LogRecord(Warning, WaitTimeoutWarning)];
        case WaitRaised =>
          logged := logged + [LogRecord(Warning, WaitFailedWarning)];
        case Exited =>
          needToKill := false;
      }
      if needToKill {
        sent := sent + [Kill(pid)];
        logged := logged + [LogRecord(Warning, if killSucceeded then KilledWarning else KillFailedWarning)];
      }
      if session.Some? {
        sent := sent + [CloseSession(session.value)];
      }
      workerProcess, session, calls, log := None, None, sent, logged;
    }

    /** `Start`: a no-op while a worker is held. Otherwise open a session,
        locate Rscript, choose the port, spawn the worker and its logging
        threads, and wait for it to become ready. Any failure before the wait
        closes the session; a startup timeout leaves worker and session held. */
    method Start(o: StartOracle) returns (r: StartResult)
      requires Valid()
      modifies this
      ensures Valid()
      ensures old(workerProcess).Some? ==> r == AlreadyRunning && unchanged(this)
      ensures old(workerProcess).None? && o.locate.Err? ==>
        r == StartFailed(RscriptNotFound(o.locate.error)) && workerProcess.None? && session.None? && port == old(port)
      ensures old(workerProcess).None? && o.locate.Err? ==>
        calls == old(calls) + [OpenSession(o.session), CloseSession(o.session)]
      ensures old(workerProcess).None? && o.locate.Err? ==>
        ready == old(ready) && installing == old(installing) && log == old(log)
      ensures old(workerProcess).None? && o.locate.Ok? ==>
        port == Some(if requestedPort.Some? then requestedPort.value else o.ephemeralPort)
      ensures old(workerProcess).None? && o.locate.Ok? && !o.spawn.Spawned? ==>
        r == StartFailed(SpawnFailed) && session.None?
      ensures old(workerProcess).None? && o.locate.Ok? && !o.spawn.Spawned? ==>
        workerProcess == (if o.spawn.SpawnedThenRaised? then Some(o.spawn.pid) else None)
      ensures old(workerProcess).None? && o.locate.Ok? && !o.spawn.Spawned? ==>
        calls == old(calls) + [OpenSession(o.session), SpawnRscript(port.value), CloseSession(o.session)]
      ensures old(workerProcess).None? && o.locate.Ok? && !o.spawn.Spawned? ==>
        ready == old(ready) && installing == old(installing) && log == old(log)
      ensures old(workerProcess).None? && o.locate.Ok? && o.spawn.Spawned? && !o.threadsStarted ==>
        r == StartFailed(LoggingThreadFailed) && workerProcess.None? && session.None?
      ensures old(workerProcess).None? && o.locate.Ok? && o.spawn.Spawned? && !o.threadsStarted ==>
        calls == old(calls) + [OpenSession(o.session), SpawnRscript(port.value)]
                 + StopCalls(o.spawn.pid, Some(o.session), port, o.stopWait)
      ensures old(workerProcess).None? && o.locate.Ok? && o.spawn.Spawned? && !o.threadsStarted ==>
        ready == old(ready) && installing == old(installing) && log == old(log) + StopWarnings(o.stopWait, o.stopKill)
      ensures old(workerProcess).None? && o.locate.Ok? && o.spawn.Spawned? && o.threadsStarted ==>
        r == Started(WaitSpec(old(ready), o.waits)) && (ready <==> r == Started(Ready)) && log == old(log)
      ensures old(workerProcess).None? && o.locate.Ok? && o.spawn.Spawned? && o.threadsStarted ==>
        workerProcess == Some(o.spawn.pid) && session == Some(o.session)
      ensures old(workerProcess).None? && o.locate.Ok? && o.spawn.Spawned? && o.threadsStarted ==>
        calls == old(calls) + [OpenSession(o.session), SpawnRscript(port.value)]
    {
      if workerProcess.Some? {
        return AlreadyRunning;
      }
      session := Some(o.session);
      calls := calls + [OpenSession(o.session)];
      if o.locate.Err? {
        calls := calls + [CloseSession(o.session)];
        session := None;
        return StartFailed(RscriptNotFound(o.locate.error));
      }
      r := Launch(o);
    }

    /** The part of `Start` after Rscript is located, with the session open:
        choose the port, spawn the worker, start its logging threads and wait. */
    method Launch(o: StartOracle) returns (r: StartResult)
      requires Valid() && workerProcess.None? && session == Some(o.session) && o.locate.Ok?
      modifies this
      ensures Valid()
      ensures port == Some(if requestedPort.Some? then requestedPort.value else o.ephemeralPort)
      ensures !o.spawn.Spawned? ==> r == StartFailed(SpawnFailed) && session.None?
      ensures !o.spawn.Spawned? ==> workerProcess == (if o.spawn.SpawnedThenRaised? then Some(o.spawn.pid) else None)
      ensures !o.spawn.Spawned? ==> calls == old(calls) + [SpawnRscript(port.value), CloseSession(o.session)]
      ensures !o.spawn.Spawned? ==> ready == old(ready) && installing == old(installing) && log == old(log)
      ensures o.spawn.Spawned? && !o.threadsStarted ==>
        r == StartFailed(LoggingThreadFailed) && workerProcess.None? && session.None?
      ensures o.spawn.Spawned? && !o.threadsStarted ==>
        calls == old(calls) + [SpawnRscript(port.value)] + StopCalls(o.spawn.pid, Some(o.session), port, o.stopWait)
      ensures o.spawn.Spawned? && !o.threadsStarted ==>
        ready == old(ready) && installing == old(installing) && log == old(log) + StopWarnings(o.stopWait, o.stopKill)
      ensures o.spawn.Spawned? && o.threadsStarted ==>
        r == Started(WaitSpec(old(ready), o.waits)) && (ready <==> r == Started(Ready)) && log == old(log)
      ensures o.spawn.Spawned? && o.threadsStarted ==>
        workerProcess == Some(o.spawn.pid) && session == Some(o.session)
      ensures o.spawn.Spawned? && o.threadsStarted ==> calls == old(calls) + [SpawnRscript(port.value)]
    {
      port := Some(if requestedPort.Some? then requestedPort.value else o.ephemeralPort);
      calls := calls + [SpawnRscript(port.value)];
      match o.spawn {
        case SpawnRaised =>
          calls := calls + [CloseSession(o.session)];
          session := None;
          return StartFailed(SpawnFailed);
        case SpawnedThenRaised(pid) =>
          workerProcess := Some(pid);
          calls := calls + [CloseSession(o.session)];
          session := None;
          return StartFailed(SpawnFailed);
        case Spawned(pid) =>
          workerProcess := Some(pid);
      }
      if !o.threadsStarted {
        Stop(o.stopWait, o.stopKill);
        workerProcess := None;
        session := None;
        return StartFailed(LoggingThreadFailed);
      }
      var w := AwaitReady(o.waits);
      return Started(w);
    }

    /** `_PollWorkerProcess` as written: a failing `poll()` reaches an `except`
        clause that formats the undefined name `e`. */
    function PollAsWritten(poll: PollOutcome): (r: Result<(), RError>)
      reads this
      ensures r.Err? <==> workerProcess.Some? && !poll.StillRunning?
      ensures r.Err? ==> r.error == (if poll.ExitedWith? then ExitedUnexpectedly(poll.exitCode) else NameError)
    {
      if workerProcess.None? then Ok(())
      else match poll
        case StillRunning => Ok(())
        case ExitedWith(code) => Err(ExitedUnexpectedly(code))
        case PollRaised => Err(NameError)
    }

    /** `_PollWorkerProcess` as intended: a failing `poll()` is taken to mean the
        worker is still running. */
    function Poll(poll: PollOutcome): (r: Result<(), RError>)
      reads this
      ensures r.Err? <==> workerProcess.Some? && poll.ExitedWith?
      ensures r.Err? ==> r.error == ExitedUnexpectedly(poll.exitCode)
    {
      if workerProcess.None? then Ok(())
      else match poll
        case ExitedWith(code) => Err(ExitedUnexpectedly(code))
        case _ => Ok(())
    }

    /** What every item operation does before its request: start the worker if
        needed, check that it is alive, and reach the session it sends through. */
    method Prepare(o: StartOracle, poll: PollOutcome) returns (e: Option<RError>)
      requires Valid()
      modifies this
      ensures Valid()
      ensures e == PrepareError(old(workerProcess), old(session), old(ready), o, poll)
      ensures old(workerProcess).Some? ==> unchanged(this)
      ensures e.None? ==> workerProcess.Some? && session.Some? && Poll(poll).Ok?
    {
      var s := Start(o);
      if s.StartFailed? {
        return Some(s.error);
      } else if s == Started(TimedOutWaiting) {
        return Some(StartupTimeout);
      } else if s == Started(StillWaiting) {
        return Some(StartupPending);
      }
      var p := Poll(poll);
      if p.Err? {
        return Some(p.error);
      }
      if session.None? {
        return Some(NoSession);
      }
      return None;
    }

    /** Send one request through the session and classify its response. */
    method SendRequest(req: HttpRequest, parse: bool, resp: Response) returns (r: Result<PyVal, RError>)
      requires Valid() && session.Some?
      modifies this`calls
      ensures calls == old(calls) + [Send(port, req)]
      ensures |calls| > 0 && calls[|calls| - 1] == Send(port, req)
      ensures r == ProcessResponse(resp, parse, defaultOffset)
    {
      calls := calls + [Send(port, req)];
      r := ProcessResponse(resp, parse, defaultOffset);
    }

    /** What the item operations share once the key is accepted: start the
        worker if needed and check it, then send the request through the
        session. A body that cannot be built fails after the worker is started. */
    method Request(verb: string, path: string, name: string, body: Result<Body, RError>, parse: bool,
                   o: StartOracle, poll: PollOutcome, resp: Response)
      returns (r: Result<PyVal, RError>)
      requires Valid()
      modifies this
      ensures Valid()
      ensures r == ItemOutcome(PrepareError(old(workerProcess), old(session), old(ready), o, poll), body,
                               ProcessResponse(resp, parse, defaultOffset))
      ensures PrepareError(old(workerProcess), old(session), old(ready), o, poll).None? && body.Ok? ==>
        workerProcess.Some? && |calls| > 0 && calls[|calls| - 1] == Send(port, HttpRequest(verb, path, name, body.value))
    {
      var e := Prepare(o, poll);
      if e.Some? {
        return Err(e.value);
      }
      if body.Err? {
        return Err(body.error);
      }
      r := SendRequest(HttpRequest(verb, path, name, body.value), parse, resp);
    }

    /** `self[key]`. An invalid key raises before the worker is started. */
    method GetItem(key: PyVal, o: StartOracle, poll: PollOutcome, resp: Response) returns (r: Result<PyVal, RError>)
      requires Valid()
      modifies this
      ensures Valid()
      ensures ValidateKey(key).Err? ==> r == Err(ValidateKey(key).error) && unchanged(this)
      ensures ValidateKey(key).Ok? ==>
        r == ItemOutcome(PrepareError(old(workerProcess), old(session), old(ready), o, poll), Ok(NoBody),
                         ProcessResponse(resp, true, defaultOffset))
      ensures ValidateKey(key).Ok? && PrepareError(old(workerProcess), old(session), old(ready), o, poll).None? ==>
        |calls| > 0 && calls[|calls| - 1] == Send(port, HttpRequest("POST", "/get", ValidateKey(key).value, NoBody))
    {
      var k := ValidateKey(key);
      if k.Err? {
        return Err(k.error);
      }
      r := Request("POST", "/get", k.value, Ok(NoBody), true, o, poll, resp);
    }

    /** `self[key] = value`: a table is uploaded as feather, anything else as the
        wrapped JSON body; the response body is ignored. */
    method SetItem(key: PyVal, value: PyVal, o: StartOracle, poll: PollOutcome, resp: Response)
      returns (r: Result<PyVal, RError>)
      requires Valid()
      modifies this
      ensures Valid()
      ensures ValidateKey(key).Err? ==> r == Err(ValidateKey(key).error) && unchanged(this)
      ensures ValidateKey(key).Ok? ==>
        r == ItemOutcome(PrepareError(old(workerProcess), old(session), old(ready), o, poll), SetBody(value, defaultOffset),
                         ProcessResponse(resp, false, defaultOffset))
      ensures r.Ok? ==> r == Ok(PNone)
      ensures ValidateKey(key).Ok? && PrepareError(old(workerProcess), old(session), old(ready), o, poll).None?
              && SetBody(value, defaultOffset).Ok? ==>
        |calls| > 0 && calls[|calls| - 1] ==
          Send(port, HttpRequest("PUT", "/set", ValidateKey(key).value, SetBody(value, defaultOffset).value))
    {
      var k := ValidateKey(key);
      if k.Err? {
        return Err(k.error);
      }
      UnparsedResponse(resp, defaultOffset);
      r := Request("PUT", "/set", k.value, SetBody(value, defaultOffset), false, o, poll, resp);
    }

    /** `del self[key]`. */
    method DelItem(key: PyVal, o: StartOracle, poll: PollOutcome, resp: Response) returns (r: Result<PyVal, RError>)
      requires Valid()
      modifies this
      ensures Valid()
      ensures ValidateKey(key).Err? ==> r == Err(ValidateKey(key).error) && unchanged(this)
      ensures ValidateKey(key).Ok? ==>
        r == ItemOutcome(PrepareError(old(workerProcess), old(session), old(ready), o, poll), Ok(NoBody),
                         ProcessResponse(resp, false, defaultOffset))
      ensures r.Ok? ==> r == Ok(PNone)
      ensures ValidateKey(key).Ok? && PrepareError(old(workerProcess), old(session), old(ready), o, poll).None? ==>
        |calls| > 0 && calls[|calls| - 1] == Send(port, HttpRequest("DELETE", "/delete", ValidateKey(key).value, NoBody))
    {
      var k := ValidateKey(key);
      if k.Err? {
        return Err(k.error);
      }
      UnparsedResponse(resp, defaultOffset);
      r := Request("DELETE", "/delete", k.value, Ok(NoBody), false, o, poll, resp);
    }
  }

  /** As written, a `poll()` that raises makes every request fail with a NameError. */
  lemma PollAsWrittenRaisesNameError(p: RWorkerProcess)
    requires p.workerProcess.Some?
    ensures p.PollAsWritten(PollRaised) == Err(NameError)
  {
  }

  /** As intended, a `poll()` that raises lets the request go ahead: the
      corrected poll differs from the written one exactly there. */
  lemma PollFailureAssumesRunning(p: RWorkerProcess, poll: PollOutcome)
    ensures p.Poll(poll) != p.PollAsWritten(poll) <==> p.workerProcess.Some? && poll.PollRaised?
    ensures p.workerProcess.Some? && poll.PollRaised? ==> p.Poll(poll).Ok?
  {
  }
}
