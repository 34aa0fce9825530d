/** The Google adapter of google.go: entry normalization (severity, payload,
    trace fields), lazy initialization of the client and logger, Print,
    Flush and the AutoFlush set-up and per-tick step. The cloud-logging
    client is an abstract sink: a logger holds the buffer of entries that
    Logger.Log appends to and Logger.Flush drains. */
module CloudLogging {
  import opened Wrappers
  import opened Foreign

  /** Milliseconds used when AutoFlushInterval is zero. */
  const DefaultGoogleAutoFlushInterval: int64 := 500

  const TimestampKey := "timestamp"
  const TimeKey := "time"

  /** Nanoseconds per millisecond (time.Millisecond). */
  const Millisecond: int := 1_000_000

  /** Errors returned to callers. */
  datatype LogError =
    | ErrUninitializedLogger      // the package's sentinel error
    | SinkError(msg: string)      // an error from the backend's Flush
    | HandlerError(msg: string)   // an error from the wrapped handler

  /** Go panics: the calling goroutine aborts. */
  datatype Panic =
    | ClientCreationFailed(msg: string)  // logging.NewClient returned an error
    | FlushFailed(msg: string)           // a background flush returned an error
    | NilHandler                         // a method called on a nil slog.Handler
    | NonPositiveTicker                  // time.NewTicker with a duration <= 0

  /** logging.Severity values the adapter can produce; Default is the zero
      value of the type. */
  datatype Severity = Default | Debug | Info | Warning | Error

  /** A log line handed to Print. */
  datatype Line = Line(level: Level, timestamp: int64, time: string, data: map<string, Value>)

  /** A logging.Entry as the adapter fills it; empty strings and false are
      the zero values of the trace fields. */
  datatype Entry = Entry(
    severity: Severity,
    payload: map<string, Value>,
    trace: string,
    spanID: string,
    traceSampled: bool)

  /** The cloud-logging client, for one project. The serial number tells
      apart clients created one after another for the same project. */
  datatype Client = Client(projectID: string, serial: nat)

  /** The cloud-logging logger: its name and the entries buffered so far. */
  datatype Logger = Logger(logName: string, buffer: seq<Entry>)

  /** The Google struct. clientsCreated is not a field of the Go struct: it
      counts the clients logging.NewClient has handed this adapter, so that
      creating a client is observable in the state. */
  datatype Google = Google(
    projectID: string,
    logName: string,
    autoFlushInterval: int64,
    client: Option<Client>,
    logger: Option<Logger>,
    handler: Option<Handler>,
    forwardHandler: bool,
    useOpenTelemetryTracer: bool,
    tracePrefix: string,
    clientsCreated: nat)

  // ---------------------------------------------------------------------
  // Severity
  // ---------------------------------------------------------------------

  /** The switch of Print: exact matches on the four named levels; any
      other level leaves the zero severity. */
  function SeverityOf(level: Level): (s: Severity)
    ensures s == Error <==> level == LevelError
    ensures s == Warning <==> level == LevelWarn
    ensures s == Info <==> level == LevelInfo
    ensures s == Debug <==> level == LevelDebug
    ensures s == Default <==> level !in {LevelDebug, LevelInfo, LevelWarn, LevelError}
  {
    if level == LevelError then Error
    else if level == LevelWarn then Warning
    else if level == LevelInfo then Info
    else if level == LevelDebug then Debug
    else Default
  }

  /** The level each produced severity comes from; Default has none. */
  function LevelOf(s: Severity): Option<Level> {
    match s
    case Error => Some(LevelError)
    case Warning => Some(LevelWarn)
    case Info => Some(LevelInfo)
    case Debug => Some(LevelDebug)
    case Default => None
  }

  /** LevelOf inverts SeverityOf on every level that has a severity of its
      own, and every other level collapses to Default. */
  lemma SeverityRoundTrip(level: Level)
    ensures LevelOf(SeverityOf(level)) == Some(level) <==> level in {LevelDebug, LevelInfo, LevelWarn, LevelError}
    ensures LevelOf(SeverityOf(level)) == None <==> SeverityOf(level) == Default
  {
  }

  // ---------------------------------------------------------------------
  // Payload
  // ---------------------------------------------------------------------

  predicate IsNonEmptyString(v: Value) {
    v.Str? && v.s != ""
  }

  /** The attributes the second loop of Print writes again. */
  function StringOverrides(data: map<string, Value>): map<string, Value> {
    map k | k in data && IsNonEmptyString(data[k]) :: data[k]
  }

  /** The payload Print builds: a copy of the data, then the timestamp and
      time keys, then the non-empty string attributes written once more.
      Because the last step comes after the second, a non-empty string
      attribute named "timestamp" or "time" wins over the line's own value. */
  function Payload(data: map<string, Value>, timestamp: int64, time: string): (p: map<string, Value>)
    ensures p.Keys == data.Keys + {TimestampKey, TimeKey}
    ensures forall k :: k in data && IsNonEmptyString(data[k]) ==> p[k] == data[k]
    ensures forall k :: k in data && k != TimestampKey && k != TimeKey ==> p[k] == data[k]
    ensures p[TimestampKey] ==
      if TimestampKey in data && IsNonEmptyString(data[TimestampKey]) then data[TimestampKey] else Int(timestamp)
    ensures p[TimeKey] ==
      if TimeKey in data && IsNonEmptyString(data[TimeKey]) then data[TimeKey] else Str(time)
  {
    data[TimestampKey := Int(timestamp)][TimeKey := Str(time)] + StringOverrides(data)
  }

  /** The first loop of Print: copy every data entry into an empty map, in
      whatever order Go's map iteration picks. */
  method CopyData(data: map<string, Value>) returns (copy: map<string, Value>)
    ensures copy == data
  {
    copy := map[];
    var todo := data.Keys;
    while todo != {}
      invariant todo <= data.Keys
      invariant copy.Keys == data.Keys - todo
      invariant forall k :: k in copy ==> copy[k] == data[k]
      decreases todo
    {
      var k :| k in todo;
      copy := copy[k := data[k]];
      todo := todo - {k};
    }
  }

  /** The second loop of Print: write every non-empty string entry of data
      into base again, in whatever order Go's map iteration picks. */
  method WriteStrings(data: map<string, Value>, base: map<string, Value>) returns (out: map<string, Value>)
    ensures out == base + StringOverrides(data)
  {
    out := base;
    var todo := data.Keys;
    while todo != {}
      invariant todo <= data.Keys
      invariant out.Keys == base.Keys + (data.Keys - todo) * StringOverrides(data).Keys
      invariant forall k :: k in out ==>
        out[k] == if k in data && k !in todo && IsNonEmptyString(data[k]) then data[k] else base[k]
      decreases todo
    {
      var k :| k in todo;
      if IsNonEmptyString(data[k]) {
        out := out[k := data[k]];
      }
      todo := todo - {k};
    }
    ghost var expected := base + StringOverrides(data);
    assert out.Keys == expected.Keys;
    assert forall k :: k in out ==> out[k] == expected[k];
  }

  /** Print's payload construction, step by step as google.go writes it,
      produces the payload defined above. */
  method BuildPayload(data: map<string, Value>, timestamp: int64, time: string)
    returns (payload: map<string, Value>)
    ensures payload == Payload(data, timestamp, time)
  {
    payload := CopyData(data);
    payload := payload[TimestampKey := Int(timestamp)];
    payload := payload[TimeKey := Str(time)];
    payload := WriteStrings(data, payload);
  }

  // ---------------------------------------------------------------------
  // Trace fields
  // ---------------------------------------------------------------------

  /** Tracing applies when the adapter enables it and the context carries a
      valid span. */
  predicate TraceAttached(g: Google, ctx: Context) {
    g.useOpenTelemetryTracer && SpanContextFromContext(ctx).valid
  }

  /** The entry Print hands to Logger.Log for a line. */
  function Normalize(g: Google, ctx: Context, line: Line): (e: Entry)
    ensures e.severity == SeverityOf(line.level)
    ensures e.payload == Payload(line.data, line.timestamp, line.time)
    ensures TraceAttached(g, ctx) ==>
      var s := ctx.span.value;
      e.trace == g.tracePrefix + s.traceID && e.spanID == s.spanID && e.traceSampled == s.sampled
    ensures !TraceAttached(g, ctx) ==> e.trace == "" && e.spanID == "" && !e.traceSampled
  {
    var entry := Entry(SeverityOf(line.level), Payload(line.data, line.timestamp, line.time), "", "", false);
    if g.useOpenTelemetryTracer then
      var s := SpanContextFromContext(ctx);
      if s.valid then entry.(trace := g.tracePrefix + s.traceID, spanID := s.spanID, traceSampled := s.sampled)
      else entry
    else entry
  }

  // ---------------------------------------------------------------------
  // Lifecycle
  // ---------------------------------------------------------------------

  /** Both the client and the logger exist. */
  predicate Ready(g: Google) {
    g.client.Some? && g.logger.Some?
  }

  /** The configuration fields, which no operation of google.go other than
      AutoFlush's interval default ever writes. */
  predicate SameConfig(g: Google, h: Google) {
    && h.projectID == g.projectID
    && h.logName == g.logName
    && h.autoFlushInterval == g.autoFlushInterval
    && h.handler == g.handler
    && h.forwardHandler == g.forwardHandler
    && h.useOpenTelemetryTracer == g.useOpenTelemetryTracer
    && h.tracePrefix == g.tracePrefix
  }

  /** The entries still buffered once init has run: the logger's buffer when
      init keeps it, nothing when init creates a fresh logger. */
  function Retained(g: Google): seq<Entry> {
    if Ready(g) then g.logger.value.buffer else []
  }

  /** init: when the client or the logger is missing, create a client for
      the project (createErr is the outcome of logging.NewClient; an error
      panics) and a fresh logger for the log name; otherwise do nothing. */
  function Init(g: Google, createErr: Option<string>): (r: Result<Google, Panic>)
    ensures Ready(g) ==> r == Success(g)
    ensures !Ready(g) ==> (r.Failure? <==> createErr.Some?)
    ensures !Ready(g) && createErr.Some? ==> r.error == ClientCreationFailed(createErr.value)
    ensures r.Success? ==>
      && Ready(r.value)
      && SameConfig(g, r.value)
      && r.value.logger.value.buffer == Retained(g)
      && r.value.handler == g.handler
    ensures r.Success? && !Ready(g) ==>
      && r.value.clientsCreated == g.clientsCreated + 1
      && r.value.client == Some(Client(g.projectID, g.clientsCreated + 1))
      && r.value.logger == Some(Logger(g.logName, []))
  {
    if g.client.None? || g.logger.None? then
      match createErr
      case Some(msg) => Failure(ClientCreationFailed(msg))
      case None =>
        var client := Client(g.projectID, g.clientsCreated + 1);
        Success(g.(client := Some(client), logger := Some(Logger(g.logName, [])),
                   clientsCreated := g.clientsCreated + 1))
    else
      Success(g)
  }

  /** Print: init, then append exactly one entry, the normalized line, to
      the logger's buffer. */
  function Print(g: Google, ctx: Context, line: Line, createErr: Option<string>): (r: Result<Google, Panic>)
    ensures r.Failure? <==> !Ready(g) && createErr.Some?
    ensures r.Failure? ==> r.error == ClientCreationFailed(createErr.value)
    ensures r.Success? ==>
      && Ready(r.value)
      && SameConfig(g, r.value)
      && r.value.logger.value.buffer == Retained(g) + [Normalize(g, ctx, line)]
      && r.value.clientsCreated == g.clientsCreated + (if Ready(g) then 0 else 1)
    ensures Ready(g) ==> r.Success? && r.value.client == g.client && r.value.logger.value.logName == g.logger.value.logName
  {
    match Init(g, createErr)
    case Failure(p) => Failure(p)
    case Success(h) =>
      var logger := h.logger.value;
      Success(h.(logger := Some(logger.(buffer := logger.buffer + [Normalize(h, ctx, line)]))))
  }

  /** Logger.Flush of the abstract sink: sinkErr is the backend's outcome.
      On success the buffer is drained; on failure it is kept. */
  function SinkFlush(l: Logger, sinkErr: Option<string>): (r: (Option<LogError>, Logger))
    ensures r.1.logName == l.logName
    ensures sinkErr.None? ==> r.0.None? && r.1.buffer == []
    ensures sinkErr.Some? ==> r.0 == Some(SinkError(sinkErr.value)) && r.1 == l
  {
    match sinkErr
    case None => (None, l.(buffer := []))
    case Some(msg) => (Some(SinkError(msg)), l)
  }

  /** The outcome of Flush: the returned error and the receiver afterwards. */
  datatype FlushResult = FlushResult(err: Option<LogError>, g: Option<Google>)

  /** Flush on a possibly nil receiver: the sentinel error when the
      receiver or its logger is nil, otherwise whatever the sink's flush
      returns. Only the logger is checked, not the client. */
  function Flush(g: Option<Google>, sinkErr: Option<string>): (r: FlushResult)
    ensures r.err == Some(ErrUninitializedLogger) <==> g.None? || g.value.logger.None?
    ensures g.None? || g.value.logger.None? ==> r.g == g
    ensures g.Some? && g.value.logger.Some? ==>
      && r.g.Some?
      && r.g.value == g.value.(logger := r.g.value.logger)
      && r.g.value.logger.Some?
      && r.g.value.logger.value.logName == g.value.logger.value.logName
      && (sinkErr.None? ==> r.err.None? && r.g.value.logger.value.buffer == [])
      && (sinkErr.Some? ==> r.err == Some(SinkError(sinkErr.value)) && r.g == g)
  {
    if g.Some? && g.value.logger.Some? then
      var (err, logger) := SinkFlush(g.value.logger.value, sinkErr);
      FlushResult(err, Some(g.value.(logger := Some(logger))))
    else
      FlushResult(Some(ErrUninitializedLogger), g)
  }

  // ---------------------------------------------------------------------
  // AutoFlush
  // ---------------------------------------------------------------------

  /** Two's-complement wrap-around of an integer into int64. */
  function Wrap64(x: int): (r: int64)
    ensures -0x8000_0000_0000_0000 <= x < 0x8000_0000_0000_0000 ==> r == x
    ensures (r - x) % 0x1_0000_0000_0000_0000 == 0
  {
    (x + 0x8000_0000_0000_0000) % 0x1_0000_0000_0000_0000 - 0x8000_0000_0000_0000
  }

  /** The interval AutoFlush stores: the default for zero, otherwise the
      configured value. */
  function EffectiveInterval(interval: int64): (r: int64)
    ensures interval != 0 ==> r == interval
    ensures interval == 0 ==> r == DefaultGoogleAutoFlushInterval
  {
    if interval == 0 then DefaultGoogleAutoFlushInterval else interval
  }

  /** time.Duration(interval) * time.Millisecond, in int64 nanoseconds. */
  function TickerPeriod(interval: int64): int64 {
    Wrap64(interval * Millisecond)
  }

  /** The largest interval, in milliseconds, whose duration does not wrap. */
  const MaxIntervalMillis: int := 0x7FFF_FFFF_FFFF_FFFF / Millisecond

  /** What AutoFlush leaves behind: the receiver and the period, in
      nanoseconds, of the ticker its background goroutine waits on. */
  datatype Ticking = Ticking(g: Google, periodNanos: int64)

  /** AutoFlush up to starting the ticker: init, default the interval, and
      create the ticker (which panics on a non-positive duration). */
  function AutoFlush(g: Google, createErr: Option<string>): (r: Result<Ticking, Panic>)
    ensures !Ready(g) && createErr.Some? ==> r == Failure(ClientCreationFailed(createErr.value))
    ensures r.Success? ==>
      && Ready(r.value.g)
      && r.value.g == g.(client := r.value.g.client, logger := r.value.g.logger,
                         clientsCreated := r.value.g.clientsCreated,
                         autoFlushInterval := EffectiveInterval(g.autoFlushInterval))
      && r.value.g.clientsCreated == g.clientsCreated + (if Ready(g) then 0 else 1)
      && r.value.g.logger.value.buffer == Retained(g)
      && r.value.periodNanos > 0
    ensures (Ready(g) || createErr.None?) && 1 <= EffectiveInterval(g.autoFlushInterval) <= MaxIntervalMillis ==>
      r.Success? && r.value.periodNanos == EffectiveInterval(g.autoFlushInterval) * Millisecond
    ensures (Ready(g) || createErr.None?) && -MaxIntervalMillis <= g.autoFlushInterval < 0 ==>
      r == Failure(NonPositiveTicker)
  {
    match Init(g, createErr)
    case Failure(p) => Failure(p)
    case Success(h) =>
      var h' := h.(autoFlushInterval := EffectiveInterval(h.autoFlushInterval));
      var period := TickerPeriod(h'.autoFlushInterval);
      if period <= 0 then Failure(NonPositiveTicker) else Success(Ticking(h', period))
  }

  /** One tick of the background goroutine: flush when the logger exists, and
      panic when that flush fails. */
  function AutoFlushTick(g: Google, sinkErr: Option<string>): (r: Result<Google, Panic>)
    ensures g.logger.None? ==> r == Success(g)
    ensures g.logger.Some? && sinkErr.Some? ==> r == Failure(FlushFailed(sinkErr.value))
    ensures g.logger.Some? && sinkErr.None? ==>
      && r.Success?
      && r.value == g.(logger := r.value.logger)
      && r.value.logger == Some(Logger(g.logger.value.logName, []))
  {
    if g.logger.Some? then
      match sinkErr
      case Some(msg) => Failure(FlushFailed(msg))
      case None => Success(g.(logger := Some(SinkFlush(g.logger.value, sinkErr).1)))
    else
      Success(g)
  }

  /** AutoFlush with a zero interval behaves exactly as AutoFlush with the
      default interval. */
  lemma AutoFlushZeroIsDefault(g: Google, createErr: Option<string>)
    requires g.autoFlushInterval == 0
    ensures AutoFlush(g, createErr) == AutoFlush(g.(autoFlushInterval := DefaultGoogleAutoFlushInterval), createErr)
  {
  }
}
