/** Stand-ins for the library types the adapter consumes: log/slog levels,
    attributes and records, time values, OpenTelemetry span contexts and the
    wrapped slog handler. Library behaviour that the adapter only calls
    (Value.String, Time.Unix, RFC 3339 formatting) is passed in as a
    Formatter rather than defined here. */
module Foreign {
  import opened Wrappers

  /** Go's int64 (and, on 64-bit platforms, Go's int). */
  type int64 = x: int | -0x8000_0000_0000_0000 <= x < 0x8000_0000_0000_0000

  /** slog.Level is an integer; the four named levels are these constants.
      Any other integer is a legal level too. */
  type Level = int
  const LevelDebug: Level := -4
  const LevelInfo: Level := 0
  const LevelWarn: Level := 4
  const LevelError: Level := 8

  /** A dynamically typed value (Go's interface{}): a string, an integer,
      or something else identified only by an opaque tag. */
  datatype Value = Str(s: string) | Int(n: int) | Other(tag: nat)

  /** A key/value attribute of a record. */
  datatype Attr = Attr(key: string, value: Value)

  /** A point in time, opaque to the adapter. */
  datatype Time = Time(instant: int)

  /** An slog.Record: time, message, level and attributes in the order
      Record.Attrs visits them. */
  datatype Record = Record(time: Time, message: string, level: Level, attrs: seq<Attr>)

  /** The library functions the adapter calls and treats as given:
      slog.Value.String, time.Time.Unix and time.Time.Format(time.RFC3339). */
  datatype Formatter = Formatter(
    valueString: Value -> string,
    unix: Time -> int64,
    rfc3339: Time -> string)

  /** An OpenTelemetry span context; the ids are kept as their string forms. */
  datatype SpanContext = SpanContext(valid: bool, traceID: string, spanID: string, sampled: bool)

  /** The request context; it may carry a span context. */
  datatype Context = Context(span: Option<SpanContext>)

  /** The zero span context: not valid, empty ids, not sampled. */
  const EmptySpanContext := SpanContext(false, "", "", false)

  /** trace.SpanContextFromContext: the carried span, or the zero span
      context when there is none. */
  function SpanContextFromContext(ctx: Context): (s: SpanContext)
    ensures ctx.span.None? ==> !s.valid
    ensures ctx.span.Some? ==> s == ctx.span.value
  {
    match ctx.span
    case Some(s) => s
    case None => EmptySpanContext
  }

  /** The wrapped slog.Handler, seen from outside: an identity and the
      records it has been asked to handle, in order. */
  datatype Handler = Handler(id: nat, handled: seq<Record>)
}
