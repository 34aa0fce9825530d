# slog-cloudlogging in Dafny

A model of the Google adapter of `slog-cloudlogging`, a Go `slog.Handler` that
turns log records into Google Cloud Logging entries, buffers them in the
cloud-logging logger and flushes them on demand or from a background ticker.

The model has five modules:

- `Wrappers`: `Option` (Go's nil) and `Result` (a call that returns or panics).
- `Foreign`: stand-ins for the library types the adapter uses. These are slog
  levels, attributes, records and values, time values, OpenTelemetry span
  contexts and the wrapped handler. Three library functions are passed in as a
  `Formatter` value: `slog.Value.String`, `time.Time.Unix` and RFC 3339
  formatting.
- `CloudLogging` (google.go): the `Google` struct, `Line`, `Entry`, the
  severity switch, the payload construction, the trace fields, `init`, `Print`,
  `Flush`, the set-up part of `AutoFlush` and one tick of its background goroutine.
- `SlogHandler` (handler.go): `Opts`, `NewHandler`, the data map of `Handle`,
  the forwarding decision, and the delegating `Enabled`, `WithAttrs` and
  `WithGroup`.
- `Lifecycle`: runs of several calls on one adapter. It proves that the
  adapter stays well formed, that after `NewHandler` no further client is
  created, that Print and Handle each enqueue exactly one entry, and that after
  `NewHandler` Flush never reports an uninitialized logger.

Modelling choices:

- The cloud-logging client is an abstract sink. A `Logger` holds the buffer
  that `Logger.Log` appends to. Whether `logging.NewClient` fails and what
  `Logger.Flush` returns are parameters (`createErr`, `sinkErr`). A successful
  sink flush empties the buffer. A failed flush leaves the buffer as it was.
  That second rule is a choice about the foreign sink, not a promise of the
  adapter.
- The model's `Google` carries one field the Go struct lacks: `clientsCreated`,
  the number of clients `logging.NewClient` has handed the adapter. Each client
  carries the serial number it was created with. This makes a re-created
  client distinguishable from the one it replaces.
- A Go panic is a `Failure(Panic)` result. Calling a method on a nil wrapped
  handler is the panic `NilHandler`.
- `AutoFlushInterval` is Go's `int`, taken as 64-bit. The ticker period
  `time.Duration(interval) * time.Millisecond` is computed with explicit int64
  wrap-around. `time.NewTicker` panics on a non-positive duration, and that
  panic is modelled. So a small negative interval panics. A negative interval
  large enough to wrap to a positive duration does not.
- The wrapped handler is an identity plus the list of records it was asked to
  handle. "Forwarded" means that list grew by the record. The wrapped
  handler's answers (`Handle` error, `Enabled`, `WithAttrs`, `WithGroup`) are
  parameters. An error from the wrapped handler, like one from the sink, is
  identified by its message (`HandlerError`, `SinkError`).

Notes on the source:

- Precedence of `time` and `timestamp`: google.go:64-68 writes non-empty
  string attributes again after google.go:62-63 has set the two keys, so such
  an attribute wins over the line's own value (`CloudLogging.Payload`,
  `SlogHandler.HandleTimeOverride`).
- handler.go:48 calls `g.Print(l)` with one argument. `Print` is declared
  `Print(ctx, main)` (google.go:41), so the file does not compile as written.
  The model's `Handle` passes its own context to `Print`.

## Model

| member | source | states |
|---|---|---|
| CloudLogging.SeverityOf | google.go:45-55 | Each of Error, Warning, Info and Debug is produced exactly when the level is the matching slog level (both directions). Every other level gives the zero severity. |
| CloudLogging.SeverityRoundTrip | google.go:45-55 | Mapping a severity back to a level recovers the level exactly for the four named levels. Only the zero severity has no level. |
| CloudLogging.Payload | google.go:57-68 | The payload's keys are exactly the data keys plus `timestamp` and `time`. Every non-empty string attribute keeps its value, including under `time` and `timestamp`. Every other key keeps its data value. `timestamp`/`time` hold the line's values unless the data has a non-empty string there. |
| CloudLogging.CopyData | google.go:58-61 | The copy loop yields the data map itself, whatever the iteration order. |
| CloudLogging.WriteStrings | google.go:64-68 | The re-write loop overlays exactly the non-empty string entries of the data on the map so far, whatever the iteration order. |
| CloudLogging.BuildPayload | google.go:57-68 | Copy, set `timestamp`, set `time`, re-write strings, in source order: the result is the payload described above. |
| CloudLogging.Normalize | google.go:45-81 | The entry's severity is the mapped level and its payload is the built payload. With tracing on and a valid span, the trace is the prefix plus the trace id, and the span id and sampled flag are the span's. Otherwise all three trace fields keep their zero values. |
| CloudLogging.Init | google.go:121-134 | On a ready adapter it changes nothing. Otherwise a creation error panics. On success a new client is created for the project (the count of created clients goes up by one) and the logger is a fresh one for the log name. No configuration field changes. |
| CloudLogging.Print | google.go:41-85 | Print panics exactly when the adapter is not ready and client creation fails. Otherwise it leaves the adapter ready with the configuration unchanged. The buffer is the retained buffer plus exactly one entry, the normalized line. A ready adapter keeps its client and creates none; otherwise exactly one client is created. |
| CloudLogging.Flush | google.go:114-119 | Flush returns the uninitialized-logger error exactly when the receiver or its logger is nil, and then changes nothing. Otherwise it returns the sink's result: nil with the buffer drained, or the sink's error with nothing changed. Only the logger field can change. |
| CloudLogging.EffectiveInterval | google.go:89-91 | A zero interval becomes 500. Any other interval is kept. |
| CloudLogging.AutoFlush | google.go:87-92 | AutoFlush inits the adapter. It stores the defaulted interval and changes nothing else besides the client and logger. The ticker period is positive. For an interval from 1 to the largest one that does not overflow, the period is the interval times one million nanoseconds. A negative interval in that range panics. A client creation error panics. |
| CloudLogging.AutoFlushTick | google.go:101-106 | Without a logger the tick does nothing. With one, a failed flush panics with the sink's error. A successful flush drains the buffer and changes nothing else. |
| CloudLogging.AutoFlushZeroIsDefault | google.go:88-92 | AutoFlush with interval 0 gives the same outcome as AutoFlush with interval 500. |
| SlogHandler.NewHandler | handler.go:17-29 | NewHandler fails exactly when client creation fails. On success the adapter is ready with exactly one client created and a fresh logger, and tracing is off with an empty prefix. Without options the handler is nil, forwarding is off and the interval is 0. With options those three fields are copied. Flush on the result never returns the uninitialized-logger error. |
| SlogHandler.Enabled | handler.go:31-33 | Enabled returns the wrapped handler's answer. With no wrapped handler it panics, and only then. |
| SlogHandler.WithAttrs | handler.go:56-58 | WithAttrs returns the wrapped handler's derived handler. With no wrapped handler it panics, and only then. |
| SlogHandler.WithGroup | handler.go:60-62 | WithGroup returns the wrapped handler's derived handler. With no wrapped handler it panics, and only then. |
| SlogHandler.AttrData | handler.go:36-40 | The attribute map's keys are exactly the attribute keys, and every value is a string. |
| SlogHandler.LastAttrWins | handler.go:37-40 | The value under a key is the display string of the last attribute with that key. |
| SlogHandler.DataMap | handler.go:36-41 | Handle's data map has the attribute keys plus `message`. `message` holds the record's message even if an attribute has that name. Every value is a string. |
| SlogHandler.DataMapAttrs | handler.go:36-41 | Every attribute key other than `message` holds the display string of its last attribute. |
| SlogHandler.CollectData | handler.go:36-41 | The attribute loop followed by the message assignment yields exactly the data map above. |
| SlogHandler.LineOf | handler.go:42-47 | The line has the record's level, its Unix seconds and its RFC 3339 time. Its data has the attribute keys plus `message`, holding the record's message. |
| SlogHandler.Handle | handler.go:35-54 | Handle enqueues exactly one entry, the normalized line of the record. With forwarding off it returns nil and the wrapped handler is untouched. With forwarding on, the record goes to the wrapped handler, its error comes back verbatim, and nothing else in the configuration changes. Handle panics with the creation error when client creation fails, and otherwise panics (NilHandler) exactly when forwarding is on with no wrapped handler. |
| SlogHandler.HandleTimeOverride | google.go:62-68 | A `time` attribute with a non-empty display string replaces the formatted record time in the enqueued payload. An empty one leaves the formatted time. |
| SlogHandler.HandleTimeKept | google.go:62-63 | Without a `time` attribute, the payload holds the record's formatted time. |
| Lifecycle.StepKeeps | google.go:121-134 | Every call keeps client and logger present together, for the adapter's project and log name. A ready adapter stays ready with the same client and creates no other. |
| Lifecycle.RunKeepsClient | google.go:121-134 | Over any run without a panic the adapter stays well formed, and once ready it keeps its client and creates no other. |
| Lifecycle.ClientCreatedOnce | handler.go:17-29 | After NewHandler and any run of calls without a panic, exactly one client has been created, the one NewHandler made. |
| Lifecycle.FlushAfterNewHandler | handler.go:17-29 | After NewHandler and any run of calls, Flush never returns the uninitialized-logger error. |
| Lifecycle.EnqueueCount | google.go:83-84 | On a ready adapter, a run of Print and Handle calls keeps every buffered entry and adds exactly one entry per call. |
| Lifecycle.DrainEmptiesBuffer | google.go:114-116 | A successful explicit flush or background tick on a ready adapter leaves the buffer empty. |

## Left out

- The cloud-logging client and transport (`logging.NewClient`, `Client.Logger`, `Logger.Log`, `Logger.Flush`). These are foreign calls, replaced by the abstract sink and its outcome parameters.
- The goroutine, ticker loop and `done` channel of `AutoFlush` (google.go:92-111). They are concurrency and timing. Only the set-up (init, interval default, ticker period) and a single tick are modelled, so stopping through `done` and running several background goroutines at once are not modelled.
- The unsynchronized first use of `init` from several goroutines. That is concurrency; the model runs calls one after another.
- The state a recovered panic leaves behind, such as a nil client after a failed `NewClient`. A panic is only an abort outcome.
- OpenTelemetry span extraction and the hex formatting of trace and span ids. A span context is a record whose ids are opaque strings.
- `slog.Value.String`, `time.Time.Unix` and RFC 3339 formatting. These are library behaviour, passed in as functions.
- slog group attributes and the record's program counter. Attributes are a flat list, visited in order.
- Severities the adapter never produces (Notice, Critical, Alert, Emergency). They are not in the `Severity` datatype.
- examples/main.go: a demo program with no logic of its own.
