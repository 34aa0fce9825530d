/** The slog.Handler side of the adapter (handler.go): construction from
    options, the record-to-line conversion of Handle, the forwarding
    decision, and the delegating Enabled, WithAttrs and WithGroup. */
module SlogHandler {
  import opened Wrappers
  import opened Foreign
  import opened CloudLogging

  const MessageKey := "message"

  /** Options of NewHandler. */
  datatype Opts = Opts(handler: Option<Handler>, forwardHandler: bool, autoFlushInterval: int64)

  /** NewHandler: a Google for the project and log name, the three option
      fields copied when options are given, then initialized. Tracing is
      never switched on here. */
  function NewHandler(project: string, logName: string, opts: Option<Opts>, createErr: Option<string>)
    : (r: Result<Google, Panic>)
    ensures r.Failure? <==> createErr.Some?
    ensures r.Failure? ==> r.error == ClientCreationFailed(createErr.value)
    ensures r.Success? ==>
      && Ready(r.value)
      && r.value.projectID == project
      && r.value.logName == logName
      && r.value.clientsCreated == 1
      && r.value.client == Some(Client(project, 1))
      && r.value.logger == Some(Logger(logName, []))
      && !r.value.useOpenTelemetryTracer
      && r.value.tracePrefix == ""
    ensures r.Success? && opts.None? ==>
      r.value.handler.None? && !r.value.forwardHandler && r.value.autoFlushInterval == 0
    ensures r.Success? && opts.Some? ==>
      && r.value.handler == opts.value.handler
      && r.value.forwardHandler == opts.value.forwardHandler
      && r.value.autoFlushInterval == opts.value.autoFlushInterval
    ensures r.Success? ==> forall sinkErr :: Flush(Some(r.value), sinkErr).err != Some(ErrUninitializedLogger)
  {
    var g := Google(project, logName, 0, None, None, None, false, false, "", 0);
    var g := match opts
      case None => g
      case Some(o) => g.(handler := o.handler, autoFlushInterval := o.autoFlushInterval,
                         forwardHandler := o.forwardHandler);
    Init(g, createErr)
  }

  /** Enabled delegates to the wrapped handler; with none it panics. */
  function Enabled(g: Google, ctx: Context, level: Level, enabled: (Handler, Context, Level) -> bool)
    : (r: Result<bool, Panic>)
    ensures g.handler.None? <==> r == Failure(NilHandler)
    ensures g.handler.Some? ==> r == Success(enabled(g.handler.value, ctx, level))
  {
    match g.handler
    case None => Failure(NilHandler)
    case Some(h) => Success(enabled(h, ctx, level))
  }

  /** WithAttrs returns the wrapped handler's own result; with none it panics. */
  function WithAttrs(g: Google, attrs: seq<Attr>, withAttrs: (Handler, seq<Attr>) -> Handler)
    : (r: Result<Handler, Panic>)
    ensures g.handler.None? <==> r == Failure(NilHandler)
    ensures g.handler.Some? ==> r == Success(withAttrs(g.handler.value, attrs))
  {
    match g.handler
    case None => Failure(NilHandler)
    case Some(h) => Success(withAttrs(h, attrs))
  }

  /** WithGroup returns the wrapped handler's own result; with none it panics. */
  function WithGroup(g: Google, name: string, withGroup: (Handler, string) -> Handler)
    : (r: Result<Handler, Panic>)
    ensures g.handler.None? <==> r == Failure(NilHandler)
    ensures g.handler.Some? ==> r == Success(withGroup(g.handler.value, name))
  {
    match g.handler
    case None => Failure(NilHandler)
    case Some(h) => Success(withGroup(h, name))
  }

  // ---------------------------------------------------------------------
  // The data map of Handle
  // ---------------------------------------------------------------------

  /** The keys of a sequence of attributes. */
  function KeysOf(attrs: seq<Attr>): set<string> {
    set i | 0 <= i < |attrs| :: attrs[i].key
  }

  /** The map Record.Attrs' callback builds: each attribute written under
      its key as its display string, a later attribute replacing an
      earlier one with the same key. */
  function AttrData(attrs: seq<Attr>, fmt: Formatter): (m: map<string, Value>)
    ensures m.Keys == KeysOf(attrs)
    ensures forall k :: k in m ==> m[k].Str?
    decreases |attrs|
  {
    if attrs == [] then map[]
    else
      var last := attrs[|attrs| - 1];
      var prefix := attrs[..|attrs| - 1];
      assert KeysOf(attrs) == KeysOf(prefix) + {last.key} by {
        forall k | k in KeysOf(attrs) ensures k in KeysOf(prefix) + {last.key} {
          var i :| 0 <= i < |attrs| && attrs[i].key == k;
          if i < |attrs| - 1 { assert prefix[i] == attrs[i]; }
        }
        forall k | k in KeysOf(prefix) ensures k in KeysOf(attrs) {
          var i :| 0 <= i < |prefix| && prefix[i].key == k;
          assert attrs[i] == prefix[i];
        }
      }
      AttrData(prefix, fmt)[last.key := Str(fmt.valueString(last.value))]
  }

  /** No attribute after position i has the key of attribute i. */
  predicate LastWithKey(attrs: seq<Attr>, i: int)
    requires 0 <= i < |attrs|
  {
    forall j :: i < j < |attrs| ==> attrs[j].key != attrs[i].key
  }

  /** The last attribute with a given key decides that key's value. */
  lemma {:induction false} LastAttrWins(attrs: seq<Attr>, fmt: Formatter, i: int)
    requires 0 <= i < |attrs|
    requires LastWithKey(attrs, i)
    ensures attrs[i].key in AttrData(attrs, fmt)
    ensures AttrData(attrs, fmt)[attrs[i].key] == Str(fmt.valueString(attrs[i].value))
    decreases |attrs|
  {
    var n := |attrs|;
    if i < n - 1 {
      var prefix := attrs[..n - 1];
      assert prefix[i] == attrs[i];
      assert LastWithKey(prefix, i) by {
        forall j | i < j < |prefix| ensures prefix[j].key != prefix[i].key {
          assert prefix[j] == attrs[j];
        }
      }
      LastAttrWins(prefix, fmt, i);
      assert attrs[n - 1].key != attrs[i].key;
    }
  }

  /** The data map of Handle: the attributes, then the record's message
      under "message", replacing any attribute of that name. */
  function DataMap(record: Record, fmt: Formatter): (m: map<string, Value>)
    ensures m.Keys == KeysOf(record.attrs) + {MessageKey}
    ensures m[MessageKey] == Str(record.message)
    ensures forall k :: k in m ==> m[k].Str?
  {
    AttrData(record.attrs, fmt)[MessageKey := Str(record.message)]
  }

  /** Every attribute key other than "message" carries the display string of
      the last attribute with that key. */
  lemma DataMapAttrs(record: Record, fmt: Formatter, i: int)
    requires 0 <= i < |record.attrs|
    requires LastWithKey(record.attrs, i)
    requires record.attrs[i].key != MessageKey
    ensures DataMap(record, fmt)[record.attrs[i].key] == Str(fmt.valueString(record.attrs[i].value))
  {
    LastAttrWins(record.attrs, fmt, i);
  }

  /** Handle's loop over the record's attributes followed by the message,
      as handler.go writes it. */
  method CollectData(record: Record, fmt: Formatter) returns (data: map<string, Value>)
    ensures data == DataMap(record, fmt)
  {
    data := map[];
    var i := 0;
    while i < |record.attrs|
      invariant 0 <= i <= |record.attrs|
      invariant data == AttrData(record.attrs[..i], fmt)
    {
      var attr := record.attrs[i];
      assert record.attrs[..i + 1][..i] == record.attrs[..i];
      data := data[attr.key := Str(fmt.valueString(attr.value))];
      i := i + 1;
    }
    assert record.attrs[..i] == record.attrs;
    data := data[MessageKey := Str(record.message)];
  }

  /** The Line Handle hands to Print. */
  function LineOf(record: Record, fmt: Formatter): (l: Line)
    ensures l.level == record.level
    ensures l.timestamp == fmt.unix(record.time)
    ensures l.time == fmt.rfc3339(record.time)
    ensures l.data.Keys == KeysOf(record.attrs) + {MessageKey}
    ensures l.data[MessageKey] == Str(record.message)
  {
    Line(record.level, fmt.unix(record.time), fmt.rfc3339(record.time), DataMap(record, fmt))
  }

  // ---------------------------------------------------------------------
  // Handle
  // ---------------------------------------------------------------------

  /** What Handle returns and leaves behind. */
  datatype Handled = Handled(g: Google, err: Option<LogError>)

  /** Handle: print the record's line (passing Handle's own context on),
      then, when forwarding is on, hand the record to the wrapped handler
      and return its result (forwardErr, the wrapped handler's error if
      any); otherwise return nil. */
  function Handle(g: Google, ctx: Context, record: Record, fmt: Formatter,
                  createErr: Option<string>, forwardErr: Option<string>): (r: Result<Handled, Panic>)
    ensures !Ready(g) && createErr.Some? ==> r == Failure(ClientCreationFailed(createErr.value))
    ensures (Ready(g) || createErr.None?) ==>
      (r.Failure? <==> g.forwardHandler && g.handler.None?)
    ensures (Ready(g) || createErr.None?) && g.forwardHandler && g.handler.None? ==> r == Failure(NilHandler)
    ensures r.Success? ==>
      && Ready(r.value.g)
      && (Ready(g) ==> r.value.g.client == g.client)
      && r.value.g.clientsCreated == g.clientsCreated + (if Ready(g) then 0 else 1)
      && r.value.g.logger.value.buffer == Retained(g) + [Normalize(g, ctx, LineOf(record, fmt))]
    ensures r.Success? && !g.forwardHandler ==>
      && r.value.err.None?
      && SameConfig(g, r.value.g)
    ensures r.Success? && g.forwardHandler ==>
      && r.value.err == (if forwardErr.None? then None else Some(HandlerError(forwardErr.value)))
      && SameConfig(g, r.value.g.(handler := g.handler))
      && r.value.g.handler == Some(g.handler.value.(handled := g.handler.value.handled + [record]))
  {
    match Print(g, ctx, LineOf(record, fmt), createErr)
    case Failure(p) => Failure(p)
    case Success(h) =>
      if h.forwardHandler then
        match h.handler
        case None => Failure(NilHandler)
        case Some(w) =>
          var err := match forwardErr
            case None => None
            case Some(msg) => Some(HandlerError(msg));
          Success(Handled(h.(handler := Some(w.(handled := w.handled + [record]))), err))
      else
        Success(Handled(h, None))
  }

  /** An attribute named "time" whose display string is not empty replaces
      the formatted record time in the payload of the entry Handle enqueues;
      otherwise the formatted time stays. */
  lemma HandleTimeOverride(g: Google, ctx: Context, record: Record, fmt: Formatter, i: int)
    requires 0 <= i < |record.attrs|
    requires LastWithKey(record.attrs, i)
    requires record.attrs[i].key == TimeKey
    ensures Normalize(g, ctx, LineOf(record, fmt)).payload[TimeKey] ==
      if fmt.valueString(record.attrs[i].value) != "" then Str(fmt.valueString(record.attrs[i].value))
      else Str(fmt.rfc3339(record.time))
  {
    DataMapAttrs(record, fmt, i);
  }

  /** Without an attribute named "time", the entry keeps the formatted
      record time. */
  lemma HandleTimeKept(g: Google, ctx: Context, record: Record, fmt: Formatter)
    requires TimeKey !in KeysOf(record.attrs)
    ensures Normalize(g, ctx, LineOf(record, fmt)).payload[TimeKey] == Str(fmt.rfc3339(record.time))
  {
  }
}
