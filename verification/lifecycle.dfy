/** Runs of several adapter calls on one Google value: the well-formedness
    every call keeps, the one-time creation of the client, the buffer
    accounting of Print and Handle, and the absence of the uninitialized
    error after NewHandler. */
module Lifecycle {
  import opened Wrappers
  import opened Foreign
  import opened CloudLogging
  import opened SlogHandler

  /** The outcomes of the backend and library calls a run depends on. */
  datatype Env = Env(createErr: Option<string>, fmt: Formatter)

  /** One call on the adapter, with the outcomes of the foreign calls it
      makes. */
  datatype Op =
    | PrintOp(ctx: Context, line: Line)
    | HandleOp(ctx: Context, record: Record, forwardErr: Option<string>)
    | FlushOp(sinkErr: Option<string>)
    | AutoFlushOp
    | TickOp(sinkErr: Option<string>)

  /** The receiver after one call, or the panic it ended in. An error that
      Flush returns goes to its caller and the run goes on. */
  function Step(g: Google, op: Op, env: Env): Result<Google, Panic> {
    match op
    case PrintOp(ctx, line) => Print(g, ctx, line, env.createErr)
    case HandleOp(ctx, record, forwardErr) =>
      (match Handle(g, ctx, record, env.fmt, env.createErr, forwardErr)
       case Failure(p) => Failure(p)
       case Success(h) => Success(h.g))
    case FlushOp(sinkErr) => Success(Flush(Some(g), sinkErr).g.value)
    case AutoFlushOp =>
      (match AutoFlush(g, env.createErr)
       case Failure(p) => Failure(p)
       case Success(t) => Success(t.g))
    case TickOp(sinkErr) => AutoFlushTick(g, sinkErr)
  }

  /** The calls in order, stopping at the first panic. */
  function Run(g: Google, ops: seq<Op>, env: Env): Result<Google, Panic>
    decreases |ops|
  {
    if ops == [] then Success(g)
    else
      match Step(g, ops[0], env)
      case Failure(p) => Failure(p)
      case Success(h) => Run(h, ops[1..], env)
  }

  /** The client and the logger exist together, belong to the adapter's
      project and log name, and the client is the last one created. */
  predicate Wf(g: Google) {
    && (g.client.Some? <==> g.logger.Some?)
    && (g.client.Some? ==> g.client.value.projectID == g.projectID)
    && (g.client.Some? ==> g.client.value.serial == g.clientsCreated)
    && (g.logger.Some? ==> g.logger.value.logName == g.logName)
  }

  /** Every call keeps the adapter well formed, and once it is ready it
      stays ready with the same client and logger name. */
  lemma StepKeeps(g: Google, op: Op, env: Env)
    requires Wf(g)
    requires Step(g, op, env).Success?
    ensures Wf(Step(g, op, env).value)
    ensures Ready(g) ==> Ready(Step(g, op, env).value) && Step(g, op, env).value.client == g.client
    ensures Ready(g) ==> Step(g, op, env).value.clientsCreated == g.clientsCreated
    ensures Step(g, op, env).value.projectID == g.projectID
    ensures Step(g, op, env).value.logName == g.logName
  {
  }

  /** Over any run without a panic, a ready adapter keeps its client and
      creates no other one. The adapter also stays well formed. */
  lemma {:induction false} RunKeepsClient(g: Google, ops: seq<Op>, env: Env)
    requires Wf(g)
    requires Run(g, ops, env).Success?
    ensures Wf(Run(g, ops, env).value)
    ensures Ready(g) ==> Ready(Run(g, ops, env).value) && Run(g, ops, env).value.client == g.client
    ensures Ready(g) ==> Run(g, ops, env).value.clientsCreated == g.clientsCreated
    decreases |ops|
  {
    if ops != [] {
      StepKeeps(g, ops[0], env);
      RunKeepsClient(Step(g, ops[0], env).value, ops[1..], env);
    }
  }

  /** After NewHandler, no run of calls ever makes Flush return the
      uninitialized-logger error. */
  lemma FlushAfterNewHandler(project: string, logName: string, opts: Option<Opts>, ops: seq<Op>,
                             env: Env, sinkErr: Option<string>)
    requires NewHandler(project, logName, opts, env.createErr).Success?
    requires Run(NewHandler(project, logName, opts, env.createErr).value, ops, env).Success?
    ensures Flush(Some(Run(NewHandler(project, logName, opts, env.createErr).value, ops, env).value), sinkErr).err
            != Some(ErrUninitializedLogger)
  {
    RunKeepsClient(NewHandler(project, logName, opts, env.createErr).value, ops, env);
  }

  /** NewHandler creates exactly one client, and no run of calls after it
      creates another: the client is created at most once. */
  lemma ClientCreatedOnce(project: string, logName: string, opts: Option<Opts>, ops: seq<Op>, env: Env)
    requires NewHandler(project, logName, opts, env.createErr).Success?
    requires Run(NewHandler(project, logName, opts, env.createErr).value, ops, env).Success?
    ensures Run(NewHandler(project, logName, opts, env.createErr).value, ops, env).value.clientsCreated == 1
    ensures Run(NewHandler(project, logName, opts, env.createErr).value, ops, env).value.client
            == Some(Client(project, 1))
  {
    RunKeepsClient(NewHandler(project, logName, opts, env.createErr).value, ops, env);
  }

  /** Print and Handle calls only. */
  predicate OnlyEnqueues(ops: seq<Op>) {
    forall i :: 0 <= i < |ops| ==> ops[i].PrintOp? || ops[i].HandleOp?
  }

  /** On a ready adapter, a run of Print and Handle calls keeps every
      buffered entry and appends exactly one entry per call. */
  lemma {:induction false} EnqueueCount(g: Google, ops: seq<Op>, env: Env)
    requires Ready(g)
    requires OnlyEnqueues(ops)
    requires Run(g, ops, env).Success?
    ensures Ready(Run(g, ops, env).value)
    ensures |Run(g, ops, env).value.logger.value.buffer| == |g.logger.value.buffer| + |ops|
    ensures g.logger.value.buffer <= Run(g, ops, env).value.logger.value.buffer
    decreases |ops|
  {
    if ops != [] {
      var h := Step(g, ops[0], env).value;
      assert h.logger.value.buffer == g.logger.value.buffer + [h.logger.value.buffer[|h.logger.value.buffer| - 1]];
      assert OnlyEnqueues(ops[1..]) by {
        forall i | 0 <= i < |ops[1..]| ensures ops[1..][i].PrintOp? || ops[1..][i].HandleOp? {
          assert ops[1..][i] == ops[i + 1];
        }
      }
      EnqueueCount(h, ops[1..], env);
    }
  }

  /** A successful explicit flush or background tick on a ready adapter
      leaves nothing buffered. */
  lemma DrainEmptiesBuffer(g: Google, op: Op, env: Env)
    requires Ready(g)
    requires op == FlushOp(None) || op == TickOp(None)
    ensures Step(g, op, env).Success?
    ensures Step(g, op, env).value.logger.value.buffer == []
  {
  }
}
