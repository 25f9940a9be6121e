/**
 * The TChannel inbound pipeline (`handler.callHandler` and `handler.handle`
 * in transport/tchannel/handler.go): every inbound call is gated on its
 * deadline, has its headers decoded and its body opened, is validated and
 * routed, and is dispatched to a unary handler with a response writer; the
 * outcome is then sent as a system error, or closed as a response, possibly
 * carrying application-error headers.
 *
 * `CallHandler` and `Handle` are proved against `CallHandlerOutcome` and
 * `HandleEvents`; the lemmas below state the pipeline's guarantees there.
 */
module Inbound {
  import opened Wrappers
  import opened Errors
  import opened Trace
  import opened TChannelErrors
  import opened ResponseWriting

  const ErrorCodeHeaderKey: string := "$rpc$-error-code"
  const ErrorNameHeaderKey: string := "$rpc$-error-name"
  const ErrorMessageHeaderKey: string := "$rpc$-error-message"

  /** `transport.Request` (its body stream is the arg-3 reader, kept out of the record). */
  datatype Request = Request(
    caller: string, service: string, encoding: string, procedure: string,
    shardKey: string, routingKey: string, routingDelegate: string, headers: Headers)

  /** One call a unary handler makes on its response writer. */
  datatype WriterOp = AddHeadersOp(items: Headers) | WriteOp(bytes: Bytes) | SetApplicationErrorOp

  /** A unary handler: the calls it makes on the writer, in order, and the error it returns. */
  datatype UnaryHandler = UnaryHandler(ops: seq<WriterOp>, result: Option<Error>)

  /** What the router returns: a handler spec tagged with its type. */
  datatype HandlerSpec = Unary(unary: UnaryHandler) | Oneway | Streaming

  /** `spec.Type().String()`. */
  function TypeName(spec: HandlerSpec): string {
    match spec
    case Unary(_) => "Unary"
    case Oneway => "Oneway"
    case Streaming => "Streaming"
  }

  /**
   * `inboundCall`: its accessors, whether it is the adaptor for a native
   * TChannel call (`tchannelCall`), what reading and decoding arg-2 gives,
   * and whether opening the arg-3 reader fails.
   */
  datatype InboundCall = InboundCall(
    serviceName: string, callerName: string, methodString: string,
    shardKey: string, routingKey: string, routingDelegate: string, format: string,
    native: bool,
    headers: Result<Headers, Error>,
    arg3Reader: Option<Error>)

  /** The `handler` struct: the legacy handlers by method name, and the router. */
  datatype Handler = Handler(existing: set<string>, choose: Request -> Result<HandlerSpec, Error>)

  /** Functions `callHandler` and `handle` call that are defined elsewhere. */
  datatype Helpers = Helpers(
    validateRequest: Request -> Option<Error>,               // transport.ValidateRequest
    validateUnaryContext: Option<Error>,                     // transport.ValidateUnaryContext(ctx)
    requestHeadersDecodeError: (Request, Error) -> Error,     // errors.RequestHeadersDecodeError
    wrapHandlerError: (Error, string, string) -> Error)       // errors.WrapHandlerError

  /** The request `callHandler` builds before reading any argument. */
  function Skeleton(call: InboundCall): Request {
    Request(call.callerName, call.serviceName, call.format, call.methodString,
            call.shardKey, call.routingKey, call.routingDelegate, [])
  }

  function UnsupportedTypeError(spec: HandlerSpec): Error {
    Status(Unimplemented, "", "transport tchannel does not handle " + TypeName(spec) + " handlers")
  }

  /** The writer state after one handler call, and the effects it had. */
  datatype Run = Run(state: WriterState, events: seq<Event>)

  function ApplyOp(st: WriterState, op: WriterOp, env: Collaborators): Run {
    match op
    case AddHeadersOp(items) => Run(AddHeadersState(st, items, env.isReservedHeaderKey), [])
    case WriteOp(bytes) =>
      var w := WriteStep(st, bytes, env.bufferWrite);
      Run(w.state, w.events)
    case SetApplicationErrorOp => Run(st.(isApplicationError := true), [])
  }

  /** The handler's calls taken in order. */
  function RunOps(st: WriterState, ops: seq<WriterOp>, env: Collaborators): Run
    decreases |ops|
  {
    if ops == [] then Run(st, [])
    else
      var before := RunOps(st, ops[..|ops| - 1], env);
      var last := ApplyOp(before.state, ops[|ops| - 1], env);
      Run(last.state, before.events + last.events)
  }

  /** What `callHandler` returns, the writer it leaves and the effects it has. */
  datatype CallOutcome = CallOutcome(err: Option<Error>, writer: WriterState, events: seq<Event>)

  /** Validation, routing and dispatch, done while the arg-3 reader is open. */
  function RouteOutcome(h: Handler, p: Helpers, call: InboundCall, req: Request, st: WriterState,
                        env: Collaborators): CallOutcome
  {
    if p.validateRequest(req).Some? then CallOutcome(p.validateRequest(req), st, [])
    else
      match h.choose(req)
      case Failure(e) =>
        if CodeOf(e) != Unimplemented then CallOutcome(Some(e), st, [RouteChosen])
        else if !call.native && call.methodString in h.existing
        then CallOutcome(None, st, [RouteChosen, LegacyHandled(call.methodString)])
        else CallOutcome(Some(e), st, [RouteChosen])
      case Success(spec) =>
        if spec.Unary? then
          if p.validateUnaryContext.Some? then CallOutcome(p.validateUnaryContext, st, [RouteChosen])
          else
            var run := RunOps(st, spec.unary.ops, env);
            CallOutcome(spec.unary.result, run.state, [RouteChosen, UnaryDispatched] + run.events)
        else CallOutcome(Some(UnsupportedTypeError(spec)), st, [RouteChosen])
  }

  function CallHandlerOutcome(h: Handler, p: Helpers, call: InboundCall, hasDeadline: bool,
                              st: WriterState, env: Collaborators): CallOutcome
  {
    if !hasDeadline then CallOutcome(Some(ErrTimeoutRequired), st, [])
    else
      match call.headers
      case Failure(e) => CallOutcome(Some(p.requestHeadersDecodeError(Skeleton(call), e)), st, [Arg2Read])
      case Success(headers) =>
        if call.arg3Reader.Some? then CallOutcome(call.arg3Reader, st, [Arg2Read, Arg3ReaderOpened])
        else
          var r := RouteOutcome(h, p, call, Skeleton(call).(headers := headers), st, env);
          CallOutcome(r.err, r.writer, [Arg2Read, Arg3ReaderOpened] + r.events + [Arg3ReaderClosed])
  }

  /** The headers `handle` adds, unchecked, for an application error. */
  function ErrorHeaders(e: Error): Headers {
    [(ErrorCodeHeaderKey, CodeText(CodeOf(e)))]
    + (if NameOf(e) != "" then [(ErrorNameHeaderKey, NameOf(e))] else [])
    + (if MessageOf(e) != "" then [(ErrorMessageHeaderKey, MessageOf(e))] else [])
  }

  /** The writer that `handle` closes. */
  function ClosingState(c: CallOutcome, p: Helpers, call: InboundCall): WriterState {
    if c.err.Some?
    then c.writer.(headers := c.writer.headers
                     + ErrorHeaders(p.wrapHandlerError(c.err.value, call.serviceName, call.methodString)))
    else c.writer
  }

  /** Whether `handle` answers with a system error and never closes the writer. */
  predicate SystemErrorPath(c: CallOutcome) {
    c.err.Some? && !c.writer.isApplicationError
  }

  /** The system error `handle` sends when closing the response fails. */
  function CloseTail(st: WriterState, o: ResponseOutcomes): seq<Event> {
    var closeErr := CloseError(st, o);
    if closeErr.Some? then [SystemErrorSent(GetSystemError(closeErr.value))] else []
  }

  /** The effects of `handle` once `callHandler` has returned. */
  function AnswerEvents(c: CallOutcome, p: Helpers, call: InboundCall, o: ResponseOutcomes): seq<Event> {
    if SystemErrorPath(c) then [SystemErrorSent(GetSystemError(c.err.value))]
    else
      var st := ClosingState(c, p, call);
      CloseEvents(st, call.format, o) + CloseTail(st, o)
  }

  /** All effects of `handle` for one call. */
  function HandleEvents(h: Handler, p: Helpers, call: InboundCall, hasDeadline: bool,
                        env: Collaborators, o: ResponseOutcomes): seq<Event>
  {
    var c := CallHandlerOutcome(h, p, call, hasDeadline, Fresh, env);
    c.events + AnswerEvents(c, p, call, o)
  }

  // ---------------------------------------------------------------------------
  // The pipeline as it runs

  /** `transport.DispatchUnaryHandler`: the handler's calls on the writer, then its error. */
  method Dispatch(u: UnaryHandler, rw: ResponseWriter) returns (err: Option<Error>)
    modifies rw, rw.response
    ensures var run := RunOps(old(rw.State()), u.ops, rw.env);
      rw.State() == run.state && rw.response.events == old(rw.response.events) + run.events
    ensures err == u.result
  {
    var i := 0;
    while i < |u.ops|
      invariant 0 <= i <= |u.ops|
      invariant rw.State() == RunOps(old(rw.State()), u.ops[..i], rw.env).state
      invariant rw.response.events == old(rw.response.events) + RunOps(old(rw.State()), u.ops[..i], rw.env).events
    {
      assert u.ops[..i + 1][..i] == u.ops[..i];
      match u.ops[i] {
        case AddHeadersOp(items) => rw.AddHeaders(items);
        case WriteOp(bytes) => var _, _ := rw.Write(bytes);
        case SetApplicationErrorOp => rw.SetApplicationError();
      }
      i := i + 1;
    }
    assert u.ops[..i] == u.ops;
    err := u.result;
  }

  method Route(h: Handler, p: Helpers, call: InboundCall, treq: Request, rw: ResponseWriter)
    returns (err: Option<Error>)
    modifies rw, rw.response
    ensures var r := RouteOutcome(h, p, call, treq, old(rw.State()), rw.env);
      err == r.err && rw.State() == r.writer && rw.response.events == old(rw.response.events) + r.events
  {
    err := p.validateRequest(treq);
    if err.Some? {
      return;
    }
    var spec := h.choose(treq);
    rw.response.Record(RouteChosen);
    if spec.Failure? {
      err := Some(spec.error);
      if CodeOf(spec.error) != Unimplemented {
        return;
      }
      if !call.native && call.methodString in h.existing {
        rw.response.Record(LegacyHandled(call.methodString));
        return None;
      }
      return;
    }
    match spec.value
    case Unary(u) =>
      err := p.validateUnaryContext;
      if err.Some? {
        return;
      }
      rw.response.Record(UnaryDispatched);
      err := Dispatch(u, rw);
    case _ =>
      err := Some(UnsupportedTypeError(spec.value));
  }

  /** `handler.callHandler`; `hasDeadline` says whether `ctx.Deadline()` reports one. */
  method CallHandler(h: Handler, p: Helpers, call: InboundCall, hasDeadline: bool, rw: ResponseWriter)
    returns (err: Option<Error>)
    modifies rw, rw.response
    ensures var c := CallHandlerOutcome(h, p, call, hasDeadline, old(rw.State()), rw.env);
      err == c.err && rw.State() == c.writer && rw.response.events == old(rw.response.events) + c.events
  {
    if !hasDeadline {
      return Some(ErrTimeoutRequired);
    }
    var treq := Skeleton(call);
    rw.response.Record(Arg2Read);
    if call.headers.Failure? {
      return Some(p.requestHeadersDecodeError(treq, call.headers.error));
    }
    treq := treq.(headers := call.headers.value);
    rw.response.Record(Arg3ReaderOpened);
    if call.arg3Reader.Some? {
      return call.arg3Reader;
    }
    err := Route(h, p, call, treq, rw);
    rw.response.Record(Arg3ReaderClosed);  // the deferred body.Close()
  }

  /** The part of `handler.handle` after `callHandler` returns `err`. */
  method Answer(p: Helpers, call: InboundCall, err: Option<Error>, rw: ResponseWriter)
    requires rw.format == call.format
    modifies rw, rw.response
    ensures rw.response.events
         == old(rw.response.events) + AnswerEvents(CallOutcome(err, old(rw.State()), []), p, call, rw.response.outcomes)
  {
    ghost var c := CallOutcome(err, rw.State(), []);
    if err.Some? && !rw.isApplicationError {
      rw.response.SendSystemError(GetSystemError(err.value));
      return;
    }
    if err.Some? && rw.isApplicationError {
      var yarpcError := p.wrapHandlerError(err.value, call.serviceName, call.methodString);
      rw.AddHeader(ErrorCodeHeaderKey, CodeText(CodeOf(yarpcError)));
      if NameOf(yarpcError) != "" {
        rw.AddHeader(ErrorNameHeaderKey, NameOf(yarpcError));
      }
      if MessageOf(yarpcError) != "" {
        rw.AddHeader(ErrorMessageHeaderKey, MessageOf(yarpcError));
      }
    }
    assert rw.State() == ClosingState(c, p, call);
    var closeErr := rw.Close();
    if closeErr.Some? {
      rw.response.SendSystemError(GetSystemError(closeErr.value));
    }
  }

  /** `handler.handle`, answering on `t`, the call's response. */
  method Handle(h: Handler, p: Helpers, call: InboundCall, hasDeadline: bool, env: Collaborators, t: Transport)
    modifies t
    ensures t.events == old(t.events) + HandleEvents(h, p, call, hasDeadline, env, t.outcomes)
  {
    var rw := new ResponseWriter(t, call.format, env);
    var err := CallHandler(h, p, call, hasDeadline, rw);
    ghost var c := CallHandlerOutcome(h, p, call, hasDeadline, Fresh, env);
    assert AnswerEvents(CallOutcome(err, rw.State(), []), p, call, t.outcomes) == AnswerEvents(c, p, call, t.outcomes);
    Answer(p, call, err, rw);
  }

  // ---------------------------------------------------------------------------
  // What the pipeline guarantees

  /** The request the router sees once arg-2 is decoded. */
  function RoutedRequest(call: InboundCall): Request {
    Skeleton(call).(headers := if call.headers.Success? then call.headers.value else [])
  }

  /** Whether a call passes every gate before routing. */
  predicate Admitted(p: Helpers, call: InboundCall, hasDeadline: bool) {
    hasDeadline && call.headers.Success? && call.arg3Reader.None?
    && p.validateRequest(RoutedRequest(call)).None?
  }

  /** Whether an unimplemented procedure is handed to a legacy handler. */
  predicate LegacyFallback(h: Handler, call: InboundCall, req: Request) {
    h.choose(req).Failure? && CodeOf(h.choose(req).error) == Unimplemented
    && !call.native && call.methodString in h.existing
  }

  /** Whether a unary handler is run. */
  predicate Dispatched(h: Handler, p: Helpers, req: Request) {
    h.choose(req).Success? && h.choose(req).value.Unary? && p.validateUnaryContext.None?
  }

  /**
   * A unary handler's calls acquire a buffer at most once, and only when the
   * writer had none; a buffer, a recorded failure and the application-error
   * flag are never dropped, and once a failure is recorded nothing more is
   * acquired.
   */
  lemma {:induction false} RunOpsEffects(st: WriterState, ops: seq<WriterOp>, env: Collaborators)
    ensures var run := RunOps(st, ops, env);
      && (forall i :: 0 <= i < |run.events| ==> run.events[i] == BufferAcquired)
      && |run.events| == (if st.buffer.None? && run.state.buffer.Some? then 1 else 0)
      && (st.buffer.Some? ==> run.state.buffer.Some?)
      && (st.failedWith.Some? ==> run.state.failedWith.Some? && run.state.buffer == st.buffer && run.events == [])
      && (st.isApplicationError ==> run.state.isApplicationError)
    decreases |ops|
  {
    if ops != [] {
      var before := RunOps(st, ops[..|ops| - 1], env);
      RunOpsEffects(st, ops[..|ops| - 1], env);
      match ops[|ops| - 1]
      case AddHeadersOp(items) =>
        AddHeadersEffect(before.state, items, env.isReservedHeaderKey);
        if before.state.failedWith.Some? {
          var k := FirstReserved(items, env.isReservedHeaderKey);
          if k < |items| {
            assert AppendError(before.state.failedWith, Some(ReservedKeyError(items[k].0))).Some?;
          }
        }
      case WriteOp(bytes) => WriteEffect(before.state, bytes, env.bufferWrite);
      case SetApplicationErrorOp =>
    }
  }

  lemma RunOpsCount(st: WriterState, ops: seq<WriterOp>, env: Collaborators, k: Kind)
    ensures var run := RunOps(st, ops, env);
      Count(run.events, k) == if k == GetBuffer && st.buffer.None? && run.state.buffer.Some? then 1 else 0
  {
    var run := RunOps(st, ops, env);
    RunOpsEffects(st, ops, env);
    CountAllOfKind(run.events, GetBuffer);
    if k != GetBuffer {
      CountZeroIsAbsent(run.events, k);
    }
  }

  /** How many effects of each kind validation, routing and dispatch have. */
  lemma RouteCount(h: Handler, p: Helpers, call: InboundCall, req: Request, st: WriterState,
                   env: Collaborators, k: Kind)
    ensures var r := RouteOutcome(h, p, call, req, st, env);
      Count(r.events, k) ==
        if p.validateRequest(req).Some? then 0
        else (if k == ChooseRoute then 1 else 0)
             + (if k == CallLegacy && LegacyFallback(h, call, req) then 1 else 0)
             + (if k == DispatchUnary && Dispatched(h, p, req) then 1 else 0)
             + (if k == GetBuffer && Dispatched(h, p, req) && st.buffer.None? && r.writer.buffer.Some? then 1 else 0)
  {
    if p.validateRequest(req).None? {
      CountSingleton(RouteChosen, k);
      if LegacyFallback(h, call, req) {
        assert [RouteChosen, LegacyHandled(call.methodString)] == [RouteChosen] + [LegacyHandled(call.methodString)];
        CountAppend([RouteChosen], [LegacyHandled(call.methodString)], k);
        CountSingleton(LegacyHandled(call.methodString), k);
      } else if Dispatched(h, p, req) {
        var run := RunOps(st, h.choose(req).value.unary.ops, env);
        assert [RouteChosen, UnaryDispatched] == [RouteChosen] + [UnaryDispatched];
        CountAppend([RouteChosen], [UnaryDispatched], k);
        CountAppend([RouteChosen, UnaryDispatched], run.events, k);
        CountSingleton(UnaryDispatched, k);
        RunOpsCount(st, h.choose(req).value.unary.ops, env, k);
      }
    }
  }

  /** How many effects of each kind `callHandler` has, around those of routing. */
  lemma CallCount(h: Handler, p: Helpers, call: InboundCall, hasDeadline: bool, st: WriterState,
                  env: Collaborators, k: Kind)
    ensures var c := CallHandlerOutcome(h, p, call, hasDeadline, st, env);
      Count(c.events, k) ==
        if !hasDeadline then 0
        else (if k == ReadArg2 then 1 else 0)
             + (if call.headers.Failure? then 0
                else (if k == OpenArg3Reader then 1 else 0)
                     + (if call.arg3Reader.Some? then 0
                        else (if k == CloseArg3Reader then 1 else 0)
                             + Count(RouteOutcome(h, p, call, RoutedRequest(call), st, env).events, k)))
  {
    var c := CallHandlerOutcome(h, p, call, hasDeadline, st, env);
    if hasDeadline {
      CountSingleton(Arg2Read, k);
      if call.headers.Success? {
        var head := [Arg2Read, Arg3ReaderOpened];
        assert head == [Arg2Read] + [Arg3ReaderOpened];
        CountAppend([Arg2Read], [Arg3ReaderOpened], k);
        CountSingleton(Arg3ReaderOpened, k);
        if call.arg3Reader.None? {
          var r := RouteOutcome(h, p, call, RoutedRequest(call), st, env);
          assert c.events == head + r.events + [Arg3ReaderClosed];
          CountAppend(head, r.events, k);
          CountAppend(head + r.events, [Arg3ReaderClosed], k);
          CountSingleton(Arg3ReaderClosed, k);
        }
      }
    }
  }

  /**
   * The request body is closed exactly when it was opened successfully, and
   * closing it is the last thing `callHandler` does; arg-2 is read first.
   */
  lemma ReaderClosedIffOpened(h: Handler, p: Helpers, call: InboundCall, hasDeadline: bool,
                              st: WriterState, env: Collaborators)
    ensures var c := CallHandlerOutcome(h, p, call, hasDeadline, st, env);
      && Count(c.events, ReadArg2) == (if hasDeadline then 1 else 0)
      && Count(c.events, OpenArg3Reader) == (if hasDeadline && call.headers.Success? then 1 else 0)
      && Count(c.events, CloseArg3Reader)
         == (if hasDeadline && call.headers.Success? && call.arg3Reader.None? then 1 else 0)
      && (Count(c.events, CloseArg3Reader) == 1 ==> c.events[|c.events| - 1] == Arg3ReaderClosed)
      && (c.events != [] ==> c.events[0] == Arg2Read)
  {
    var r := RouteOutcome(h, p, call, RoutedRequest(call), st, env);
    CallCount(h, p, call, hasDeadline, st, env, ReadArg2);
    CallCount(h, p, call, hasDeadline, st, env, OpenArg3Reader);
    CallCount(h, p, call, hasDeadline, st, env, CloseArg3Reader);
    RouteCount(h, p, call, RoutedRequest(call), st, env, ReadArg2);
    RouteCount(h, p, call, RoutedRequest(call), st, env, OpenArg3Reader);
    RouteCount(h, p, call, RoutedRequest(call), st, env, CloseArg3Reader);
  }

  /**
   * The router is consulted once for an admitted call and never otherwise,
   * and a unary handler runs at most once, only for an admitted call.
   */
  lemma RouterConsultedIffAdmitted(h: Handler, p: Helpers, call: InboundCall, hasDeadline: bool,
                                   st: WriterState, env: Collaborators)
    ensures var c := CallHandlerOutcome(h, p, call, hasDeadline, st, env);
      && Count(c.events, ChooseRoute) == (if Admitted(p, call, hasDeadline) then 1 else 0)
      && Count(c.events, DispatchUnary)
         == (if Admitted(p, call, hasDeadline) && Dispatched(h, p, RoutedRequest(call)) then 1 else 0)
      && (!Admitted(p, call, hasDeadline) ==> c.writer == st)
  {
    CallCount(h, p, call, hasDeadline, st, env, ChooseRoute);
    CallCount(h, p, call, hasDeadline, st, env, DispatchUnary);
    RouteCount(h, p, call, RoutedRequest(call), st, env, ChooseRoute);
    RouteCount(h, p, call, RoutedRequest(call), st, env, DispatchUnary);
  }

  /**
   * A legacy handler runs only for an admitted call that is not a native
   * TChannel call, whose procedure the router does not know and whose method
   * has a legacy handler; the call then succeeds. A router error otherwise
   * comes back unchanged, with the writer untouched.
   */
  lemma LegacyFallbackOnlyForAdaptedCalls(h: Handler, p: Helpers, call: InboundCall, hasDeadline: bool,
                                          st: WriterState, env: Collaborators)
    ensures var c := CallHandlerOutcome(h, p, call, hasDeadline, st, env);
      var req := RoutedRequest(call);
      && Count(c.events, CallLegacy) == (if Admitted(p, call, hasDeadline) && LegacyFallback(h, call, req) then 1 else 0)
      && (Admitted(p, call, hasDeadline) && LegacyFallback(h, call, req) ==>
            c.err.None? && LegacyHandled(call.methodString) in c.events)
      && (Admitted(p, call, hasDeadline) && h.choose(req).Failure? && !LegacyFallback(h, call, req) ==>
            c.err == Some(h.choose(req).error) && c.writer == st)
      && (call.native ==> Count(c.events, CallLegacy) == 0)
  {
    var req := RoutedRequest(call);
    CallCount(h, p, call, hasDeadline, st, env, CallLegacy);
    RouteCount(h, p, call, req, st, env, CallLegacy);
    if Admitted(p, call, hasDeadline) && LegacyFallback(h, call, req) {
      var c := CallHandlerOutcome(h, p, call, hasDeadline, st, env);
      var r := RouteOutcome(h, p, call, req, st, env);
      assert c.events[3] == r.events[1];
    }
  }

  /** An admitted call routed to a oneway or streaming handler is refused as unimplemented. */
  lemma NonUnaryRefused(h: Handler, p: Helpers, call: InboundCall, hasDeadline: bool,
                        st: WriterState, env: Collaborators)
    requires Admitted(p, call, hasDeadline)
    requires h.choose(RoutedRequest(call)).Success? && !h.choose(RoutedRequest(call)).value.Unary?
    ensures var c := CallHandlerOutcome(h, p, call, hasDeadline, st, env);
      && c.err == Some(UnsupportedTypeError(h.choose(RoutedRequest(call)).value))
      && CodeOf(c.err.value) == Unimplemented
      && c.writer == st
  {
  }

  /**
   * An admitted unary call returns the handler's own error and leaves the
   * writer as the handler's calls left it.
   */
  lemma UnaryCallOutcome(h: Handler, p: Helpers, call: InboundCall, hasDeadline: bool,
                         st: WriterState, env: Collaborators)
    requires Admitted(p, call, hasDeadline) && Dispatched(h, p, RoutedRequest(call))
    ensures var c := CallHandlerOutcome(h, p, call, hasDeadline, st, env);
      var u := h.choose(RoutedRequest(call)).value.unary;
      c.err == u.result && c.writer == RunOps(st, u.ops, env).state
  {
  }

  /** A headers decode failure is wrapped with the request as far as it was built. */
  lemma HeadersDecodeFailureWrapped(h: Handler, p: Helpers, call: InboundCall,
                                    st: WriterState, env: Collaborators)
    requires call.headers.Failure?
    ensures var c := CallHandlerOutcome(h, p, call, true, st, env);
      && c.err == Some(p.requestHeadersDecodeError(Skeleton(call), call.headers.error))
      && c.events == [Arg2Read] && c.writer == st
  {
  }

  /** A call without a deadline is answered with a bad-request system error and nothing else. */
  lemma NoDeadlineRefused(h: Handler, p: Helpers, call: InboundCall, env: Collaborators, o: ResponseOutcomes)
    ensures HandleEvents(h, p, call, false, env, o) == [SystemErrorSent(ErrTimeoutRequired)]
    ensures ErrTimeoutRequired.status == ErrCodeBadRequest
  {
  }

  /** The headers added for an application error: the code always, the name and message when set. */
  lemma ErrorHeadersShape(e: Error)
    ensures var hs := ErrorHeaders(e);
      && hs[0] == (ErrorCodeHeaderKey, CodeText(CodeOf(e)))
      && ((ErrorNameHeaderKey, NameOf(e)) in hs <==> NameOf(e) != "")
      && ((ErrorMessageHeaderKey, MessageOf(e)) in hs <==> MessageOf(e) != "")
      && |hs| == 1 + (if NameOf(e) != "" then 1 else 0) + (if MessageOf(e) != "" then 1 else 0)
  {
  }

  /** Which kinds of effect `callHandler` can have: reading the request, routing and buffering. */
  predicate CallKind(k: Kind) {
    k == ReadArg2 || k == OpenArg3Reader || k == CloseArg3Reader || k == ChooseRoute
    || k == CallLegacy || k == DispatchUnary || k == GetBuffer
  }

  /**
   * `callHandler` never answers the call itself, and from a fresh writer it
   * acquires a buffer exactly when it leaves the writer holding one.
   */
  lemma CallNeverAnswers(h: Handler, p: Helpers, call: InboundCall, hasDeadline: bool, env: Collaborators, k: Kind)
    ensures var c := CallHandlerOutcome(h, p, call, hasDeadline, Fresh, env);
      && (!CallKind(k) ==> Count(c.events, k) == 0 && Absent(c.events, k))
      && Count(c.events, GetBuffer) == (if c.writer.buffer.Some? then 1 else 0)
  {
    var c := CallHandlerOutcome(h, p, call, hasDeadline, Fresh, env);
    CallCount(h, p, call, hasDeadline, Fresh, env, k);
    RouteCount(h, p, call, RoutedRequest(call), Fresh, env, k);
    CallCount(h, p, call, hasDeadline, Fresh, env, GetBuffer);
    RouteCount(h, p, call, RoutedRequest(call), Fresh, env, GetBuffer);
    CountZeroIsAbsent(c.events, k);
  }

  /** How many effects of each kind `handle` has once `callHandler` has returned. */
  lemma AnswerCount(c: CallOutcome, p: Helpers, call: InboundCall, o: ResponseOutcomes, k: Kind)
    ensures Count(AnswerEvents(c, p, call, o), k) ==
      if SystemErrorPath(c) then (if k == SendSystemError then 1 else 0)
      else
        var st := ClosingState(c, p, call);
        Count(CloseEvents(st, call.format, o), k)
        + (if k == SendSystemError && CloseError(st, o).Some? then 1 else 0)
  {
    if SystemErrorPath(c) {
      CountSingleton(SystemErrorSent(GetSystemError(c.err.value)), k);
    } else {
      var st := ClosingState(c, p, call);
      var tail := CloseTail(st, o);
      CountAppend(CloseEvents(st, call.format, o), tail, k);
      if tail != [] {
        CountSingleton(tail[0], k);
      }
    }
  }

  /**
   * `handle` answers every call: with one system error and no response when
   * the handler failed without flagging an application error, and otherwise
   * by writing arg-2 and opening arg-3 once, followed by a system error when
   * closing the response failed. A buffer is acquired at most once and
   * returned at most as often; on the system-error path it is never returned.
   */
  lemma HandleCounts(h: Handler, p: Helpers, call: InboundCall, hasDeadline: bool,
                     env: Collaborators, o: ResponseOutcomes)
    ensures var ev := HandleEvents(h, p, call, hasDeadline, env, o);
      var c := CallHandlerOutcome(h, p, call, hasDeadline, Fresh, env);
      && (SystemErrorPath(c) ==>
            && Count(ev, SendSystemError) == 1 && ev[|ev| - 1] == SystemErrorSent(GetSystemError(c.err.value))
            && Count(ev, WriteArg2) == 0 && Count(ev, OpenArg3Writer) == 0
            && Count(ev, MarkApplicationError) == 0 && Count(ev, PutBuffer) == 0)
      && (!SystemErrorPath(c) ==>
            && Count(ev, WriteArg2) == 1 && Count(ev, OpenArg3Writer) == 1
            && Count(ev, SendSystemError) == (if CloseError(ClosingState(c, p, call), o).Some? then 1 else 0)
            && Count(ev, PutBuffer) == (if o.openArg3.None? && c.writer.buffer.Some? then 1 else 0))
      && Count(ev, GetBuffer) == (if c.writer.buffer.Some? then 1 else 0)
      && Count(ev, SendSystemError) <= 1
      && Count(ev, PutBuffer) <= Count(ev, GetBuffer) <= 1
      && Count(ev, WriteArg2) + Count(ev, SendSystemError) >= 1
  {
    var c := CallHandlerOutcome(h, p, call, hasDeadline, Fresh, env);
    HandleCount(h, p, call, hasDeadline, env, o, SendSystemError);
    HandleCount(h, p, call, hasDeadline, env, o, WriteArg2);
    HandleCount(h, p, call, hasDeadline, env, o, OpenArg3Writer);
    HandleCount(h, p, call, hasDeadline, env, o, MarkApplicationError);
    HandleCount(h, p, call, hasDeadline, env, o, PutBuffer);
    HandleCount(h, p, call, hasDeadline, env, o, GetBuffer);
    CallNeverAnswers(h, p, call, hasDeadline, env, GetBuffer);
    CloseCounts(ClosingState(c, p, call), call.format, o);
    if SystemErrorPath(c) {
      var ev := HandleEvents(h, p, call, hasDeadline, env, o);
      assert ev == c.events + [SystemErrorSent(GetSystemError(c.err.value))];
    }
  }

  /** The effects of `handle` of one kind: those of `callHandler`, then those of answering. */
  lemma HandleCount(h: Handler, p: Helpers, call: InboundCall, hasDeadline: bool,
                    env: Collaborators, o: ResponseOutcomes, k: Kind)
    ensures var c := CallHandlerOutcome(h, p, call, hasDeadline, Fresh, env);
      var ev := HandleEvents(h, p, call, hasDeadline, env, o);
      Count(ev, k) == (if CallKind(k) then Count(c.events, k) else 0)
        + (if SystemErrorPath(c) then (if k == SendSystemError then 1 else 0)
           else
             var st := ClosingState(c, p, call);
             Count(CloseEvents(st, call.format, o), k)
             + (if k == SendSystemError && CloseError(st, o).Some? then 1 else 0))
  {
    var c := CallHandlerOutcome(h, p, call, hasDeadline, Fresh, env);
    CountAppend(c.events, AnswerEvents(c, p, call, o), k);
    CallNeverAnswers(h, p, call, hasDeadline, env, k);
    AnswerCount(c, p, call, o, k);
  }

  /** Every effect of the system error sent after a failed close is that system error. */
  lemma CloseTailKinds(st: WriterState, o: ResponseOutcomes)
    ensures forall i :: 0 <= i < |CloseTail(st, o)| ==> KindOf(CloseTail(st, o)[i]) == SendSystemError
  {
  }

  /**
   * Closing the response and reporting a failed close keep the writer's
   * order, the body close after arg-2 and the arg-3 open, the system error last.
   */
  lemma ClosedAnswerOrder(st: WriterState, format: string, o: ResponseOutcomes)
    ensures var ev := CloseEvents(st, format, o) + CloseTail(st, o);
      && Precedes(ev, MarkApplicationError, WriteArg2)
      && Precedes(ev, WriteArg2, OpenArg3Writer)
      && Precedes(ev, OpenArg3Writer, WriteBody)
      && Precedes(ev, WriteBody, PutBuffer)
      && Precedes(ev, PutBuffer, CloseBody)
      && Precedes(ev, WriteArg2, CloseBody)
      && Precedes(ev, OpenArg3Writer, CloseBody)
      && Precedes(ev, WriteArg2, SendSystemError)
      && Precedes(ev, CloseBody, SendSystemError)
      && Absent(ev, CloseArg3Reader) && Absent(ev, DispatchUnary)
  {
    var close, tail := CloseEvents(st, format, o), CloseTail(st, o);
    CloseCount(st, format, o, CloseArg3Reader);
    CloseCount(st, format, o, DispatchUnary);
    CountZeroIsAbsent(close, CloseArg3Reader);
    CountZeroIsAbsent(close, DispatchUnary);
    AbsentAppend(close, tail, CloseArg3Reader);
    AbsentAppend(close, tail, DispatchUnary);
    CloseOrder(st, format, o);
    CloseCounts(st, format, o);
    CountZeroIsAbsent(close, SendSystemError);
    CloseTailKinds(st, o);
    PrecedesAppend(close, tail, MarkApplicationError, WriteArg2);
    PrecedesAppend(close, tail, WriteArg2, OpenArg3Writer);
    PrecedesAppend(close, tail, OpenArg3Writer, WriteBody);
    PrecedesAppend(close, tail, WriteBody, PutBuffer);
    PrecedesAppend(close, tail, PutBuffer, CloseBody);
    PrecedesAppend(close, tail, WriteArg2, CloseBody);
    PrecedesAppend(close, tail, OpenArg3Writer, CloseBody);
    PrecedesSplit(close, tail, WriteArg2, SendSystemError);
    PrecedesSplit(close, tail, CloseBody, SendSystemError);
  }

  /** The order of the effects of `handle` once `callHandler` has returned. */
  lemma AnswerOrder(c: CallOutcome, p: Helpers, call: InboundCall, o: ResponseOutcomes)
    ensures var ev := AnswerEvents(c, p, call, o);
      && Precedes(ev, MarkApplicationError, WriteArg2)
      && Precedes(ev, WriteArg2, OpenArg3Writer)
      && Precedes(ev, OpenArg3Writer, WriteBody)
      && Precedes(ev, WriteBody, PutBuffer)
      && Precedes(ev, PutBuffer, CloseBody)
      && Precedes(ev, WriteArg2, CloseBody)
      && Precedes(ev, OpenArg3Writer, CloseBody)
      && Precedes(ev, WriteArg2, SendSystemError)
      && Precedes(ev, CloseBody, SendSystemError)
      && Absent(ev, CloseArg3Reader) && Absent(ev, DispatchUnary)
  {
    if SystemErrorPath(c) {
      PrecedesSingleton(SystemErrorSent(GetSystemError(c.err.value)));
    } else {
      ClosedAnswerOrder(ClosingState(c, p, call), call.format, o);
    }
  }

  /**
   * `handle` reads the request, routes and runs the handler, and closes the
   * request body before it writes any part of the response; the response
   * parts come in the writer's order, and any system error comes last.
   */
  lemma HandleOrder(h: Handler, p: Helpers, call: InboundCall, hasDeadline: bool,
                    env: Collaborators, o: ResponseOutcomes)
    ensures var ev := HandleEvents(h, p, call, hasDeadline, env, o);
      && Precedes(ev, CloseArg3Reader, WriteArg2)
      && Precedes(ev, DispatchUnary, WriteArg2)
      && Precedes(ev, MarkApplicationError, WriteArg2)
      && Precedes(ev, WriteArg2, OpenArg3Writer)
      && Precedes(ev, OpenArg3Writer, WriteBody)
      && Precedes(ev, WriteBody, PutBuffer)
      && Precedes(ev, PutBuffer, CloseBody)
      && Precedes(ev, WriteArg2, CloseBody)
      && Precedes(ev, OpenArg3Writer, CloseBody)
      && Precedes(ev, WriteArg2, SendSystemError)
      && Precedes(ev, CloseBody, SendSystemError)
  {
    var c := CallHandlerOutcome(h, p, call, hasDeadline, Fresh, env);
    var answer := AnswerEvents(c, p, call, o);
    AnswerOrder(c, p, call, o);
    CallNeverAnswers(h, p, call, hasDeadline, env, WriteArg2);
    CallNeverAnswers(h, p, call, hasDeadline, env, MarkApplicationError);
    CallNeverAnswers(h, p, call, hasDeadline, env, OpenArg3Writer);
    CallNeverAnswers(h, p, call, hasDeadline, env, WriteBody);
    CallNeverAnswers(h, p, call, hasDeadline, env, PutBuffer);
    CallNeverAnswers(h, p, call, hasDeadline, env, CloseBody);
    CallNeverAnswers(h, p, call, hasDeadline, env, SendSystemError);
    PrecedesSplit(c.events, answer, CloseArg3Reader, WriteArg2);
    PrecedesSplit(c.events, answer, DispatchUnary, WriteArg2);
    PrecedesVacuous(c.events, MarkApplicationError, WriteArg2);
    PrecedesVacuous(c.events, WriteArg2, OpenArg3Writer);
    PrecedesVacuous(c.events, OpenArg3Writer, WriteBody);
    PrecedesVacuous(c.events, WriteBody, PutBuffer);
    PrecedesVacuous(c.events, PutBuffer, CloseBody);
    PrecedesVacuous(c.events, WriteArg2, CloseBody);
    PrecedesVacuous(c.events, OpenArg3Writer, CloseBody);
    PrecedesVacuous(c.events, WriteArg2, SendSystemError);
    PrecedesVacuous(c.events, CloseBody, SendSystemError);
    PrecedesAppend(c.events, answer, MarkApplicationError, WriteArg2);
    PrecedesAppend(c.events, answer, WriteArg2, OpenArg3Writer);
    PrecedesAppend(c.events, answer, OpenArg3Writer, WriteBody);
    PrecedesAppend(c.events, answer, WriteBody, PutBuffer);
    PrecedesAppend(c.events, answer, PutBuffer, CloseBody);
    PrecedesAppend(c.events, answer, WriteArg2, CloseBody);
    PrecedesAppend(c.events, answer, OpenArg3Writer, CloseBody);
    PrecedesAppend(c.events, answer, WriteArg2, SendSystemError);
    PrecedesAppend(c.events, answer, CloseBody, SendSystemError);
  }

  /**
   * A handler error with the application-error flag set is answered as a
   * response: the flag is marked and arg-2 carries the handler's headers
   * followed by the wrapped error's code, name and message headers.
   */
  lemma ApplicationErrorAnswered(h: Handler, p: Helpers, call: InboundCall, hasDeadline: bool,
                                 env: Collaborators, o: ResponseOutcomes)
    requires var c := CallHandlerOutcome(h, p, call, hasDeadline, Fresh, env);
      c.err.Some? && c.writer.isApplicationError
    ensures var c := CallHandlerOutcome(h, p, call, hasDeadline, Fresh, env);
      var ev := HandleEvents(h, p, call, hasDeadline, env, o);
      var wrapped := p.wrapHandlerError(c.err.value, call.serviceName, call.methodString);
      && Arg2Written(call.format, c.writer.headers + ErrorHeaders(wrapped)) in ev
      && Count(ev, MarkApplicationError) == 1
  {
    var c := CallHandlerOutcome(h, p, call, hasDeadline, Fresh, env);
    var st := ClosingState(c, p, call);
    CloseCounts(st, call.format, o);
    CallNeverAnswers(h, p, call, hasDeadline, env, MarkApplicationError);
    AnswerCount(c, p, call, o, MarkApplicationError);
    CountAppend(c.events, AnswerEvents(c, p, call, o), MarkApplicationError);
    var i :| 0 <= i < |CloseEvents(st, call.format, o)| && CloseEvents(st, call.format, o)[i] == Arg2Written(call.format, st.headers);
    assert HandleEvents(h, p, call, hasDeadline, env, o)[|c.events| + i] == Arg2Written(call.format, st.headers);
  }

  /** A handler that succeeds has its headers written as they are, and no system error unless closing fails. */
  lemma SuccessAnswered(h: Handler, p: Helpers, call: InboundCall, hasDeadline: bool,
                        env: Collaborators, o: ResponseOutcomes)
    requires CallHandlerOutcome(h, p, call, hasDeadline, Fresh, env).err.None?
    ensures var c := CallHandlerOutcome(h, p, call, hasDeadline, Fresh, env);
      var ev := HandleEvents(h, p, call, hasDeadline, env, o);
      && Arg2Written(call.format, c.writer.headers) in ev
      && (Count(ev, SendSystemError) == 1 <==> CloseError(c.writer, o).Some?)
  {
    var c := CallHandlerOutcome(h, p, call, hasDeadline, Fresh, env);
    HandleCounts(h, p, call, hasDeadline, env, o);
    CloseCounts(c.writer, call.format, o);
    var i :| 0 <= i < |CloseEvents(c.writer, call.format, o)| && CloseEvents(c.writer, call.format, o)[i] == Arg2Written(call.format, c.writer.headers);
    assert HandleEvents(h, p, call, hasDeadline, env, o)[|c.events| + i] == Arg2Written(call.format, c.writer.headers);
  }
}
