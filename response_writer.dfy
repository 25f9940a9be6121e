/**
 * The TChannel `responseWriter` (transport/tchannel/handler.go): a writer lent
 * to the handler, which collects headers, buffers the body in a pooled
 * buffer acquired on the first write, latches an application-error flag and
 * accumulates its failures with `appendError` (once one is recorded, `Write`
 * does nothing); `Close` then flushes arg-2 and arg-3.
 *
 * Each method of the class is tied to a function of the writer's old state
 * (`AddHeadersState`, `WriteStep`, `CloseError`/`CloseEvents`); the behaviour
 * the source promises is proved about those functions.
 */
module ResponseWriting {
  import opened Wrappers
  import opened Errors
  import opened Trace
  import opened TChannelErrors

  /** What each call on the response side answers: nil or an error. */
  datatype ResponseOutcomes = ResponseOutcomes(
    setApplicationError: Option<Error>,  // response.SetApplicationError()
    writeArg2: Option<Error>,            // writeHeaders through response.Arg2Writer
    openArg3: Option<Error>,             // response.Arg3Writer()
    writeBody: Option<Error>,            // bodyWriter.Write(buffer bytes)
    closeBody: Option<Error>)            // bodyWriter.Close()

  /** Functions the writer calls that are defined outside handler.go. */
  datatype Collaborators = Collaborators(
    isReservedHeaderKey: string -> bool,
    bufferWrite: Bytes -> Option<Error>)  // whether bytes.Buffer.Write fails

  /**
   * The response side of one inbound call (`inboundCallResponse`, the body
   * writer it opens and the process-wide buffer pool), as a log of the
   * effects asked of it and fixed answers to each request.
   */
  class Transport {
    var events: seq<Event>
    const outcomes: ResponseOutcomes

    constructor (outcomes: ResponseOutcomes)
      ensures events == [] && this.outcomes == outcomes
    {
      events := [];
      this.outcomes := outcomes;
    }

    /** An effect on the call side (reading arguments, routing, dispatching). */
    method Record(e: Event)
      modifies this
      ensures events == old(events) + [e]
    {
      events := events + [e];
    }

    method SetApplicationError() returns (err: Option<Error>)
      modifies this
      ensures events == old(events) + [ApplicationErrorMarked]
      ensures err == outcomes.setApplicationError
    {
      events := events + [ApplicationErrorMarked];
      err := outcomes.setApplicationError;
    }

    /** `writeHeaders(format, headers, response.Arg2Writer)`. */
    method WriteArg2(format: string, headers: Headers) returns (err: Option<Error>)
      modifies this
      ensures events == old(events) + [Arg2Written(format, headers)]
      ensures err == outcomes.writeArg2
    {
      events := events + [Arg2Written(format, headers)];
      err := outcomes.writeArg2;
    }

    method Arg3Writer() returns (err: Option<Error>)
      modifies this
      ensures events == old(events) + [Arg3WriterOpened]
      ensures err == outcomes.openArg3
    {
      events := events + [Arg3WriterOpened];
      err := outcomes.openArg3;
    }

    method WriteBody(bytes: Bytes) returns (err: Option<Error>)
      modifies this
      ensures events == old(events) + [BodyWritten(bytes)]
      ensures err == outcomes.writeBody
    {
      events := events + [BodyWritten(bytes)];
      err := outcomes.writeBody;
    }

    method CloseBody() returns (err: Option<Error>)
      modifies this
      ensures events == old(events) + [BodyClosed]
      ensures err == outcomes.closeBody
    {
      events := events + [BodyClosed];
      err := outcomes.closeBody;
    }

    method SendSystemError(e: Error)
      modifies this
      ensures events == old(events) + [SystemErrorSent(e)]
    {
      events := events + [SystemErrorSent(e)];
    }

    /** `bufferpool.Get`: a fresh buffer has no bytes. */
    method AcquireBuffer() returns (b: Bytes)
      modifies this
      ensures events == old(events) + [BufferAcquired] && b == []
    {
      events := events + [BufferAcquired];
      b := [];
    }

    /** `bufferpool.Put`. */
    method ReleaseBuffer()
      modifies this
      ensures events == old(events) + [BufferReleased]
    {
      events := events + [BufferReleased];
    }
  }

  /** The fields of a `responseWriter` that its methods change; nil buffer is `None`. */
  datatype WriterState = WriterState(
    failedWith: Option<Error>,
    headers: Headers,
    buffer: Option<Bytes>,
    isApplicationError: bool)

  /** The state `newResponseWriter` creates. */
  const Fresh: WriterState := WriterState(None, [], None, false)

  function ReservedKeyError(key: string): Error {
    Plain("cannot use reserved header key: " + key)
  }

  /** The index of the first pair whose key is reserved, or the length when there is none. */
  function FirstReserved(items: Headers, reserved: string -> bool): (k: nat)
    ensures k <= |items|
    ensures forall i :: 0 <= i < k ==> !reserved(items[i].0)
    ensures k < |items| ==> reserved(items[k].0)
    decreases |items|
  {
    if items == [] then 0
    else if reserved(items[0].0) then 0
    else 1 + FirstReserved(items[1..], reserved)
  }

  /** The state after `AddHeaders(items)`, pairs taken in iteration order. */
  function AddHeadersState(st: WriterState, items: Headers, reserved: string -> bool): WriterState {
    var k := FirstReserved(items, reserved);
    if k == |items| then st.(headers := st.headers + items)
    else st.(headers := st.headers + items[..k],
             failedWith := AppendError(st.failedWith, Some(ReservedKeyError(items[k].0))))
  }

  /**
   * `AddHeaders` appends the pairs before the first reserved key and none
   * after it; a reserved key sets the failure, and only a reserved key does.
   */
  lemma AddHeadersEffect(st: WriterState, items: Headers, reserved: string -> bool)
    ensures var r := AddHeadersState(st, items, reserved);
      && r.buffer == st.buffer && r.isApplicationError == st.isApplicationError
      && |st.headers| <= |r.headers| <= |st.headers| + |items|
      && r.headers[..|st.headers|] == st.headers
      && (forall j :: |st.headers| <= j < |r.headers| ==>
            r.headers[j] == items[j - |st.headers|] && !reserved(r.headers[j].0))
      && ((exists i :: 0 <= i < |items| && reserved(items[i].0)) <==>
            |r.headers| < |st.headers| + |items| && r.failedWith == AppendError(st.failedWith, Some(ReservedKeyError(items[|r.headers| - |st.headers|].0))))
      && ((forall i :: 0 <= i < |items| ==> !reserved(items[i].0)) ==>
            r.headers == st.headers + items && r.failedWith == st.failedWith)
  {
    var r := AddHeadersState(st, items, reserved);
    var k := FirstReserved(items, reserved);
    assert r.headers == st.headers + items[..k];
    assert |r.headers| - |st.headers| == k;
    if exists i :: 0 <= i < |items| && reserved(items[i].0) {
      var i :| 0 <= i < |items| && reserved(items[i].0);
      assert k <= i;
    }
  }

  /** What `Write(s)` returns and leaves behind. */
  datatype WriteResult = WriteResult(state: WriterState, n: nat, err: Option<Error>, events: seq<Event>)

  function WriteStep(st: WriterState, s: Bytes, bufferWrite: Bytes -> Option<Error>): WriteResult {
    if st.failedWith.Some? then WriteResult(st, 0, st.failedWith, [])
    else
      var acquired := if st.buffer.Some? then st.buffer.value else [];
      var get := if st.buffer.Some? then [] else [BufferAcquired];
      match bufferWrite(s)
      case None => WriteResult(st.(buffer := Some(acquired + s)), |s|, None, get)
      case Some(e) =>
        WriteResult(st.(buffer := Some(acquired), failedWith := AppendError(st.failedWith, Some(e))), 0, Some(e), get)
  }

  /**
   * Once a failure is recorded, `Write` returns (0, failure) and touches
   * nothing; otherwise it acquires a buffer only when there is none, and
   * either appends the bytes or makes the buffer's error the failure.
   */
  lemma WriteEffect(st: WriterState, s: Bytes, bufferWrite: Bytes -> Option<Error>)
    ensures var r := WriteStep(st, s, bufferWrite);
      && (st.failedWith.Some? ==> r == WriteResult(st, 0, st.failedWith, []))
      && (st.failedWith.None? ==>
            && Count(r.events, GetBuffer) == (if st.buffer.None? then 1 else 0)
            && |r.events| == Count(r.events, GetBuffer)
            && r.state.buffer.Some?
            && r.state.headers == st.headers
            && r.state.isApplicationError == st.isApplicationError
            && (bufferWrite(s).None? ==>
                  r.err.None? && r.n == |s| && r.state.failedWith.None?
                  && r.state.buffer.value == (if st.buffer.Some? then st.buffer.value else []) + s)
            && (bufferWrite(s).Some? ==>
                  r.err == bufferWrite(s) && r.n == 0 && r.state.failedWith == r.err
                  && r.state.buffer.value == (if st.buffer.Some? then st.buffer.value else [])))
  {
  }

  function SetApplicationErrorFailure(e: Error): Error {
    Plain("SetApplicationError() failed: " + Text(e))
  }

  /** The part the application-error flag contributes to `Close`'s error. */
  function MarkPart(st: WriterState, o: ResponseOutcomes): Option<Error> {
    if st.isApplicationError && o.setApplicationError.Some?
    then Some(SetApplicationErrorFailure(o.setApplicationError.value))
    else None
  }

  /** The part arg-3 contributes: the open failure, else the body write failure. */
  function BodyPart(st: WriterState, o: ResponseOutcomes): Option<Error> {
    if o.openArg3.Some? then o.openArg3
    else if st.buffer.Some? then o.writeBody
    else None
  }

  /** The error `Close` returns. */
  function CloseError(st: WriterState, o: ResponseOutcomes): Option<Error> {
    var retErr := if MarkPart(st, o).Some? then AppendError(st.failedWith, MarkPart(st, o)) else st.failedWith;
    var retErr' := AppendError(retErr, o.writeArg2);
    if BodyPart(st, o).Some? then AppendError(retErr', BodyPart(st, o)) else retErr'
  }

  /** The effects of `Close`, deferred calls included, in the order they happen. */
  function CloseEvents(st: WriterState, format: string, o: ResponseOutcomes): seq<Event> {
    MarkEvents(st) + [Arg2Written(format, st.headers), Arg3WriterOpened] + BodyEvents(st, o)
  }

  function MarkEvents(st: WriterState): seq<Event> {
    if st.isApplicationError then [ApplicationErrorMarked] else []
  }

  /** After arg-3 opened: the body write and the deferred `Put`, then the deferred body close. */
  function BodyEvents(st: WriterState, o: ResponseOutcomes): seq<Event> {
    if o.openArg3.Some? then []
    else if st.buffer.Some? then [BodyWritten(st.buffer.value), BufferReleased, BodyClosed]
    else [BodyClosed]
  }

  /**
   * `Close` returns the recorded failure merged with the failure of each
   * step, in order; the body writer's close error is never part of it.
   */
  lemma CloseErrorAccumulates(st: WriterState, o: ResponseOutcomes, lostClose: Option<Error>)
    ensures CloseError(st, o) == Accumulate([st.failedWith, MarkPart(st, o), o.writeArg2, BodyPart(st, o)])
    ensures CloseError(st, o) == CloseError(st, o.(closeBody := lostClose))
    ensures CloseError(st, o).None? <==>
      st.failedWith.None? && MarkPart(st, o).None? && o.writeArg2.None? && BodyPart(st, o).None?
    ensures st.failedWith.Some? ==> CloseError(st, o).Some?
  {
    var a, b, c, d := st.failedWith, MarkPart(st, o), o.writeArg2, BodyPart(st, o);
    assert [a, b, c, d][..3] == [a, b, c];
    assert [a, b, c][..2] == [a, b];
    assert [a, b][..1] == [a];
    assert [a][..0] == [];
    assert Accumulate([a]) == a;
    assert Accumulate([a, b]) == AppendError(a, b);
    assert Accumulate([a, b, c]) == AppendError(AppendError(a, b), c);
  }

  /** Without system errors, every failure of `Close` survives in the returned error, in order. */
  lemma CloseErrorKeepsEveryFailure(st: WriterState, o: ResponseOutcomes)
    requires !IsSystemError(st.failedWith) && !IsSystemError(MarkPart(st, o))
    requires !IsSystemError(o.writeArg2) && !IsSystemError(BodyPart(st, o))
    ensures Parts(CloseError(st, o)) ==
      Parts(st.failedWith) + Parts(MarkPart(st, o)) + Parts(o.writeArg2) + Parts(BodyPart(st, o))
  {
    var a, b, c, d := st.failedWith, MarkPart(st, o), o.writeArg2, BodyPart(st, o);
    CloseErrorAccumulates(st, o, None);
    AccumulateNoSystemError([a, b, c, d]);
    assert [a, b, c, d][..3] == [a, b, c];
    assert [a, b, c][..2] == [a, b];
    assert [a, b][..1] == [a];
    assert [a][..0] == [];
  }

  /** How many effects of each kind `Close` has. */
  lemma CloseCount(st: WriterState, format: string, o: ResponseOutcomes, k: Kind)
    ensures Count(CloseEvents(st, format, o), k) ==
      (if k == MarkApplicationError && st.isApplicationError then 1 else 0)
      + (if k == WriteArg2 || k == OpenArg3Writer then 1 else 0)
      + (if o.openArg3.Some? then 0
         else (if st.buffer.Some? && (k == WriteBody || k == PutBuffer) then 1 else 0)
              + (if k == CloseBody then 1 else 0))
  {
    var flush := [Arg2Written(format, st.headers), Arg3WriterOpened];
    CountAppend(MarkEvents(st), flush, k);
    CountAppend(MarkEvents(st) + flush, BodyEvents(st, o), k);
    MarkEventsCount(st, k);
    BodyEventsCount(st, o, k);
    assert flush[1..][1..] == [];
  }

  lemma MarkEventsCount(st: WriterState, k: Kind)
    ensures Count(MarkEvents(st), k) == if k == MarkApplicationError && st.isApplicationError then 1 else 0
  {
    if st.isApplicationError {
      CountSingleton(ApplicationErrorMarked, k);
    }
  }

  lemma BodyEventsCount(st: WriterState, o: ResponseOutcomes, k: Kind)
    ensures Count(BodyEvents(st, o), k) ==
      if o.openArg3.Some? then 0
      else (if st.buffer.Some? && (k == WriteBody || k == PutBuffer) then 1 else 0)
           + (if k == CloseBody then 1 else 0)
  {
    var ev := BodyEvents(st, o);
    if o.openArg3.None? {
      if st.buffer.Some? {
        var bw, br, bc := BodyWritten(st.buffer.value), BufferReleased, BodyClosed;
        assert ev == [bw] + ([br] + [bc]);
        CountAppend([bw], [br] + [bc], k);
        CountAppend([br], [bc], k);
        CountSingleton(bw, k);
        CountSingleton(br, k);
        CountSingleton(bc, k);
      } else {
        CountSingleton(BodyClosed, k);
      }
    }
  }

  /**
   * `Close` marks the application error (only when flagged) and writes arg-2
   * once; it opens arg-3 once, whatever failed before; the body is written,
   * the buffer returned and the body writer closed only when arg-3 opened,
   * and the buffer only when it was acquired.
   */
  lemma CloseCounts(st: WriterState, format: string, o: ResponseOutcomes)
    ensures var ev := CloseEvents(st, format, o);
      && Count(ev, MarkApplicationError) == (if st.isApplicationError then 1 else 0)
      && Count(ev, WriteArg2) == 1
      && Count(ev, OpenArg3Writer) == 1
      && Count(ev, WriteBody) == (if o.openArg3.None? && st.buffer.Some? then 1 else 0)
      && Count(ev, PutBuffer) == (if o.openArg3.None? && st.buffer.Some? then 1 else 0)
      && Count(ev, CloseBody) == (if o.openArg3.None? then 1 else 0)
      && Count(ev, GetBuffer) == 0 && Count(ev, SendSystemError) == 0
      && Arg2Written(format, st.headers) in ev
  {
    CloseCount(st, format, o, MarkApplicationError);
    CloseCount(st, format, o, WriteArg2);
    CloseCount(st, format, o, OpenArg3Writer);
    CloseCount(st, format, o, WriteBody);
    CloseCount(st, format, o, PutBuffer);
    CloseCount(st, format, o, CloseBody);
    CloseCount(st, format, o, GetBuffer);
    CloseCount(st, format, o, SendSystemError);
    var ev := CloseEvents(st, format, o);
    assert ev[|MarkEvents(st)|] == Arg2Written(format, st.headers);
  }

  /** Which kinds of effect each part of `Close` can have. */
  lemma ClosePartsKinds(st: WriterState, format: string, o: ResponseOutcomes)
    ensures forall i :: 0 <= i < |MarkEvents(st)| ==> KindOf(MarkEvents(st)[i]) == MarkApplicationError
    ensures forall i :: 0 <= i < |BodyEvents(st, o)| ==>
      KindOf(BodyEvents(st, o)[i]) in {WriteBody, PutBuffer, CloseBody}
    ensures o.openArg3.None? && st.buffer.Some? ==>
      BodyEvents(st, o) == [BodyWritten(st.buffer.value)] + [BufferReleased] + [BodyClosed]
    ensures CloseEvents(st, format, o) ==
      MarkEvents(st) + [Arg2Written(format, st.headers)] + [Arg3WriterOpened] + BodyEvents(st, o)
  {
  }

  /**
   * The application-error mark comes before arg-2, arg-2 before opening
   * arg-3, and then the body write, the buffer's return and the body close;
   * the body close comes after arg-2 and the arg-3 open, buffer or not.
   */
  lemma CloseOrder(st: WriterState, format: string, o: ResponseOutcomes)
    ensures var ev := CloseEvents(st, format, o);
      && Precedes(ev, MarkApplicationError, WriteArg2)
      && Precedes(ev, WriteArg2, OpenArg3Writer)
      && Precedes(ev, OpenArg3Writer, WriteBody)
      && Precedes(ev, WriteBody, PutBuffer)
      && Precedes(ev, PutBuffer, CloseBody)
      && Precedes(ev, WriteArg2, CloseBody)
      && Precedes(ev, OpenArg3Writer, CloseBody)
  {
    ClosePartsKinds(st, format, o);
    var mark, a2, o3 := MarkEvents(st), [Arg2Written(format, st.headers)], [Arg3WriterOpened];
    var body := BodyEvents(st, o);
    var ev := CloseEvents(st, format, o);
    assert ev == mark + a2 + o3 + body;
    forall i | 0 <= i < |ev|
      ensures i < |mark| ==> KindOf(ev[i]) == MarkApplicationError
      ensures i == |mark| ==> KindOf(ev[i]) == WriteArg2
      ensures i == |mark| + 1 ==> KindOf(ev[i]) == OpenArg3Writer
      ensures i > |mark| + 1 ==> ev[i] == body[i - |mark| - 2]
    {
      if i < |mark| { assert ev[i] == mark[i]; }
    }
    if o.openArg3.None? && st.buffer.Some? {
      assert |body| == 3;
      assert forall i :: 0 <= i < |ev| && i > |mark| + 1 ==>
        KindOf(ev[i]) == (if i == |mark| + 2 then WriteBody else if i == |mark| + 3 then PutBuffer else CloseBody);
    }
  }

  /** `responseWriter`: lent to the handler for one call, then closed by the pipeline. */
  class ResponseWriter {
    var failedWith: Option<Error>
    const format: string
    var headers: Headers
    var buffer: Option<Bytes>
    const response: Transport
    var isApplicationError: bool
    const env: Collaborators

    function State(): WriterState
      reads this
    {
      WriterState(failedWith, headers, buffer, isApplicationError)
    }

    /** `newResponseWriter(response, format)`. */
    constructor (response: Transport, format: string, env: Collaborators)
      ensures State() == Fresh
      ensures this.response == response && this.format == format && this.env == env
    {
      failedWith := None;
      this.format := format;
      headers := [];
      buffer := None;
      this.response := response;
      isApplicationError := false;
      this.env := env;
    }

    /** Application headers; stops at the first reserved key, which fails the writer. */
    method AddHeaders(items: Headers)
      modifies this
      ensures State() == AddHeadersState(old(State()), items, env.isReservedHeaderKey)
    {
      var i := 0;
      while i < |items|
        invariant 0 <= i <= |items|
        invariant forall j :: 0 <= j < i ==> !env.isReservedHeaderKey(items[j].0)
        invariant State() == old(State()).(headers := old(headers) + items[..i])
      {
        var (k, v) := items[i];
        if env.isReservedHeaderKey(k) {
          failedWith := AppendError(failedWith, Some(ReservedKeyError(k)));
          return;
        }
        AddHeader(k, v);
        assert items[..i + 1] == items[..i] + [items[i]];
        i := i + 1;
      }
      assert items[..i] == items;
    }

    /** `addHeader`: appends without checking the key. */
    method AddHeader(key: string, value: string)
      modifies this
      ensures State() == old(State()).(headers := old(headers) + [(key, value)])
    {
      headers := headers + [(key, value)];
    }

    method SetApplicationError()
      modifies this
      ensures State() == old(State()).(isApplicationError := true)
    {
      isApplicationError := true;
    }

    method Write(s: Bytes) returns (n: nat, err: Option<Error>)
      modifies this, response
      ensures var r := WriteStep(old(State()), s, env.bufferWrite);
        State() == r.state && n == r.n && err == r.err
        && response.events == old(response.events) + r.events
    {
      if failedWith.Some? {
        return 0, failedWith;
      }
      if buffer.None? {
        var acquired := response.AcquireBuffer();
        buffer := Some(acquired);
      }
      err := env.bufferWrite(s);
      if err.None? {
        buffer := Some(buffer.value + s);
        n := |s|;
      } else {
        failedWith := AppendError(failedWith, err);
        n := 0;
      }
    }

    /**
     * Flushes the response: the application-error mark, arg-2, then arg-3.
     * The deferred `Put` runs before the deferred body close, and the body
     * close's error lands in a local that is no longer returned.
     */
    method Close() returns (err: Option<Error>)
      modifies response
      ensures err == CloseError(State(), response.outcomes)
      ensures response.events == old(response.events) + CloseEvents(State(), format, response.outcomes)
    {
      var retErr := failedWith;
      if isApplicationError {
        var e := response.SetApplicationError();
        if e.Some? {
          retErr := AppendError(retErr, Some(SetApplicationErrorFailure(e.value)));
        }
      }
      var e2 := response.WriteArg2(format, headers);
      retErr := AppendError(retErr, e2);
      var e3 := response.Arg3Writer();
      if e3.Some? {
        return AppendError(retErr, e3);
      }
      if buffer.Some? {
        var e4 := response.WriteBody(buffer.value);
        if e4.Some? {
          err := AppendError(retErr, e4);
        } else {
          err := retErr;
        }
        response.ReleaseBuffer();
      } else {
        err := retErr;
      }
      var closeErr := response.CloseBody();
      retErr := AppendError(retErr, closeErr);
    }
  }
}
