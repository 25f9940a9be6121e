# yarpc-go: TChannel inbound handler and generated Thrift envelopes, in Dafny

This project models two parts of yarpc-go and proves properties of the models.

**The TChannel inbound pipeline** (transport/tchannel/handler.go):

- `handler.handle` and `handler.callHandler`: every inbound call is gated on its deadline, has arg-2 decoded into headers and arg-3 opened as the request body, and is validated, routed and dispatched to a unary handler (or to a legacy handler).
- The `responseWriter` that the handler writes to: it collects headers, buffers the body in a pooled buffer, latches an application-error flag and accumulates its failures with `appendError`. Once a failure is recorded, `Write` does nothing. `Close` flushes arg-2 and arg-3.
- The two error helpers `getSystemError` and `appendError`.

**Three generated thriftrw envelopes**:

- `ThriftTest.testStringMap` (internal/crossdock/thrift/gauntlet/thrifttest_teststringmap.go);
- `ThriftTest.testSet` (crossdock/thrift/gauntlet/service/thrifttest/testset.go), including its i32 set value list and set reader;
- `SecondService.blahBlah` (internal/crossdock/thrift/gauntlet/secondservice_blahblah.go).

For each one: the `ToWire`/`FromWire` serialisers over an abstract `wire.Value`, `MethodName`, `EnvelopeType` and the helper closures (`Args`, `IsException`, `WrapResponse`, `UnwrapResponse`). The testStringMap and blahBlah structs also have `Equals`; testset.go defines none. blahBlah's `String` is modelled as well.

## Layout

| file | module | contents |
|---|---|---|
| wrappers.dfy | `Wrappers` | `Option`, `Result` |
| errors.dfy | `Errors` | Go errors on the inbound path: TChannel system errors, yarpc status errors (code, name, message), plain errors, `multierr` lists; their `Error()` text |
| tchannel_errors.dfy | `TChannelErrors` | `getSystemError`, `appendError`, left-to-right accumulation of errors |
| trace.dfy | `Trace` | the effects of one call (`Event`), their kinds, `Count`, `Absent`, `Precedes` |
| response_writer.dfy | `ResponseWriting` | the `Transport` class (the call's response side, which logs effects and gives fixed answers), the `ResponseWriter` class, and the functions that specify its methods |
| handler.dfy | `Inbound` | `callHandler` and `handle` as methods, the functions that specify them, and the pipeline's guarantees |
| wire.dfy | `Wire` | `wire.Value`, `wire.Type`, `wire.EnvelopeType`, the field scan of the testStringMap and testSet `FromWire` methods |
| teststringmap.dfy | `TestStringMap` | `ThriftTest_TestStringMap_Args`/`_Result` (classes) and the helper |
| testset.dfy | `TestSet` | `_Set_I32_ValueList.ForEach`, `_Set_I32_Read`, `TestSetArgs`/`TestSetResult` (classes) and the helper |
| blahblah.dfy | `BlahBlah` | `SecondService_BlahBlah_Args`/`_Result` (values: they have no fields) and the helper |

### How the pipeline is modelled

- Everything the pipeline does to the outside world is appended, in order, to `Transport.events`. An event logs the attempt, whatever its outcome. This covers reading arguments, routing, dispatching, getting and putting pool buffers, marking the application error, writing arg-2, opening, writing and closing arg-3, and sending a system error.
- What each response-side call answers is fixed in advance in `Transport.outcomes`. The call-side answers are fixed in the `InboundCall`: the arg-2 headers decode and the `Arg3Reader` outcome. The router and the legacy handlers are in `Handler`. The validators and error wrappers are in `Helpers`. Functions defined outside handler.go are parameters:
  - `isReservedHeaderKey`;
  - whether a buffer write fails;
  - the router;
  - `transport.ValidateRequest` and `ValidateUnaryContext`;
  - the outcome of `readRequestHeaders`;
  - `errors.WrapHandlerError` and `errors.RequestHeadersDecodeError`.
- A unary handler is the sequence of calls it makes on the writer, plus the error it returns.
- Each method is proved against a function of its inputs and old state: `ResponseWriter.AddHeaders` against `AddHeadersState`, `Write` against `WriteStep`, `Close` against `CloseError`/`CloseEvents`, `CallHandler` against `CallHandlerOutcome`, and `Handle` against `HandleEvents`. The lemmas state the guarantees over those functions.

### Behaviour of the code worth knowing

The model follows the code as written in each of these places:

- **Legacy fallback** (handler.go:168-172): the legacy `existing` map is consulted only when the call is *not* a native `tchannelCall`. The legacy handler is then passed `tcall.InboundCall`, which is nil for such a call. `LegacyFallbackOnlyForAdaptedCalls` states this.
- **Response and system error** (handler.go:118-121): when `Close` fails, `handle` sends a system error after Close has tried to write arg-2 and to open arg-3. Either attempt may itself be what failed (handler.go:247, 251-253). `HandleCounts` counts these attempts exactly.
- **Buffer release**: the comment at handler.go:94 asks for the writer to be closed unless there is a system error. On the system-error path (handler.go:98-101) the writer is not closed, so a buffer acquired by the handler is never returned to the pool. The same happens when opening arg-3 fails (handler.go:252-253). `HandleCounts` states `Count(ev, PutBuffer) == 0` on the system-error path, while a buffer may have been acquired.
- **Lost close error** (handler.go:255): `Close` has an unnamed result, so the deferred `bodyWriter.Close()` assigns its error to a local after the result is fixed, and the caller never sees it. `CloseErrorAccumulates` proves that the result does not depend on it.
- **Missing deadline** (handler.go:126-128): the call fails with `tchannel.ErrTimeoutRequired`, a BadRequest system error ("timeout required").

## Model

| member | source | states |
|---|---|---|
| TChannelErrors.GetSystemError | transport/tchannel/handler.go:266-277 | the result is always a system error; a system error comes back unchanged; otherwise the message is the error's text and the status is BadRequest exactly for InvalidArgument/Unimplemented, Timeout exactly for DeadlineExceeded, and Unexpected otherwise |
| TChannelErrors.GetSystemErrorIdempotent | transport/tchannel/handler.go:266-277 | classifying an already classified error changes nothing |
| TChannelErrors.AppendError | transport/tchannel/handler.go:279-287 | a system error on the left absorbs the right; otherwise one on the right wins; otherwise the errors are concatenated as `multierr.Append` does; nil is the identity on both sides; the result is nil only when both are |
| TChannelErrors.AppendErrorAssociative | transport/tchannel/handler.go:279-287 | merging errors does not depend on how the merges are grouped |
| TChannelErrors.AccumulateFirstSystemError | transport/tchannel/handler.go:240-264 | in the chain `retErr = appendError(retErr, …)` used by Close, the first system error is the whole result |
| TChannelErrors.AccumulateNoSystemError | transport/tchannel/handler.go:240-264 | without system errors the chain keeps every error, in order, and is not a system error |
| ResponseWriting.FirstReserved | transport/tchannel/handler.go:205-214 | the index where AddHeaders stops: no earlier key is reserved, and the key there is reserved unless it is the end |
| ResponseWriting.AddHeadersEffect | transport/tchannel/handler.go:205-218 | the pairs before the first reserved key are appended in order and none after it; a reserved key is merged into the failure, and only a reserved key changes the failure; buffer and flag are untouched |
| ResponseWriting.WriteEffect | transport/tchannel/handler.go:224-238 | after a failure, Write returns (0, failure) and does nothing; otherwise it gets a pool buffer only if it has none, and either appends the bytes and returns their length, or returns 0 with the buffer's error and makes that error the failure |
| ResponseWriting.CloseErrorAccumulates | transport/tchannel/handler.go:240-264 | Close's error is the merge, in order, of the earlier failure, the SetApplicationError failure, the arg-2 error and the arg-3 open or body write error; it does not depend on the body writer's close error; it is nil exactly when all of them are |
| ResponseWriting.CloseErrorKeepsEveryFailure | transport/tchannel/handler.go:240-264 | without system errors, Close reports every failure, in order |
| ResponseWriting.CloseCount | transport/tchannel/handler.go:240-264 | how many effects of each kind Close has, depending on the flag, the buffer and whether arg-3 opened |
| ResponseWriting.CloseCounts | transport/tchannel/handler.go:240-264 | Close marks the application error only when flagged; it writes arg-2 with the collected headers exactly once and opens arg-3 exactly once, whatever failed before; it writes the body and returns the buffer only with a buffer and an open arg-3; it closes the body writer exactly when arg-3 opened; it never gets a buffer or sends a system error |
| ResponseWriting.CloseOrder | transport/tchannel/handler.go:240-264 | the mark comes before arg-2, arg-2 before opening arg-3, then the body write, the buffer's return (a deferred call) and the body close (deferred earlier, so run later); the body close comes after arg-2 and the arg-3 open whether or not there is a buffer |
| ResponseWriting.Transport.Record | transport/tchannel/handler.go:43-57 | a call-side effect (reading an argument, routing, dispatching) is appended to the log |
| ResponseWriting.Transport.SetApplicationError | transport/tchannel/handler.go:65-70 | `SetApplicationError()` on the response is logged and answers its fixed outcome |
| ResponseWriting.Transport.WriteArg2 | transport/tchannel/handler.go:65-70 | writing the headers through `Arg2Writer` is logged with format and headers and answers its fixed outcome |
| ResponseWriting.Transport.Arg3Writer | transport/tchannel/handler.go:65-70 | opening `Arg3Writer` is logged and answers its fixed outcome |
| ResponseWriting.Transport.WriteBody | transport/tchannel/handler.go:258-260 | the body write is logged with its bytes and answers its fixed outcome |
| ResponseWriting.Transport.CloseBody | transport/tchannel/handler.go:255 | the body writer's close is logged and answers its fixed outcome |
| ResponseWriting.Transport.SendSystemError | transport/tchannel/handler.go:65-70 | the system error sent is logged |
| ResponseWriting.Transport.AcquireBuffer | transport/tchannel/handler.go:229-231 | `bufferpool.Get` is logged and gives an empty buffer |
| ResponseWriting.Transport.ReleaseBuffer | transport/tchannel/handler.go:257 | `bufferpool.Put` is logged |
| ResponseWriting.ResponseWriter.constructor | transport/tchannel/handler.go:198-203 | `newResponseWriter`: no failure, no headers, no buffer, flag clear, on the given response and format |
| ResponseWriting.ResponseWriter.AddHeaders | transport/tchannel/handler.go:205-214 | the loop leaves exactly the state AddHeadersState gives |
| ResponseWriting.ResponseWriter.AddHeader | transport/tchannel/handler.go:216-218 | appends one pair, unchecked, and changes nothing else |
| ResponseWriting.ResponseWriter.SetApplicationError | transport/tchannel/handler.go:220-222 | latches the flag and changes nothing else |
| ResponseWriting.ResponseWriter.Write | transport/tchannel/handler.go:224-238 | returns what WriteStep gives and leaves its state, logging only the buffer acquisition |
| ResponseWriting.ResponseWriter.Close | transport/tchannel/handler.go:240-264 | returns CloseError of the writer's state and has exactly the effects CloseEvents lists, in that order |
| Inbound.Dispatch | transport/tchannel/handler.go:182 | running the unary handler applies its writer calls in order (the state and effects RunOps gives) and returns the handler's error |
| Inbound.Route | transport/tchannel/handler.go:159-186 | validation, routing and dispatch return, leave and do what RouteOutcome gives |
| Inbound.CallHandler | transport/tchannel/handler.go:124-187 | `callHandler` returns, leaves and does what CallHandlerOutcome gives, including the deferred close of arg-3 on every path after it opened |
| Inbound.Answer | transport/tchannel/handler.go:98-121 | after callHandler: a system error without Close, or the error headers and Close, then a system error if Close failed |
| Inbound.Handle | transport/tchannel/handler.go:93-122 | `handle` with a fresh writer has exactly the effects HandleEvents lists |
| Inbound.RunOpsEffects | transport/tchannel/handler.go:224-238 | a handler's writer calls get a pool buffer at most once, and only when the writer had none; buffer, failure and flag are never dropped; after a failure nothing more is acquired and the buffer is unchanged |
| Inbound.RunOpsCount | transport/tchannel/handler.go:224-238 | a handler's writer calls have no effect but a buffer acquisition, which happens once exactly when a writer without a buffer ends up with one |
| Inbound.RouteCount | transport/tchannel/handler.go:159-186 | routing is consulted once for a valid request; the legacy handler runs exactly under the fallback condition, the unary handler exactly when dispatched |
| Inbound.CallCount | transport/tchannel/handler.go:124-187 | arg-2 is read when there is a deadline, arg-3 opened after arg-2 decodes, and closed after it opens |
| Inbound.ReaderClosedIffOpened | transport/tchannel/handler.go:141-156 | arg-3 is opened once when the deadline and arg-2 pass, and closed exactly once when it opened; the close is the last effect of callHandler; reading arg-2 is the first |
| Inbound.RouterConsultedIffAdmitted | transport/tchannel/handler.go:126-163 | the router is consulted once exactly when the call has a deadline, decodable arg-2, an openable arg-3 and a valid request; a unary handler runs at most once; a call that is not admitted leaves the writer untouched |
| Inbound.LegacyFallbackOnlyForAdaptedCalls | transport/tchannel/handler.go:163-175 | a legacy handler runs only for an admitted non-native call whose procedure the router reports Unimplemented and whose method is in `existing`, and the call then succeeds; a native call never reaches it; any other router error is returned unchanged with the writer untouched |
| Inbound.NonUnaryRefused | transport/tchannel/handler.go:177-186 | a oneway or streaming spec is refused with an Unimplemented error naming the type |
| Inbound.UnaryCallOutcome | transport/tchannel/handler.go:177-182 | a dispatched unary call returns the handler's own error and leaves the writer as the handler's calls left it |
| Inbound.HeadersDecodeFailureWrapped | transport/tchannel/handler.go:131-144 | an arg-2 decode failure is wrapped with the request built so far (no headers); nothing but the arg-2 read happens |
| Inbound.NoDeadlineRefused | transport/tchannel/handler.go:126-128 | a call without a deadline gets exactly one BadRequest system error and nothing else happens: no argument is read and no router is consulted |
| Inbound.ErrorHeadersShape | transport/tchannel/handler.go:106-116 | the application-error headers are the code always, the name only when non-empty, the message only when non-empty |
| Inbound.CallNeverAnswers | transport/tchannel/handler.go:124-187 | callHandler writes nothing of the response, and gets a buffer exactly when it leaves the writer holding one |
| Inbound.AnswerCount | transport/tchannel/handler.go:96-121 | once callHandler has returned: one system error on the system-error path; otherwise the effects of Close on the writer with the error headers, plus one system error exactly when Close fails |
| Inbound.HandleCount | transport/tchannel/handler.go:93-122 | of each kind, handle has callHandler's effects of that kind followed by those of answering |
| Inbound.HandleCounts | transport/tchannel/handler.go:93-122 | on the system-error path: exactly one system error, last, with no arg-2, no arg-3, no mark and no buffer return. Otherwise: arg-2 once and arg-3 once, plus a system error exactly when Close fails. At most one system error; the buffer is returned at most as often as it is got, which is at most once; every call gets some answer |
| Inbound.ClosedAnswerOrder | transport/tchannel/handler.go:118-121 | closing and then reporting a failed close keeps Close's order, including the body close after arg-2 and the arg-3 open, with the system error after arg-2 and after the body close |
| Inbound.AnswerOrder | transport/tchannel/handler.go:96-121 | the answer keeps Close's order on both paths, the body close after arg-2 and the arg-3 open, and never touches the request body or the handler |
| Inbound.HandleOrder | transport/tchannel/handler.go:93-122 | the request body is closed and the handler has run before arg-2 is written; the mark, arg-2, the arg-3 open, the body write, the buffer's return and the body close come in that order, the body close after arg-2 and the arg-3 open even without a buffer; any system error comes after arg-2 and after the body close |
| Inbound.ApplicationErrorAnswered | transport/tchannel/handler.go:103-118 | a handler error with the flag set is answered as a response: the flag is marked once and arg-2 carries the handler's headers followed by the wrapped error's headers |
| Inbound.SuccessAnswered | transport/tchannel/handler.go:118-121 | a successful handler has its headers written as they are, with a system error exactly when Close fails |
| Wire.ScanIgnoresOthers | internal/crossdock/thrift/gauntlet/thrifttest_teststringmap.go:55-69 | fields with another id or type leave the receiver as it was, without an error |
| Wire.ScanAppend | internal/crossdock/thrift/gauntlet/thrifttest_teststringmap.go:55-69 | scanning two runs of fields is scanning the first, then the second from where it left off, unless the first fails |
| Wire.ScanOne | internal/crossdock/thrift/gauntlet/thrifttest_teststringmap.go:57-66 | a single matching field gives exactly what reading it gives |
| Wire.ScanLaterFieldWins | internal/crossdock/thrift/gauntlet/thrifttest_teststringmap.go:55-69 | a later matching field overwrites what earlier ones gave; a read error stops the scan |
| TestStringMap.TestStringMapArgs.constructor | internal/crossdock/thrift/gauntlet/thrifttest_teststringmap.go:107-109 | `Helper.Args` holds the given map |
| TestStringMap.TestStringMapArgs.ToWire | internal/crossdock/thrift/gauntlet/thrifttest_teststringmap.go:37-53 | never fails, and gives ArgsWire of the map |
| TestStringMap.TestStringMapArgs.FromWire | internal/crossdock/thrift/gauntlet/thrifttest_teststringmap.go:55-69 | the loop leaves in `thing`, and returns, what the field scan gives from the old `thing` |
| TestStringMap.TestStringMapResult.constructor | internal/crossdock/thrift/gauntlet/thrifttest_teststringmap.go:116-121 | a result holding the given map |
| TestStringMap.TestStringMapResult.ToWire | internal/crossdock/thrift/gauntlet/thrifttest_teststringmap.go:136-155 | gives ResultWire of the map, with the error it names |
| TestStringMap.TestStringMapResult.FromWire | internal/crossdock/thrift/gauntlet/thrifttest_teststringmap.go:157-178 | the loop and the count check leave and return what ResultFromWire gives |
| TestStringMap.IsException | internal/crossdock/thrift/gauntlet/thrifttest_teststringmap.go:110-115 | no error is an exception of testStringMap |
| TestStringMap.WrapResponse | internal/crossdock/thrift/gauntlet/thrifttest_teststringmap.go:116-121 | with no error, a new result holding the map, which unwraps back to it; with an error, nil and that error |
| TestStringMap.ArgsWireShape | internal/crossdock/thrift/gauntlet/thrifttest_teststringmap.go:37-53 | the arguments encode as a struct with one map field with id 1 when the map is set, and no field otherwise |
| TestStringMap.ArgsRoundTrip | internal/crossdock/thrift/gauntlet/thrifttest_teststringmap.go:37-69 | when the map helpers round-trip, decoding encoded arguments gives the map back without error; with no map, a reused receiver keeps what it held |
| TestStringMap.ArgsIgnoreOtherFields | internal/crossdock/thrift/gauntlet/thrifttest_teststringmap.go:55-69 | only fields with id 1 and type map are read |
| TestStringMap.ArgsLaterFieldWins | internal/crossdock/thrift/gauntlet/thrifttest_teststringmap.go:55-69 | of two map fields with id 1 the later one wins, unless reading the earlier one failed; a read error is returned |
| TestStringMap.ResultRoundTrip | internal/crossdock/thrift/gauntlet/thrifttest_teststringmap.go:136-178 | a result without a map fails to encode with "should have exactly one field: got 0 fields"; with one it encodes as field 0 and, when the helpers round-trip, decodes back to it |
| TestStringMap.ResultRequiresSuccess | internal/crossdock/thrift/gauntlet/thrifttest_teststringmap.go:157-178 | decoding a result succeeds only with a map in `success`; with no map field 0, a fresh receiver gets the exactly-one-field error |
| TestStringMap.EqualsIsEquality | internal/crossdock/thrift/gauntlet/thrifttest_teststringmap.go:84-89 | Equals holds exactly for two unset maps or two equal ones, when the map helper's equality is exact |
| TestStringMap.UnwrapResponse | internal/crossdock/thrift/gauntlet/thrifttest_teststringmap.go:122-129 | no error exactly when `success` is set, and then the map; otherwise nil and "expected a non-void result" |
| TestStringMap.TestStringMapArgs.Equals | internal/crossdock/thrift/gauntlet/thrifttest_teststringmap.go:84-89 | two unset maps are equal, a set and an unset one are not, and with an exact map helper Equals is equality of `thing` |
| TestStringMap.TestStringMapResult.Equals | internal/crossdock/thrift/gauntlet/thrifttest_teststringmap.go:193-198 | two unset maps are equal, a set and an unset one are not, and with an exact map helper Equals is equality of `success` |
| TestStringMap.Envelopes | internal/crossdock/thrift/gauntlet/thrifttest_teststringmap.go:91-97 | both names are "testStringMap"; arguments travel in a Call, the result in a Reply |
| TestSet.ForEach | crossdock/thrift/gauntlet/service/thrifttest/testset.go:38-50 | the callback is applied to elements as i32 values; nil is returned exactly when every call succeeds, and otherwise the error of one failing element |
| TestSet.ReadSetI32 | crossdock/thrift/gauntlet/service/thrifttest/testset.go:73-88 | the loops over the items return what SetI32Read gives |
| TestSet.SetI32ReadEffect | crossdock/thrift/gauntlet/service/thrifttest/testset.go:73-88 | a set of non-i32 elements reads as (nil, nil); otherwise the set holds exactly the iterated elements, with the iteration's error |
| TestSet.TestSetArgs.constructor | crossdock/thrift/gauntlet/service/thrifttest/testset.go:204-206 | `TestSetHelper.Args` holds the given set |
| TestSet.TestSetArgs.ToWire | crossdock/thrift/gauntlet/service/thrifttest/testset.go:55-71 | never fails, and gives ArgsWire of the set |
| TestSet.TestSetArgs.FromWire | crossdock/thrift/gauntlet/service/thrifttest/testset.go:90-104 | the loop, reading each set through ReadSetI32, leaves and returns what the field scan gives |
| TestSet.TestSetResult.constructor | crossdock/thrift/gauntlet/service/thrifttest/testset.go:207-212 | a result holding the given set |
| TestSet.TestSetResult.ToWire | crossdock/thrift/gauntlet/service/thrifttest/testset.go:128-147 | gives ResultWire of the set, with the error it names |
| TestSet.TestSetResult.FromWire | crossdock/thrift/gauntlet/service/thrifttest/testset.go:149-170 | the loop and the count check leave and return what ResultFromWire gives |
| TestSet.IsException | crossdock/thrift/gauntlet/service/thrifttest/testset.go:198-203 | no error is an exception of testSet |
| TestSet.WrapResponse | crossdock/thrift/gauntlet/service/thrifttest/testset.go:207-212 | with no error, a new result holding the set, which unwraps back to it; with an error, nil and that error |
| TestSet.ArgsWireShape | crossdock/thrift/gauntlet/service/thrifttest/testset.go:55-71 | field 1 is an i32 set whose size is the number of elements, when the set is given; otherwise there is no field |
| TestSet.ArgsRoundTrip | crossdock/thrift/gauntlet/service/thrifttest/testset.go:55-104 | decoding encoded arguments gives the same set; with no set, a reused receiver keeps what it held |
| TestSet.ArgsNonI32SetIsNil | crossdock/thrift/gauntlet/service/thrifttest/testset.go:90-104 | a field 1 set of non-i32 elements sets `thing` to nil without an error |
| TestSet.ResultRoundTrip | crossdock/thrift/gauntlet/service/thrifttest/testset.go:128-170 | a result without a set fails to encode with the exactly-one-field error; with one it encodes as field 0 and decodes back |
| TestSet.ResultRequiresSuccess | crossdock/thrift/gauntlet/service/thrifttest/testset.go:149-170 | decoding a result succeeds only with a set in `success` |
| TestSet.ResultNonI32SetRejected | crossdock/thrift/gauntlet/service/thrifttest/testset.go:149-170 | a field 0 set of non-i32 elements reads as nil, so decoding fails with the exactly-one-field error, whatever the receiver held |
| TestSet.UnwrapResponse | crossdock/thrift/gauntlet/service/thrifttest/testset.go:213-220 | no error exactly when `success` is set, and then the set; otherwise nil and "expected a non-void result" |
| TestSet.Envelopes | crossdock/thrift/gauntlet/service/thrifttest/testset.go:116-122 | both names are "testSet"; arguments travel in a Call, the result in a Reply |
| BlahBlah.BlahBlahArgs.ToWire | internal/crossdock/thrift/gauntlet/secondservice_blahblah.go:34-40 | an empty struct and no error, which FromWire decodes without error |
| BlahBlah.BlahBlahArgs.FromWire | internal/crossdock/thrift/gauntlet/secondservice_blahblah.go:42-48 | never fails, whatever the value |
| BlahBlah.BlahBlahArgs.Equals | internal/crossdock/thrift/gauntlet/secondservice_blahblah.go:59-61 | any two argument structs are equal |
| BlahBlah.BlahBlahResult.ToWire | internal/crossdock/thrift/gauntlet/secondservice_blahblah.go:101-107 | an empty struct and no error, which FromWire decodes without error |
| BlahBlah.BlahBlahResult.FromWire | internal/crossdock/thrift/gauntlet/secondservice_blahblah.go:109-115 | never fails, whatever the value |
| BlahBlah.BlahBlahResult.Equals | internal/crossdock/thrift/gauntlet/secondservice_blahblah.go:126-128 | any two result structs are equal |
| BlahBlah.ArgsString | internal/crossdock/thrift/gauntlet/secondservice_blahblah.go:50-57 | `<nil>` for a nil pointer, otherwise "SecondService_BlahBlah_Args{}" |
| BlahBlah.ResultString | internal/crossdock/thrift/gauntlet/secondservice_blahblah.go:117-124 | `<nil>` for a nil pointer, otherwise "SecondService_BlahBlah_Result{}" |
| BlahBlah.Args | internal/crossdock/thrift/gauntlet/secondservice_blahblah.go:79-81 | `Helper.Args` never returns nil |
| BlahBlah.IsException | internal/crossdock/thrift/gauntlet/secondservice_blahblah.go:82-87 | no error is an exception of blahBlah |
| BlahBlah.WrapResponse | internal/crossdock/thrift/gauntlet/secondservice_blahblah.go:88-93 | an (empty) result exactly when there is no error; the error is passed through |
| BlahBlah.UnwrapResponse | internal/crossdock/thrift/gauntlet/secondservice_blahblah.go:94-96 | a void result unwraps to no error |
| BlahBlah.IgnoreFieldsNeverFails | internal/crossdock/thrift/gauntlet/secondservice_blahblah.go:42-48 | the field loop with its empty switch never fails, whatever the fields |
| BlahBlah.WrapUnwrap | internal/crossdock/thrift/gauntlet/secondservice_blahblah.go:88-96 | wrapping no error then unwrapping gives no error; an error is never wrapped into a result |
| BlahBlah.Envelopes | internal/crossdock/thrift/gauntlet/secondservice_blahblah.go:63-69 | both names are "blahBlah"; arguments travel in a Call, the result in a Reply |

## Left out

- Tracing and time: `time.Now()` (handler.go:125) and the inbound span extraction for native calls (handler.go:147-150) have no effect on the modelled state, so they are not modelled.
- The TChannel adaptors `handler.Handle` and `tchannelCall.Response` (handler.go:76-91) are not modelled. An `InboundCall` only records whether it is native.
- The buffer pool is modelled as two logged events, `bufferpool.Get` returning an empty buffer and `bufferpool.Put`. Its pooling, reset and capacity are not modelled.
- How `bytes.Buffer.Write` fails is a parameter. A failed write leaves the buffer unchanged and returns 0.
- The functions defined outside handler.go that `callHandler` and the writer call are parameters. These are `readRequestHeaders`, `writeHeaders`, `isReservedHeaderKey`, `transport.ValidateRequest`, `ValidateUnaryContext`, `DispatchUnaryHandler`'s handler, `router.Choose`, `errors.WrapHandlerError` and `errors.RequestHeadersDecodeError`. Their own behaviour is not modelled.
- A legacy handler's own behaviour is not modelled. Running it is a single logged event.
- The unary handler is a fixed sequence of writer calls plus a returned error. A handler whose calls depend on earlier results is not modelled.
- `transport.Headers` is modelled as a sequence that `With` appends to. Key canonicalisation and the replacement of a repeated key are not modelled. For `AddHeaders`, the sequence order stands for Go's map iteration order.
- Error texts: `Text` renders system, status and `multierr` errors in a fixed form. The exact strings of yarpcerrors and tchannel-go are not modelled.
- The values of the constants `ErrorCodeHeaderKey`, `ErrorNameHeaderKey` and `ErrorMessageHeaderKey` come from the protocol's header names, `$rpc$-error-code`, `$rpc$-error-name` and `$rpc$-error-message`. The Go constants are defined outside handler.go.
- `String()` of the testStringMap and testSet structs is not modelled, because it formats Go maps with `fmt`. BlahBlah's `String` is modelled.
- The `init()` registration of the helper closures is not modelled. The closures are plain functions and methods.
- The `_Map_String_String_*` helpers are parameters (`MapHelpers`). The round-trip lemmas assume that reading a map's item list gives the map back (`RoundTrips`).
- `wire.Value` accessors: `GetStruct`, `GetMap` and `GetSet` on a value of another type give an empty struct, map or set. thriftrw's own behaviour there is not modelled. The generated code calls `GetMap` and `GetSet` only after checking the type.
- A decoded set's item list is modelled as the i32 values it yields plus an optional decoding error. thriftrw's lazy decoding is not modelled.
- TestSet.ReadSetI32: does not model the call of `s.Items.Close()` (testset.go:86). `_Set_I32_ValueList.Close` (testset.go:52-53) does nothing, and what closing a decoded item list does belongs to thriftrw, which is not part of this model.
- TestSet.ReadSetI32: the callback that `_Set_I32_Read` passes to `ForEach` is inlined into the iteration, because a Dafny function value cannot update a local set. The model does not capture the callback as a closure.
- TestSet.ForEach: Go's map iteration order is not modelled, so the contract does not say which failing element's error is returned when several fail.
- Go integer widths: `int16` field ids and `int32` set elements are range-limited newtypes. Go's `int` sizes and counts are unbounded `nat`s.
- The dead `if err != nil` branches after `wire.NewValueMap`/`NewValueSet`/`NewValueI32` are not modelled, because their error is always nil.
- Concurrency is not modelled. The buffer pool is shared, but each call's writer is used by one goroutine.
