/**
 * The effects one inbound TChannel call has on the world outside the
 * handler, in the order they happen, and two questions asked of such a
 * trace: how often a kind of effect happens and whether one kind always
 * comes before another. An event logs that a call was made, whatever it
 * answered: `Arg3ReaderOpened`, `Arg2Written` and `Arg3WriterOpened` are the
 * attempts, including ones that fail.
 */
module Trace {
  import opened Errors

  newtype byte = x: int | 0 <= x < 256

  type Bytes = seq<byte>

  /** A header as (key, value). */
  type Header = (string, string)

  /** `transport.Headers`: an ordered bag of pairs; `With` appends. */
  type Headers = seq<Header>

  datatype Event =
    | Arg2Read                                   // readRequestHeaders through call.Arg2Reader
    | Arg3ReaderOpened                           // call.Arg3Reader(), attempted
    | Arg3ReaderClosed                           // the deferred body.Close()
    | RouteChosen                                // router.Choose
    | LegacyHandled(procedure: string)           // existing[method].Handle(ctx, nil)
    | UnaryDispatched                            // transport.DispatchUnaryHandler
    | BufferAcquired                             // bufferpool.Get
    | BufferReleased                             // bufferpool.Put
    | ApplicationErrorMarked                     // response.SetApplicationError()
    | Arg2Written(format: string, headers: Headers)  // writeHeaders through response.Arg2Writer, attempted
    | Arg3WriterOpened                           // response.Arg3Writer(), attempted
    | BodyWritten(bytes: Bytes)                  // bodyWriter.Write
    | BodyClosed                                 // the deferred bodyWriter.Close()
    | SystemErrorSent(error: Error)              // response.SendSystemError

  /** The kind of an event, without its payload. */
  datatype Kind =
    | ReadArg2 | OpenArg3Reader | CloseArg3Reader | ChooseRoute | CallLegacy
    | DispatchUnary | GetBuffer | PutBuffer | MarkApplicationError | WriteArg2
    | OpenArg3Writer | WriteBody | CloseBody | SendSystemError

  function KindOf(e: Event): Kind {
    match e
    case Arg2Read => ReadArg2
    case Arg3ReaderOpened => OpenArg3Reader
    case Arg3ReaderClosed => CloseArg3Reader
    case RouteChosen => ChooseRoute
    case LegacyHandled(_) => CallLegacy
    case UnaryDispatched => DispatchUnary
    case BufferAcquired => GetBuffer
    case BufferReleased => PutBuffer
    case ApplicationErrorMarked => MarkApplicationError
    case Arg2Written(_, _) => WriteArg2
    case Arg3WriterOpened => OpenArg3Writer
    case BodyWritten(_) => WriteBody
    case BodyClosed => CloseBody
    case SystemErrorSent(_) => SendSystemError
  }

  /** How many events of kind `k` the trace holds. */
  function Count(ev: seq<Event>, k: Kind): nat
    decreases |ev|
  {
    if ev == [] then 0 else (if KindOf(ev[0]) == k then 1 else 0) + Count(ev[1..], k)
  }

  /** No event of kind `k` happens. */
  predicate Absent(ev: seq<Event>, k: Kind) {
    forall i :: 0 <= i < |ev| ==> KindOf(ev[i]) != k
  }

  /** Every event of kind `a` happens before every event of kind `b`. */
  predicate Precedes(ev: seq<Event>, a: Kind, b: Kind) {
    forall i, j :: 0 <= i < |ev| && 0 <= j < |ev| && KindOf(ev[i]) == a && KindOf(ev[j]) == b ==> i < j
  }

  lemma {:induction false} CountAppend(x: seq<Event>, y: seq<Event>, k: Kind)
    ensures Count(x + y, k) == Count(x, k) + Count(y, k)
    decreases |x|
  {
    if x == [] {
      assert x + y == y;
    } else {
      assert (x + y)[1..] == x[1..] + y;
      CountAppend(x[1..], y, k);
    }
  }

  lemma CountSingleton(e: Event, k: Kind)
    ensures Count([e], k) == if KindOf(e) == k then 1 else 0
  {
    assert [e][1..] == [];
  }

  lemma {:induction false} CountAllOfKind(ev: seq<Event>, k: Kind)
    ensures Count(ev, k) == |ev| <==> forall i :: 0 <= i < |ev| ==> KindOf(ev[i]) == k
    ensures Count(ev, k) <= |ev|
    decreases |ev|
  {
    if ev != [] {
      CountAllOfKind(ev[1..], k);
      assert forall i :: 1 <= i < |ev| ==> ev[1..][i - 1] == ev[i];
    }
  }

  lemma {:induction false} CountZeroIsAbsent(ev: seq<Event>, k: Kind)
    ensures Count(ev, k) == 0 <==> Absent(ev, k)
    decreases |ev|
  {
    if ev != [] {
      CountZeroIsAbsent(ev[1..], k);
      assert forall i :: 1 <= i < |ev| ==> ev[1..][i - 1] == ev[i];
    }
  }

  /** Joining two traces keeps an order that each half keeps, when the halves cannot cross. */
  lemma PrecedesAppend(x: seq<Event>, y: seq<Event>, a: Kind, b: Kind)
    requires Precedes(x, a, b) && Precedes(y, a, b)
    requires Absent(x, b) || Absent(y, a)
    ensures Precedes(x + y, a, b)
  {
    var xy := x + y;
    assert forall i :: 0 <= i < |x| ==> xy[i] == x[i];
    assert forall i :: |x| <= i < |xy| ==> xy[i] == y[i - |x|];
  }

  /** Every `a` in a first part and every `b` in a second part are in order. */
  lemma PrecedesSplit(x: seq<Event>, y: seq<Event>, a: Kind, b: Kind)
    requires Absent(x, b) && Absent(y, a)
    ensures Precedes(x + y, a, b)
  {
    var xy := x + y;
    assert forall i :: 0 <= i < |x| ==> xy[i] == x[i];
    assert forall i :: |x| <= i < |xy| ==> xy[i] == y[i - |x|];
  }

  /** A kind that does not occur trivially precedes, and is preceded by, everything. */
  lemma PrecedesVacuous(ev: seq<Event>, a: Kind, b: Kind)
    requires Absent(ev, a) || Absent(ev, b)
    ensures Precedes(ev, a, b)
  {
  }

  /** A single effect precedes nothing of another kind, and only its own kind is present. */
  lemma PrecedesSingleton(e: Event)
    ensures forall a: Kind, b: Kind :: a != b ==> Precedes([e], a, b)
    ensures forall k: Kind :: Absent([e], k) <==> KindOf(e) != k
  {
    forall k: Kind ensures Absent([e], k) <==> KindOf(e) != k {
      assert [e][0] == e;
    }
  }

  lemma AbsentAppend(x: seq<Event>, y: seq<Event>, k: Kind)
    ensures Absent(x + y, k) <==> Absent(x, k) && Absent(y, k)
  {
    if Absent(x, k) && Absent(y, k) {
      forall i | 0 <= i < |x + y| ensures KindOf((x + y)[i]) != k {
        if i >= |x| { assert (x + y)[i] == y[i - |x|]; }
      }
    }
    if Absent(x + y, k) {
      forall i | 0 <= i < |x| ensures KindOf(x[i]) != k {
        assert (x + y)[i] == x[i];
      }
      forall i | 0 <= i < |y| ensures KindOf(y[i]) != k {
        assert (x + y)[i + |x|] == y[i];
      }
    }
  }
}
