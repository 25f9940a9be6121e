/**
 * Error classification and merging on the TChannel inbound path
 * (`getSystemError` and `appendError` in transport/tchannel/handler.go).
 */
module TChannelErrors {
  import opened Wrappers
  import opened Errors

  /** `tchannel.ErrTimeoutRequired`, returned for a context without a deadline. */
  const ErrTimeoutRequired: Error := SystemError(ErrCodeBadRequest, "timeout required")

  predicate IsSystemError(e: Option<Error>) {
    e.Some? && e.value.SystemError?
  }

  /**
   * `getSystemError`: a system error is returned unchanged; any other error
   * becomes a system error whose message is the error's text and whose status
   * follows the error's kind.
   */
  function GetSystemError(e: Error): (r: Error)
    ensures r.SystemError?
    ensures e.SystemError? ==> r == e
    ensures !e.SystemError? ==> r.message == Text(e)
    ensures !e.SystemError? ==>
      (r.status == ErrCodeBadRequest <==> CodeOf(e) == InvalidArgument || CodeOf(e) == Unimplemented)
    ensures !e.SystemError? ==> (r.status == ErrCodeTimeout <==> CodeOf(e) == DeadlineExceeded)
    ensures !e.SystemError? ==>
      (r.status == ErrCodeUnexpected <==>
         CodeOf(e) != InvalidArgument && CodeOf(e) != Unimplemented && CodeOf(e) != DeadlineExceeded)
  {
    if e.SystemError? then e
    else
      var status :=
        if CodeOf(e) == InvalidArgument || CodeOf(e) == Unimplemented then ErrCodeBadRequest
        else if CodeOf(e) == DeadlineExceeded then ErrCodeTimeout
        else ErrCodeUnexpected;
      SystemError(status, Text(e))
  }

  /** Classifying an already classified error changes nothing. */
  lemma GetSystemErrorIdempotent(e: Error)
    ensures GetSystemError(GetSystemError(e)) == GetSystemError(e)
  {
  }

  /** `multierr.Append`: nil is the identity, otherwise the errors are concatenated. */
  function MultiAppend(left: Option<Error>, right: Option<Error>): Option<Error> {
    if left.None? then right
    else if right.None? then left
    else Some(Multi(Parts(left) + Parts(right)))
  }

  /**
   * `appendError`: a system error on the left absorbs the right; otherwise a
   * system error on the right replaces the left; otherwise the two are
   * combined as by `multierr.Append`.
   */
  function AppendError(left: Option<Error>, right: Option<Error>): (r: Option<Error>)
    ensures IsSystemError(left) ==> r == left
    ensures !IsSystemError(left) && IsSystemError(right) ==> r == right
    ensures !IsSystemError(left) && !IsSystemError(right) ==>
      !IsSystemError(r) && Parts(r) == Parts(left) + Parts(right)
    ensures left.None? ==> r == right
    ensures right.None? ==> r == left
    ensures r.None? <==> left.None? && right.None?
  {
    if IsSystemError(left) then left
    else if IsSystemError(right) then right
    else MultiAppend(left, right)
  }

  /** Merging errors does not depend on how the merges are grouped. */
  lemma AppendErrorAssociative(a: Option<Error>, b: Option<Error>, c: Option<Error>)
    ensures AppendError(AppendError(a, b), c) == AppendError(a, AppendError(b, c))
  {
    if !IsSystemError(a) && !IsSystemError(b) && !IsSystemError(c)
       && a.Some? && b.Some? && c.Some?
    {
      assert (Parts(a) + Parts(b)) + Parts(c) == Parts(a) + (Parts(b) + Parts(c));
    }
  }

  /** Errors merged left to right, as `retErr = appendError(retErr, …)` does. */
  function Accumulate(es: seq<Option<Error>>): Option<Error>
    decreases |es|
  {
    if es == [] then None else AppendError(Accumulate(es[..|es| - 1]), es[|es| - 1])
  }

  /** All the errors of a sequence of errors, flattened in order. */
  function Flatten(es: seq<Option<Error>>): seq<Error>
    decreases |es|
  {
    if es == [] then [] else Flatten(es[..|es| - 1]) + Parts(es[|es| - 1])
  }

  /** In a chain of merges, the first system error is the whole result. */
  lemma {:induction false} AccumulateFirstSystemError(es: seq<Option<Error>>, k: nat)
    requires k < |es| && IsSystemError(es[k])
    requires forall i :: 0 <= i < k ==> !IsSystemError(es[i])
    ensures Accumulate(es) == es[k]
    decreases |es|
  {
    if k == |es| - 1 {
      AccumulateNoSystemError(es[..k]);
    } else {
      AccumulateFirstSystemError(es[..|es| - 1], k);
    }
  }

  /** Without system errors, a chain of merges keeps every error, in order. */
  lemma {:induction false} AccumulateNoSystemError(es: seq<Option<Error>>)
    requires forall i :: 0 <= i < |es| ==> !IsSystemError(es[i])
    ensures !IsSystemError(Accumulate(es))
    ensures Parts(Accumulate(es)) == Flatten(es)
    decreases |es|
  {
    if es != [] {
      AccumulateNoSystemError(es[..|es| - 1]);
    }
  }
}
