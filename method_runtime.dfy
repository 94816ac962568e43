/**
 * The controlled-method runtime: the immutable exit record (`MethodExit`),
 * the immutable call record (`MethodCall`) and the per-method handler that
 * owns the exit queue and the call history (`ControlledMethodHandler`).
 *
 * The three live in one module because an exit keeps a reference to the
 * handler whose history it is recorded in, and the handler holds exits.
 * The wall clock is a parameter (`now`); sleeping is not modelled, only the
 * delay's value and the one effect it can have on the outcome (a negative
 * delay is refused by `Thread.sleep` with an `IllegalArgumentException`).
 */
module MethodRuntime {
  import opened JavaModel

  /** How an exit was scripted to end the call (`MethodExit.Exited`). */
  datatype Exited = Normally | ByUncheckedException | ByCheckedException

  /** `java.util.NoSuchElementException` with its message. */
  datatype NoSuchElementException = NoSuchElementException(message: string)

  /** The library's own failure kind; it tells a configuration error apart from a scripted fault. */
  datatype ControllableMethodException = ControllableMethodException(cause: NoSuchElementException)

  const NoExitsMessagePrefix: string := "There have been no MethodExit elements added."

  const NoExitsMessage: string := NoExitsMessagePrefix +
    "  At least one must be added (used as default exit), otherwise the method cannot be controlled"

  /** What `getNextExit` throws when the exit queue is empty. */
  const NoExitsFailure: ControllableMethodException :=
    ControllableMethodException(NoSuchElementException(NoExitsMessage))

  /** How one execution of a controlled method ends, as its caller sees it. */
  datatype Outcome<R> =
    | Returned(value: Nullable<R>)
    | ThrewUnchecked(exception: Throwable)
    | ThrewChecked(exception: Throwable)
      /** `Thread.sleep` refused a negative delay with an `IllegalArgumentException`. */
    | SleepRejected
    | ControllableFailure(failure: ControllableMethodException)

  /**
   * One scripted way for a call to end. All fields are final: an exit never
   * changes once created. `historyToStoreMeIn` is the handler that created it.
   */
  datatype MethodExit<R> = MethodExit(
    historyToStoreMeIn: ControlledMethodHandler<R>,
    byReturnValue: Nullable<R>,
    byUncheckedException: Nullable<Throwable>,
    byCheckedException: Nullable<Throwable>,
    msExitDelay: Long,
    howItExited: Exited)
  {
    /** Only the payload that `howItExited` names may be non-null. */
    predicate WellFormed()
    {
      match howItExited
      case Normally => byUncheckedException.Null? && byCheckedException.Null?
      case ByUncheckedException => byReturnValue.Null? && byCheckedException.Null?
      case ByCheckedException => byReturnValue.Null? && byUncheckedException.Null?
    }

    /**
     * The shared first half of both resolutions, after the call is recorded:
     * the delay is slept (a negative one makes `Thread.sleep` throw), then a
     * non-null unchecked exception is thrown. `Null` means "carry on".
     */
    function SleepOrUncheckedOutcome(): (thrown: Nullable<Outcome<R>>)
      ensures thrown.NonNull? <==> msExitDelay < 0 || byUncheckedException.NonNull?
      ensures thrown.NonNull? ==> thrown.get.SleepRejected? || thrown.get.ThrewUnchecked?
    {
      if msExitDelay < 0 then NonNull(SleepRejected)
      else if byUncheckedException.NonNull? then NonNull(ThrewUnchecked(byUncheckedException.get))
      else Null
    }

    /** The outcome of the resolution used by methods declaring no checked exception. */
    function UncheckedOrReturnOutcome(): (o: Outcome<R>)
      ensures o.Returned? || o.ThrewUnchecked? || o.SleepRejected?
      ensures o.SleepRejected? <==> msExitDelay < 0
      ensures 0 <= msExitDelay && byUncheckedException.NonNull? ==> o == ThrewUnchecked(byUncheckedException.get)
      ensures o.Returned? ==> o.value == byReturnValue
      ensures WellFormed() && 0 <= msExitDelay && howItExited == Normally ==> o == Returned(byReturnValue)
      // a checked exit reaching this resolution is not raised: the (null) return value comes back
      ensures WellFormed() && 0 <= msExitDelay && howItExited == ByCheckedException ==> o == Returned(Null)
    {
      match SleepOrUncheckedOutcome()
      case NonNull(thrown) => thrown
      case Null => Returned(byReturnValue)
    }

    /**
     * The outcome of the resolution used by methods declaring 1 to 5 checked
     * exceptions. Each of the five probes throws the stored checked exception
     * inside a `try` whose `catch (ClassCastException)` is meant for a failed
     * cast; generic casts are erased, so the cast itself never fails. A stored
     * exception that is not a `ClassCastException` escapes the first probe;
     * one that is gets caught by every probe, and the value is returned.
     */
    function CheckedOrUncheckedOrReturnOutcome(): (o: Outcome<R>)
      ensures !o.ControllableFailure?
      ensures o.SleepRejected? <==> msExitDelay < 0
      ensures 0 <= msExitDelay && byUncheckedException.NonNull? ==> o == ThrewUnchecked(byUncheckedException.get)
      ensures o.ThrewChecked? ==>
                && byUncheckedException.Null? && byCheckedException == NonNull(o.exception)
                && !o.exception.isClassCastException
      ensures o.Returned? ==>
                o.value == byReturnValue && (byCheckedException.Null? || byCheckedException.get.isClassCastException)
      ensures WellFormed() && 0 <= msExitDelay && howItExited == Normally ==> o == Returned(byReturnValue)
      ensures WellFormed() && 0 <= msExitDelay && byCheckedException.NonNull? ==>
                o == if byCheckedException.get.isClassCastException then Returned(byReturnValue)
                     else ThrewChecked(byCheckedException.get)
    {
      match SleepOrUncheckedOutcome()
      case NonNull(thrown) => thrown
      case Null =>
        if byCheckedException.NonNull? && !byCheckedException.get.isClassCastException then ThrewChecked(byCheckedException.get)
        else Returned(byReturnValue)
    }

    /** Records this exit and the call's arguments in the owning handler's history. */
    method StoreMe(methodArgumentValues: seq<Arg>, now: Long) returns (self: MethodExit<R>)
      modifies historyToStoreMeIn
      ensures self == this
      ensures historyToStoreMeIn.callHistory ==
              old(historyToStoreMeIn.callHistory) + [NewMethodCall(this, methodArgumentValues, now)]
      ensures historyToStoreMeIn.exitQueue == old(historyToStoreMeIn.exitQueue)
    {
      historyToStoreMeIn.AddCall(NewMethodCall(this, methodArgumentValues, now));
      self := this;
    }

    /** Record the call, then sleep and throw the unchecked exception if one is set. */
    method ExitByUncheckedException(methodArgumentValues: seq<Arg>, now: Long) returns (thrown: Nullable<Outcome<R>>)
      modifies historyToStoreMeIn
      ensures historyToStoreMeIn.callHistory ==
              old(historyToStoreMeIn.callHistory) + [NewMethodCall(this, methodArgumentValues, now)]
      ensures historyToStoreMeIn.exitQueue == old(historyToStoreMeIn.exitQueue)
      ensures thrown == SleepOrUncheckedOutcome()
    {
      var _ := StoreMe(methodArgumentValues, now);
      if msExitDelay < 0 {
        thrown := NonNull(SleepRejected);
      } else if byUncheckedException.NonNull? {
        thrown := NonNull(ThrewUnchecked(byUncheckedException.get));
      } else {
        thrown := Null;
      }
    }

    /** `exitByUncheckedExceptionOrReturningValue`: throw the unchecked exception, or return the value. */
    method ExitByUncheckedExceptionOrReturningValue(methodArgumentValues: seq<Arg>, now: Long) returns (o: Outcome<R>)
      modifies historyToStoreMeIn
      ensures historyToStoreMeIn.callHistory ==
              old(historyToStoreMeIn.callHistory) + [NewMethodCall(this, methodArgumentValues, now)]
      ensures historyToStoreMeIn.exitQueue == old(historyToStoreMeIn.exitQueue)
      ensures o == UncheckedOrReturnOutcome()
    {
      var thrown := ExitByUncheckedException(methodArgumentValues, now);
      if thrown.NonNull? {
        o := thrown.get;
      } else {
        o := Returned(byReturnValue);
      }
    }

    /**
     * `exitByCheckedOrUncheckedExceptionOrReturnValue`: unchecked first, then
     * checked (unless the probes swallow it), else the value.
     */
    method ExitByCheckedOrUncheckedExceptionOrReturnValue(methodArgumentValues: seq<Arg>, now: Long) returns (o: Outcome<R>)
      modifies historyToStoreMeIn
      ensures historyToStoreMeIn.callHistory ==
              old(historyToStoreMeIn.callHistory) + [NewMethodCall(this, methodArgumentValues, now)]
      ensures historyToStoreMeIn.exitQueue == old(historyToStoreMeIn.exitQueue)
      ensures o == CheckedOrUncheckedOrReturnOutcome()
    {
      var thrown := ExitByUncheckedException(methodArgumentValues, now);
      if thrown.NonNull? {
        o := thrown.get;
      } else if byCheckedException.NonNull? && !byCheckedException.get.isClassCastException {
        o := ThrewChecked(byCheckedException.get);
      } else {
        // a stored `ClassCastException` is caught by every probe's handler
        o := Returned(byReturnValue);
      }
    }
  }

  /** An exit that returns `byReturnValue` (null for a void method) after the delay. */
  function NormalExit<R>(handler: ControlledMethodHandler<R>, byReturnValue: Nullable<R>, msExitDelay: Long): (e: MethodExit<R>)
    ensures e.WellFormed() && e.howItExited == Normally
    ensures e.byReturnValue == byReturnValue && e.msExitDelay == msExitDelay && e.historyToStoreMeIn == handler
  {
    MethodExit(handler, byReturnValue, Null, Null, msExitDelay, Normally)
  }

  /** An exit that throws `byUncheckedException` after the delay. */
  function UncheckedExit<R>(handler: ControlledMethodHandler<R>, byUncheckedException: Nullable<Throwable>, msExitDelay: Long): (e: MethodExit<R>)
    ensures e.WellFormed() && e.howItExited == ByUncheckedException
    ensures e.byUncheckedException == byUncheckedException && e.byReturnValue.Null?
    ensures e.msExitDelay == msExitDelay && e.historyToStoreMeIn == handler
  {
    MethodExit(handler, Null, byUncheckedException, Null, msExitDelay, ByUncheckedException)
  }

  /** An exit that throws the checked `byCheckedException` after the delay. */
  function CheckedExit<R>(handler: ControlledMethodHandler<R>, byCheckedException: Nullable<Throwable>, msExitDelay: Long): (e: MethodExit<R>)
    ensures e.WellFormed() && e.howItExited == ByCheckedException
    ensures e.byCheckedException == byCheckedException && e.byReturnValue.Null?
    ensures e.msExitDelay == msExitDelay && e.historyToStoreMeIn == handler
  {
    MethodExit(handler, Null, Null, byCheckedException, msExitDelay, ByCheckedException)
  }

  /** One recorded invocation; all fields are final. */
  datatype MethodCall<R> = MethodCall(callTimeInMillis: Long, arguments: seq<Arg>, exit: MethodExit<R>)

  /** `new MethodCall(howItExited, arguments)`, with the clock reading `now` taken at construction. */
  function NewMethodCall<R>(howItExited: MethodExit<R>, arguments: seq<Arg>, now: Long): (c: MethodCall<R>)
    ensures c.arguments == arguments && |c.arguments| == |arguments|
    ensures c.exit == howItExited && c.callTimeInMillis == now
  {
    MethodCall(now, arguments, howItExited)
  }

  /** The resolution a controlled method applies: with or without the checked-exception step. */
  function Resolve<R>(e: MethodExit<R>, declaresChecked: bool): Outcome<R>
  {
    if declaresChecked then e.CheckedOrUncheckedOrReturnOutcome() else e.UncheckedOrReturnOutcome()
  }

  /**
   * `getNextExit` on the queue's contents: the result, and the queue afterwards.
   * FIFO, except that the last exit is kept as the sticky default.
   */
  function NextExit<R>(queue: seq<MethodExit<R>>): (r: (Result<MethodExit<R>, ControllableMethodException>, seq<MethodExit<R>>))
    ensures r.0.Ok? <==> queue != []
    ensures r.0.Err? ==> r.0.error == NoExitsFailure && r.1 == queue
    ensures r.0.Ok? ==> r.0.value == queue[0] && r.1 != []
    ensures |queue| <= 1 ==> r.1 == queue
    ensures |queue| > 1 ==> r.1 == queue[1..]
  {
    if |queue| == 0 then (Err(NoExitsFailure), queue)
    else if |queue| == 1 then (Ok(queue[0]), queue)
    else (Ok(queue[0]), queue[1..])
  }

  /**
   * The consume/record/resolve protocol of `exit(args)` on a handler whose
   * queue and history are given: the outcome, the new queue, the new history.
   */
  function Execute<R>(queue: seq<MethodExit<R>>, history: seq<MethodCall<R>>, args: seq<Arg>, now: Long, declaresChecked: bool)
    : (r: (Outcome<R>, seq<MethodExit<R>>, seq<MethodCall<R>>))
    ensures r.0.ControllableFailure? <==> queue == []
    ensures queue == [] ==> r == (ControllableFailure(NoExitsFailure), queue, history)
    ensures queue != [] ==>
              && r.1 == NextExit(queue).1
              && r.2 == history + [MethodCall(now, args, queue[0])]
              && r.0 == Resolve(queue[0], declaresChecked)
  {
    var (next, rest) := NextExit(queue);
    match next
    case Err(failure) => (ControllableFailure(failure), queue, history)
    case Ok(e) => (Resolve(e, declaresChecked), rest, history + [NewMethodCall(e, args, now)])
  }

  /**
   * The exit queue and the call history of one controlled method.
   * `Valid` says every queued exit was created by this handler.
   */
  class ControlledMethodHandler<R> {
    var exitQueue: seq<MethodExit<R>>
    var callHistory: seq<MethodCall<R>>

    ghost predicate Valid()
      reads this
    {
      forall i :: 0 <= i < |exitQueue| ==> exitQueue[i].historyToStoreMeIn == this
    }

    constructor ()
      ensures Valid() && exitQueue == [] && callHistory == []
    {
      exitQueue := [];
      callHistory := [];
    }

    /** A copy of the history: a value, so later calls never change it. */
    method GetHistorySnapshot() returns (snapshot: seq<MethodCall<R>>)
      ensures snapshot == callHistory
    {
      snapshot := callHistory;
    }

    method ClearAllExits()
      modifies this
      ensures Valid()
      ensures exitQueue == [] && callHistory == old(callHistory)
    {
      exitQueue := [];
    }

    method AddNormalExit(value: Nullable<R>, msExitDelay: Long)
      requires Valid()
      modifies this
      ensures Valid()
      ensures exitQueue == old(exitQueue) + [NormalExit(this, value, msExitDelay)]
      ensures callHistory == old(callHistory)
    {
      exitQueue := exitQueue + [NormalExit(this, value, msExitDelay)];
    }

    method AddUncheckedExceptionExit(exceptionToThrow: Nullable<Throwable>)
      requires Valid()
      modifies this
      ensures Valid()
      ensures exitQueue == old(exitQueue) + [UncheckedExit(this, exceptionToThrow, 0)]
      ensures callHistory == old(callHistory)
    {
      exitQueue := exitQueue + [UncheckedExit(this, exceptionToThrow, 0)];
    }

    method AddCall(callInfo: MethodCall<R>)
      modifies this
      ensures callHistory == old(callHistory) + [callInfo]
      ensures exitQueue == old(exitQueue)
    {
      callHistory := callHistory + [callInfo];
    }

    method AddExceptionExit(exceptionToThrow: Nullable<Throwable>)
      requires Valid()
      modifies this
      ensures Valid()
      ensures exitQueue == old(exitQueue) + [CheckedExit(this, exceptionToThrow, 0)]
      ensures callHistory == old(callHistory)
    {
      exitQueue := exitQueue + [CheckedExit(this, exceptionToThrow, 0)];
    }

    method GetNextExit() returns (r: Result<MethodExit<R>, ControllableMethodException>)
      requires Valid()
      modifies this
      ensures Valid()
      ensures (r, exitQueue) == NextExit(old(exitQueue))
      ensures r.Err? ==> NoExitsMessagePrefix <= r.error.cause.message
      ensures r.Ok? ==> r.value.historyToStoreMeIn == this
      ensures callHistory == old(callHistory)
    {
      var stackSize := |exitQueue|;
      if stackSize == 0 {
        r := Err(NoExitsFailure);
      } else if stackSize == 1 {
        r := Ok(exitQueue[0]);
      } else {
        r := Ok(exitQueue[0]);
        exitQueue := exitQueue[1..];
      }
    }
  }
}
