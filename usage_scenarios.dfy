/**
 * End-to-end uses of a controlled method through its front ends, one per
 * behaviour the library's own test base checks: an unscripted call fails,
 * a throwing exit is still recorded, a single exit is sticky, several exits
 * are used in order, clearing the exits brings the failure back, every
 * front end sees the same history, and a history snapshot never changes.
 */
module UsageScenarios {
  import opened JavaModel
  import opened MethodRuntime
  import opened ControllableMethods
  import opened ControlledMethods

  /** Calling a method before any exit was added fails with the configuration error and records nothing. */
  method UnscriptedCallFails<R>(args: seq<Arg>, now: Long) returns (o: Outcome<R>, history: seq<MethodCall<R>>)
    ensures o.ControllableFailure? && NoExitsMessagePrefix <= o.failure.cause.message
    ensures history == []
  {
    var controlled := new ControlledNonVoidMethod<R>(0);
    var controllable := controlled.CreateControllable();
    o := controlled.Exit(args, now);
    history := controllable.GetHistory();
  }

  /** A call ending in the scripted unchecked exception is recorded with its arguments, time and exit. */
  method ThrowingExitIsRecorded<R>(e: Throwable, args: seq<Arg>, now: Long) returns (o: Outcome<R>, history: seq<MethodCall<R>>)
    ensures o == ThrewUnchecked(e)
    ensures |history| == 1
    ensures history[0].arguments == args && history[0].callTimeInMillis == now
    ensures history[0].exit.howItExited == ByUncheckedException && history[0].exit.byUncheckedException == NonNull(e)
  {
    var controlled := new ControlledNonVoidMethod<R>(0);
    var controllable := controlled.CreateControllable();
    var _ := controllable.AddUncheckedExceptionExit(NonNull(e));
    o := controlled.Exit(args, now);
    history := controllable.GetHistory();
  }

  /** With one exit scripted, every one of `n` calls uses that same exit, and each call is recorded. */
  method SingleExitServesEveryCall(e: Throwable, calls: seq<seq<Arg>>, now: Long)
    returns (outcomes: seq<Outcome<int>>, history: seq<MethodCall<int>>)
    ensures |outcomes| == |history| == |calls|
    ensures forall i :: 0 <= i < |calls| ==> outcomes[i] == ThrewUnchecked(e)
    ensures forall i :: 0 <= i < |calls| ==>
              history[i].arguments == calls[i] && history[i].exit.byUncheckedException == NonNull(e)
    ensures forall i, j :: 0 <= i < j < |calls| ==> history[i].exit == history[j].exit
  {
    var controlled := new ControlledNonVoidMethod<int>(0);
    var controllable := controlled.CreateControllable();
    var _ := controllable.AddUncheckedExceptionExit(NonNull(e));
    ghost var only := UncheckedExit(controlled.controlledHandler, NonNull(e), 0);
    outcomes := [];
    var i := 0;
    while i < |calls|
      invariant 0 <= i <= |calls| && |outcomes| == i
      invariant controlled.controlledHandler.Valid()
      invariant controlled.controlledHandler.exitQueue == [only]
      invariant |controlled.controlledHandler.callHistory| == i
      invariant forall k :: 0 <= k < i ==> outcomes[k] == ThrewUnchecked(e)
      invariant forall k :: 0 <= k < i ==>
                  controlled.controlledHandler.callHistory[k] == MethodCall(now, calls[k], only)
    {
      var o := controlled.Exit(calls[i], now);
      outcomes := outcomes + [o];
      i := i + 1;
    }
    history := controllable.GetHistory();
  }

  /**
   * Exits added as unchecked, normal, unchecked, normal are used in that
   * order, and the history lists the four calls with those exits.
   */
  method ExitsAreUsedInOrder<R>(unchecked1: Throwable, unchecked2: Throwable, value: Nullable<R>, args: seq<Arg>, now: Long)
    returns (outcomes: seq<Outcome<R>>, history: seq<MethodCall<R>>)
    ensures outcomes == [ThrewUnchecked(unchecked1), Returned(value), ThrewUnchecked(unchecked2), Returned(value)]
    ensures |history| == 4
    ensures history[0].exit.byUncheckedException == NonNull(unchecked1) && history[1].exit.byReturnValue == value
    ensures history[2].exit.byUncheckedException == NonNull(unchecked2) && history[3].exit.byReturnValue == value
    ensures history[1].exit.howItExited == history[3].exit.howItExited == Normally
  {
    var controlled := new ControlledNonVoidMethod<R>(0);
    var controllable := controlled.CreateControllable();
    var _ := controllable.AddUncheckedExceptionExit(NonNull(unchecked1));
    var _ := controllable.AddNormalExit(value);
    var _ := controllable.AddUncheckedExceptionExit(NonNull(unchecked2));
    var _ := controllable.AddNormalExit(value);
    var o0 := controlled.Exit(args, now);
    var o1 := controlled.Exit(args, now);
    var o2 := controlled.Exit(args, now);
    var o3 := controlled.Exit(args, now);
    outcomes := [o0, o1, o2, o3];
    history := controllable.GetHistory();
  }

  /** After `clearExits` the next call fails with the configuration error; the earlier call stays recorded. */
  method ClearingExitsBringsBackTheFailure(args: seq<Arg>, now: Long) returns (first: Outcome<Void>, second: Outcome<Void>, history: seq<MethodCall<Void>>)
    ensures first == Returned(Null)
    ensures second.ControllableFailure? && NoExitsMessagePrefix <= second.failure.cause.message
    ensures |history| == 1 && history[0].arguments == args
  {
    var controlled := new ControlledVoidMethod(0);
    var controllable := controlled.CreateControllable();
    var _ := controllable.AddNormalExit();
    first := controlled.Exit(args, now);
    var _ := controllable.ClearExits();
    second := controlled.Exit(args, now);
    history := controllable.GetHistory();
  }

  /** Two front ends of one controlled method: exits added through one drive calls seen by the other. */
  method EveryFrontEndSeesTheSameHistory<R>(value: Nullable<R>, args1: seq<Arg>, args2: seq<Arg>, now: Long)
    returns (viaFirst: seq<MethodCall<R>>, viaSecond: seq<MethodCall<R>>)
    ensures viaFirst == viaSecond
    ensures |viaFirst| == 2 && viaFirst[0].arguments == args1 && viaFirst[1].arguments == args2
  {
    var controlled := new ControlledNonVoidMethod<R>(2);
    var first := controlled.CreateControllable();
    var second := controlled.CreateControllable();
    var _ := first.AddNormalExit(value);
    var _ := controlled.Exit(args1, now);
    var _ := controlled.Exit(args2, now);
    viaFirst := first.GetHistory();
    viaSecond := second.GetHistory();
  }

  /** A history snapshot is a value: calls made after it is taken do not appear in it. */
  method SnapshotIsUnaffectedByLaterCalls<R>(value: Nullable<R>, args1: seq<Arg>, args2: seq<Arg>, now: Long)
    returns (before: seq<MethodCall<R>>, after: seq<MethodCall<R>>)
    ensures |before| == 1 && before[0].arguments == args1
    ensures |after| == 2 && after[..1] == before && after[1].arguments == args2
  {
    var controlled := new ControlledNonVoidMethod<R>(1);
    var controllable := controlled.CreateControllable();
    var _ := controllable.AddNormalExit(value);
    var _ := controlled.Exit(args1, now);
    before := controllable.GetHistory();
    var _ := controlled.Exit(args2, now);
    after := controllable.GetHistory();
  }

  /**
   * On a method declaring checked exceptions, a scripted checked exception is
   * thrown as such, unless it is a `ClassCastException`, which the type probes
   * swallow so that the call returns; either way it is recorded as a checked exit.
   */
  method CheckedExitIsThrown(e: Throwable, args: seq<Arg>, now: Long) returns (o: Outcome<Void>, history: seq<MethodCall<Void>>)
    ensures o == if e.isClassCastException then Returned(Null) else ThrewChecked(e)
    ensures |history| == 1 && history[0].exit.howItExited == ByCheckedException
  {
    var controlled := new ControlledVoidMethod(3);
    var controllable := controlled.CreateControllable();
    var _ := controllable.AddCheckedExceptionExit(3, NonNull(e));
    o := controlled.Exit(args, now);
    history := controllable.GetHistory();
  }
}
