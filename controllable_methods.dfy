/**
 * The scripting front ends a test uses to control a method: add exits to the
 * queue, clear it, read the history. Each front end wraps the handler of the
 * controlled method that created it; it owns no state of its own.
 *
 * The Java `ThrowingKCheckedException(s)` subclasses differ only in which
 * `addCheckedExceptionKExit` methods they expose; here that is the constant
 * `checkedArity` (0 for the base class, K for `ThrowingK`), and
 * `AddCheckedExceptionExit(k, ...)` exists for `1 <= k <= checkedArity`.
 */
module ControllableMethods {
  import opened JavaModel
  import opened MethodRuntime

  /** Largest number of checked exceptions a controllable method can declare. */
  const MaxCheckedArity: nat := 5

  /** How many checked exceptions a controllable method declares: the K of `ThrowingK`. */
  type CheckedArity = k: nat | k <= MaxCheckedArity

  /** `ControllableNonVoidMethod` and its `Throwing1..5` subclasses. */
  class ControllableNonVoidMethod<R> {
    const controllableHandler: ControlledMethodHandler<R>
    const checkedArity: CheckedArity

    constructor (controllableHandler: ControlledMethodHandler<R>, checkedArity: CheckedArity)
      ensures this.controllableHandler == controllableHandler && this.checkedArity == checkedArity
    {
      this.controllableHandler := controllableHandler;
      this.checkedArity := checkedArity;
    }

    /** `addNormalExit(returnValue)`: a normal exit with no delay. */
    method AddNormalExit(returnValue: Nullable<R>) returns (self: ControllableNonVoidMethod<R>)
      requires controllableHandler.Valid()
      modifies controllableHandler
      ensures self == this && controllableHandler.Valid()
      ensures controllableHandler.exitQueue == old(controllableHandler.exitQueue) + [NormalExit(controllableHandler, returnValue, 0)]
      ensures controllableHandler.callHistory == old(controllableHandler.callHistory)
    {
      controllableHandler.AddNormalExit(returnValue, 0);
      self := this;
    }

    /** `addNormalExit(returnValue, delayBeforeExitInMillis)`. */
    method AddNormalExitWithDelay(returnValue: Nullable<R>, delayBeforeExitInMillis: Long) returns (self: ControllableNonVoidMethod<R>)
      requires controllableHandler.Valid()
      modifies controllableHandler
      ensures self == this && controllableHandler.Valid()
      ensures controllableHandler.exitQueue ==
              old(controllableHandler.exitQueue) + [NormalExit(controllableHandler, returnValue, delayBeforeExitInMillis)]
      ensures controllableHandler.callHistory == old(controllableHandler.callHistory)
    {
      controllableHandler.AddNormalExit(returnValue, delayBeforeExitInMillis);
      self := this;
    }

    /** `getHistory`: a snapshot of the calls made so far. */
    method GetHistory() returns (history: seq<MethodCall<R>>)
      ensures history == controllableHandler.callHistory
    {
      history := controllableHandler.GetHistorySnapshot();
    }

    /** `clearExits`: forget every scripted exit, keep the history. */
    method ClearExits() returns (self: ControllableNonVoidMethod<R>)
      modifies controllableHandler
      ensures self == this && controllableHandler.Valid()
      ensures controllableHandler.exitQueue == []
      ensures controllableHandler.callHistory == old(controllableHandler.callHistory)
    {
      controllableHandler.ClearAllExits();
      self := this;
    }

    /** `addUncheckedExceptionExit(toThrow)`. */
    method AddUncheckedExceptionExit(toThrow: Nullable<Throwable>) returns (self: ControllableNonVoidMethod<R>)
      requires controllableHandler.Valid()
      modifies controllableHandler
      ensures self == this && controllableHandler.Valid()
      ensures controllableHandler.exitQueue == old(controllableHandler.exitQueue) + [UncheckedExit(controllableHandler, toThrow, 0)]
      ensures controllableHandler.callHistory == old(controllableHandler.callHistory)
    {
      controllableHandler.AddUncheckedExceptionExit(toThrow);
      self := this;
    }

    /** `addCheckedExceptionKExit(toThrow)`, present on `ThrowingK` and its subclasses. */
    method AddCheckedExceptionExit(k: nat, toThrow: Nullable<Throwable>) returns (self: ControllableNonVoidMethod<R>)
      requires 1 <= k <= checkedArity
      requires controllableHandler.Valid()
      modifies controllableHandler
      ensures self == this && controllableHandler.Valid()
      ensures controllableHandler.exitQueue == old(controllableHandler.exitQueue) + [CheckedExit(controllableHandler, toThrow, 0)]
      ensures controllableHandler.callHistory == old(controllableHandler.callHistory)
    {
      controllableHandler.AddExceptionExit(toThrow);
      self := this;
    }
  }

  /** `ControllableVoidMethod` and its `Throwing1..5` subclasses: a normal exit carries `null`. */
  class ControllableVoidMethod {
    const controllableHandler: ControlledMethodHandler<Void>
    const checkedArity: CheckedArity

    constructor (controllableHandler: ControlledMethodHandler<Void>, checkedArity: CheckedArity)
      ensures this.controllableHandler == controllableHandler && this.checkedArity == checkedArity
    {
      this.controllableHandler := controllableHandler;
      this.checkedArity := checkedArity;
    }

    /** `addNormalExit()`: return nothing, with no delay. */
    method AddNormalExit() returns (self: ControllableVoidMethod)
      requires controllableHandler.Valid()
      modifies controllableHandler
      ensures self == this && controllableHandler.Valid()
      ensures controllableHandler.exitQueue == old(controllableHandler.exitQueue) + [NormalExit(controllableHandler, Null, 0)]
      ensures controllableHandler.callHistory == old(controllableHandler.callHistory)
    {
      controllableHandler.AddNormalExit(Null, 0);
      self := this;
    }

    /** `addNormalExit(delayBeforeExitInMillis)`. */
    method AddNormalExitWithDelay(delayBeforeExitInMillis: Long) returns (self: ControllableVoidMethod)
      requires controllableHandler.Valid()
      modifies controllableHandler
      ensures self == this && controllableHandler.Valid()
      ensures controllableHandler.exitQueue ==
              old(controllableHandler.exitQueue) + [NormalExit(controllableHandler, Null, delayBeforeExitInMillis)]
      ensures controllableHandler.callHistory == old(controllableHandler.callHistory)
    {
      controllableHandler.AddNormalExit(Null, delayBeforeExitInMillis);
      self := this;
    }

    /** `getHistory`: a snapshot of the calls made so far. */
    method GetHistory() returns (history: seq<MethodCall<Void>>)
      ensures history == controllableHandler.callHistory
    {
      history := controllableHandler.GetHistorySnapshot();
    }

    /** `clearExits`: forget every scripted exit, keep the history. */
    method ClearExits() returns (self: ControllableVoidMethod)
      modifies controllableHandler
      ensures self == this && controllableHandler.Valid()
      ensures controllableHandler.exitQueue == []
      ensures controllableHandler.callHistory == old(controllableHandler.callHistory)
    {
      controllableHandler.ClearAllExits();
      self := this;
    }

    /** `addUncheckedExceptionExit(toThrow)`. */
    method AddUncheckedExceptionExit(toThrow: Nullable<Throwable>) returns (self: ControllableVoidMethod)
      requires controllableHandler.Valid()
      modifies controllableHandler
      ensures self == this && controllableHandler.Valid()
      ensures controllableHandler.exitQueue == old(controllableHandler.exitQueue) + [UncheckedExit(controllableHandler, toThrow, 0)]
      ensures controllableHandler.callHistory == old(controllableHandler.callHistory)
    {
      controllableHandler.AddUncheckedExceptionExit(toThrow);
      self := this;
    }

    /** `addCheckedExceptionKExit(toThrow)`, present on `ThrowingK` and its subclasses. */
    method AddCheckedExceptionExit(k: nat, toThrow: Nullable<Throwable>) returns (self: ControllableVoidMethod)
      requires 1 <= k <= checkedArity
      requires controllableHandler.Valid()
      modifies controllableHandler
      ensures self == this && controllableHandler.Valid()
      ensures controllableHandler.exitQueue == old(controllableHandler.exitQueue) + [CheckedExit(controllableHandler, toThrow, 0)]
      ensures controllableHandler.callHistory == old(controllableHandler.callHistory)
    {
      controllableHandler.AddExceptionExit(toThrow);
      self := this;
    }
  }
}
