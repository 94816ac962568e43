/**
 * The execution side of a controlled method: each instance creates its own
 * handler, `exit(args)` takes the next scripted exit and resolves it, and
 * `createControllable` hands out a scripting front end over the same handler.
 *
 * `Throwing0CheckedExceptions` (`checkedArity == 0`) resolves with the
 * unchecked-or-return rule; `Throwing1..5` resolve with the
 * checked-or-unchecked-or-return rule. The Java type slots padded with `E1`
 * are erased at run time and play no part here.
 */
module ControlledMethods {
  import opened JavaModel
  import opened MethodRuntime
  import opened ControllableMethods

  /** `ControlledNonVoidMethod.ThrowingK...` for K = `checkedArity`. */
  class ControlledNonVoidMethod<R> {
    const controlledHandler: ControlledMethodHandler<R>
    const checkedArity: CheckedArity

    constructor (checkedArity: CheckedArity)
      ensures this.checkedArity == checkedArity
      ensures fresh(controlledHandler) && controlledHandler.Valid()
      ensures controlledHandler.exitQueue == [] && controlledHandler.callHistory == []
    {
      this.checkedArity := checkedArity;
      controlledHandler := new ControlledMethodHandler();
    }

    /** `exit(methodArgumentValues)`: consume the next exit, record the call, resolve. */
    method Exit(methodArgumentValues: seq<Arg>, now: Long) returns (o: Outcome<R>)
      requires controlledHandler.Valid()
      modifies controlledHandler
      ensures controlledHandler.Valid()
      ensures (o, controlledHandler.exitQueue, controlledHandler.callHistory) ==
              Execute(old(controlledHandler.exitQueue), old(controlledHandler.callHistory),
                      methodArgumentValues, now, checkedArity > 0)
    {
      var next := controlledHandler.GetNextExit();
      match next
      case Err(failure) =>
        o := ControllableFailure(failure);
      case Ok(e) =>
        if checkedArity == 0 {
          o := e.ExitByUncheckedExceptionOrReturningValue(methodArgumentValues, now);
        } else {
          o := e.ExitByCheckedOrUncheckedExceptionOrReturnValue(methodArgumentValues, now);
        }
    }

    /** `createControllable()`: a front end of the same arity over this method's handler. */
    method CreateControllable() returns (c: ControllableNonVoidMethod<R>)
      ensures fresh(c)
      ensures c.controllableHandler == controlledHandler && c.checkedArity == checkedArity
    {
      c := new ControllableNonVoidMethod(controlledHandler, checkedArity);
    }
  }

  /** `ControlledVoidMethod.ThrowingK...` for K = `checkedArity`. */
  class ControlledVoidMethod {
    const controlledHandler: ControlledMethodHandler<Void>
    const checkedArity: CheckedArity

    constructor (checkedArity: CheckedArity)
      ensures this.checkedArity == checkedArity
      ensures fresh(controlledHandler) && controlledHandler.Valid()
      ensures controlledHandler.exitQueue == [] && controlledHandler.callHistory == []
    {
      this.checkedArity := checkedArity;
      controlledHandler := new ControlledMethodHandler();
    }

    /** `exit(methodArgumentValues)`: as the non-void one; the returned value is discarded. */
    method Exit(methodArgumentValues: seq<Arg>, now: Long) returns (o: Outcome<Void>)
      requires controlledHandler.Valid()
      modifies controlledHandler
      ensures controlledHandler.Valid()
      ensures (o, controlledHandler.exitQueue, controlledHandler.callHistory) ==
              Execute(old(controlledHandler.exitQueue), old(controlledHandler.callHistory),
                      methodArgumentValues, now, checkedArity > 0)
    {
      var next := controlledHandler.GetNextExit();
      match next
      case Err(failure) =>
        o := ControllableFailure(failure);
      case Ok(e) =>
        if checkedArity == 0 {
          o := e.ExitByUncheckedExceptionOrReturningValue(methodArgumentValues, now);
        } else {
          o := e.ExitByCheckedOrUncheckedExceptionOrReturnValue(methodArgumentValues, now);
        }
    }

    /** `createControllable()`: a front end of the same arity over this method's handler. */
    method CreateControllable() returns (c: ControllableVoidMethod)
      ensures fresh(c)
      ensures c.controllableHandler == controlledHandler && c.checkedArity == checkedArity
    {
      c := new ControllableVoidMethod(controlledHandler, checkedArity);
    }
  }
}
