# Controllables: a Dafny model of controlled methods and their generator

Controllables is a Java test-double library. An annotation processor reads
a class marked `@Controllable` and generates a subclass, `Controllable_X`.
In that subclass every overridable method delegates to a *controlled
method* object held in a private field. A test reaches the scripting side of
that object through a public accessor. There it queues *exits*: return this
value, throw this unchecked exception, or throw this checked exception,
each optionally after a delay. It can also clear the queue and read the
*call history*, which records the arguments, the clock reading and the exit
used for every call.

This project models both halves in Dafny:

- **The runtime.** Three parts are modelled:
  - `MethodRuntime` models the exit record `MethodExit`, the call record
    `MethodCall` and the per-method `ControlledMethodHandler`. The handler
    owns the exit queue and the call history.
  - `ControlledMethods` models the execution side, `ControlledNonVoidMethod`
    and `ControlledVoidMethod`.
  - `ControllableMethods` models the scripting front ends,
    `ControllableNonVoidMethod` and `ControllableVoidMethod`.

  The Java `ThrowingK…` subclasses (K = 0..5) are one class per family. Each
  class carries a constant `checkedArity`. The handler and the front ends
  are Dafny classes whose methods update the queue and the history in
  place.
- **The laws of the runtime.** `ExitQueueLaws` proves the following:
  - the queue is FIFO down to a sticky last exit;
  - an empty queue fails every call;
  - draining hands out each exit once;
  - repeated executions grow the history by exactly one faithful record per
    call that did not fail for lack of exits.

  `UsageScenarios` replays, through the front ends, the behaviours the
  library's own test base checks.
- **The generator's bookkeeping.** Three modules cover it:
  - `ProcessorHelper` holds the method filters. Each is a loop that is
    proved equal to a selection function.
  - `ControllableClassBuilder` covers the choice of runtime types, the field
    and accessor names, and the generated `exit` statement.
  - `ControllableBuilder` covers the builder's constructor, naming the
    generated classes, the super-constructor check, overload detection,
    dropping `abstract`, substituting generic arguments and skipping final
    methods.

Java values the code does not look inside are opaque: argument objects,
compiler elements, and exceptions apart from whether they are a
`ClassCastException`. `null` is `Nullable.Null`, and a `long` is
the subset type `Long`. A thrown exception is a value of `Outcome` or
`Result`.

Two behaviours are modelled as the code has them:
- **Negative delay.** The call is recorded first, then `Thread.sleep`
  rejects the delay with an `IllegalArgumentException` (`SleepRejected`).
- **Checked exit on a method without checked exceptions.** A checked exit
  that reaches such a method (arity 0) is not raised. The method returns
  its null return value instead.

The checked-exception resolution throws the stored checked exception from
its first type probe: the probe's cast is generic and erased at run time, so
it never fails. The exception is thrown inside the probe's `try`, though,
and that `try` catches `ClassCastException`. A stored checked exception that
is itself a `ClassCastException` (legal when the declared type is `Exception`
or `RuntimeException`) is therefore caught by all five probes, and the method
returns its value (null for a checked exit). An exception is modelled as its
identity plus this one fact about its run-time class.

## Model

| member | source | states |
|---|---|---|
| MethodRuntime.MethodExit.SleepOrUncheckedOutcome | src/main/java/com/spsglobalsolutions/controllables/annotations/controllablemethod/MethodExit.java:160-175 | the call is cut short exactly when the delay is negative (sleep rejected) or an unchecked exception is set, and then with one of those two |
| MethodRuntime.MethodExit.UncheckedOrReturnOutcome | src/main/java/com/spsglobalsolutions/controllables/annotations/controllablemethod/MethodExit.java:138-142 | only return, unchecked throw or rejected sleep; a set unchecked exception wins; a normal exit returns its value; a checked exit returns null |
| MethodRuntime.MethodExit.CheckedOrUncheckedOrReturnOutcome | src/main/java/com/spsglobalsolutions/controllables/annotations/controllablemethod/MethodExit.java:144-158 | unchecked beats checked beats return; a stored checked exception is thrown exactly as stored unless it is a `ClassCastException`, which the probes swallow so the value is returned; a return happens only with no checked exception set or a swallowed one |
| MethodRuntime.MethodExit.StoreMe | src/main/java/com/spsglobalsolutions/controllables/annotations/controllablemethod/MethodExit.java:184-188 | appends one call record (this exit, these arguments, this clock reading) to the owning handler's history, leaves its queue alone, and returns the exit itself |
| MethodRuntime.MethodExit.ExitByUncheckedException | src/main/java/com/spsglobalsolutions/controllables/annotations/controllablemethod/MethodExit.java:160-176 | records the call before anything is thrown, then yields the sleep-or-unchecked outcome |
| MethodRuntime.MethodExit.ExitByUncheckedExceptionOrReturningValue | src/main/java/com/spsglobalsolutions/controllables/annotations/controllablemethod/MethodExit.java:137-143 | records the call, queue untouched, and ends with the unchecked-or-return outcome |
| MethodRuntime.MethodExit.ExitByCheckedOrUncheckedExceptionOrReturnValue | src/main/java/com/spsglobalsolutions/controllables/annotations/controllablemethod/MethodExit.java:143-159 | records the call, queue untouched, and ends with the checked-or-unchecked-or-return outcome (a stored `ClassCastException` swallowed) |
| MethodRuntime.NormalExit | src/main/java/com/spsglobalsolutions/controllables/annotations/controllablemethod/MethodExit.java:58-62 | a well-formed normal exit carrying the value, the delay and its handler |
| MethodRuntime.UncheckedExit | src/main/java/com/spsglobalsolutions/controllables/annotations/controllablemethod/MethodExit.java:70-74 | a well-formed unchecked-exception exit with no return value |
| MethodRuntime.CheckedExit | src/main/java/com/spsglobalsolutions/controllables/annotations/controllablemethod/MethodExit.java:82-86 | a well-formed checked-exception exit with no return value |
| MethodRuntime.NewMethodCall | src/main/java/com/spsglobalsolutions/controllables/annotations/controllablemethod/MethodCall.java:32-37 | the record keeps exactly the arguments, the exit and the clock reading taken at construction |
| MethodRuntime.NextExit | src/main/java/com/spsglobalsolutions/controllables/annotations/controllablemethod/ControlledMethodHandler.java:117-130 | fails with the no-exits error exactly on an empty queue (queue unchanged); otherwise hands out the head, removing it only while more than one exit remains |
| MethodRuntime.Execute | src/main/java/com/spsglobalsolutions/controllables/annotations/controllablemethod/ControlledNonVoidMethod.java:30-33 | the configuration failure exactly when the queue is empty, with nothing recorded; otherwise the head exit is consumed, recorded with the call's arguments and time, and resolved |
| MethodRuntime.ControlledMethodHandler.constructor | src/main/java/com/spsglobalsolutions/controllables/annotations/controllablemethod/ControlledMethodHandler.java:34-35 | a new handler has an empty queue and an empty history |
| MethodRuntime.ControlledMethodHandler.GetHistorySnapshot | src/main/java/com/spsglobalsolutions/controllables/annotations/controllablemethod/ControlledMethodHandler.java:41-47 | the snapshot is the history as it stands, as an immutable value |
| MethodRuntime.ControlledMethodHandler.ClearAllExits | src/main/java/com/spsglobalsolutions/controllables/annotations/controllablemethod/ControlledMethodHandler.java:52-55 | empties the queue and keeps the history |
| MethodRuntime.ControlledMethodHandler.AddNormalExit | src/main/java/com/spsglobalsolutions/controllables/annotations/controllablemethod/ControlledMethodHandler.java:63-66 | appends a normal exit owned by this handler at the back of the queue; history unchanged |
| MethodRuntime.ControlledMethodHandler.AddUncheckedExceptionExit | src/main/java/com/spsglobalsolutions/controllables/annotations/controllablemethod/ControlledMethodHandler.java:73-76 | appends an undelayed unchecked-exception exit at the back; history unchanged |
| MethodRuntime.ControlledMethodHandler.AddCall | src/main/java/com/spsglobalsolutions/controllables/annotations/controllablemethod/ControlledMethodHandler.java:83-86 | appends the call record to the history; queue unchanged |
| MethodRuntime.ControlledMethodHandler.AddExceptionExit | src/main/java/com/spsglobalsolutions/controllables/annotations/controllablemethod/ControlledMethodHandler.java:93-96 | appends an undelayed checked-exception exit at the back; history unchanged |
| MethodRuntime.ControlledMethodHandler.GetNextExit | src/main/java/com/spsglobalsolutions/controllables/annotations/controllablemethod/ControlledMethodHandler.java:110-137 | result and new queue as `NextExit` gives them; the failure's message starts with the no-exits text; the exit belongs to this handler; history unchanged |
| ExitQueueLaws.HandedOutAt | src/main/java/com/spsglobalsolutions/controllables/annotations/controllablemethod/ControlledMethodHandler.java:123-129 | the i-th of n successive calls gets exit i, or the last exit once the others are used up |
| ExitQueueLaws.QueueLeftAfter | src/main/java/com/spsglobalsolutions/controllables/annotations/controllablemethod/ControlledMethodHandler.java:125-130 | after n calls the first n exits are gone, but the last one never leaves |
| ExitQueueLaws.FifoThenSticky | src/main/java/com/spsglobalsolutions/controllables/annotations/controllablemethod/ControlledMethodHandler.java:110-131 | n successive calls hand out exits in FIFO order, then the last exit forever, and leave the matching suffix queued |
| ExitQueueLaws.StickyDefault | src/main/java/com/spsglobalsolutions/controllables/annotations/controllablemethod/ControlledMethodHandler.java:123-126 | a single queued exit serves every call and is never removed |
| ExitQueueLaws.DrainYieldsEachExitOnce | src/main/java/com/spsglobalsolutions/controllables/annotations/controllablemethod/ControlledMethodHandler.java:127-130 | k calls on k exits hand out each exit once in order and leave only the last queued |
| ExitQueueLaws.EmptyQueueAlwaysFails | src/main/java/com/spsglobalsolutions/controllables/annotations/controllablemethod/ControlledMethodHandler.java:118-121 | with nothing queued, every call fails with the no-exits error and the queue stays empty |
| ExitQueueLaws.HistoryGrowsByResolvedCalls | src/main/java/com/spsglobalsolutions/controllables/annotations/controllablemethod/MethodExit.java:184-188 | across any run of calls the old history stays a prefix and grows by exactly the calls that did not fail for lack of exits |
| ExitQueueLaws.UnscriptedMethodRecordsNothing | src/main/java/com/spsglobalsolutions/controllables/annotations/controllablemethod/ControlledVoidMethod.java:30-33 | on an unscripted method every call fails with the no-exits error and the history is unchanged |
| ExitQueueLaws.ScriptedCallsAreRecordedFaithfully | src/main/java/com/spsglobalsolutions/controllables/annotations/controllablemethod/ControlledNonVoidMethod.java:45-50 | on a scripted method the i-th call is recorded with exactly its arguments, its time and the exit FIFO-then-sticky order gives it; its outcome is that exit's resolution |
| ControllableMethods.ControllableNonVoidMethod.constructor | src/main/java/com/spsglobalsolutions/controllables/annotations/controllablemethod/ControllableNonVoidMethod.java:30-34 | the front end wraps the given handler with the given arity |
| ControllableMethods.ControllableNonVoidMethod.AddNormalExit | src/main/java/com/spsglobalsolutions/controllables/annotations/controllablemethod/ControllableNonVoidMethod.java:41-45 | appends an undelayed normal exit with the value to the shared queue and returns the same front end |
| ControllableMethods.ControllableNonVoidMethod.AddNormalExitWithDelay | src/main/java/com/spsglobalsolutions/controllables/annotations/controllablemethod/ControllableNonVoidMethod.java:54-58 | appends a normal exit with the value and the delay; returns the same front end |
| ControllableMethods.ControllableNonVoidMethod.GetHistory | src/main/java/com/spsglobalsolutions/controllables/annotations/controllablemethod/ControllableNonVoidMethod.java:61-64 | the shared handler's history as it stands |
| ControllableMethods.ControllableNonVoidMethod.ClearExits | src/main/java/com/spsglobalsolutions/controllables/annotations/controllablemethod/ControllableNonVoidMethod.java:67-71 | empties the shared queue and keeps the history |
| ControllableMethods.ControllableNonVoidMethod.AddUncheckedExceptionExit | src/main/java/com/spsglobalsolutions/controllables/annotations/controllablemethod/ControllableNonVoidMethod.java:74-78 | appends an unchecked-exception exit; returns the same front end |
| ControllableMethods.ControllableNonVoidMethod.AddCheckedExceptionExit | src/main/java/com/spsglobalsolutions/controllables/annotations/controllablemethod/ControllableNonVoidMethod.java:92-96 | for k within the declared arity, appends a checked-exception exit; returns the same front end |
| ControllableMethods.ControllableVoidMethod.constructor | src/main/java/com/spsglobalsolutions/controllables/annotations/controllablemethod/ControllableVoidMethod.java:30-34 | the front end wraps the given handler with the given arity |
| ControllableMethods.ControllableVoidMethod.AddNormalExit | src/main/java/com/spsglobalsolutions/controllables/annotations/controllablemethod/ControllableVoidMethod.java:40-44 | appends an undelayed normal exit returning null; returns the same front end |
| ControllableMethods.ControllableVoidMethod.AddNormalExitWithDelay | src/main/java/com/spsglobalsolutions/controllables/annotations/controllablemethod/ControllableVoidMethod.java:52-56 | appends a normal exit returning null after the delay |
| ControllableMethods.ControllableVoidMethod.GetHistory | src/main/java/com/spsglobalsolutions/controllables/annotations/controllablemethod/ControllableVoidMethod.java:59-62 | the shared handler's history as it stands |
| ControllableMethods.ControllableVoidMethod.ClearExits | src/main/java/com/spsglobalsolutions/controllables/annotations/controllablemethod/ControllableVoidMethod.java:65-69 | empties the shared queue and keeps the history |
| ControllableMethods.ControllableVoidMethod.AddUncheckedExceptionExit | src/main/java/com/spsglobalsolutions/controllables/annotations/controllablemethod/ControllableVoidMethod.java:72-76 | appends an unchecked-exception exit; returns the same front end |
| ControllableMethods.ControllableVoidMethod.AddCheckedExceptionExit | src/main/java/com/spsglobalsolutions/controllables/annotations/controllablemethod/ControllableVoidMethod.java:91-95 | for k within the declared arity, appends a checked-exception exit; returns the same front end |
| ControlledMethods.ControlledNonVoidMethod.constructor | src/main/java/com/spsglobalsolutions/controllables/annotations/controllablemethod/ControlledNonVoidMethod.java:25 | each controlled method gets its own fresh, empty handler |
| ControlledMethods.ControlledNonVoidMethod.Exit | src/main/java/com/spsglobalsolutions/controllables/annotations/controllablemethod/ControlledNonVoidMethod.java:27-50 | outcome, new queue and new history are those of `Execute`, with the checked step exactly when the arity is positive |
| ControlledMethods.ControlledNonVoidMethod.CreateControllable | src/main/java/com/spsglobalsolutions/controllables/annotations/controllablemethod/ControlledNonVoidMethod.java:35-38 | a fresh front end over this method's own handler, with the same arity |
| ControlledMethods.ControlledVoidMethod.constructor | src/main/java/com/spsglobalsolutions/controllables/annotations/controllablemethod/ControlledVoidMethod.java:25 | each controlled method gets its own fresh, empty handler |
| ControlledMethods.ControlledVoidMethod.Exit | src/main/java/com/spsglobalsolutions/controllables/annotations/controllablemethod/ControlledVoidMethod.java:27-48 | outcome, new queue and new history are those of `Execute`, with the checked step exactly when the arity is positive |
| ControlledMethods.ControlledVoidMethod.CreateControllable | src/main/java/com/spsglobalsolutions/controllables/annotations/controllablemethod/ControlledVoidMethod.java:35-38 | a fresh front end over this method's own handler, with the same arity |
| UsageScenarios.UnscriptedCallFails | src/test/java/com/spsglobalsolutions/controllables/annotations/controllablemethod/ControllableMethodTestBase.java:85-89 | a call with no exits fails with the no-exits configuration error and the history stays empty |
| UsageScenarios.ThrowingExitIsRecorded | src/test/java/com/spsglobalsolutions/controllables/annotations/controllablemethod/ControllableMethodTestBase.java:102-111 | the scripted unchecked exception is thrown and the single history entry holds the arguments, the time and that exit |
| UsageScenarios.SingleExitServesEveryCall | src/test/java/com/spsglobalsolutions/controllables/annotations/controllablemethod/ControllableMethodTestBase.java:113-124 | every one of any number of calls throws the one scripted exception; each is recorded with its arguments, all with the same exit |
| UsageScenarios.ExitsAreUsedInOrder | src/test/java/com/spsglobalsolutions/controllables/annotations/controllablemethod/ControllableMethodTestBase.java:156-178 | four exits are used in the order they were added, and the history lists them in that order |
| UsageScenarios.ClearingExitsBringsBackTheFailure | src/test/java/com/spsglobalsolutions/controllables/annotations/controllablemethod/ControllableMethodTestBase.java:181-196 | after clearing, the next call fails with the no-exits error; the earlier call stays recorded |
| UsageScenarios.EveryFrontEndSeesTheSameHistory | src/test/java/com/spsglobalsolutions/controllables/annotations/controllablemethod/ControllableMethodTestBase.java:140-153 | two front ends of one method report the same history of both calls |
| UsageScenarios.SnapshotIsUnaffectedByLaterCalls | src/test/java/com/spsglobalsolutions/controllables/annotations/controllablemethod/ControllableMethodTestBase.java:126-138 | a snapshot keeps its length after later calls, and the later history extends it |
| UsageScenarios.CheckedExitIsThrown | src/test/java/com/spsglobalsolutions/controllables/annotations/controllablemethod/CheckedExceptionThrowingControllableMethodTestBase.java:62-69 | on a method declaring checked exceptions, the scripted checked exception is thrown (a `ClassCastException` is swallowed and the call returns) and the call is recorded as a checked exit |
| ProcessorHelper.ModifierOf | src/main/java/com/spsglobalsolutions/controllables/annotations/Controllable.java:118-134 | `Package` has no modifier (null); `Public`, `Private`, `Protected` and `Abstract` map to exactly `public`, `private`, `protected` and `abstract`, name for name |
| ProcessorHelper.RemoveAll | src/main/java/com/spsglobalsolutions/controllables/processors/ProcessorHelper.java:210 | `removeAll` reports a change exactly when the list got shorter |
| ProcessorHelper.RemoveAllKeepsTheOthers | src/main/java/com/spsglobalsolutions/controllables/processors/ProcessorHelper.java:239 | what stays is exactly the entries not among the element's modifiers |
| ProcessorHelper.RemoveAllChangesIffIntersects | src/main/java/com/spsglobalsolutions/controllables/processors/ProcessorHelper.java:246 | `removeAll` reports a change exactly when the filter and the modifiers share an entry |
| ProcessorHelper.Selected | src/main/java/com/spsglobalsolutions/controllables/processors/ProcessorHelper.java:178-193 | a selection never lists more elements than were enclosed |
| ProcessorHelper.SelectedMembership | src/main/java/com/spsglobalsolutions/controllables/processors/ProcessorHelper.java:184-188 | an element is selected exactly when it is an enclosed method meeting the criterion |
| ProcessorHelper.SelectedDistributes | src/main/java/com/spsglobalsolutions/controllables/processors/ProcessorHelper.java:182-191 | filtering a concatenation is the concatenation of the filtered parts (order is kept) |
| ProcessorHelper.GetContainedMethodsWithAllModifiers | src/main/java/com/spsglobalsolutions/controllables/processors/ProcessorHelper.java:178-193 | the loop yields exactly the enclosed methods carrying all the given modifiers, in order |
| ProcessorHelper.GetContainedMethodsWithAnyModifiers | src/main/java/com/spsglobalsolutions/controllables/processors/ProcessorHelper.java:202-217 | the loop yields exactly the enclosed methods carrying any of the given modifiers, in order |
| ProcessorHelper.GetContainedMethodsWithoutAnyModifiers | src/main/java/com/spsglobalsolutions/controllables/processors/ProcessorHelper.java:263-278 | the loop yields exactly the enclosed methods carrying none of the given modifiers, in order |
| ProcessorHelper.EmptyAllFilterKeepsEveryMethod | src/main/java/com/spsglobalsolutions/controllables/processors/ProcessorHelper.java:186 | with no modifier required, "all of" keeps the same methods as excluding nothing: every enclosed method |
| ProcessorHelper.EmptyAnyFilterKeepsNothing | src/main/java/com/spsglobalsolutions/controllables/processors/ProcessorHelper.java:210 | with no modifiers asked for, "any of" keeps no method |
| ProcessorHelper.AnyAndWithoutPartitionTheMethods | src/main/java/com/spsglobalsolutions/controllables/processors/ProcessorHelper.java:263-278 | "any of" and "none of" the same modifiers together list every enclosed method exactly once |
| ProcessorHelper.Converted | src/main/java/com/spsglobalsolutions/controllables/processors/ProcessorHelper.java:307-319 | one modifier per filter entry except the `Package` entries, which are dropped |
| ProcessorHelper.ConvertedDistributes | src/main/java/com/spsglobalsolutions/controllables/processors/ProcessorHelper.java:310-317 | converting a concatenation concatenates the conversions |
| ProcessorHelper.ConvertedMembership | src/main/java/com/spsglobalsolutions/controllables/processors/ProcessorHelper.java:310-316 | a modifier is in the conversion exactly when some filter entry maps to it |
| ProcessorHelper.ConvertMethodModifiers | src/main/java/com/spsglobalsolutions/controllables/processors/ProcessorHelper.java:307-318 | the loop yields exactly the conversion of the filter |
| ProcessorHelper.Listings | src/main/java/com/spsglobalsolutions/controllables/processors/ProcessorHelper.java:236-251 | one element is listed at most twice, and never when it is not a method |
| ProcessorHelper.WithAnyMethodModifiers | src/main/java/com/spsglobalsolutions/controllables/processors/ProcessorHelper.java:226-254 | the result is at most twice as long as the enclosed elements |
| ProcessorHelper.WithAnyMethodModifiersStep | src/main/java/com/spsglobalsolutions/controllables/processors/ProcessorHelper.java:234-252 | one more enclosed element appends exactly its own listings |
| ProcessorHelper.LoopBodyAppendsListings | src/main/java/com/spsglobalsolutions/controllables/processors/ProcessorHelper.java:238-250 | the normal lookup and then the package lookup together append exactly the element's listings |
| ProcessorHelper.GetContainedMethodsWithAnyMethodModifiers | src/main/java/com/spsglobalsolutions/controllables/processors/ProcessorHelper.java:226-253 | the loop yields exactly the listings of every enclosed element, in order |
| ProcessorHelper.AnyMethodModifiersMembership | src/main/java/com/spsglobalsolutions/controllables/processors/ProcessorHelper.java:229-250 | a method is listed exactly when it carries a converted modifier, or `Package` is asked for and it has no access modifier |
| ProcessorHelper.WithoutPackageIsAnyOfConverted | src/main/java/com/spsglobalsolutions/controllables/processors/ProcessorHelper.java:229-242 | without `Package` in the filter, the lookup is "any of" the converted modifiers |
| ProcessorHelper.AbstractPackagePrivateMethodIsListedTwice | src/main/java/com/spsglobalsolutions/controllables/processors/ProcessorHelper.java:236-250 | an abstract package-private method matching both lookups is listed twice |
| ProcessorHelper.PublicFilterSelectsPublicMethods | src/main/java/com/spsglobalsolutions/controllables/annotations/Controllable.java:111-120 | a filter of just `Public` lists exactly the enclosed methods declared `public` |
| ControllableClassBuilder.CorrectTypes | src/main/java/com/spsglobalsolutions/controllables/processors/ControllableClassBuilder.java:149-295 | the field is the controlled side and the accessor the controllable side of one family; void exactly for a void method; arity is the number of checked exceptions capped at five; the accessor adds a leading wildcard |
| ControllableClassBuilder.CorrectTypesKeepTheFirstFiveExceptions | src/main/java/com/spsglobalsolutions/controllables/processors/ControllableClassBuilder.java:156-294 | the field's type arguments are the boxed return type (none for void) followed by the first five checked exceptions in order |
| ControllableClassBuilder.CheckedExceptionsAreTruncatedToTheLimit | src/main/java/com/spsglobalsolutions/controllables/processors/ControllableClassBuilder.java:151-155 | beyond five checked exceptions, the types are those of the first five |
| ControllableClassBuilder.DroppingTheLastCommaJoins | src/main/java/com/spsglobalsolutions/controllables/processors/ControllableClassBuilder.java:319-322 | deleting the builder's trailing comma leaves the names joined by commas |
| ControllableClassBuilder.JoinCommaCountsSeparators | src/main/java/com/spsglobalsolutions/controllables/processors/ControllableClassBuilder.java:314-318 | with comma-free names the joined string has one comma fewer than there are names |
| ControllableClassBuilder.GetArgNamesAsCommaSepString | src/main/java/com/spsglobalsolutions/controllables/processors/ControllableClassBuilder.java:312-324 | the argument names joined by single commas; empty for no arguments |
| ControllableClassBuilder.GetArgTypesAsCamelCaseString | src/main/java/com/spsglobalsolutions/controllables/processors/ControllableClassBuilder.java:326-334 | the type fragments of the arguments concatenated in order |
| ControllableClassBuilder.FieldName | src/main/java/com/spsglobalsolutions/controllables/processors/ControllableClassBuilder.java:84-88 | the name starts with the prefix and the method name, and goes on (with `_`) exactly for an overload with arguments |
| ControllableClassBuilder.OverloadFieldNamesDifferByArgumentTypes | src/main/java/com/spsglobalsolutions/controllables/processors/ControllableClassBuilder.java:84-87 | two overloads get the same field name exactly when their argument type fragments coincide |
| ControllableClassBuilder.PlainFieldNamesFollowMethodNames | src/main/java/com/spsglobalsolutions/controllables/processors/ControllableClassBuilder.java:87 | methods that are not overloads share a field name exactly when they share a name |
| ControllableClassBuilder.ExitStatement | src/main/java/com/spsglobalsolutions/controllables/processors/ControllableClassBuilder.java:122-124 | the statement ends with the field's `exit` call on the argument names and is prefixed by `return ` exactly for a non-void method |
| ControllableClassBuilder.ReturnPrefixMatchesFieldFamily | src/main/java/com/spsglobalsolutions/controllables/processors/ControllableClassBuilder.java:122 | the generated body returns a value exactly when the field belongs to the non-void family |
| ControllableClassBuilder.FieldModifiers | src/main/java/com/spsglobalsolutions/controllables/processors/ControllableClassBuilder.java:128-134 | `private final`, plus `static` exactly for a static method |
| ControllableClassBuilder.NewControlledMethod | src/main/java/com/spsglobalsolutions/controllables/processors/ControllableClassBuilder.java:67-95 | the accessor is named like the field; the field's family and arity follow the return type and the checked exceptions; it is static with the method; the body returns exactly for non-void; the accessor returns `createControllable()` |
| ControllableBuilder.OverloadFlagsStep | src/main/java/com/spsglobalsolutions/controllables/processors/ControllableBuilder.java:254-255 | recording one more method keeps the keys equal to the names seen and each flag equal to "seen at least twice" |
| ControllableBuilder.OverloadFlags | src/main/java/com/spsglobalsolutions/controllables/processors/ControllableBuilder.java:251-256 | the keys are exactly the method names and a name is flagged exactly when two or more methods carry it |
| ControllableBuilder.CopyModifiersMinusAbstract | src/main/java/com/spsglobalsolutions/controllables/processors/ControllableBuilder.java:325-336 | every modifier except `abstract` |
| ControllableBuilder.ReplaceGenericTypeWithValueIfNeeded | src/main/java/com/spsglobalsolutions/controllables/processors/ControllableBuilder.java:309-323 | the recorded replacement when there is a map and it has one; otherwise the type itself |
| ControllableBuilder.ReplacementWithoutAnEntryIsIdentity | src/main/java/com/spsglobalsolutions/controllables/processors/ControllableBuilder.java:312-322 | a missing map, or a map without a different entry for the type, leaves the type as it is |
| ControllableBuilder.GenericsFor | src/main/java/com/spsglobalsolutions/controllables/processors/ControllableBuilder.java:262-267 | the generic map looked up by method name is null exactly when none was recorded for it |
| ControllableBuilder.ParamsOf | src/main/java/com/spsglobalsolutions/controllables/processors/ControllableBuilder.java:342-347 | one argument per parameter, same name, type substituted |
| ControllableBuilder.GetParamsOfMethod | src/main/java/com/spsglobalsolutions/controllables/processors/ControllableBuilder.java:338-349 | the loop yields exactly the parameters as arguments |
| ControllableBuilder.PlanFor | src/main/java/com/spsglobalsolutions/controllables/processors/ControllableBuilder.java:258-299 | a controlled method is planned exactly for a non-final method; it keeps the name, drops `abstract` and carries the overload flag |
| ControllableBuilder.Planned | src/main/java/com/spsglobalsolutions/controllables/processors/ControllableBuilder.java:258-303 | never more controlled methods than methods |
| ControllableBuilder.OnlyNonFinalMethodsAreEmitted | src/main/java/com/spsglobalsolutions/controllables/processors/ControllableBuilder.java:268-278 | emitted plus final methods make up all methods, and every emitted one comes from a non-final method of that name |
| ControllableBuilder.AddImplementation | src/main/java/com/spsglobalsolutions/controllables/processors/ControllableBuilder.java:245-307 | the controlled methods emitted are exactly the plan for the contained methods, in order |
| ControllableBuilder.OnlyAddIfNotFinal | src/main/java/com/spsglobalsolutions/controllables/processors/ControllableBuilder.java:402-415 | the class is appended exactly when it is not final, and the result says so |
| ControllableBuilder.NewControllableBuilder | src/main/java/com/spsglobalsolutions/controllables/processors/ControllableBuilder.java:49-94 | not-a-class is refused; listed classes make separate controllables; otherwise the annotated class alone if not final, else nothing-to-control is refused; an accepted config always has a class |
| ControllableBuilder.GenerateControlledClasses | src/main/java/com/spsglobalsolutions/controllables/processors/ControllableBuilder.java:96-114 | one `Controllable_`-prefixed class per listed class, or one named after the annotated class |
| ControllableBuilder.ConstructorsIn | src/main/java/com/spsglobalsolutions/controllables/processors/ControllableBuilder.java:200-212 | never more constructors than enclosed elements |
| ControllableBuilder.ConstructorsInMembership | src/main/java/com/spsglobalsolutions/controllables/processors/ControllableBuilder.java:202-212 | an element is listed exactly when it is an enclosed constructor of the asked-for privacy |
| ControllableBuilder.ConstructorsAreSplit | src/main/java/com/spsglobalsolutions/controllables/processors/ControllableBuilder.java:204-211 | both lists are empty exactly when there is no constructor at all |
| ControllableBuilder.SuperConstructorsToCopy | src/main/java/com/spsglobalsolutions/controllables/processors/ControllableBuilder.java:190-225 | an interface needs none; a class is refused exactly when it has private and no non-private constructors; otherwise the non-private ones in order |
| ControllableBuilder.OnlyPrivateConstructorsAreRefused | src/main/java/com/spsglobalsolutions/controllables/processors/ControllableBuilder.java:214-219 | refused exactly when the class has constructors and all are private |

## Left out

- `Thread.sleep` timing and its swallowed `InterruptedException` are not modelled. Only the delay's value and the rejection of a negative delay are.
- `System.currentTimeMillis` is the parameter `now` of each call.
- `synchronizedList` and the `synchronized` blocks guard against concurrent callers; the model is sequential.
- The `Throwing1..5` type parameters and their `E1` padding have no run-time effect (erasure); only the arity is modelled.
- `Void` has only the value `null`; a void method's return value is `Nullable.Null`.
- The JavaPoet output is not modelled: `TypeSpec`, `MethodSpec`, `FieldSpec`, `JavaFile.writeTo`, `copySuperConstructor`, `copyThrows`, `createSpec(s)`, the accessor's `public final` modifiers and the field's initializer. The model keeps what they are given: names, types, modifiers and statements.
- `findAllMethodsNeededToControl` and the extraction of generic arguments are not modelled; they walk supertypes through the compiler's type utilities. The contained methods and the generic-argument maps are inputs.
- `getTypeElementsOfClassesToControl` reads annotation class values through the compiler; its result is the input `classesToControl`.
- `getTypeSuitableForUsingInMethodName` rewrites a type's text with regular expressions; it is the parameter `typeSuffix`.
- `ControllableClassBuilder.MethodArg` keeps the parameter's modifiers only to re-emit them; the model drops them.
- Messages of `IllegalAnnotationException` and the processor's `Messager`, `debug` and `print…` output are not modelled; only the kind of error is.
- `ControllableBuilder`'s constructor wraps any other exception in an `IllegalAnnotationException`; no other exception arises in the model.
- `writeSourceFile`, `ControllableProcessor` and `ClassAccessor` drive the compiler and the file system and are not part of this model.
- `Throwing.java`, `ControllableMethod.java` and the `@Controllable` annotation declare types only; the annotation's filter is an input.
- `HashMap`/`HashSet` iteration order: the contained methods are the values of a map, so their order is unspecified in Java. The model takes them as a sequence in a given order, and sets are unordered.
