/**
 * The bookkeeping of the generator for one annotated class: validating the
 * annotation's target, choosing which classes to generate and their names,
 * checking a superclass can be extended, detecting overloads, dropping
 * `abstract`, substituting generic arguments, and skipping final methods.
 *
 * Finding the methods to control (walking supertypes through the compiler's
 * type utilities) is not modelled: the methods found are an input.
 */
module ControllableBuilder {
  import opened JavaModel
  import opened LangModel
  import opened ProcessorHelper
  import opened ControllableClassBuilder

  /** Why the annotation cannot be honoured (`IllegalAnnotationException`, message left out). */
  datatype AnnotationError =
    | NotAClass
    | NoNonFinalClassToControl
    | OnlyPrivateConstructors(superclass: TypeElement)

  /** The simple names of the methods, in order. */
  function Names(methods: seq<Element>): (names: seq<string>)
    ensures |names| == |methods|
    decreases |methods|
  {
    if methods == [] then [] else Names(methods[..|methods| - 1]) + [methods[|methods| - 1].simpleName]
  }

  /** A name is overloaded when at least two of the methods carry it. */
  predicate IsOverloaded(methods: seq<Element>, name: string)
  {
    multiset(Names(methods))[name] >= 2
  }

  /**
   * One pass of the first loop of `addImplementationAndCreateFile`: putting
   * the next name with "was it already a key" keeps the keys equal to the
   * names seen and each flag equal to "seen at least twice".
   */
  lemma {:induction false} OverloadFlagsStep(methods: seq<Element>, i: nat, before: map<string, bool>, after: map<string, bool>)
    requires i < |methods|
    requires forall n :: n in before <==> n in Names(methods[..i])
    requires forall n :: n in before ==> (before[n] <==> IsOverloaded(methods[..i], n))
    requires after == before[methods[i].simpleName := methods[i].simpleName in before]
    ensures forall n :: n in after <==> n in Names(methods[..i + 1])
    ensures forall n :: n in after ==> (after[n] <==> IsOverloaded(methods[..i + 1], n))
  {
    var name := methods[i].simpleName;
    assert methods[..i + 1][..i] == methods[..i];
    assert Names(methods[..i + 1]) == Names(methods[..i]) + [name];
    forall n
      ensures multiset(Names(methods[..i + 1]))[n] == multiset(Names(methods[..i]))[n] + (if n == name then 1 else 0)
    {
    }
  }

  /**
   * The first loop of `addImplementationAndCreateFile`: for each method,
   * record under its name whether that name was already present.
   */
  method OverloadFlags(containedMethods: seq<Element>) returns (methodNamesAndIsOverloaded: map<string, bool>)
    ensures forall n :: n in methodNamesAndIsOverloaded <==> n in Names(containedMethods)
    ensures forall n :: n in methodNamesAndIsOverloaded ==>
              (methodNamesAndIsOverloaded[n] <==> IsOverloaded(containedMethods, n))
  {
    methodNamesAndIsOverloaded := map[];
    for i := 0 to |containedMethods|
      invariant forall n :: n in methodNamesAndIsOverloaded <==> n in Names(containedMethods[..i])
      invariant forall n :: n in methodNamesAndIsOverloaded ==>
                  (methodNamesAndIsOverloaded[n] <==> IsOverloaded(containedMethods[..i], n))
    {
      var methodName := containedMethods[i].simpleName;
      ghost var before := methodNamesAndIsOverloaded;
      methodNamesAndIsOverloaded := methodNamesAndIsOverloaded[methodName := methodName in methodNamesAndIsOverloaded];
      OverloadFlagsStep(containedMethods, i, before, methodNamesAndIsOverloaded);
    }
    assert containedMethods[..|containedMethods|] == containedMethods;
  }

  /** `copyModifiersMinusAbstract`: every modifier except `abstract`. */
  method CopyModifiersMinusAbstract(modifiers: set<Modifier>) returns (mods: set<Modifier>)
    ensures mods == modifiers - {ABSTRACT}
  {
    mods := {};
    var rest := modifiers;
    while rest != {}
      invariant rest <= modifiers
      invariant mods == (modifiers - rest) - {ABSTRACT}
      decreases |rest|
    {
      var m :| m in rest;
      if m != ABSTRACT {
        mods := mods + {m};
      }
      rest := rest - {m};
    }
  }

  /**
   * `replaceGenericTypeWithValueIfNeeded`: the value a (possibly absent) map
   * of generic arguments gives `original`, or `original` itself.
   */
  function ReplaceGenericTypeWithValueIfNeeded(original: TypeName, possibleGenericArgReplacements: Nullable<map<TypeName, TypeName>>)
    : (r: TypeName)
    ensures possibleGenericArgReplacements.Null? ==> r == original
    ensures possibleGenericArgReplacements.NonNull? && original in possibleGenericArgReplacements.get ==>
              r == possibleGenericArgReplacements.get[original]
    ensures possibleGenericArgReplacements.NonNull? && original !in possibleGenericArgReplacements.get ==> r == original
  {
    match possibleGenericArgReplacements
    case NonNull(replacements) => if original in replacements then replacements[original] else original
    case Null => original
  }

  /** Replacing through the empty map changes nothing, and neither does a map that fixes the type. */
  lemma ReplacementWithoutAnEntryIsIdentity(original: TypeName, replacements: map<TypeName, TypeName>)
    requires original !in replacements || replacements[original] == original
    ensures ReplaceGenericTypeWithValueIfNeeded(original, NonNull(replacements)) == original
    ensures ReplaceGenericTypeWithValueIfNeeded(original, Null) == original
  {
  }

  /** `Map.get` of the generic arguments recorded for a method name: `null` when none were. */
  function GenericsFor(allPossibleGenericArgValuesForMethods: map<string, map<TypeName, TypeName>>, name: string)
    : (r: Nullable<map<TypeName, TypeName>>)
    ensures r.NonNull? <==> name in allPossibleGenericArgValuesForMethods
  {
    if name in allPossibleGenericArgValuesForMethods then NonNull(allPossibleGenericArgValuesForMethods[name]) else Null
  }

  /** The method's parameters as generator arguments, each type substituted. */
  function ParamsOf(executable: Element, possibleGenericArgReplacements: Nullable<map<TypeName, TypeName>>): (args: seq<MethodArg>)
    ensures |args| == |executable.parameters|
    ensures forall i :: 0 <= i < |args| ==>
              args[i].name == executable.parameters[i].name &&
              args[i].argType == ReplaceGenericTypeWithValueIfNeeded(executable.parameters[i].paramType, possibleGenericArgReplacements)
  {
    seq(|executable.parameters|, i requires 0 <= i < |executable.parameters| =>
      MethodArg(ReplaceGenericTypeWithValueIfNeeded(executable.parameters[i].paramType, possibleGenericArgReplacements),
                executable.parameters[i].name))
  }

  /** `getParamsOfMethod`: the loop appending one argument per parameter. */
  method GetParamsOfMethod(executable: Element, possibleGenericArgReplacements: Nullable<map<TypeName, TypeName>>)
    returns (params: seq<MethodArg>)
    ensures params == ParamsOf(executable, possibleGenericArgReplacements)
  {
    params := [];
    for i := 0 to |executable.parameters|
      invariant params == ParamsOf(executable, possibleGenericArgReplacements)[..i]
    {
      var param := executable.parameters[i];
      params := params + [MethodArg(ReplaceGenericTypeWithValueIfNeeded(param.paramType, possibleGenericArgReplacements), param.name)];
    }
  }

  /** What the second loop of `addImplementationAndCreateFile` emits for one method, if anything. */
  function PlanFor(executable: Element, containedMethods: seq<Element>,
                   allPossibleGenericArgValuesForMethods: map<string, map<TypeName, TypeName>>,
                   typeSuffix: TypeName -> string): (r: Nullable<ControlledMethod>)
    ensures r.NonNull? <==> FINAL !in executable.modifiers
    ensures r.NonNull? ==> r.get.controlledMethodName == executable.simpleName
                           && r.get.controlledMethodModifiers == executable.modifiers - {ABSTRACT}
                           && r.get.isOverload == IsOverloaded(containedMethods, executable.simpleName)
  {
    var name := executable.simpleName;
    var modifiers := executable.modifiers - {ABSTRACT};
    var generics := GenericsFor(allPossibleGenericArgValuesForMethods, name);
    if FINAL in modifiers then Null
    else
      NonNull(NewControlledMethod(name, modifiers, ReplaceGenericTypeWithValueIfNeeded(executable.returnType, generics),
                                  executable.thrownTypes, ParamsOf(executable, generics),
                                  IsOverloaded(containedMethods, name), typeSuffix))
  }

  /** The controlled methods emitted for `methods[..]`, in order; final methods are skipped. */
  function Planned(methods: seq<Element>, containedMethods: seq<Element>,
                   allPossibleGenericArgValuesForMethods: map<string, map<TypeName, TypeName>>,
                   typeSuffix: TypeName -> string): (r: seq<ControlledMethod>)
    ensures |r| <= |methods|
    decreases |methods|
  {
    if methods == [] then []
    else
      Planned(methods[..|methods| - 1], containedMethods, allPossibleGenericArgValuesForMethods, typeSuffix)
      + match PlanFor(methods[|methods| - 1], containedMethods, allPossibleGenericArgValuesForMethods, typeSuffix)
        case NonNull(m) => [m]
        case Null => []
  }

  /** The final methods among `methods`. */
  function FinalCount(methods: seq<Element>): nat
    decreases |methods|
  {
    if methods == [] then 0
    else FinalCount(methods[..|methods| - 1]) + (if FINAL in methods[|methods| - 1].modifiers then 1 else 0)
  }

  /**
   * One controlled method per non-final method, and every emitted one comes
   * from a non-final method with the same name.
   */
  lemma {:induction false} OnlyNonFinalMethodsAreEmitted(methods: seq<Element>, containedMethods: seq<Element>,
                                                         generics: map<string, map<TypeName, TypeName>>,
                                                         typeSuffix: TypeName -> string)
    ensures |Planned(methods, containedMethods, generics, typeSuffix)| + FinalCount(methods) == |methods|
    ensures forall m :: m in Planned(methods, containedMethods, generics, typeSuffix) ==>
              exists e :: e in methods && FINAL !in e.modifiers && e.simpleName == m.controlledMethodName
    decreases |methods|
  {
    if methods != [] {
      var init := methods[..|methods| - 1];
      var last := methods[|methods| - 1];
      OnlyNonFinalMethodsAreEmitted(init, containedMethods, generics, typeSuffix);
      forall m | m in Planned(methods, containedMethods, generics, typeSuffix)
        ensures exists e :: e in methods && FINAL !in e.modifiers && e.simpleName == m.controlledMethodName
      {
        if m in Planned(init, containedMethods, generics, typeSuffix) {
          var e :| e in init && FINAL !in e.modifiers && e.simpleName == m.controlledMethodName;
          assert e in methods;
        } else {
          assert last in methods;
        }
      }
    }
  }

  /**
   * `addImplementationAndCreateFile` without the file output: detect the
   * overloads, then emit a controlled method for every non-final method.
   */
  method AddImplementation(containedMethods: seq<Element>,
                           allPossibleGenericArgValuesForMethods: map<string, map<TypeName, TypeName>>,
                           typeSuffix: TypeName -> string) returns (emitted: seq<ControlledMethod>)
    ensures emitted == Planned(containedMethods, containedMethods, allPossibleGenericArgValuesForMethods, typeSuffix)
  {
    var methodNamesAndIsOverloaded := OverloadFlags(containedMethods);
    emitted := [];
    for i := 0 to |containedMethods|
      invariant emitted == Planned(containedMethods[..i], containedMethods, allPossibleGenericArgValuesForMethods, typeSuffix)
    {
      var executable := containedMethods[i];
      assert containedMethods[..i + 1][..i] == containedMethods[..i];
      var controlledMethodName := executable.simpleName;
      var controlledMethodModifiers := CopyModifiersMinusAbstract(executable.modifiers);
      var generics := GenericsFor(allPossibleGenericArgValuesForMethods, controlledMethodName);
      var controlledMethodReturnType := ReplaceGenericTypeWithValueIfNeeded(executable.returnType, generics);
      var controlledMethodArgs := GetParamsOfMethod(executable, generics);
      if FINAL !in controlledMethodModifiers {
        assert Names(containedMethods)[i] == controlledMethodName by {
          NameAt(containedMethods, i);
        }
        var controlledMethod := NewControlledMethod(controlledMethodName, controlledMethodModifiers,
                                                    controlledMethodReturnType, executable.thrownTypes,
                                                    controlledMethodArgs,
                                                    methodNamesAndIsOverloaded[controlledMethodName], typeSuffix);
        emitted := emitted + [controlledMethod];
      }
    }
    assert containedMethods[..|containedMethods|] == containedMethods;
  }

  /** The i-th name is the i-th method's name. */
  lemma {:induction false} NameAt(methods: seq<Element>, i: nat)
    requires i < |methods|
    ensures Names(methods)[i] == methods[i].simpleName
    decreases |methods|
  {
    if i < |methods| - 1 {
      NameAt(methods[..|methods| - 1], i);
    }
  }

  /** `onlyAddIfNotFinal`: append `maybeAdd` unless it is final, and say whether it was appended. */
  method OnlyAddIfNotFinal(listToAddTo: seq<TypeElement>, maybeAdd: TypeElement) returns (updated: seq<TypeElement>, added: bool)
    ensures added <==> FINAL !in maybeAdd.modifiers
    ensures added ==> updated == listToAddTo + [maybeAdd]
    ensures !added ==> updated == listToAddTo
  {
    if FINAL in maybeAdd.modifiers {
      updated, added := listToAddTo, false;
    } else {
      updated, added := listToAddTo + [maybeAdd], true;
    }
  }

  /** The configuration a successfully constructed `ControllableBuilder` holds. */
  datatype BuilderConfig = BuilderConfig(
    classAnnotated: TypeElement,
    controllingClassesToGenerate: seq<TypeElement>,
    createSeparateControllableClasses: bool,
    methodsToControlFilter: seq<MethodModifier>)

  /**
   * The `ControllableBuilder` constructor: the annotation must sit on a
   * class; with no separate classes listed the annotated class itself is
   * controlled, unless it is final, which leaves nothing to control.
   * `classesToControl` is the non-final part of the annotation's list.
   */
  method NewControllableBuilder(annotated: TypeElement, classesToControl: seq<TypeElement>,
                                includedModifierFilter: seq<MethodModifier>)
    returns (r: Result<BuilderConfig, AnnotationError>)
    ensures annotated.kind != CLASS ==> r == Err(NotAClass)
    ensures annotated.kind == CLASS && classesToControl != [] ==>
              r == Ok(BuilderConfig(annotated, classesToControl, true, includedModifierFilter))
    ensures annotated.kind == CLASS && classesToControl == [] && FINAL !in annotated.modifiers ==>
              r == Ok(BuilderConfig(annotated, [annotated], false, includedModifierFilter))
    ensures annotated.kind == CLASS && classesToControl == [] && FINAL in annotated.modifiers ==>
              r == Err(NoNonFinalClassToControl)
    ensures r.Ok? ==> r.value.controllingClassesToGenerate != []
  {
    if annotated.kind != CLASS {
      return Err(NotAClass);
    }
    var classes := classesToControl;
    var createSeparateControllableClasses := classes != [];
    if classes == [] {
      var added;
      classes, added := OnlyAddIfNotFinal(classes, annotated);
      assert added ==> classes == [annotated];
    }
    if classes == [] {
      return Err(NoNonFinalClassToControl);
    }
    r := Ok(BuilderConfig(annotated, classes, createSeparateControllableClasses, includedModifierFilter));
  }

  const GeneratedClassPrefix: string := "Controllable_"

  /**
   * `generateControlledClasses`: the name of each class to generate and the
   * class it controls: one per listed class, or one named after the
   * annotated class.
   */
  method GenerateControlledClasses(config: BuilderConfig) returns (generated: seq<(string, TypeElement)>)
    requires config.controllingClassesToGenerate != []
    ensures config.createSeparateControllableClasses ==>
              |generated| == |config.controllingClassesToGenerate| &&
              forall i :: 0 <= i < |generated| ==>
                generated[i] == (GeneratedClassPrefix + config.controllingClassesToGenerate[i].simpleName,
                                 config.controllingClassesToGenerate[i])
    ensures !config.createSeparateControllableClasses ==>
              generated == [(GeneratedClassPrefix + config.classAnnotated.simpleName, config.controllingClassesToGenerate[0])]
  {
    var classes := config.controllingClassesToGenerate;
    if config.createSeparateControllableClasses {
      generated := [];
      for i := 0 to |classes|
        invariant |generated| == i
        invariant forall k :: 0 <= k < i ==> generated[k] == (GeneratedClassPrefix + classes[k].simpleName, classes[k])
      {
        generated := generated + [(GeneratedClassPrefix + classes[i].simpleName, classes[i])];
      }
    } else {
      generated := [(GeneratedClassPrefix + config.classAnnotated.simpleName, classes[0])];
    }
  }

  predicate IsConstructor(e: Element)
  {
    e.kind == CONSTRUCTOR
  }

  /** The constructors enclosed by a type, in order, that are private (or, with `isPrivate` false, are not). */
  function ConstructorsIn(enclosed: seq<Element>, isPrivate: bool): (r: seq<Element>)
    ensures |r| <= |enclosed|
    decreases |enclosed|
  {
    if enclosed == [] then []
    else
      var last := enclosed[|enclosed| - 1];
      ConstructorsIn(enclosed[..|enclosed| - 1], isPrivate)
      + (if IsConstructor(last) && (PRIVATE in last.modifiers <==> isPrivate) then [last] else [])
  }

  /** An element is listed exactly when it is an enclosed constructor of the asked-for privacy. */
  lemma {:induction false} ConstructorsInMembership(enclosed: seq<Element>, isPrivate: bool, c: Element)
    ensures c in ConstructorsIn(enclosed, isPrivate) <==>
            c in enclosed && IsConstructor(c) && (PRIVATE in c.modifiers <==> isPrivate)
    decreases |enclosed|
  {
    if enclosed != [] {
      var init := enclosed[..|enclosed| - 1];
      ConstructorsInMembership(init, isPrivate, c);
      assert enclosed == init + [enclosed[|enclosed| - 1]];
    }
  }

  /** Every constructor is either private or not: both lists are empty exactly when there is no constructor. */
  lemma ConstructorsAreSplit(enclosed: seq<Element>)
    ensures (ConstructorsIn(enclosed, true) == [] && ConstructorsIn(enclosed, false) == []) <==>
            forall c :: c in enclosed ==> !IsConstructor(c)
  {
    if ConstructorsIn(enclosed, true) != [] {
      var c := ConstructorsIn(enclosed, true)[0];
      ConstructorsInMembership(enclosed, true, c);
    }
    if ConstructorsIn(enclosed, false) != [] {
      var c := ConstructorsIn(enclosed, false)[0];
      ConstructorsInMembership(enclosed, false, c);
    }
    forall c | c in enclosed && IsConstructor(c)
      ensures ConstructorsIn(enclosed, true) != [] || ConstructorsIn(enclosed, false) != []
    {
      ConstructorsInMembership(enclosed, PRIVATE in c.modifiers, c);
    }
  }

  /**
   * The constructor check of `generateControlledClass`: an interface needs
   * none; a class whose constructors are all private (and which has some)
   * cannot be extended; otherwise every non-private constructor is copied.
   */
  method SuperConstructorsToCopy(classToControl: TypeElement) returns (r: Result<seq<Element>, AnnotationError>)
    ensures classToControl.kind == INTERFACE ==> r == Ok([])
    ensures classToControl.kind != INTERFACE ==>
              (r.Err? <==> ConstructorsIn(classToControl.enclosedElements, true) != []
                           && ConstructorsIn(classToControl.enclosedElements, false) == [])
    ensures r.Err? ==> r.error == OnlyPrivateConstructors(classToControl)
    ensures classToControl.kind != INTERFACE && r.Ok? ==> r.value == ConstructorsIn(classToControl.enclosedElements, false)
  {
    if classToControl.kind == INTERFACE {
      return Ok([]);
    }
    var enclosed := classToControl.enclosedElements;
    var privateConstructors: seq<Element> := [];
    var nonprivateConstructors: seq<Element> := [];
    for i := 0 to |enclosed|
      invariant privateConstructors == ConstructorsIn(enclosed[..i], true)
      invariant nonprivateConstructors == ConstructorsIn(enclosed[..i], false)
    {
      assert enclosed[..i + 1][..i] == enclosed[..i];
      var e := enclosed[i];
      if e.kind == CONSTRUCTOR {
        if PRIVATE in e.modifiers {
          privateConstructors := privateConstructors + [e];
        } else {
          nonprivateConstructors := nonprivateConstructors + [e];
        }
      }
    }
    assert enclosed[..|enclosed|] == enclosed;
    if privateConstructors != [] && nonprivateConstructors == [] {
      return Err(OnlyPrivateConstructors(classToControl));
    }
    r := Ok(nonprivateConstructors);
  }

  /** A class is refused exactly when it has constructors and every one of them is private. */
  lemma OnlyPrivateConstructorsAreRefused(classToControl: TypeElement)
    requires classToControl.kind != INTERFACE
    ensures (ConstructorsIn(classToControl.enclosedElements, true) != [] && ConstructorsIn(classToControl.enclosedElements, false) == [])
            <==> (exists c :: c in classToControl.enclosedElements && IsConstructor(c))
                 && forall c :: c in classToControl.enclosedElements && IsConstructor(c) ==> PRIVATE in c.modifiers
  {
    var enclosed := classToControl.enclosedElements;
    ConstructorsAreSplit(enclosed);
    if ConstructorsIn(enclosed, false) == [] {
      forall c | c in enclosed && IsConstructor(c)
        ensures PRIVATE in c.modifiers
      {
        ConstructorsInMembership(enclosed, false, c);
      }
    } else {
      var c := ConstructorsIn(enclosed, false)[0];
      ConstructorsInMembership(enclosed, false, c);
    }
  }
}
