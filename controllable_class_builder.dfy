/**
 * The choices the generator makes for one controlled method: which runtime
 * class backs it (void or non-void family, 0 to 5 checked exceptions), the
 * name of the generated field and accessor, the generated method body that
 * delegates to the field's `exit`, and the field's modifiers.
 *
 * JavaPoet builders are not modelled; what they are given is. The helper
 * that turns an argument's type into a name fragment (a regular-expression
 * rewrite of the type's text) is the parameter `typeSuffix`.
 */
module ControllableClassBuilder {
  import opened JavaModel
  import opened LangModel

  /** `CONTROLLABLE_CHECKED_EXCEPTION_LIMIT`: checked exceptions beyond this many are not controllable. */
  const ControllableCheckedExceptionLimit: nat := 5

  const FieldPrefix: string := "aControlled_"

  /** Generated fields hold the execution side; accessors return the scripting side. */
  datatype Side = Controlled | Controllable

  /** The void family (`ControlledVoidMethod`, `ControllableVoidMethod`) or the non-void one. */
  datatype Family = VoidFamily | NonVoidFamily

  /**
   * A parameterised runtime class: e.g. `ControlledNonVoidMethod.Throwing2CheckedExceptions<R, E1, E2>`
   * is `GeneratedType(Controlled, NonVoidFamily, 2, [R, E1, E2])`.
   */
  datatype GeneratedType = GeneratedType(side: Side, family: Family, arity: nat, typeArguments: seq<TypeName>)

  /**
   * `getCorrectTypes`: the field type and the accessor type for a method with
   * this return type and these checked exceptions.
   */
  function CorrectTypes(returnType: TypeName, checkedExceptions: seq<TypeName>): (r: (GeneratedType, GeneratedType))
    ensures r.0.side == Controlled && r.1.side == Controllable
    ensures r.0.family == r.1.family && (r.0.family == VoidFamily <==> returnType == VoidType)
    ensures r.0.arity == r.1.arity == Min(|checkedExceptions|, ControllableCheckedExceptionLimit)
    ensures r.1.typeArguments == [WildcardType] + r.0.typeArguments
  {
    var c := if |checkedExceptions| > ControllableCheckedExceptionLimit
             then checkedExceptions[..ControllableCheckedExceptionLimit] else checkedExceptions;
    var w := WildcardType;
    ListOfAtMostFive(c);
    if returnType == VoidType then
      if |c| == 0 then
        (GeneratedType(Controlled, VoidFamily, 0, []), GeneratedType(Controllable, VoidFamily, 0, [w]))
      else if |c| == 1 then
        (GeneratedType(Controlled, VoidFamily, 1, [c[0]]), GeneratedType(Controllable, VoidFamily, 1, [w, c[0]]))
      else if |c| == 2 then
        (GeneratedType(Controlled, VoidFamily, 2, [c[0], c[1]]),
         GeneratedType(Controllable, VoidFamily, 2, [w, c[0], c[1]]))
      else if |c| == 3 then
        (GeneratedType(Controlled, VoidFamily, 3, [c[0], c[1], c[2]]),
         GeneratedType(Controllable, VoidFamily, 3, [w, c[0], c[1], c[2]]))
      else if |c| == 4 then
        (GeneratedType(Controlled, VoidFamily, 4, [c[0], c[1], c[2], c[3]]),
         GeneratedType(Controllable, VoidFamily, 4, [w, c[0], c[1], c[2], c[3]]))
      else
        (GeneratedType(Controlled, VoidFamily, 5, [c[0], c[1], c[2], c[3], c[4]]),
         GeneratedType(Controllable, VoidFamily, 5, [w, c[0], c[1], c[2], c[3], c[4]]))
    else
      var b := Box(returnType);
      if |c| == 0 then
        (GeneratedType(Controlled, NonVoidFamily, 0, [b]), GeneratedType(Controllable, NonVoidFamily, 0, [w, b]))
      else if |c| == 1 then
        (GeneratedType(Controlled, NonVoidFamily, 1, [b, c[0]]),
         GeneratedType(Controllable, NonVoidFamily, 1, [w, b, c[0]]))
      else if |c| == 2 then
        (GeneratedType(Controlled, NonVoidFamily, 2, [b, c[0], c[1]]),
         GeneratedType(Controllable, NonVoidFamily, 2, [w, b, c[0], c[1]]))
      else if |c| == 3 then
        (GeneratedType(Controlled, NonVoidFamily, 3, [b, c[0], c[1], c[2]]),
         GeneratedType(Controllable, NonVoidFamily, 3, [w, b, c[0], c[1], c[2]]))
      else if |c| == 4 then
        (GeneratedType(Controlled, NonVoidFamily, 4, [b, c[0], c[1], c[2], c[3]]),
         GeneratedType(Controllable, NonVoidFamily, 4, [w, b, c[0], c[1], c[2], c[3]]))
      else
        (GeneratedType(Controlled, NonVoidFamily, 5, [b, c[0], c[1], c[2], c[3], c[4]]),
         GeneratedType(Controllable, NonVoidFamily, 5, [w, b, c[0], c[1], c[2], c[3], c[4]]))
  }

  /**
   * The field type's arguments are the boxed return type (none for `void`)
   * followed by the first five checked exceptions.
   */
  lemma CorrectTypesKeepTheFirstFiveExceptions(returnType: TypeName, checkedExceptions: seq<TypeName>)
    ensures var kept := checkedExceptions[..Min(|checkedExceptions|, ControllableCheckedExceptionLimit)];
            var valueArgs := if returnType == VoidType then [] else [Box(returnType)];
            CorrectTypes(returnType, checkedExceptions).0.typeArguments == valueArgs + kept
  {
    var kept := checkedExceptions[..Min(|checkedExceptions|, ControllableCheckedExceptionLimit)];
    ListOfAtMostFive(kept);
  }

  /** A list of at most five entries is the display of its entries. */
  lemma ListOfAtMostFive<T>(c: seq<T>)
    ensures |c| == 1 ==> c == [c[0]]
    ensures |c| == 2 ==> c == [c[0], c[1]]
    ensures |c| == 3 ==> c == [c[0], c[1], c[2]]
    ensures |c| == 4 ==> c == [c[0], c[1], c[2], c[3]]
    ensures |c| == 5 ==> c == [c[0], c[1], c[2], c[3], c[4]]
  {
  }

  /** Checked exceptions beyond the fifth are dropped; the first five keep their order. */
  lemma CheckedExceptionsAreTruncatedToTheLimit(returnType: TypeName, checkedExceptions: seq<TypeName>)
    requires |checkedExceptions| > ControllableCheckedExceptionLimit
    ensures var (field, accessor) := CorrectTypes(returnType, checkedExceptions);
            && field.arity == accessor.arity == ControllableCheckedExceptionLimit
            && field.typeArguments[|field.typeArguments| - 5..] == checkedExceptions[..5]
            && CorrectTypes(returnType, checkedExceptions) == CorrectTypes(returnType, checkedExceptions[..5])
  {
  }

  /** A method argument as the generator sees it: its type and its name. */
  datatype MethodArg = MethodArg(argType: TypeName, name: string)

  /** The argument names, in order. */
  function ArgNames(args: seq<MethodArg>): (names: seq<string>)
    ensures |names| == |args|
    ensures forall i :: 0 <= i < |args| ==> names[i] == args[i].name
  {
    seq(|args|, i requires 0 <= i < |args| => args[i].name)
  }

  /** The names joined with single commas between them. */
  function JoinComma(names: seq<string>): string
    decreases |names|
  {
    if names == [] then ""
    else if |names| == 1 then names[0]
    else JoinComma(names[..|names| - 1]) + "," + names[|names| - 1]
  }

  /** What the string builder holds after the loop: every name followed by a comma. */
  function EachFollowedByComma(names: seq<string>): (r: string)
    ensures names != [] ==> |r| > 0
    decreases |names|
  {
    if names == [] then "" else EachFollowedByComma(names[..|names| - 1]) + names[|names| - 1] + ","
  }

  /** Deleting the builder's last character leaves exactly the comma-joined names. */
  lemma {:induction false} DroppingTheLastCommaJoins(names: seq<string>)
    requires names != []
    ensures EachFollowedByComma(names) == JoinComma(names) + ","
    decreases |names|
  {
    if |names| > 1 {
      DroppingTheLastCommaJoins(names[..|names| - 1]);
    } else {
      assert names[..0] == [];
    }
  }

  /** With comma-free names, the joined string has one comma fewer than there are names. */
  lemma {:induction false} JoinCommaCountsSeparators(names: seq<string>)
    requires forall i :: 0 <= i < |names| ==> ',' !in names[i]
    ensures multiset(JoinComma(names))[','] == if names == [] then 0 else |names| - 1
    decreases |names|
  {
    if |names| > 1 {
      var init := names[..|names| - 1];
      JoinCommaCountsSeparators(init);
      var last := names[|names| - 1];
      assert ',' !in last;
      assert multiset(last)[','] == 0;
      assert multiset(JoinComma(init) + "," + last) == multiset(JoinComma(init)) + multiset(",") + multiset(last);
    } else if |names| == 1 {
      assert ',' !in names[0];
      assert multiset(names[0])[','] == 0;
    }
  }

  /** `getArgNamesAsCommaSepString`: append each name and a comma, then delete the trailing comma. */
  method GetArgNamesAsCommaSepString(args: seq<MethodArg>) returns (s: string)
    ensures s == JoinComma(ArgNames(args))
    ensures args == [] ==> s == ""
  {
    var sb := "";
    for i := 0 to |args|
      invariant sb == EachFollowedByComma(ArgNames(args)[..i])
    {
      assert ArgNames(args)[..i + 1] == ArgNames(args)[..i] + [args[i].name];
      sb := sb + args[i].name + ",";
    }
    assert ArgNames(args)[..|args|] == ArgNames(args);
    if |sb| > 0 {
      DroppingTheLastCommaJoins(ArgNames(args));
      sb := sb[..|sb| - 1];
    }
    s := sb;
  }

  /** The concatenated type fragments of the arguments, used to tell overloads apart. */
  function TypeFragments(args: seq<MethodArg>, typeSuffix: TypeName -> string): string
    decreases |args|
  {
    if args == [] then "" else TypeFragments(args[..|args| - 1], typeSuffix) + typeSuffix(args[|args| - 1].argType)
  }

  /** `getArgTypesAsCamelCaseStringForMethodNameUniqueness`: append each argument's type fragment. */
  method GetArgTypesAsCamelCaseString(args: seq<MethodArg>, typeSuffix: TypeName -> string) returns (s: string)
    ensures s == TypeFragments(args, typeSuffix)
  {
    s := "";
    for i := 0 to |args|
      invariant s == TypeFragments(args[..i], typeSuffix)
    {
      assert args[..i + 1][..i] == args[..i];
      s := s + typeSuffix(args[i].argType);
    }
    assert args[..|args|] == args;
  }

  /**
   * The field (and accessor) name for a controlled method: the prefix, the
   * method's name, and for an overloaded method with arguments `_` and the
   * argument type fragments.
   */
  function FieldName(controlledMethodName: string, args: seq<MethodArg>, isOverload: bool, typeSuffix: TypeName -> string): (r: string)
    ensures FieldPrefix + controlledMethodName <= r
    ensures |r| > |FieldPrefix + controlledMethodName| <==> isOverload && args != []
    ensures isOverload && args != [] ==> r[|FieldPrefix + controlledMethodName|] == '_'
  {
    var argsIdentifier := if isOverload && args != [] then "_" + TypeFragments(args, typeSuffix) else "";
    FieldPrefix + controlledMethodName + argsIdentifier
  }

  /** Two overloads of one method get the same field name only if their argument fragments coincide. */
  lemma OverloadFieldNamesDifferByArgumentTypes(name: string, args1: seq<MethodArg>, args2: seq<MethodArg>, typeSuffix: TypeName -> string)
    requires args1 != [] && args2 != []
    ensures FieldName(name, args1, true, typeSuffix) == FieldName(name, args2, true, typeSuffix)
            <==> TypeFragments(args1, typeSuffix) == TypeFragments(args2, typeSuffix)
  {
    var p := FieldPrefix + name + "_";
    var f1, f2 := FieldName(name, args1, true, typeSuffix), FieldName(name, args2, true, typeSuffix);
    var t1, t2 := TypeFragments(args1, typeSuffix), TypeFragments(args2, typeSuffix);
    assert f1 == p + t1;
    assert f2 == p + t2;
    if f1 == f2 {
      assert f1[|p|..] == t1;
      assert f2[|p|..] == t2;
    }
  }

  /** Methods that are not overloaded get distinct field names exactly when their names differ. */
  lemma PlainFieldNamesFollowMethodNames(name1: string, name2: string, args1: seq<MethodArg>, args2: seq<MethodArg>, typeSuffix: TypeName -> string)
    ensures FieldName(name1, args1, false, typeSuffix) == FieldName(name2, args2, false, typeSuffix) <==> name1 == name2
  {
    if FieldName(name1, args1, false, typeSuffix) == FieldName(name2, args2, false, typeSuffix) {
      assert FieldName(name1, args1, false, typeSuffix)[|FieldPrefix|..] == name1;
      assert FieldName(name2, args2, false, typeSuffix)[|FieldPrefix|..] == name2;
    }
  }

  /**
   * The body of the generated method: the call of the field's `exit` with the
   * argument names, preceded by `return ` only when the method returns a value.
   */
  function ExitStatement(returnType: TypeName, fieldName: string, argNames: string): (r: string)
    ensures var call := fieldName + ".exit(" + argNames + ")";
            |r| == |call| + (if returnType == VoidType then 0 else 7) && r[|r| - |call|..] == call
    ensures returnType != VoidType ==> "return " <= r
  {
    var start := if returnType == VoidType then "" else "return ";
    start + fieldName + ".exit(" + argNames + ")"
  }

  /**
   * The generated body returns a value exactly when the field is of the
   * non-void family, whose `exit` yields one.
   */
  lemma ReturnPrefixMatchesFieldFamily(returnType: TypeName, checkedExceptions: seq<TypeName>, fieldName: string, argNames: string)
    requires FieldPrefix <= fieldName
    ensures "return " <= ExitStatement(returnType, fieldName, argNames)
            <==> CorrectTypes(returnType, checkedExceptions).0.family == NonVoidFamily
  {
    if returnType == VoidType {
      assert ExitStatement(returnType, fieldName, argNames)[0] == fieldName[0] == 'a';
    }
  }

  /** `createField`'s modifiers: `private final`, and `static` when the controlled method is static. */
  function FieldModifiers(isStatic: bool): (r: seq<Modifier>)
    ensures |r| == if isStatic then 3 else 2
    ensures r[..2] == [PRIVATE, FINAL]
    ensures STATIC in r <==> isStatic
  {
    var modifiers := [PRIVATE, FINAL];
    if isStatic then modifiers + [STATIC] else modifiers
  }

  /** What the generator emits for one controlled method. */
  datatype ControlledMethod = ControlledMethod(
    controlledMethodName: string,
    controlledMethodModifiers: set<Modifier>,
    isOverload: bool,
    controlledMethodReturnType: TypeName,
    controlledMethodCheckedExceptions: seq<TypeName>,
    controlledMethodArgs: seq<MethodArg>,
    fieldName: string,
    accessorMethodName: string,
    fieldType: GeneratedType,
    accessorType: GeneratedType,
    fieldModifiers: seq<Modifier>,
    controlledMethodStatement: string,
    accessorStatement: string)

  /** The `ControlledMethod` constructor: names, types, field modifiers and statements. */
  function NewControlledMethod(controlledMethodName: string, controlledMethodModifiers: set<Modifier>,
                               controlledMethodReturnType: TypeName, controlledMethodCheckedExceptions: seq<TypeName>,
                               controlledMethodArgs: seq<MethodArg>, isOverload: bool,
                               typeSuffix: TypeName -> string): (m: ControlledMethod)
    ensures m.accessorMethodName == m.fieldName
    ensures FieldPrefix + controlledMethodName <= m.fieldName
    ensures (m.fieldType.family == VoidFamily) <==> controlledMethodReturnType == VoidType
    ensures m.fieldType.arity == Min(|controlledMethodCheckedExceptions|, ControllableCheckedExceptionLimit)
    ensures (STATIC in m.fieldModifiers) <==> STATIC in controlledMethodModifiers
    ensures ("return " <= m.controlledMethodStatement) <==> controlledMethodReturnType != VoidType
    ensures m.accessorStatement == "return " + m.fieldName + ".createControllable()"
  {
    var fieldName := FieldName(controlledMethodName, controlledMethodArgs, isOverload, typeSuffix);
    var (fieldType, accessorType) := CorrectTypes(controlledMethodReturnType, controlledMethodCheckedExceptions);
    var statement := ExitStatement(controlledMethodReturnType, fieldName, JoinComma(ArgNames(controlledMethodArgs)));
    ReturnPrefixMatchesFieldFamily(controlledMethodReturnType, controlledMethodCheckedExceptions, fieldName,
                                   JoinComma(ArgNames(controlledMethodArgs)));
    ControlledMethod(controlledMethodName, controlledMethodModifiers, isOverload, controlledMethodReturnType,
                     controlledMethodCheckedExceptions, controlledMethodArgs, fieldName, fieldName,
                     fieldType, accessorType, FieldModifiers(STATIC in controlledMethodModifiers), statement,
                     "return " + fieldName + ".createControllable()")
  }
}
