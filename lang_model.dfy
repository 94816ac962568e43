/**
 * The parts of the Java language model (`javax.lang.model`) and of JavaPoet's
 * type names that the code generator looks at: modifiers, element kinds,
 * the elements enclosed by a type, and the shape of a type name.
 */
module LangModel {

  /** `javax.lang.model.element.Modifier`. */
  datatype Modifier =
    | PUBLIC | PROTECTED | PRIVATE | ABSTRACT | DEFAULT | STATIC | FINAL
    | TRANSIENT | VOLATILE | SYNCHRONIZED | NATIVE | STRICTFP

  /** `javax.lang.model.element.ElementKind`, the kinds that matter here and one for the rest. */
  datatype ElementKind = METHOD | CONSTRUCTOR | FIELD | CLASS | INTERFACE | ENUM | OTHER_KIND

  /** The eight primitive types of Java. */
  datatype PrimitiveKind = BOOLEAN | BYTE | SHORT | INT | LONG | CHAR | FLOAT | DOUBLE

  /**
   * A JavaPoet `TypeName`: `void`, a primitive, a named reference type (the
   * boxed form of a primitive is one), or the wildcard `? extends Object`.
   */
  datatype TypeName =
    | VoidType
    | PrimitiveType(primitive: PrimitiveKind)
    | ReferenceType(qualifiedName: string)
    | WildcardType

  /** JavaPoet's `box()`: a primitive becomes its wrapper class, any other type stays. */
  function Box(t: TypeName): (r: TypeName)
    ensures t.PrimitiveType? ==> r.ReferenceType?
    ensures !t.PrimitiveType? ==> r == t
  {
    match t
    case PrimitiveType(p) =>
      ReferenceType(match p
                    case BOOLEAN => "java.lang.Boolean"
                    case BYTE => "java.lang.Byte"
                    case SHORT => "java.lang.Short"
                    case INT => "java.lang.Integer"
                    case LONG => "java.lang.Long"
                    case CHAR => "java.lang.Character"
                    case FLOAT => "java.lang.Float"
                    case DOUBLE => "java.lang.Double")
    case _ => t
  }

  /** One parameter of a method or constructor. */
  datatype Parameter = Parameter(paramType: TypeName, name: string, modifiers: set<Modifier>)

  /**
   * An element enclosed by a type. For methods and constructors the
   * executable parts (return type, thrown types, parameters) are filled in;
   * for other kinds they are not looked at.
   */
  datatype Element = Element(
    kind: ElementKind,
    simpleName: string,
    modifiers: set<Modifier>,
    returnType: TypeName,
    thrownTypes: seq<TypeName>,
    parameters: seq<Parameter>)

  /** A class or interface, with the elements it encloses in declaration order. */
  datatype TypeElement = TypeElement(
    kind: ElementKind,
    simpleName: string,
    modifiers: set<Modifier>,
    enclosedElements: seq<Element>)

  predicate IsMethod(e: Element)
  {
    e.kind == METHOD
  }
}
