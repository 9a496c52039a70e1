/**
 * The code generator's object model, as far as the Kotlin back end looks at
 * it: types, annotation values, properties with their column metadata, and
 * the entity a serializer is asked to write out. The framework builds these
 * objects; here they are plain values.
 */
module CodegenModel {
  import opened Wrappers

  /** The framework's `TypeCategory`. */
  datatype TypeCategory =
    | SIMPLE | MAP | COLLECTION | LIST | SET | ARRAY | COMPARABLE | BOOLEAN
    | DATE | DATETIME | ENUM | CUSTOM | ENTITY | NUMERIC | STRING | TIME

  /**
   * A type as the code generator describes it: its category, full, package
   * and simple names, the two flags, and its type arguments.
   */
  datatype Type = Type(
    category: TypeCategory,
    fullName: string,
    packageName: string,
    simpleName: string,
    isPrimitive: bool,
    isFinal: bool,
    parameters: seq<TypeArg>)

  /**
   * A type argument: a type, or a wildcard `? extends bound` carrying an
   * optional variable name (the framework's `TypeExtends`, which
   * `KotlinTypeExtends` specialises).
   */
  datatype TypeArg =
    | Exact(exact: Type)
    | Extends(varName: Option<string>, bound: Option<Type>)

  /** `SimpleType(fullName, packageName, simpleName)`: a plain, non-final class type. */
  function NamedType(fullName: string, packageName: string, simpleName: string): Type {
    Type(SIMPLE, fullName, packageName, simpleName, false, false, [])
  }

  /** `SimpleType(type, parameters...)`: `type`'s names and flags with new type arguments. */
  function WithParameters(t: Type, parameters: seq<TypeArg>): Type {
    t.(parameters := parameters)
  }

  /** `Types.VOID`. */
  const VoidType := Type(SIMPLE, "java.lang.Void", "java.lang", "Void", false, true, [])

  /** `Types.STRING`. */
  const StringType := Type(STRING, "java.lang.String", "java.lang", "String", false, true, [])

  /** A method or constructor parameter: `Parameter(name, type)`. */
  datatype Parameter = Parameter(name: string, paramType: Type)

  /**
   * A value an annotation attribute can hold. `OtherValue` stands for any
   * object of a kind the writer does not know how to print. For an enum
   * constant, `enumClass` is the name of the constant's runtime class and
   * `declaringClass` the name of the class that class is nested in, absent
   * for a top-level enum (and for a constant with a body of its own, whose
   * runtime class is an anonymous class declared in no class). For a class
   * literal, `packaged` says whether `Class.getPackage()` is non-null: it is
   * false for the primitive classes (`void` included) and the array classes.
   */
  datatype AnnotationValue =
    | ArrayValue(elements: seq<AnnotationValue>)
    | ClassValue(classType: Type, packaged: bool)
    | NumberValue(digits: string)
    | BooleanValue(b: bool)
    | EnumValue(constant: string, enumClass: string, enumPackage: string, declaringClass: Option<string>)
    | StringValue(s: string)
    | OtherValue(description: string)

  /** One annotation attribute: its name, its value (None is null) and its declared default. */
  datatype AnnotationAttribute = AnnotationAttribute(
    name: string,
    value: Option<AnnotationValue>,
    defaultValue: Option<AnnotationValue>)

  /** An annotation instance: its annotation class and its attributes in declaration order. */
  datatype AnnotationInstance = AnnotationInstance(annotationType: Type, attributes: seq<AnnotationAttribute>)

  /** The part of `ColumnMetadata` the bean serializer reads. */
  datatype ColumnMetadata = ColumnMetadata(isNullable: bool)

  /**
   * A property of an entity. `column` is the entry stored under "COLUMN" in
   * the property's data when that entry is a `ColumnMetadata`, None otherwise.
   */
  datatype Property = Property(
    name: string,
    escapedName: string,
    propertyType: Type,
    column: Option<ColumnMetadata>)

  /**
   * The entity a serializer writes: its own type plus what the framework
   * knows about it. `table` is the entry stored under "table" in the
   * entity's data (None when there is none).
   */
  datatype EntityType = EntityType(
    modelType: Type,
    originalCategory: TypeCategory,
    annotations: seq<AnnotationInstance>,
    hasLists: bool,
    hasCollections: bool,
    hasSets: bool,
    hasMaps: bool,
    hasArrays: bool,
    hasEntityFields: bool,
    properties: seq<Property>,
    table: Option<string>)
}
