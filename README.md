# Kotlin back end for QueryDSL SQL code generation, in Dafny

This project models the Kotlin extension of QueryDSL's SQL code generator.
The extension makes the generator write Kotlin instead of Java. It has six
parts, and each is modelled in its own file:

- `JavaToKotlinTypeTransformer` (`type_transformer.dfy`, module
  `TypeTransformer`) rewrites the Java spelling of a basic type (boxed or
  primitive numbers, booleans, `String` and byte arrays) to the matching
  `kotlin.*` type. It keeps the type's category and flags.
- `JavaForKotlinTypeMappings` (`type_mappings.dfy`, module `TypeMappings`)
  gives a numeric column the query type `exprType<kotlin.Int>` (and so on).
  Every other column is handed to the framework's own mapping, which is a
  parameter here.
- `KotlinTypeExtends` (`type_extends.dfy`, module `TypeExtends`) renders a
  wildcard type argument, turning Java's `? extends T` into Kotlin's `out T`.
- `KotlinCodeWriter` (`code_writer.dfy`, module `KotlinWriter`) is the
  stateful emitter. It keeps two growing sets of imported class and package
  names, an indentation level and the text written so far. The text of each
  operation is first given as a pure function of an `Env` (the framework
  pieces the writer calls into) and a `Scope` (the two import sets). The
  writer is then a class whose methods are proved to append exactly that
  text and to update the import sets and level as the source does.
- `KotlinBeanSerializer` (`bean_serializer.dfy`, module `BeanSerializer`)
  writes an entity as a Kotlin `data class`. `BeanText` gives the whole
  output as a function of the writer's state on entry, and `Serialize` is
  proved to write it. Lemmas then describe that text: where the package
  line goes, what is imported, one comma between fields, nullability
  markers, and when an unprintable annotation stops the output. The
  `addFullConstructor` switch is stored but, as in the source, `serialize`
  never consults it.
- `KotlinMetaDataSerializer` (`metadata_serializer.dfy`, module
  `MetaDataSerializer`) writes a query class's constructors and its default
  instance. The serializer's choices are pure functions of a few names and
  flags: `this` or `super`, the `(Class) ` cast, `, INITS`, the extra
  parameters, and which constructors exist. The constructors are values
  (`Ctor`), and the methods are proved to write exactly the text of that
  plan.

`model.dfy` (module `CodegenModel`) holds the code generator's object
model as plain values. `strings.dfy` and `wrappers.dfy` hold generic helpers.

## Model

| member | source | states |
|---|---|---|
| TypeTransformer.Transform | src/main/kotlin/io/github/kartoffelsup/ktqdsl/JavaToKotlinTypeTransformer.kt:7-86 | The result keeps the input's category and both flags. It is either the input itself or a `kotlin` type whose full name is `kotlin.` plus its simple name. |
| TypeTransformer.TransformFollowsTable | src/main/kotlin/io/github/kartoffelsup/ktqdsl/JavaToKotlinTypeTransformer.kt:11-84 | A simple name in the translation table gives exactly the table's `kotlin` type with the input's category and flags. Any other name gives the input unchanged. |
| TypeTransformer.TransformListed | src/main/kotlin/io/github/kartoffelsup/ktqdsl/JavaToKotlinTypeTransformer.kt:12-83 | Each listed simple name maps to the `kotlin` type the table names for it. |
| TypeTransformer.TransformUnlisted | src/main/kotlin/io/github/kartoffelsup/ktqdsl/JavaToKotlinTypeTransformer.kt:84 | An unlisted simple name is returned as is, including its type arguments. |
| TypeTransformer.OnlyCapitalisedString | src/main/kotlin/io/github/kartoffelsup/ktqdsl/JavaToKotlinTypeTransformer.kt:68-75 | `String` becomes `kotlin.String`. Lower-case `string` is not in the table and stays unchanged. |
| TypeTransformer.BoxedAgreesWithPrimitive | src/main/kotlin/io/github/kartoffelsup/ktqdsl/JavaToKotlinTypeTransformer.kt:12-67 | A boxed type and its primitive (`Integer`/`int`, …, `byte[]`/`Byte[]`) become the same `kotlin` type: same names and no type arguments. |
| TypeTransformer.PairTranslatedAlike | src/main/kotlin/io/github/kartoffelsup/ktqdsl/JavaToKotlinTypeTransformer.kt:11-83 | Both names of every boxed/primitive pair are in the table and map to the same Kotlin name. |
| TypeTransformer.TransformIdempotent | src/main/kotlin/io/github/kartoffelsup/ktqdsl/JavaToKotlinTypeTransformer.kt:7-86 | Transforming twice is the same as transforming once. |
| TypeMappings.GetQueryType | src/main/kotlin/io/github/kartoffelsup/ktqdsl/JavaForKotlinTypeMappings.kt:10-24 | For a numeric simple name, the query type keeps `exprType`'s names and has exactly one type argument. |
| TypeMappings.NumericQueryType | src/main/kotlin/io/github/kartoffelsup/ktqdsl/JavaForKotlinTypeMappings.kt:16-21 | The query type for a numeric name is `exprType` with everything but its type arguments unchanged, and with the single argument `kotlin.X` (package `kotlin`, simple name X, no arguments of its own). |
| TypeMappings.QueryTypeFollowsTable | src/main/kotlin/io/github/kartoffelsup/ktqdsl/JavaForKotlinTypeMappings.kt:15-23 | A numeric simple name gives `exprType` over the matching `kotlin` number type. Any other name gives what the inherited mapping returns for the same arguments. |
| TypeMappings.NumericIgnoresContext | src/main/kotlin/io/github/kartoffelsup/ktqdsl/JavaForKotlinTypeMappings.kt:16-21 | For a numeric simple name, the entity model, the `raw`, `rawParameters` and `extend` flags and the inherited mapping have no effect on the result. |
| TypeMappings.NonNumericFallsBack | src/main/kotlin/io/github/kartoffelsup/ktqdsl/JavaForKotlinTypeMappings.kt:22 | Booleans, strings and byte arrays, which the type transformer does translate, still go to the inherited mapping. |
| TypeMappings.NumericArgumentMatchesTransformer | src/main/kotlin/io/github/kartoffelsup/ktqdsl/JavaForKotlinTypeMappings.kt:16-21 | The type argument of a numeric query type is the same `kotlin` type the type transformer gives for that column type. |
| TypeExtends.NoJavaWildcardLeft | src/main/kotlin/io/github/kartoffelsup/ktqdsl/KotlinTypeExtends.kt:15 | After the replacement, no `? extends ` is left anywhere in the name. |
| TypeExtends.PlainNameUnchanged | src/main/kotlin/io/github/kartoffelsup/ktqdsl/KotlinTypeExtends.kt:15 | A name without `? extends ` is left unchanged. |
| TypeExtends.RewriteLength | src/main/kotlin/io/github/kartoffelsup/ktqdsl/KotlinTypeExtends.kt:15 | The rewritten name is six characters shorter for each non-overlapping `? extends ` the scan replaces. |
| TypeExtends.GetGenericName | src/main/kotlin/io/github/kartoffelsup/ktqdsl/KotlinTypeExtends.kt:9-16 | `getGenericName` never contains `? extends `. When the inherited rendering has none, the result is that rendering unchanged. |
| TypeExtends.WildcardAfterPrefix | src/main/kotlin/io/github/kartoffelsup/ktqdsl/KotlinTypeExtends.kt:15 | For any text before it that holds no `?`, a `? extends ` is replaced by `out `, the text before it is copied and the text after it is projected in turn. |
| TypeExtends.WildcardThenName | src/main/kotlin/io/github/kartoffelsup/ktqdsl/KotlinTypeExtends.kt:15 | For every name, a leading `? extends ` becomes `out ` and the rest of the name is projected in turn. |
| KotlinWriter.GenericName | src/main/kotlin/io/github/kartoffelsup/ktqdsl/KotlinCodeWriter.kt:30-36 | `Types.VOID` is always written `kotlin.Unit`. |
| KotlinWriter.GenericNameSeesThroughTransform | src/main/kotlin/io/github/kartoffelsup/ktqdsl/KotlinCodeWriter.kt:30-36 | For a type other than VOID, passing in an already transformed type renders the same name. |
| KotlinWriter.RawNameSeesThroughTransform | src/main/kotlin/io/github/kartoffelsup/ktqdsl/KotlinCodeWriter.kt:25-28 | The raw name of an already transformed type is the same as the raw name of the type. |
| KotlinWriter.ClassConstant | src/main/kotlin/io/github/kartoffelsup/ktqdsl/KotlinCodeWriter.kt:38-40 | The class constant starts with the class name, ends with `::class.java`, and is exactly as long as the two together. |
| KotlinWriter.ClassConstantInjective | src/main/kotlin/io/github/kartoffelsup/ktqdsl/KotlinCodeWriter.kt:38-40 | Different class names give different class constants. |
| KotlinWriter.FieldValueText | src/main/kotlin/io/github/kartoffelsup/ktqdsl/KotlinCodeWriter.kt:435-444 | A field with a value starts with `modifier name : Type` and ends with ` = value`. |
| KotlinWriter.FieldFlagsRecoverable | src/main/kotlin/io/github/kartoffelsup/ktqdsl/KotlinCodeWriter.kt:423-433 | Two field lines for the same declaration are equal exactly when they agree on both nullability and the comma suffix. |
| KotlinWriter.FieldMarkers | src/main/kotlin/io/github/kartoffelsup/ktqdsl/KotlinCodeWriter.kt:430-432 | If the type name ends in neither `?` nor `,`, a field line ends in `,` exactly when a comma suffix was asked for, and the comma-less line ends in `?` exactly when the field is nullable. |
| KotlinWriter.ParamsLength | src/main/kotlin/io/github/kartoffelsup/ktqdsl/KotlinCodeWriter.kt:375-385 | No parameters are written `()`. Otherwise the text is the two parentheses plus each entry plus one `, ` between consecutive entries. A null parameter contributes an empty entry. |
| KotlinWriter.ConstantOkIffSupported | src/main/kotlin/io/github/kartoffelsup/ktqdsl/KotlinCodeWriter.kt:317-346 | An annotation value can be written exactly when it and every element nested in it is a class, number, boolean, enum, string or array of those. In addition, every class in it must have a package or an imported name, and every enum constant must be imported or nested in a declaring class. |
| KotlinWriter.ElementsOkIffSupported | src/main/kotlin/io/github/kartoffelsup/ktqdsl/KotlinCodeWriter.kt:318-328 | The first n elements of an array value are written without failure exactly when each of them is supported in the writer's scope, class and enum conditions included. |
| KotlinWriter.ElementsStopAfterFailure | src/main/kotlin/io/github/kartoffelsup/ktqdsl/KotlinCodeWriter.kt:321-327 | Once an array element fails, nothing more of the array is written. |
| KotlinWriter.ElementsJoined | src/main/kotlin/io/github/kartoffelsup/ktqdsl/KotlinCodeWriter.kt:320-327 | Supported array elements are written one after the other with `, ` between them. |
| KotlinWriter.ArrayRendersJoined | src/main/kotlin/io/github/kartoffelsup/ktqdsl/KotlinCodeWriter.kt:318-328 | An array value of supported elements is written as `{` + elements joined by `, ` + `}`. |
| KotlinWriter.EnumQualification | src/main/kotlin/io/github/kartoffelsup/ktqdsl/KotlinCodeWriter.kt:333-339 | An enum constant is written exactly when its class or package is imported, or it has a declaring class. When written, it is bare exactly when imported; otherwise it is qualified by its declaring class's name. A top-level enum that is not imported fails before anything is written, where the source dereferences a null declaring class. |
| KotlinWriter.ClassLiteral | src/main/kotlin/io/github/kartoffelsup/ktqdsl/KotlinCodeWriter.kt:329-330 | A class literal is the class's generic name followed by `::class.java`. It fails, writing nothing, exactly when the class has no package (a primitive, `void` or array class) and its name is not imported. |
| KotlinWriter.StringQuoted | src/main/kotlin/io/github/kartoffelsup/ktqdsl/KotlinCodeWriter.kt:340-342 | A string constant is written between double quotes: the escaped text with every `\/` turned back into `/`, so one character shorter per replacement. |
| KotlinWriter.AttributesStopAfterFailure | src/main/kotlin/io/github/kartoffelsup/ktqdsl/KotlinCodeWriter.kt:59-92 | Once an attribute's value cannot be written, no later attribute is written. |
| KotlinWriter.AttributesJoined | src/main/kotlin/io/github/kartoffelsup/ktqdsl/KotlinCodeWriter.kt:59-92 | With every attribute writable, the attributes shown (those with a non-null value that differs from the default) are written as `(` + `name=value` joined by `, `. No parenthesis is opened when none is shown. |
| KotlinWriter.AnnotationWithAttributes | src/main/kotlin/io/github/kartoffelsup/ktqdsl/KotlinCodeWriter.kt:42-94 | An annotation that is not a single `value` attribute, whose attributes are all writable, is written as `@Type`, then the shown attributes in parentheses (nothing when none is shown), then a line break. |
| KotlinWriter.ImportLineCount | src/main/kotlin/io/github/kartoffelsup/ktqdsl/KotlinCodeWriter.kt:203-238 | The import lines hold exactly one line break per imported name. |
| KotlinWriter.CollectionConstructorDoubleParen | src/main/kotlin/io/github/kartoffelsup/ktqdsl/KotlinCodeWriter.kt:124-131 | The header as written opens its parameter list twice: no parameters give `constructor(() {`. It never equals the header of the vararg overload for the same parameters. |
| KotlinWriter.KotlinCodeWriter.constructor | src/main/kotlin/io/github/kartoffelsup/ktqdsl/KotlinCodeWriter.kt:20-23 | A new writer has empty import sets, level 0 and no output. |
| KotlinWriter.KotlinCodeWriter.Param | src/main/kotlin/io/github/kartoffelsup/ktqdsl/KotlinCodeWriter.kt:387-389 | Appends `name : Type`, with the type rendered as an argument type. |
| KotlinWriter.KotlinCodeWriter.Params | src/main/kotlin/io/github/kartoffelsup/ktqdsl/KotlinCodeWriter.kt:375-385 | Appends the parenthesised parameter list. |
| KotlinWriter.KotlinCodeWriter.ParamsOf | src/main/kotlin/io/github/kartoffelsup/ktqdsl/KotlinCodeWriter.kt:358-373 | Appends the parenthesised list of the transformed elements, in order. |
| KotlinWriter.KotlinCodeWriter.TransformParams | src/main/kotlin/io/github/kartoffelsup/ktqdsl/KotlinCodeWriter.kt:411-421 | The array has one entry per element, and entry i is the transformer's result for element i, null included. |
| KotlinWriter.KotlinCodeWriter.AppendCommaSeparatedTypes | src/main/kotlin/io/github/kartoffelsup/ktqdsl/KotlinCodeWriter.kt:391-398 | Appends the types' generic names joined by `, `. |
| KotlinWriter.KotlinCodeWriter.AppendType | src/main/kotlin/io/github/kartoffelsup/ktqdsl/KotlinCodeWriter.kt:348-356 | Both branches of the source append the type's generic name. The condition between them fails, appending nothing, exactly when the class's name is not imported and the class has no package, where `getPackage()` is null. |
| KotlinWriter.KotlinCodeWriter.AnnotationConstant | src/main/kotlin/io/github/kartoffelsup/ktqdsl/KotlinCodeWriter.kt:317-346 | Appends the value's text. It reports failure exactly when the value is unsupported in the writer's current scope, which is where the source throws. |
| KotlinWriter.KotlinCodeWriter.ArrayElements | src/main/kotlin/io/github/kartoffelsup/ktqdsl/KotlinCodeWriter.kt:320-327 | Appends the array's elements, separated, up to and including the first that fails. |
| KotlinWriter.KotlinCodeWriter.Annotation | src/main/kotlin/io/github/kartoffelsup/ktqdsl/KotlinCodeWriter.kt:42-94 | Appends the annotation's line. It succeeds exactly when every value in it can be written in the writer's scope, class and enum conditions included. |
| KotlinWriter.KotlinCodeWriter.AnnotationBody | src/main/kotlin/io/github/kartoffelsup/ktqdsl/KotlinCodeWriter.kt:44-93 | Appends `(value)` for a lone `value` attribute, and the attribute list otherwise. |
| KotlinWriter.KotlinCodeWriter.AnnotationAttributes | src/main/kotlin/io/github/kartoffelsup/ktqdsl/KotlinCodeWriter.kt:60-92 | The attribute loop appends the attribute text and returns the "nothing shown yet" flag the source's `first` ends with. |
| KotlinWriter.KotlinCodeWriter.AttributeStep | src/main/kotlin/io/github/kartoffelsup/ktqdsl/KotlinCodeWriter.kt:61-91 | One iteration of the attribute loop extends the text and the `first` flag from i to i+1 attributes. |
| KotlinWriter.KotlinCodeWriter.Attribute | src/main/kotlin/io/github/kartoffelsup/ktqdsl/KotlinCodeWriter.kt:74-86 | Appends `(` before the first shown attribute and `, ` before later ones, then `name=` and the value. |
| KotlinWriter.KotlinCodeWriter.AnnotationOfClass | src/main/kotlin/io/github/kartoffelsup/ktqdsl/KotlinCodeWriter.kt:96-98 | Writes the line `@Type`. |
| KotlinWriter.KotlinCodeWriter.AddImports | src/main/kotlin/io/github/kartoffelsup/ktqdsl/KotlinCodeWriter.kt:203-210 | Adds every name to the class set (or, for packages, the package set) and leaves the other set alone. Writes one `import` line per name, then an empty line. |
| KotlinWriter.KotlinCodeWriter.Imports | src/main/kotlin/io/github/kartoffelsup/ktqdsl/KotlinCodeWriter.kt:199-201 | Imports the classes by name without a wildcard. |
| KotlinWriter.KotlinCodeWriter.StaticImports | src/main/kotlin/io/github/kartoffelsup/ktqdsl/KotlinCodeWriter.kt:301-303 | Imports the classes with `.*` appended, recording them as classes. |
| KotlinWriter.KotlinCodeWriter.ImportsOfPackages | src/main/kotlin/io/github/kartoffelsup/ktqdsl/KotlinCodeWriter.kt:212-220 | Records the packages and writes `import p.*` for each. |
| KotlinWriter.KotlinCodeWriter.ImportClasses | src/main/kotlin/io/github/kartoffelsup/ktqdsl/KotlinCodeWriter.kt:222-229 | Records the class names and writes `import c` for each. |
| KotlinWriter.KotlinCodeWriter.ImportPackages | src/main/kotlin/io/github/kartoffelsup/ktqdsl/KotlinCodeWriter.kt:231-238 | Records the packages and writes `import p.*;` for each, keeping the source's semicolon. |
| KotlinWriter.KotlinCodeWriter.PackageDecl | src/main/kotlin/io/github/kartoffelsup/ktqdsl/KotlinCodeWriter.kt:244-247 | Records the package and writes `package p`, then an empty line. |
| KotlinWriter.KotlinCodeWriter.Javadoc | src/main/kotlin/io/github/kartoffelsup/ktqdsl/KotlinCodeWriter.kt:240-242 | Writes nothing. |
| KotlinWriter.KotlinCodeWriter.SuppressWarnings | src/main/kotlin/io/github/kartoffelsup/ktqdsl/KotlinCodeWriter.kt:305-311 | Writes nothing, for either overload. |
| KotlinWriter.KotlinCodeWriter.WriteDataClassWithConstructorStart | src/main/kotlin/io/github/kartoffelsup/ktqdsl/KotlinCodeWriter.kt:100-103 | Records the type's package, writes `data class Name(` and indents one level. |
| KotlinWriter.KotlinCodeWriter.BeginClass | src/main/kotlin/io/github/kartoffelsup/ktqdsl/KotlinCodeWriter.kt:109-122 | Records the package and writes `class Name`, then `:Super` when a superclass is given, then `:I1, I2` when interfaces are given, then ` {` and two line breaks. Indents one level. |
| KotlinWriter.KotlinCodeWriter.BeginPlainClass | src/main/kotlin/io/github/kartoffelsup/ktqdsl/KotlinCodeWriter.kt:105-107 | The one-argument overload: `class Name {` with no supertypes. |
| KotlinWriter.KotlinCodeWriter.BeginInterface | src/main/kotlin/io/github/kartoffelsup/ktqdsl/KotlinCodeWriter.kt:149-159 | Records the package and writes `interface Name`, then `extends I1, I2` when interfaces are given, then ` {` and two line breaks. Indents one level. |
| KotlinWriter.KotlinCodeWriter.BeginConstructor | src/main/kotlin/io/github/kartoffelsup/ktqdsl/KotlinCodeWriter.kt:133-137 | Writes `constructor(params) {` and indents one level. |
| KotlinWriter.KotlinCodeWriter.BeginDelegatingConstructor | src/main/kotlin/io/github/kartoffelsup/ktqdsl/KotlinCodeWriter.kt:139-147 | Writes `constructor(params) :call {` and indents one level. |
| KotlinWriter.KotlinCodeWriter.BeginConstructorOf | src/main/kotlin/io/github/kartoffelsup/ktqdsl/KotlinCodeWriter.kt:124-131 | The collection overload, corrected: it writes the same header as the vararg overload over the transformed elements, and indents one level. |
| KotlinWriter.KotlinCodeWriter.BeginMethod | src/main/kotlin/io/github/kartoffelsup/ktqdsl/KotlinCodeWriter.kt:400-409 | Writes `modifiers` + `fun name(params) : Return {`, with the return type rendered as an argument type. Indents one level. |
| KotlinWriter.KotlinCodeWriter.BeginPublicMethod | src/main/kotlin/io/github/kartoffelsup/ktqdsl/KotlinCodeWriter.kt:168-174 | The method header with no modifiers. |
| KotlinWriter.KotlinCodeWriter.BeginPublicMethodOf | src/main/kotlin/io/github/kartoffelsup/ktqdsl/KotlinCodeWriter.kt:161-166 | The method header over the transformed elements, with no modifiers. A null transformer result is an empty entry that keeps its separators. |
| KotlinWriter.KotlinCodeWriter.BeginStaticMethod | src/main/kotlin/io/github/kartoffelsup/ktqdsl/KotlinCodeWriter.kt:183-189 | The method header with no modifiers, exactly like the public one. |
| KotlinWriter.KotlinCodeWriter.BeginStaticMethodOf | src/main/kotlin/io/github/kartoffelsup/ktqdsl/KotlinCodeWriter.kt:176-181 | The method header over the transformed elements, with no modifiers. A null transformer result is an empty entry that keeps its separators. |
| KotlinWriter.KotlinCodeWriter.BeginCompanionObject | src/main/kotlin/io/github/kartoffelsup/ktqdsl/KotlinCodeWriter.kt:313-315 | Writes `companion object {` and indents one level. |
| KotlinWriter.KotlinCodeWriter.End | src/main/kotlin/io/github/kartoffelsup/ktqdsl/KotlinCodeWriter.kt:191-193 | Outdents one level and writes `}` at the outer indentation. |
| KotlinWriter.KotlinCodeWriter.FieldLine | src/main/kotlin/io/github/kartoffelsup/ktqdsl/KotlinCodeWriter.kt:423-433 | Writes the line `modifier name : Type`, with `?` when nullable and `,` when a comma suffix is asked for. |
| KotlinWriter.KotlinCodeWriter.FieldLineWithValue | src/main/kotlin/io/github/kartoffelsup/ktqdsl/KotlinCodeWriter.kt:435-444 | Writes the line `modifier name : Type = value`, with the type rendered as an argument type. |
| KotlinWriter.KotlinCodeWriter.Field | src/main/kotlin/io/github/kartoffelsup/ktqdsl/KotlinCodeWriter.kt:195-197 | A non-null field whose modifier is `var ` with its trailing space, as the source passes it. |
| KotlinWriter.KotlinCodeWriter.PrivateField | src/main/kotlin/io/github/kartoffelsup/ktqdsl/KotlinCodeWriter.kt:249-251 | A non-null `private var` field. |
| KotlinWriter.KotlinCodeWriter.PrivateFinal | src/main/kotlin/io/github/kartoffelsup/ktqdsl/KotlinCodeWriter.kt:253-255 | A non-null `private val` field. |
| KotlinWriter.KotlinCodeWriter.PrivateFinalWithValue | src/main/kotlin/io/github/kartoffelsup/ktqdsl/KotlinCodeWriter.kt:257-259 | A `private val` field with a value. |
| KotlinWriter.KotlinCodeWriter.PrivateStaticFinal | src/main/kotlin/io/github/kartoffelsup/ktqdsl/KotlinCodeWriter.kt:261-263 | A `private val` field with a value. Kotlin has no `static`. |
| KotlinWriter.KotlinCodeWriter.ProtectedField | src/main/kotlin/io/github/kartoffelsup/ktqdsl/KotlinCodeWriter.kt:265-267 | A non-null `protected var` field. |
| KotlinWriter.KotlinCodeWriter.ProtectedFinal | src/main/kotlin/io/github/kartoffelsup/ktqdsl/KotlinCodeWriter.kt:269-271 | A non-null `protected val` field. |
| KotlinWriter.KotlinCodeWriter.ProtectedFinalWithValue | src/main/kotlin/io/github/kartoffelsup/ktqdsl/KotlinCodeWriter.kt:273-275 | A `protected val` field with a value. |
| KotlinWriter.KotlinCodeWriter.PublicField | src/main/kotlin/io/github/kartoffelsup/ktqdsl/KotlinCodeWriter.kt:277-279 | A non-null `var` field. |
| KotlinWriter.KotlinCodeWriter.PublicFieldWithValue | src/main/kotlin/io/github/kartoffelsup/ktqdsl/KotlinCodeWriter.kt:281-283 | A `var` field with a value. |
| KotlinWriter.KotlinCodeWriter.PublicNullableField | src/main/kotlin/io/github/kartoffelsup/ktqdsl/KotlinCodeWriter.kt:285-287 | A `var` field with the given nullability and comma suffix. |
| KotlinWriter.KotlinCodeWriter.PublicFinal | src/main/kotlin/io/github/kartoffelsup/ktqdsl/KotlinCodeWriter.kt:289-291 | A non-null `val` field. |
| KotlinWriter.KotlinCodeWriter.PublicFinalWithValue | src/main/kotlin/io/github/kartoffelsup/ktqdsl/KotlinCodeWriter.kt:293-295 | A `val` field with a value. |
| KotlinWriter.KotlinCodeWriter.PublicStaticFinal | src/main/kotlin/io/github/kartoffelsup/ktqdsl/KotlinCodeWriter.kt:297-299 | A `val` field with a value. |
| BeanSerializer.ImportSetContents | src/main/kotlin/io/github/kartoffelsup/ktqdsl/KotlinBeanSerializer.kt:40-59 | The imports hold `Generated` and every annotation's class, and nothing else but the five collection classes. If no annotation claims a collection class's name, that class is imported exactly when the entity uses that kind of collection. |
| BeanSerializer.AnnotationTypes | src/main/kotlin/io/github/kartoffelsup/ktqdsl/KotlinBeanSerializer.kt:122-128 | The set holds exactly the class names of the entity's annotations. |
| BeanSerializer.ImportedClasses | src/main/kotlin/io/github/kartoffelsup/ktqdsl/KotlinBeanSerializer.kt:40-59 | Building the set step by step gives exactly the import set. |
| BeanSerializer.ImportOrder | src/main/kotlin/io/github/kartoffelsup/ktqdsl/KotlinBeanSerializer.kt:60 | `toTypedArray()` lists every name of the set exactly once. |
| BeanSerializer.AnnotationsOkIff | src/main/kotlin/io/github/kartoffelsup/ktqdsl/KotlinBeanSerializer.kt:63-65 | The annotation loop gets through the first n annotations exactly when each of them can be written. |
| BeanSerializer.UntilFailureStops | src/main/kotlin/io/github/kartoffelsup/ktqdsl/KotlinBeanSerializer.kt:63-65 | Once an annotation fails (the source throws), nothing after it is written. |
| BeanSerializer.PackageDeclaredIffNamed | src/main/kotlin/io/github/kartoffelsup/ktqdsl/KotlinBeanSerializer.kt:35-37 | The output starts with a `package` line exactly when the entity's package name is non-empty. |
| BeanSerializer.BeanTextOkIff | src/main/kotlin/io/github/kartoffelsup/ktqdsl/KotlinBeanSerializer.kt:26-103 | Serialization completes exactly when every annotation of the entity can be written. A completed output ends with the field list and its closing parenthesis. |
| BeanSerializer.NoPropertiesNoFields | src/main/kotlin/io/github/kartoffelsup/ktqdsl/KotlinBeanSerializer.kt:87-102 | An entity without properties gets only the closing `)`. |
| BeanSerializer.FieldLineHasNoComma | src/main/kotlin/io/github/kartoffelsup/ktqdsl/KotlinBeanSerializer.kt:97 | A field line has no comma of its own when the escaped name and the type name have none. |
| BeanSerializer.FieldSeparators | src/main/kotlin/io/github/kartoffelsup/ktqdsl/KotlinBeanSerializer.kt:88-102 | With n properties and no commas in names, the field list holds exactly n-1 commas: one between consecutive fields and none after the last. |
| BeanSerializer.LastFieldClosed | src/main/kotlin/io/github/kartoffelsup/ktqdsl/KotlinBeanSerializer.kt:98-102 | The last field is followed directly by `)`, with no comma. |
| BeanSerializer.FieldNullability | src/main/kotlin/io/github/kartoffelsup/ktqdsl/KotlinBeanSerializer.kt:90-97 | A field is marked `?` exactly when its column metadata says nullable, or it has no column metadata. |
| BeanSerializer.WritePreamble | src/main/kotlin/io/github/kartoffelsup/ktqdsl/KotlinBeanSerializer.kt:34-60 | Writes the package line (when named) and one import per name of the import set, each once. Records the package and the imported classes. |
| BeanSerializer.WritePackage | src/main/kotlin/io/github/kartoffelsup/ktqdsl/KotlinBeanSerializer.kt:35-37 | Declares the package only when it is named, leaving the class set alone. |
| BeanSerializer.WriteAnnotations | src/main/kotlin/io/github/kartoffelsup/ktqdsl/KotlinBeanSerializer.kt:63-65 | Writes the annotations in order, up to and including the first that fails, and reports whether all succeeded. |
| BeanSerializer.WriteAnnotationParts | src/main/kotlin/io/github/kartoffelsup/ktqdsl/KotlinBeanSerializer.kt:63-65 | The annotation loop writes the pieces up to the first failure. |
| BeanSerializer.WriteAnnotation | src/main/kotlin/io/github/kartoffelsup/ktqdsl/KotlinBeanSerializer.kt:64 | One annotation extends the written text from i to i+1 pieces and leaves the scope and level alone. |
| BeanSerializer.WriteFields | src/main/kotlin/io/github/kartoffelsup/ktqdsl/KotlinBeanSerializer.kt:87-102 | Writes the field lines joined by `,` plus a line break, then `)`. |
| BeanSerializer.WriteField | src/main/kotlin/io/github/kartoffelsup/ktqdsl/KotlinBeanSerializer.kt:88-100 | One iteration writes field i, and a separator only when it is not the last field. |
| BeanSerializer.WriteClass | src/main/kotlin/io/github/kartoffelsup/ktqdsl/KotlinBeanSerializer.kt:67-102 | Writes the `@Generated` line, the `data class` line and the fields one level deeper. It leaves the class open. |
| BeanSerializer.WriteClassHeader | src/main/kotlin/io/github/kartoffelsup/ktqdsl/KotlinBeanSerializer.kt:67-78 | Writes `@Generated("<serializer class name>")` with the name it is given, then `data class Name(`. It records the package and indents one level. |
| BeanSerializer.KotlinBeanSerializer.constructor | src/main/kotlin/io/github/kartoffelsup/ktqdsl/KotlinBeanSerializer.kt:21-24 | The full-constructor switch starts off, and the serializer records its runtime class name. |
| BeanSerializer.KotlinBeanSerializer.SetAddFullConstructor | src/main/kotlin/io/github/kartoffelsup/ktqdsl/KotlinBeanSerializer.kt:118-120 | Sets the switch. |
| BeanSerializer.KotlinBeanSerializer.Serialize | src/main/kotlin/io/github/kartoffelsup/ktqdsl/KotlinBeanSerializer.kt:26-103 | Rejects exactly the writers that are not Kotlin writers. For a Kotlin writer it appends `BeanText` for its state on entry, imports each name of the import set once, succeeds exactly when the text is complete, and leaves one level open. The imported packages gain the entity's non-empty package name, and the imported classes gain the import names. After a completed text the packages also gain the entity's package name, even when it is empty. The `@Generated` line names the serializer's runtime class. |
| BeanSerializer.AssignmentLineCount | src/main/kotlin/io/github/kartoffelsup/ktqdsl/KotlinBeanSerializer.kt:112-114 | One assignment line per property. |
| BeanSerializer.EmptyConstructorShape | src/main/kotlin/io/github/kartoffelsup/ktqdsl/KotlinBeanSerializer.kt:106-108 | The empty constructor is `constructor() {` and `}` at the same indentation. |
| BeanSerializer.PropertyConstructorParameters | src/main/kotlin/io/github/kartoffelsup/ktqdsl/KotlinBeanSerializer.kt:111-133 | The full constructor takes one parameter per property, with that property's name and type in order, in a single parenthesised list. |
| BeanSerializer.WriteAssignments | src/main/kotlin/io/github/kartoffelsup/ktqdsl/KotlinBeanSerializer.kt:112-114 | Writes `this.x = x;` for each property in order. |
| BeanSerializer.KotlinBeanSerializer.AddFullConstructor | src/main/kotlin/io/github/kartoffelsup/ktqdsl/KotlinBeanSerializer.kt:105-116 | Writes the empty constructor, then the full constructor with its assignments. It ends at the level it started. |
| BeanSerializer.WriteEmptyConstructor | src/main/kotlin/io/github/kartoffelsup/ktqdsl/KotlinBeanSerializer.kt:106-108 | `beginConstructor()` then `end()`. Level and import sets end unchanged. |
| BeanSerializer.WritePropertyConstructor | src/main/kotlin/io/github/kartoffelsup/ktqdsl/KotlinBeanSerializer.kt:110-115 | The full constructor's header, assignments and closing brace. Level ends unchanged. |
| MetaDataSerializer.PathParamType | src/main/kotlin/io/github/kartoffelsup/ktqdsl/KotlinMetaDataSerializer.kt:246-253 | The `path` parameter is a `Path` of exactly the entity type when the entity is final, and of `out` the entity type otherwise. |
| MetaDataSerializer.ConstructorExtendsThisIff | src/main/kotlin/io/github/kartoffelsup/ktqdsl/KotlinMetaDataSerializer.kt:260-280 | The variable constructor delegates to `this(` exactly when the entity has entity fields, and to `super(` otherwise. |
| MetaDataSerializer.ConstructorExtendsExtraParams | src/main/kotlin/io/github/kartoffelsup/ktqdsl/KotlinMetaDataSerializer.kt:268-278 | With entity fields, the additional constructor parameters are ignored. Without them, the call ends with those parameters and `)`. |
| MetaDataSerializer.ConstructorExtendsCastIff | src/main/kotlin/io/github/kartoffelsup/ktqdsl/KotlinMetaDataSerializer.kt:272-278 | For a non-string, non-boolean entity, the class constant is cast with `(Class) ` exactly when the raw and generic names differ. The call starts `this(`/`super(` + cast + class constant + `, forVariable(variable)`. |
| MetaDataSerializer.ConstructorExtendsInitsIff | src/main/kotlin/io/github/kartoffelsup/ktqdsl/KotlinMetaDataSerializer.kt:276 | For a non-string, non-boolean entity, the call ends with `, INITS)` exactly when the entity has entity fields. |
| MetaDataSerializer.PathExtendsChoice | src/main/kotlin/io/github/kartoffelsup/ktqdsl/KotlinMetaDataSerializer.kt:236-244 | The path constructor delegates as follows. With entity fields it calls `this(…)`, ending with `PathInits.getFor(path.getMetadata(), INITS))`. A string or boolean entity calls exactly `super(path.getMetadata())`. Otherwise it calls `super(…)`, ending with the additional parameters. |
| MetaDataSerializer.PathMetadataExtendsThisIff | src/main/kotlin/io/github/kartoffelsup/ktqdsl/KotlinMetaDataSerializer.kt:208-221 | The metadata constructor delegates to `this(` exactly when the entity has entity fields. |
| MetaDataSerializer.PathMetadataExtendsChoice | src/main/kotlin/io/github/kartoffelsup/ktqdsl/KotlinMetaDataSerializer.kt:208-220 | With entity fields, the metadata constructor's call depends on nothing else. A string or boolean entity without them makes the same call whatever its names and extra parameters. Any other entity's call starts `super(`, then the cast, the class constant and `, metadata`, and ends with the extra parameters and `)`. |
| MetaDataSerializer.PathInitsExtendsShape | src/main/kotlin/io/github/kartoffelsup/ktqdsl/KotlinMetaDataSerializer.kt:177-183 | The inits constructor's call starts `this(`, then the cast and the class constant. It has the `(Class) ` cast exactly when the raw and generic names differ, and ends with `metadata, inits`, the extra parameters and `)`. |
| MetaDataSerializer.VariableCtors | src/main/kotlin/io/github/kartoffelsup/ktqdsl/KotlinMetaDataSerializer.kt:77-113 | There are three variable constructors, taking `(variable)`, `(variable, schema, table)` and `(variable, schema)`. The third passes the table name in quotes. The first has constructor content only when there are no entity fields. |
| MetaDataSerializer.ConstructorPlan | src/main/kotlin/io/github/kartoffelsup/ktqdsl/KotlinMetaDataSerializer.kt:115-258 | There are 7 constructors with entity fields and 5 without, in source order, with the parameters listed in the source. With entity fields, the first, path and metadata constructors have empty bodies. Without them, all five carry the constructor content. |
| MetaDataSerializer.AllCtorsText | src/main/kotlin/io/github/kartoffelsup/ktqdsl/KotlinMetaDataSerializer.kt:115-169 | `constructors` writes the variable constructors' text followed by the path constructors' text. |
| MetaDataSerializer.DefaultInstanceDeclaration | src/main/kotlin/io/github/kartoffelsup/ktqdsl/KotlinMetaDataSerializer.kt:60-73 | The default instance is `val name : PathType = …`, named by `defaultName` when it is non-empty and by the naming strategy otherwise, and initialised with `PathType("alias")`. |
| MetaDataSerializer.CheckWriter | src/main/kotlin/io/github/kartoffelsup/ktqdsl/KotlinMetaDataSerializer.kt:282-289 | Gives the writer back exactly when it is a Kotlin writer. |
| MetaDataSerializer.EmitCtor | src/main/kotlin/io/github/kartoffelsup/ktqdsl/KotlinMetaDataSerializer.kt:89-93 | `beginConstructor(call, params…)`, the body, and `end()`, ending at the starting level. |
| MetaDataSerializer.EmitCtors | src/main/kotlin/io/github/kartoffelsup/ktqdsl/KotlinMetaDataSerializer.kt:89-112 | Writes the constructors in order. |
| MetaDataSerializer.ConstructorsForVariables | src/main/kotlin/io/github/kartoffelsup/ktqdsl/KotlinMetaDataSerializer.kt:77-113 | Fails exactly on a non-Kotlin writer. Otherwise it writes the three variable constructors for the entity's raw and generic names and leaves level and imports unchanged. |
| MetaDataSerializer.VariableConstructors | src/main/kotlin/io/github/kartoffelsup/ktqdsl/KotlinMetaDataSerializer.kt:83-112 | Writes the three variable constructors. |
| MetaDataSerializer.PathConstructor | src/main/kotlin/io/github/kartoffelsup/ktqdsl/KotlinMetaDataSerializer.kt:228-258 | Writes the `path` constructor. |
| MetaDataSerializer.PathMetadataConstructor | src/main/kotlin/io/github/kartoffelsup/ktqdsl/KotlinMetaDataSerializer.kt:202-226 | Writes the `metadata` constructor. |
| MetaDataSerializer.PathInitMetaConstructor | src/main/kotlin/io/github/kartoffelsup/ktqdsl/KotlinMetaDataSerializer.kt:171-200 | Writes the `(metadata, inits)` and `(type, metadata, inits)` constructors, only when there are entity fields. |
| MetaDataSerializer.PathConstructors | src/main/kotlin/io/github/kartoffelsup/ktqdsl/KotlinMetaDataSerializer.kt:133-168 | Writes the path, metadata and inits constructors in order, leaving the import sets alone. |
| MetaDataSerializer.Constructors | src/main/kotlin/io/github/kartoffelsup/ktqdsl/KotlinMetaDataSerializer.kt:115-169 | Fails exactly on a non-Kotlin writer. Otherwise it writes all constructors of the plan and leaves level and imports unchanged. |
| MetaDataSerializer.WriteConstructors | src/main/kotlin/io/github/kartoffelsup/ktqdsl/KotlinMetaDataSerializer.kt:119-168 | Writes all constructors of the plan. |
| MetaDataSerializer.IntroDefaultInstance | src/main/kotlin/io/github/kartoffelsup/ktqdsl/KotlinMetaDataSerializer.kt:54-75 | Fails exactly on a non-Kotlin writer. Otherwise it writes the companion object holding the default instance and leaves level and imports unchanged. |
| MetaDataSerializer.WriteDefaultInstance | src/main/kotlin/io/github/kartoffelsup/ktqdsl/KotlinMetaDataSerializer.kt:68-74 | `beginCompanionObject()`, the default instance field, `end()`. |

## Left out

- The framework's own `Type.getGenericName`, `Type.getRawName`, `TypeExtends.getGenericName`, `StringUtils.escapeJava` and `JavaTypeMappings.getQueryType` are called into but are not part of this model. They are parameters (function values in `Env`, or arguments), so every property holds whatever they do.
- The hooks the metadata serializer inherits are not part of this model: `constructorContent`, `initEntityFields`, `getAdditionalConstructorParameter`, the naming strategy and `typeMappings.getPathType`. They are given as their results (`Hooks`), and the text the first two write is taken as pre-rendered.
- Java reflection in `annotation(...)` (`javaClass`, `declaredMethods`, `invoke`, default values) is modelled as an annotation record that lists its attributes, values and defaults. The exceptions are modelled as a failed result (`ok == false`), and writing stops there.
- BeanSerializer.Serialize and BeanSerializer.AnnotationTypes take an annotation object's runtime class name (`javaClass.name`) as the parameter `classNameOf`.
- BeanSerializer.ImportOrder: the order in which a `HashSet` is iterated is left open. The contract states only that every name appears exactly once.
- Primitive arrays among annotation values (`int[]` and the like) are not distinguished from object arrays. The source's cast to `Array<*>` would fail on them, while the model writes them like object arrays.
- KotlinWriter.KotlinCodeWriter.End: requires a level above zero. The framework's behaviour when `goOut` is called at level 0 is not modelled.
- BeanSerializer.KotlinBeanSerializer.AddFullConstructor: uses the corrected constructor header (see Findings) and takes a `KotlinCodeWriter` rather than any `CodeWriter`.
- BeanSerializer.WritePropertyConstructor: writes the corrected header of the full constructor (see Findings), not the source's `constructor((`.
- KotlinWriter.KotlinCodeWriter.AppendType: looks up the type's full name among the imported classes, where the source uses `Class.getName()`. The two differ for nested classes (`$` against `.`).
- `ClassType` is modelled as a `Type` with category `SIMPLE`. Categories are carried but never decide anything in the modelled code.
- The entity's `data["table"]` entry is an optional string. Its absence renders as `null`, as `toString()` of a missing entry would.
- MetaDataSerializer.Constructors: writes the variable constructors directly on the already-checked Kotlin writer instead of dispatching `constructorsForVariables` again.
- The metadata serializer's methods call `SuppressWarnings` where the source calls `suppressWarnings`. That method writes nothing, so the text is the same either way.
- KotlinWriter.KotlinCodeWriter.ParamsOf: the transformer is a total function to `Parameter`. The `NullPointerException` that `!!` throws on a null result is not modelled.
- The `Writer` the code writer appends to, the I/O and the framework's serializer configuration are not modelled. The output is one string.

## Findings

| source | as written | input that shows it | evidently intended | confidence | as-written member | corrected member |
|---|---|---|---|---|---|---|
| src/main/kotlin/io/github/kartoffelsup/ktqdsl/KotlinCodeWriter.kt:124-131 | `beginConstructor(parameters, transformer)` writes `constructor(` and then `params(...)` opens another `(` | an empty collection gives `constructor(() {` | `constructor(...) {`, exactly as the vararg overload writes | not executed | KotlinWriter.CollectionConstructorDoubleParen | KotlinWriter.KotlinCodeWriter.BeginConstructorOf |
