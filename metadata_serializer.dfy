/**
 * `KotlinMetaDataSerializer`: the constructors of a generated query class
 * and its default instance, in Kotlin.
 *
 * The choices the serializer makes (`this` or `super`, the `(Class) ` cast,
 * `, INITS`, the extra parameters, and which constructors exist at all) are
 * pure functions of a few names and flags; the constructors are values
 * (`Ctor`) and the text each one becomes is a function of the writer's
 * state. The serializer's methods are proved to write exactly that text.
 */
module MetaDataSerializer {
  import opened Wrappers
  import opened Strings
  import opened CodegenModel
  import opened KotlinWriter
  import opened TypeExtends

  /** `Symbols.THIS` and `Symbols.SUPER`. */
  const This := "this"
  const Super := "super"
  /** The cast put before a class constant whose raw and generic names differ. */
  const RawCast := "(Class) "

  /**
   * What the serializer takes from the framework for one entity: the text
   * `constructorContent` and `initEntityFields` write, the result of
   * `getAdditionalConstructorParameter`, the naming strategy's default
   * variable name and alias, and `typeMappings.getPathType(entity, entity, true)`.
   */
  datatype Hooks = Hooks(
    content: string,
    initFields: string,
    additionalParams: string,
    defaultVariableName: string,
    defaultAlias: string,
    pathType: Type)

  /** A delegating constructor: the call it delegates to, its parameters and its body. */
  datatype Ctor = Ctor(superCall: string, params: seq<Parameter>, body: string)

  // ---------------------------------------------------------------------
  // Types and parameters the constructors use

  /** `ClassType(PathMetadata::class.java)`. */
  const PathMetadataType := Type(SIMPLE, "com.querydsl.core.types.PathMetadata", "com.querydsl.core.types", "PathMetadata", false, true, [])
  /** `ClassType(PathInits::class.java)`. */
  const PathInitsType := Type(SIMPLE, "com.querydsl.core.types.dsl.PathInits", "com.querydsl.core.types.dsl", "PathInits", false, false, [])
  /** `PATH_METADATA` and `PATH_INITS`. */
  const PathMetadataParam := Parameter("metadata", PathMetadataType)
  const PathInitsParam := Parameter("inits", PathInitsType)

  /** `ClassType(Path::class.java, argument)`. */
  function PathOf(argument: TypeArg): Type {
    Type(SIMPLE, "com.querydsl.core.types.Path", "com.querydsl.core.types", "Path", false, false, [argument])
  }

  /** `ClassType(Class::class.java, argument)`. */
  function ClassOf(argument: TypeArg): Type {
    Type(SIMPLE, "java.lang.Class", "java.lang", "Class", false, true, [argument])
  }

  /** The type of the `path` parameter: `Path<Entity>` for a final entity, `Path<out Entity>` otherwise. */
  function PathParamType(model: EntityType): (r: Type)
    ensures r.simpleName == "Path" && |r.parameters| == 1
    ensures model.modelType.isFinal <==> r.parameters[0] == Exact(model.modelType)
    ensures !model.modelType.isFinal <==> r.parameters[0] == KotlinTypeExtendsOf(Some(model.modelType))
  {
    if model.modelType.isFinal then PathOf(Exact(model.modelType))
    else PathOf(KotlinTypeExtendsOf(Some(model.modelType)))
  }

  /** `Parameter(name, Types.STRING)`. */
  function StringParam(name: string): Parameter {
    Parameter(name, StringType)
  }

  // ---------------------------------------------------------------------
  // The delegation choices

  /** Entities whose original category is `STRING` or `BOOLEAN`. */
  predicate StringOrBoolean(model: EntityType) {
    model.originalCategory == STRING || model.originalCategory == BOOLEAN
  }

  /** An entity with entity fields delegates to its own constructors. */
  function ThisOrSuper(hasEntityFields: bool): string {
    if hasEntityFields then This else Super
  }

  /** `(Class) ` when the raw and generic names differ, nothing otherwise. */
  function ClassCast(localName: string, genericName: string): string {
    if localName == genericName then "" else RawCast
  }

  /** `constructorExtends`: the call the `forVariable` constructor delegates to. */
  function ConstructorExtends(
    localName: string, genericName: string, stringOrBoolean: bool, hasEntityFields: bool, additionalParams: string): string
  {
    var extra := if hasEntityFields then "" else additionalParams;
    if stringOrBoolean then
      ThisOrSuper(hasEntityFields) + "(forVariable(variable)" + extra + ")"
    else
      ThisOrSuper(hasEntityFields) + "(" + ClassCast(localName, genericName) + ClassConstant(localName) + Comma
        + "forVariable(variable)" + (if hasEntityFields then ", INITS" else "") + extra + ")"
  }

  /** The call the `Path` constructor delegates to. */
  function PathExtends(
    genericMismatch: string, hasEntityFields: bool, stringOrBoolean: bool, additionalParams: string): string
  {
    if !hasEntityFields then
      if stringOrBoolean then "super(path.getMetadata())"
      else "super(" + genericMismatch + "path.getType(), path.getMetadata()" + additionalParams + ")"
    else
      This + "(" + genericMismatch + "path.getType(), path.getMetadata(), " + "PathInits.getFor(path.getMetadata(), INITS))"
  }

  /** The call the `PathMetadata` constructor delegates to. */
  function PathMetadataExtends(
    localName: string, genericName: string, hasEntityFields: bool, stringOrBoolean: bool, additionalParams: string): string
  {
    if hasEntityFields then This + "(" + "metadata, PathInits.getFor(metadata, INITS))"
    else if stringOrBoolean then "super(metadata)"
    else "super(" + ClassCast(localName, genericName) + ClassConstant(localName) + Comma + "metadata" + additionalParams + ")"
  }

  /** The call the `PathMetadata, PathInits` constructor delegates to (entities with entity fields only). */
  function PathInitsExtends(localName: string, genericName: string, additionalParams: string): string {
    This + "(" + ClassCast(localName, genericName) + ClassConstant(localName) + Comma + "metadata, inits" + additionalParams + ")"
  }

  // ---------------------------------------------------------------------
  // What the choices look like

  /** The `forVariable` constructor delegates to `this` exactly when the entity has entity fields. */
  lemma ConstructorExtendsThisIff(
    localName: string, genericName: string, stringOrBoolean: bool, hasEntityFields: bool, additionalParams: string)
    ensures var r := ConstructorExtends(localName, genericName, stringOrBoolean, hasEntityFields, additionalParams);
      && (StartsWith(r, This + "(") <==> hasEntityFields)
      && (StartsWith(r, Super + "(") <==> !hasEntityFields)
  {
    var r := ConstructorExtends(localName, genericName, stringOrBoolean, hasEntityFields, additionalParams);
    var head := ThisOrSuper(hasEntityFields) + "(";
    var tail := r[|head|..];
    assert r == head + tail;
    StartsWithAppend(head, tail, head);
    assert r[0] == head[0];
  }

  /**
   * With entity fields the extra parameters are dropped; without, the call
   * ends with them.
   */
  lemma ConstructorExtendsExtraParams(
    localName: string, genericName: string, stringOrBoolean: bool, hasEntityFields: bool, a1: string, a2: string)
    ensures hasEntityFields ==>
      ConstructorExtends(localName, genericName, stringOrBoolean, true, a1)
        == ConstructorExtends(localName, genericName, stringOrBoolean, true, a2)
    ensures !hasEntityFields ==>
      EndsWith(ConstructorExtends(localName, genericName, stringOrBoolean, false, a1), a1 + ")")
  {
    if !hasEntityFields {
      var r := ConstructorExtends(localName, genericName, stringOrBoolean, false, a1);
      var front := r[..|r| - |a1| - 1];
      assert r == front + a1 + ")";
      AppendAssoc(front, a1, ")");
      EndsWithAppend(front, a1 + ")");
    }
  }

  /**
   * For an entity of another category the call names the class constant,
   * cast with `(Class) ` exactly when the raw and generic names differ (a
   * raw name never starts with a parenthesis).
   */
  lemma ConstructorExtendsCastIff(
    localName: string, genericName: string, hasEntityFields: bool, additionalParams: string)
    requires |localName| > 0 ==> localName[0] != '('
    ensures var r := ConstructorExtends(localName, genericName, false, hasEntityFields, additionalParams);
      var head := ThisOrSuper(hasEntityFields) + "(";
      && (StartsWith(r, head + RawCast) <==> localName != genericName)
      && StartsWith(r, head + ClassCast(localName, genericName) + ClassConstant(localName) + Comma + "forVariable(variable)")
  {
    var r := ConstructorExtends(localName, genericName, false, hasEntityFields, additionalParams);
    var head := ThisOrSuper(hasEntityFields) + "(";
    var front := head + ClassCast(localName, genericName) + ClassConstant(localName);
    var call := Comma + "forVariable(variable)";
    var inits := if hasEntityFields then ", INITS" else "";
    var extra := if hasEntityFields then "" else additionalParams;
    var tail := inits + extra + ")";
    assert r == front + Comma + "forVariable(variable)" + inits + extra + ")";
    AppendAssoc(front, Comma, "forVariable(variable)");
    AppendAssoc(front + call, inits, extra);
    AppendAssoc(front + call, inits + extra, ")");
    assert r == (front + call) + tail;
    assert StartsWith(front + call, front + call) by {
      assert (front + call)[..|front + call|] == front + call;
    }
    StartsWithAppend(front + call, tail, front + call);
    AppendAssoc(front, call, tail);
    CastShownIff(head, localName, genericName, call + tail);
  }

  /**
   * For an entity of another category the call ends in `, INITS)` exactly
   * when the entity has entity fields (unless the extra parameters
   * themselves end the call that way).
   */
  lemma ConstructorExtendsInitsIff(
    localName: string, genericName: string, hasEntityFields: bool, additionalParams: string)
    requires !EndsWith("forVariable(variable)" + additionalParams, ", INITS")
    ensures EndsWith(ConstructorExtends(localName, genericName, false, hasEntityFields, additionalParams), ", INITS)")
        <==> hasEntityFields
  {
    var r := ConstructorExtends(localName, genericName, false, hasEntityFields, additionalParams);
    var head := ThisOrSuper(hasEntityFields) + "(" + ClassCast(localName, genericName) + ClassConstant(localName) + Comma;
    if hasEntityFields {
      assert r == head + "forVariable(variable)" + ", INITS" + "" + ")";
      var front := head + "forVariable(variable)";
      assert r == front + ", INITS)";
      EndsWithAppend(front, ", INITS)");
    } else {
      var body := "forVariable(variable)" + additionalParams;
      assert r == head + "forVariable(variable)" + "" + additionalParams + ")";
      assert r == head + body + ")";
      assert ", INITS)" == ", INITS" + ")";
      EndsWithThrough(head, body, ", INITS", ")");
    }
  }

  /** A suffix that ends with `c` ends `a + b + c` exactly when the rest of it ends `b`. */
  lemma EndsWithThrough(a: string, b: string, s: string, c: string)
    requires |s| <= |b|
    ensures EndsWith(a + b + c, s + c) <==> EndsWith(b, s)
  {
    var x := a + b + c;
    var t := b[|b| - |s|..];
    assert x[|x| - |s + c|..] == t + c;
    if t + c == s + c {
      assert t == (t + c)[..|t|];
    }
  }

  /**
   * The `Path` constructor: with entity fields it delegates to `this` and
   * passes the `INITS` lookup; otherwise a string or boolean entity passes
   * only the metadata, and any other entity the type, the metadata and the
   * extra parameters. Only the last depends on the extra parameters.
   */
  lemma PathExtendsChoice(genericMismatch: string, hasEntityFields: bool, stringOrBoolean: bool, a1: string, a2: string)
    ensures var r := PathExtends(genericMismatch, hasEntityFields, stringOrBoolean, a1);
      && (StartsWith(r, This + "(") <==> hasEntityFields)
      && (hasEntityFields ==> EndsWith(r, "PathInits.getFor(path.getMetadata(), INITS))"))
      && (!hasEntityFields && stringOrBoolean ==> r == "super(path.getMetadata())")
      && (!hasEntityFields && !stringOrBoolean ==> EndsWith(r, a1 + ")"))
    ensures hasEntityFields || stringOrBoolean ==>
      PathExtends(genericMismatch, hasEntityFields, stringOrBoolean, a1) == PathExtends(genericMismatch, hasEntityFields, stringOrBoolean, a2)
  {
    var r := PathExtends(genericMismatch, hasEntityFields, stringOrBoolean, a1);
    if hasEntityFields {
      var lookup := "PathInits.getFor(path.getMetadata(), INITS))";
      var front := This + "(" + genericMismatch + "path.getType(), path.getMetadata(), ";
      EndsWithAppend(front, lookup);
      var head := This + "(";
      assert r == head + r[|head|..];
    } else {
      assert r[..5] != "this(" by {
        assert r[0] == 's';
      }
      if !stringOrBoolean {
        var front := "super(" + genericMismatch + "path.getType(), path.getMetadata()";
        assert r == front + a1 + ")";
        AppendAssoc(front, a1, ")");
        EndsWithAppend(front, a1 + ")");
      }
    }
  }

  /** The `PathMetadata` constructor delegates to `this` exactly when the entity has entity fields. */
  lemma PathMetadataExtendsThisIff(
    localName: string, genericName: string, hasEntityFields: bool, stringOrBoolean: bool, additionalParams: string)
    ensures StartsWith(PathMetadataExtends(localName, genericName, hasEntityFields, stringOrBoolean, additionalParams), This + "(")
        <==> hasEntityFields
  {
    var r := PathMetadataExtends(localName, genericName, hasEntityFields, stringOrBoolean, additionalParams);
    if hasEntityFields {
      var head := This + "(";
      assert r == head + r[|head|..];
    } else {
      assert r[0] == 's';
    }
  }

  /**
   * The other `PathMetadata` delegations. With entity fields the call
   * depends on nothing else; a string or boolean entity without them passes
   * only the metadata, whatever the names and extra parameters; any other
   * entity passes its class constant and the metadata, then the extra
   * parameters.
   */
  lemma PathMetadataExtendsChoice(
    localName: string, genericName: string, stringOrBoolean: bool, a1: string,
    localName2: string, genericName2: string, stringOrBoolean2: bool, a2: string)
    ensures PathMetadataExtends(localName, genericName, true, stringOrBoolean, a1)
         == PathMetadataExtends(localName2, genericName2, true, stringOrBoolean2, a2)
    ensures PathMetadataExtends(localName, genericName, false, true, a1)
         == PathMetadataExtends(localName2, genericName2, false, true, a2)
    ensures var r := PathMetadataExtends(localName, genericName, false, false, a1);
      && StartsWith(r, Super + "(" + ClassCast(localName, genericName) + ClassConstant(localName) + Comma + "metadata")
      && EndsWith(r, a1 + ")")
  {
    var r := PathMetadataExtends(localName, genericName, false, false, a1);
    var pre := Super + "(" + ClassCast(localName, genericName) + ClassConstant(localName) + Comma + "metadata";
    assert r == pre + (a1 + ")");
    StartsWithAppend(pre, a1 + ")", pre);
    assert StartsWith(pre, pre) by {
      assert pre[..|pre|] == pre;
    }
    EndsWithAppend(pre, a1 + ")");
  }

  /**
   * The `PathMetadata, PathInits` constructor delegates to `this` with the
   * class constant, cast with `(Class) ` exactly when the raw and generic
   * names differ, and ends with the metadata, the inits and the extra
   * parameters.
   */
  lemma PathInitsExtendsShape(localName: string, genericName: string, additionalParams: string)
    requires |localName| > 0 ==> localName[0] != '('
    ensures var r := PathInitsExtends(localName, genericName, additionalParams);
      && StartsWith(r, This + "(" + ClassCast(localName, genericName) + ClassConstant(localName))
      && (StartsWith(r, This + "(" + RawCast) <==> localName != genericName)
      && EndsWith(r, "metadata, inits" + additionalParams + ")")
  {
    var r := PathInitsExtends(localName, genericName, additionalParams);
    var pre := This + "(" + ClassCast(localName, genericName) + ClassConstant(localName);
    var last := "metadata, inits" + additionalParams + ")";
    assert r == pre + (Comma + last);
    StartsWithAppend(pre, Comma + last, pre);
    assert StartsWith(pre, pre) by {
      assert pre[..|pre|] == pre;
    }
    assert r == (pre + Comma) + last;
    EndsWithAppend(pre + Comma, last);
    CastShownIff(This + "(", localName, genericName, Comma + last);
  }

  /** After any head, the class constant is preceded by `(Class) ` exactly when the raw and generic names differ. */
  lemma CastShownIff(head: string, localName: string, genericName: string, tail: string)
    requires |localName| > 0 ==> localName[0] != '('
    ensures StartsWith(head + ClassCast(localName, genericName) + ClassConstant(localName) + tail, head + RawCast)
        <==> localName != genericName
  {
    var c := ClassConstant(localName);
    var r := head + ClassCast(localName, genericName) + c + tail;
    if localName == genericName {
      assert r[|head|] == c[0];
      if |localName| > 0 {
        assert c[0] == localName[0];
      } else {
        assert c[0] == ':';
      }
      assert (head + RawCast)[|head|] == '(';
    } else {
      var p2 := head + RawCast;
      assert r == p2 + (c + tail);
      StartsWithAppend(p2, c + tail, p2);
      assert StartsWith(p2, p2) by {
        assert p2[..|p2|] == p2;
      }
    }
  }

  // ---------------------------------------------------------------------
  // The constructors

  /** `model.data["table"].toString()`: the table name, or `null` when there is none. */
  function TableName(model: EntityType): string {
    match model.table
    case Some(t) => t
    case None => "null"
  }

  /**
   * `constructorsForVariables`: `(variable)`, `(variable, schema, table)`
   * and `(variable, schema)`, the last naming the entity's table.
   */
  function VariableCtors(model: EntityType, hooks: Hooks, localName: string, genericName: string): (r: seq<Ctor>)
    ensures |r| == 3
    ensures r[0].params == [StringParam("variable")]
    ensures r[1].params == [StringParam("variable"), StringParam("schema"), StringParam("table")]
    ensures r[2].params == [StringParam("variable"), StringParam("schema")]
    ensures EndsWith(r[2].superCall, "schema, \"" + TableName(model) + "\")")
    ensures r[0].body == (if model.hasEntityFields then "" else hooks.content)
  {
    var third := "super(" + ClassConstant(localName) + Comma + "forVariable(variable), ";
    assert third + ("schema, \"" + TableName(model) + "\")")
        == third + "schema, \"" + TableName(model) + "\")" by {
      AppendAssoc(third, "schema, \"" + TableName(model), "\")");
      AppendAssoc(third, "schema, \"", TableName(model));
    }
    EndsWithAppend(third, "schema, \"" + TableName(model) + "\")");
    [ Ctor(ConstructorExtends(localName, genericName, StringOrBoolean(model), model.hasEntityFields, hooks.additionalParams),
           [StringParam("variable")],
           if model.hasEntityFields then "" else hooks.content),
      Ctor("super(" + ClassConstant(localName) + Comma + "forVariable(variable), schema, table)",
           [StringParam("variable"), StringParam("schema"), StringParam("table")],
           hooks.content),
      Ctor(third + "schema, \"" + TableName(model) + "\")",
           [StringParam("variable"), StringParam("schema")],
           hooks.content) ]
  }

  /** `pathConstructor`. */
  function PathCtor(model: EntityType, hooks: Hooks, localName: string, genericName: string): Ctor {
    Ctor(PathExtends(ClassCast(localName, genericName), model.hasEntityFields, StringOrBoolean(model), hooks.additionalParams),
         [Parameter("path", PathParamType(model))],
         if model.hasEntityFields then "" else hooks.content)
  }

  /** `pathMetadataConstructor`. */
  function PathMetadataCtor(model: EntityType, hooks: Hooks, localName: string, genericName: string): Ctor {
    Ctor(PathMetadataExtends(localName, genericName, model.hasEntityFields, StringOrBoolean(model), hooks.additionalParams),
         [PathMetadataParam],
         if model.hasEntityFields then "" else hooks.content)
  }

  /** `pathInitMetaConstructor`: two constructors for an entity with entity fields, none otherwise. */
  function PathInitCtors(model: EntityType, hooks: Hooks, localName: string, genericName: string): seq<Ctor> {
    if model.hasEntityFields then
      [ Ctor(PathInitsExtends(localName, genericName, hooks.additionalParams), [PathMetadataParam, PathInitsParam], ""),
        Ctor("super(type, metadata, inits" + hooks.additionalParams + ")",
             [Parameter("type", ClassOf(KotlinTypeExtendsOf(Some(model.modelType)))), PathMetadataParam, PathInitsParam],
             hooks.initFields + hooks.content) ]
    else []
  }

  /** `constructors`: every constructor, in the order they are written. */
  function AllCtors(model: EntityType, hooks: Hooks, localName: string, genericName: string): seq<Ctor> {
    VariableCtors(model, hooks, localName, genericName)
      + [PathCtor(model, hooks, localName, genericName), PathMetadataCtor(model, hooks, localName, genericName)]
      + PathInitCtors(model, hooks, localName, genericName)
  }

  /**
   * Seven constructors for an entity with entity fields, five otherwise;
   * for such an entity the `forVariable`, `Path` and `PathMetadata`
   * constructors have empty bodies, and the last two are the
   * `PathMetadata, PathInits` ones.
   */
  lemma ConstructorPlan(model: EntityType, hooks: Hooks, localName: string, genericName: string)
    ensures var cs := AllCtors(model, hooks, localName, genericName);
      && |cs| == (if model.hasEntityFields then 7 else 5)
      && cs[..3] == VariableCtors(model, hooks, localName, genericName)
      && cs[3].params == [Parameter("path", PathParamType(model))]
      && cs[4].params == [PathMetadataParam]
      && (model.hasEntityFields ==> cs[0].body == "" && cs[3].body == "" && cs[4].body == "")
      && (model.hasEntityFields ==> cs[5].params == [PathMetadataParam, PathInitsParam])
      && (model.hasEntityFields ==> cs[6].params[1..] == [PathMetadataParam, PathInitsParam])
      && (!model.hasEntityFields ==> forall i :: 0 <= i < 5 ==> cs[i].body == hooks.content)
  {
    var cs := AllCtors(model, hooks, localName, genericName);
    assert cs[..3] == VariableCtors(model, hooks, localName, genericName);
  }

  // ---------------------------------------------------------------------
  // Their text

  /** What `beginConstructor(superCall, params)`, the body and `end()` write. */
  function CtorText(env: Env, scope: Scope, level: nat, c: Ctor): string {
    Indent(env, level) + "constructor" + ParamsText(env, scope, Somes(c.params)) + " :" + c.superCall + " {" + "\n"
      + c.body + EndText(env, level + 1)
  }

  /** The constructors one after the other. */
  function CtorsText(env: Env, scope: Scope, level: nat, cs: seq<Ctor>): string {
    if |cs| == 0 then "" else CtorsText(env, scope, level, cs[..|cs| - 1]) + CtorText(env, scope, level, cs[|cs| - 1])
  }

  /** Writing two lists of constructors is writing their concatenation. */
  lemma {:induction false} CtorsTextAppend(env: Env, scope: Scope, level: nat, cs1: seq<Ctor>, cs2: seq<Ctor>)
    ensures CtorsText(env, scope, level, cs1 + cs2) == CtorsText(env, scope, level, cs1) + CtorsText(env, scope, level, cs2)
    decreases |cs2|
  {
    if |cs2| == 0 {
      assert cs1 + cs2 == cs1;
    } else {
      var init := cs2[..|cs2| - 1];
      var last := cs2[|cs2| - 1];
      assert (cs1 + cs2)[..|cs1 + cs2| - 1] == cs1 + init;
      CtorsTextAppend(env, scope, level, cs1, init);
      AppendAssoc(CtorsText(env, scope, level, cs1), CtorsText(env, scope, level, init), CtorText(env, scope, level, last));
    }
  }

  /** The raw name the serializer writes class constants for: `writer.getRawName(model)`. */
  function LocalName(env: Env, scope: Scope, model: EntityType): string {
    RawName(env, scope, model.modelType)
  }

  /** `writer.getGenericName(true, model)`. */
  function GenericNameOf(env: Env, scope: Scope, model: EntityType): string {
    GenericName(env, scope, true, model.modelType)
  }

  /** The variable name of the default instance: `defaultName` unless it is empty. */
  function DefaultVariableName(defaultName: string, hooks: Hooks): string {
    if defaultName != "" then defaultName else hooks.defaultVariableName
  }

  /** The initialiser of the default instance: the query type's constructor called with the alias. */
  function DefaultInitialiser(hooks: Hooks): string {
    hooks.pathType.simpleName + "(\"" + hooks.defaultAlias + "\")"
  }

  /** `introDefaultInstance`: a companion object holding the default instance. */
  function DefaultInstanceText(env: Env, scope: Scope, level: nat, hooks: Hooks, defaultName: string): string {
    LineText(env, level, "companion object {")
      + LineText(env, level + 1,
          FieldValueText("val", DefaultVariableName(defaultName, hooks), GenericName(env, scope, true, hooks.pathType), false,
                         DefaultInitialiser(hooks)))
      + EndText(env, level + 1)
  }

  /**
   * The default instance is declared under `defaultName` when that is
   * non-empty and under the naming strategy's name otherwise, initialised
   * by the query type's constructor called with the alias.
   */
  lemma DefaultInstanceDeclaration(env: Env, scope: Scope, hooks: Hooks, defaultName: string)
    ensures var decl := FieldValueText("val", DefaultVariableName(defaultName, hooks),
                                       GenericName(env, scope, true, hooks.pathType), false, DefaultInitialiser(hooks));
      && StartsWith(decl, "val" + " " + (if defaultName != "" then defaultName else hooks.defaultVariableName) + " : ")
      && EndsWith(decl, " = " + DefaultInitialiser(hooks))
  {
    var name := DefaultVariableName(defaultName, hooks);
    var typeName := GenericName(env, scope, true, hooks.pathType);
    var decl := FieldValueText("val", name, typeName, false, DefaultInitialiser(hooks));
    var pre := "val" + " " + name + " : ";
    assert decl[..|pre + typeName|] == pre + typeName;
    assert (pre + typeName)[..|pre|] == pre;
    assert decl[..|pre|] == decl[..|pre + typeName|][..|pre|];
  }

  // ---------------------------------------------------------------------
  // Writing them

  /** `checkWriter`: the writer as a Kotlin writer, or nothing (an `IllegalStateException`). */
  function CheckWriter(writer: WriterRef): (r: Option<KotlinCodeWriter>)
    ensures r.Some? <==> writer.KotlinWriterRef?
    ensures r.Some? ==> r.value == writer.w
  {
    match writer
    case KotlinWriterRef(w) => Some(w)
    case OtherWriter => None
  }

  /** One constructor: `beginConstructor(superCall, params)`, the body, `end()`. */
  method EmitCtor(w: KotlinCodeWriter, c: Ctor)
    modifies w`out, w`level
    ensures w.level == old(w.level)
    ensures w.out == old(w.out) + CtorText(w.env, w.CurrentScope(), w.level, c)
  {
    ghost var o := w.out;
    ghost var level := w.level;
    w.BeginDelegatingConstructor(c.superCall, c.params);
    w.Append(c.body);
    w.End();
    ghost var ind := Indent(w.env, level);
    ghost var p := ParamsText(w.env, w.CurrentScope(), Somes(c.params));
    ghost var e := EndText(w.env, level + 1);
    ghost var h := ind + "constructor" + p + " :" + c.superCall + " {" + "\n";
    assert w.out == o + ind + "constructor" + p + " :" + c.superCall + " {" + "\n" + c.body + e;
    AppendAssoc(o, ind, "constructor");
    AppendAssoc(o, ind + "constructor", p);
    AppendAssoc(o, ind + "constructor" + p, " :");
    AppendAssoc(o, ind + "constructor" + p + " :", c.superCall);
    AppendAssoc(o, ind + "constructor" + p + " :" + c.superCall, " {");
    AppendAssoc(o, ind + "constructor" + p + " :" + c.superCall + " {", "\n");
    AppendAssoc(o, h, c.body);
    AppendAssoc(o, h + c.body, e);
  }

  /** The constructors in order. */
  method EmitCtors(w: KotlinCodeWriter, cs: seq<Ctor>)
    modifies w`out, w`level
    ensures w.level == old(w.level)
    ensures w.out == old(w.out) + CtorsText(w.env, w.CurrentScope(), w.level, cs)
  {
    ghost var start := w.out;
    for i := 0 to |cs|
      invariant w.level == old(w.level)
      invariant w.out == start + CtorsText(w.env, w.CurrentScope(), w.level, cs[..i])
    {
      EmitCtor(w, cs[i]);
      assert cs[..i + 1][..i] == cs[..i];
      AppendAssoc(start, CtorsText(w.env, w.CurrentScope(), w.level, cs[..i]), CtorText(w.env, w.CurrentScope(), w.level, cs[i]));
    }
    assert cs[..|cs|] == cs;
  }

  /**
   * `constructorsForVariables(writer, model)`: the three `forVariable`
   * constructors; on any writer but the Kotlin one it fails and writes
   * nothing.
   */
  method ConstructorsForVariables(writer: WriterRef, model: EntityType, hooks: Hooks) returns (ok: bool)
    modifies if writer.KotlinWriterRef? then {writer.w} else {}
    ensures ok <==> writer.KotlinWriterRef?
    ensures ok ==> var w := writer.w;
      && w.level == old(w.level) && w.CurrentScope() == old(w.CurrentScope())
      && w.out == old(w.out) + CtorsText(w.env, w.CurrentScope(), w.level,
           VariableCtors(model, hooks, LocalName(w.env, w.CurrentScope(), model), GenericNameOf(w.env, w.CurrentScope(), model)))
  {
    var checked := CheckWriter(writer);
    if checked.None? {
      return false;
    }
    var w := checked.value;
    var localName := RawName(w.env, w.CurrentScope(), model.modelType);
    var genericName := GenericName(w.env, w.CurrentScope(), true, model.modelType);
    VariableConstructors(w, model, hooks, localName, genericName);
    ok := true;
  }

  /** The body of `constructorsForVariables` once the writer is known to be a Kotlin one. */
  method VariableConstructors(w: KotlinCodeWriter, model: EntityType, hooks: Hooks, localName: string, genericName: string)
    modifies w`out, w`level
    ensures w.classes == old(w.classes) && w.packages == old(w.packages)
    ensures w.level == old(w.level)
    ensures w.out == old(w.out) + CtorsText(w.env, w.CurrentScope(), w.level, VariableCtors(model, hooks, localName, genericName))
  {
    if localName != genericName {
      w.SuppressWarnings(["all"]);
    }
    EmitCtors(w, VariableCtors(model, hooks, localName, genericName));
  }

  /** `pathConstructor`: the constructor taking a `Path`. */
  method PathConstructor(w: KotlinCodeWriter, model: EntityType, hooks: Hooks, localName: string, genericName: string)
    modifies w`out, w`level
    ensures w.level == old(w.level)
    ensures w.out == old(w.out) + CtorText(w.env, w.CurrentScope(), w.level, PathCtor(model, hooks, localName, genericName))
  {
    if localName != genericName {
      w.SuppressWarnings(["all", "rawtypes", "unchecked"]);
    }
    EmitCtor(w, PathCtor(model, hooks, localName, genericName));
  }

  /** `pathMetadataConstructor`: the constructor taking a `PathMetadata`. */
  method PathMetadataConstructor(w: KotlinCodeWriter, model: EntityType, hooks: Hooks, localName: string, genericName: string)
    modifies w`out, w`level
    ensures w.level == old(w.level)
    ensures w.out == old(w.out) + CtorText(w.env, w.CurrentScope(), w.level, PathMetadataCtor(model, hooks, localName, genericName))
  {
    if !model.hasEntityFields && localName != genericName {
      w.SuppressWarnings(["all", "rawtypes", "unchecked"]);
    }
    EmitCtor(w, PathMetadataCtor(model, hooks, localName, genericName));
  }

  /**
   * `pathInitMetaConstructor`: for an entity with entity fields, the
   * constructors taking `PathMetadata, PathInits` and `Class, PathMetadata,
   * PathInits`; nothing otherwise.
   */
  method PathInitMetaConstructor(w: KotlinCodeWriter, model: EntityType, hooks: Hooks, localName: string, genericName: string)
    modifies w`out, w`level
    ensures w.level == old(w.level)
    ensures w.out == old(w.out) + CtorsText(w.env, w.CurrentScope(), w.level, PathInitCtors(model, hooks, localName, genericName))
  {
    if model.hasEntityFields {
      if localName != genericName {
        w.SuppressWarnings(["all", "rawtypes", "unchecked"]);
      }
      EmitCtors(w, PathInitCtors(model, hooks, localName, genericName));
    } else {
      assert PathInitCtors(model, hooks, localName, genericName) == [];
    }
  }

  /** The `Path`, `PathMetadata` and `PathMetadata, PathInits` constructors, in that order. */
  method PathConstructors(w: KotlinCodeWriter, model: EntityType, hooks: Hooks, localName: string, genericName: string)
    modifies w`out, w`level
    ensures w.classes == old(w.classes) && w.packages == old(w.packages)
    ensures w.level == old(w.level)
    ensures w.out == old(w.out) + PathCtorsText(w.env, w.CurrentScope(), w.level, model, hooks, localName, genericName)
  {
    ghost var o := w.out;
    PathConstructor(w, model, hooks, localName, genericName);
    ghost var pc := CtorText(w.env, w.CurrentScope(), w.level, PathCtor(model, hooks, localName, genericName));
    PathMetadataConstructor(w, model, hooks, localName, genericName);
    ghost var mc := CtorText(w.env, w.CurrentScope(), w.level, PathMetadataCtor(model, hooks, localName, genericName));
    PathInitMetaConstructor(w, model, hooks, localName, genericName);
    ghost var ic := CtorsText(w.env, w.CurrentScope(), w.level, PathInitCtors(model, hooks, localName, genericName));
    AppendAssoc(o, pc, mc);
    AppendAssoc(o, pc + mc, ic);
  }

  /** What `PathConstructors` writes. */
  function PathCtorsText(env: Env, scope: Scope, level: nat, model: EntityType, hooks: Hooks, localName: string, genericName: string): string {
    CtorText(env, scope, level, PathCtor(model, hooks, localName, genericName))
      + CtorText(env, scope, level, PathMetadataCtor(model, hooks, localName, genericName))
      + CtorsText(env, scope, level, PathInitCtors(model, hooks, localName, genericName))
  }

  /** Two constructors one after the other. */
  lemma CtorsTextPair(env: Env, scope: Scope, level: nat, a: Ctor, b: Ctor)
    ensures CtorsText(env, scope, level, [a, b]) == CtorText(env, scope, level, a) + CtorText(env, scope, level, b)
  {
    assert [a, b][..1] == [a];
    assert [a][..0] == [];
    assert CtorsText(env, scope, level, [a]) == "" + CtorText(env, scope, level, a);
    assert "" + CtorText(env, scope, level, a) == CtorText(env, scope, level, a);
  }

  /** The constructors `constructors` writes, written one after the other, are the text of `AllCtors`. */
  lemma AllCtorsText(env: Env, scope: Scope, level: nat, model: EntityType, hooks: Hooks, localName: string, genericName: string)
    ensures CtorsText(env, scope, level, AllCtors(model, hooks, localName, genericName))
         == CtorsText(env, scope, level, VariableCtors(model, hooks, localName, genericName))
            + PathCtorsText(env, scope, level, model, hooks, localName, genericName)
  {
    var vs := VariableCtors(model, hooks, localName, genericName);
    var pc := PathCtor(model, hooks, localName, genericName);
    var mc := PathMetadataCtor(model, hooks, localName, genericName);
    var ps := PathInitCtors(model, hooks, localName, genericName);
    CtorsTextPair(env, scope, level, pc, mc);
    assert AllCtors(model, hooks, localName, genericName) == vs + [pc, mc] + ps;
    CtorsTextAppend(env, scope, level, vs, [pc, mc]);
    CtorsTextAppend(env, scope, level, vs + [pc, mc], ps);
    AppendAssoc(CtorsText(env, scope, level, vs), CtorText(env, scope, level, pc), CtorText(env, scope, level, mc));
    AppendAssoc(CtorsText(env, scope, level, vs), CtorText(env, scope, level, pc) + CtorText(env, scope, level, mc),
      CtorsText(env, scope, level, ps));
  }

  /**
   * `constructors(model, config, writer)`: every constructor of
   * `AllCtors`, in order; on any writer but the Kotlin one it fails and
   * writes nothing.
   */
  method Constructors(writer: WriterRef, model: EntityType, hooks: Hooks) returns (ok: bool)
    modifies if writer.KotlinWriterRef? then {writer.w} else {}
    ensures ok <==> writer.KotlinWriterRef?
    ensures ok ==> var w := writer.w;
      && w.level == old(w.level) && w.CurrentScope() == old(w.CurrentScope())
      && w.out == old(w.out) + CtorsText(w.env, w.CurrentScope(), w.level,
           AllCtors(model, hooks, LocalName(w.env, w.CurrentScope(), model), GenericNameOf(w.env, w.CurrentScope(), model)))
  {
    var checked := CheckWriter(writer);
    if checked.None? {
      return false;
    }
    WriteConstructors(checked.value, model, hooks);
    ok := true;
  }

  /** The body of `constructors` once the writer is known to be a Kotlin one. */
  method WriteConstructors(w: KotlinCodeWriter, model: EntityType, hooks: Hooks)
    modifies w`out, w`level
    ensures w.level == old(w.level)
    ensures w.out == old(w.out) + CtorsText(w.env, w.CurrentScope(), w.level,
      AllCtors(model, hooks, LocalName(w.env, w.CurrentScope(), model), GenericNameOf(w.env, w.CurrentScope(), model)))
  {
    ghost var o, scope, level := w.out, w.CurrentScope(), w.level;
    var localName := RawName(w.env, w.CurrentScope(), model.modelType);
    var genericName := GenericName(w.env, w.CurrentScope(), true, model.modelType);
    assert localName == LocalName(w.env, scope, model) && genericName == GenericNameOf(w.env, scope, model);
    ghost var vt := CtorsText(w.env, scope, level, VariableCtors(model, hooks, localName, genericName));
    ghost var pt := PathCtorsText(w.env, scope, level, model, hooks, localName, genericName);
    // `constructorsForVariables(writer, model)`, on the writer already checked
    VariableConstructors(w, model, hooks, localName, genericName);
    assert w.out == o + vt;
    PathConstructors(w, model, hooks, localName, genericName);
    assert w.out == o + vt + pt;
    AppendAssoc(o, vt, pt);
    assert w.classes == scope.classes && w.packages == scope.packages;
    AllCtorsText(w.env, scope, level, model, hooks, localName, genericName);
  }

  /**
   * `introDefaultInstance(writer, entityType, defaultName)`: a companion
   * object declaring the default instance; on any writer but the Kotlin
   * one it fails and writes nothing.
   */
  method IntroDefaultInstance(writer: WriterRef, hooks: Hooks, defaultName: string) returns (ok: bool)
    modifies if writer.KotlinWriterRef? then {writer.w} else {}
    ensures ok <==> writer.KotlinWriterRef?
    ensures ok ==> var w := writer.w;
      && w.level == old(w.level) && w.CurrentScope() == old(w.CurrentScope())
      && w.out == old(w.out) + DefaultInstanceText(w.env, w.CurrentScope(), w.level, hooks, defaultName)
  {
    var checked := CheckWriter(writer);
    if checked.None? {
      return false;
    }
    WriteDefaultInstance(checked.value, hooks, defaultName);
    ok := true;
  }

  /** The body of `introDefaultInstance` once the writer is known to be a Kotlin one. */
  method WriteDefaultInstance(w: KotlinCodeWriter, hooks: Hooks, defaultName: string)
    modifies w`out, w`level
    ensures w.level == old(w.level)
    ensures w.out == old(w.out) + DefaultInstanceText(w.env, w.CurrentScope(), w.level, hooks, defaultName)
  {
    var variableName := if defaultName != "" then defaultName else hooks.defaultVariableName;
    var alias := hooks.defaultAlias;
    var queryType := hooks.pathType;
    ghost var o := w.out;
    w.BeginCompanionObject();
    ghost var c := LineText(w.env, w.level - 1, "companion object {");
    w.PublicStaticFinal(queryType, variableName, queryType.simpleName + "(\"" + alias + "\")");
    ghost var f := LineText(w.env, w.level,
      FieldValueText("val", variableName, GenericName(w.env, w.CurrentScope(), true, queryType), false, DefaultInitialiser(hooks)));
    w.End();
    AppendAssoc(o, c, f);
    AppendAssoc(o, c + f, EndText(w.env, w.level + 1));
  }
}
