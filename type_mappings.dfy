/**
 * `JavaForKotlinTypeMappings.getQueryType`: the six numeric Java types get
 * their expression type parameterised by the Kotlin number type; every other
 * type is left to the framework's own mapping, which is a parameter here.
 */
module TypeMappings {
  import opened Wrappers
  import opened CodegenModel
  import TypeTransformer

  /** The framework's `JavaTypeMappings.getQueryType`, which this override falls back to. */
  type SuperQueryType<!M> = (Type, Option<M>, Type, bool, bool, bool) -> Type

  /** The numeric names the override handles, with the Kotlin simple name each maps to. */
  const NumericKotlinNames: map<string, string> := map[
    "Integer" := "Int", "int" := "Int",
    "Short" := "Short", "short" := "Short",
    "Float" := "Float", "float" := "Float",
    "Double" := "Double", "double" := "Double",
    "Byte" := "Byte", "byte" := "Byte",
    "Long" := "Long", "long" := "Long"]

  /** `SimpleType("kotlin.X", "kotlin", "X")`. */
  function KotlinNumber(name: string): (r: Type)
    ensures r.fullName == "kotlin." + r.simpleName && r.packageName == "kotlin" && r.simpleName == name
  {
    NamedType("kotlin." + name, "kotlin", name)
  }

  /**
   * `SimpleType(exprType, SimpleType("kotlin.X", "kotlin", "X"))`: the
   * expression type, unchanged but for its type arguments, which become the
   * one Kotlin number type `kotlin.X`.
   */
  function NumericQueryType(exprType: Type, name: string): (r: Type)
    ensures r.(parameters := exprType.parameters) == exprType
    ensures |r.parameters| == 1 && r.parameters[0].Exact?
    ensures var k := r.parameters[0].exact;
      k.fullName == "kotlin." + name && k.packageName == "kotlin" && k.simpleName == name && k.parameters == []
  {
    WithParameters(exprType, [Exact(KotlinNumber(name))])
  }

  function GetQueryType<M>(
    t: Type, model: Option<M>, exprType: Type, raw: bool, rawParameters: bool, extend: bool,
    superQueryType: SuperQueryType<M>): (r: Type)
    ensures t.simpleName in NumericKotlinNames ==>
      r.fullName == exprType.fullName && r.simpleName == exprType.simpleName && |r.parameters| == 1
  {
    var n := t.simpleName;
    if n == "Integer" || n == "int" then NumericQueryType(exprType, "Int")
    else if n == "Short" || n == "short" then NumericQueryType(exprType, "Short")
    else if n == "Float" || n == "float" then NumericQueryType(exprType, "Float")
    else if n == "Double" || n == "double" then NumericQueryType(exprType, "Double")
    else if n == "Byte" || n == "byte" then NumericQueryType(exprType, "Byte")
    else if n == "Long" || n == "long" then NumericQueryType(exprType, "Long")
    else superQueryType(t, model, exprType, raw, rawParameters, extend)
  }

  /**
   * The override follows the numeric table: a numeric name yields `exprType`
   * parameterised by `kotlin.X`, every other name exactly the framework's answer.
   */
  lemma QueryTypeFollowsTable<M>(
    t: Type, model: Option<M>, exprType: Type, raw: bool, rawParameters: bool, extend: bool,
    superQueryType: SuperQueryType<M>)
    ensures var r := GetQueryType(t, model, exprType, raw, rawParameters, extend, superQueryType);
      if t.simpleName in NumericKotlinNames
      then r == NumericQueryType(exprType, NumericKotlinNames[t.simpleName])
      else r == superQueryType(t, model, exprType, raw, rawParameters, extend)
  {
  }

  /** For a numeric name the answer depends on neither the model nor the three flags. */
  lemma NumericIgnoresContext<M>(
    t: Type, exprType: Type,
    model1: Option<M>, raw1: bool, rawParameters1: bool, extend1: bool,
    model2: Option<M>, raw2: bool, rawParameters2: bool, extend2: bool,
    super1: SuperQueryType<M>, super2: SuperQueryType<M>)
    requires t.simpleName in NumericKotlinNames
    ensures GetQueryType(t, model1, exprType, raw1, rawParameters1, extend1, super1)
         == GetQueryType(t, model2, exprType, raw2, rawParameters2, extend2, super2)
  {
    QueryTypeFollowsTable(t, model1, exprType, raw1, rawParameters1, extend1, super1);
    QueryTypeFollowsTable(t, model2, exprType, raw2, rawParameters2, extend2, super2);
  }

  /** Boolean, String and byte[] are not numeric: the framework decides for them. */
  lemma NonNumericFallsBack<M>(
    t: Type, model: Option<M>, exprType: Type, raw: bool, rawParameters: bool, extend: bool,
    superQueryType: SuperQueryType<M>)
    requires t.simpleName in {"Boolean", "boolean", "String", "byte[]", "Byte[]"}
    ensures GetQueryType(t, model, exprType, raw, rawParameters, extend, superQueryType)
         == superQueryType(t, model, exprType, raw, rawParameters, extend)
  {
    QueryTypeFollowsTable(t, model, exprType, raw, rawParameters, extend, superQueryType);
  }

  /**
   * The type argument chosen for a numeric name is the type the Kotlin
   * transformer gives that name: same full, package and simple names.
   */
  lemma NumericArgumentMatchesTransformer<M>(
    t: Type, model: Option<M>, exprType: Type, raw: bool, rawParameters: bool, extend: bool,
    superQueryType: SuperQueryType<M>)
    requires t.simpleName in NumericKotlinNames
    ensures var r := GetQueryType(t, model, exprType, raw, rawParameters, extend, superQueryType);
      var k := TypeTransformer.Transform(t);
      && r.parameters == [Exact(KotlinNumber(k.simpleName))]
      && KotlinNumber(k.simpleName).fullName == k.fullName
      && KotlinNumber(k.simpleName).packageName == k.packageName == "kotlin"
  {
    QueryTypeFollowsTable(t, model, exprType, raw, rawParameters, extend, superQueryType);
    TypeTransformer.TransformFollowsTable(t);
    NumericNamesAgree(t.simpleName);
  }

  /** Each numeric name is in the transformer's table too, with the same Kotlin name. */
  lemma NumericNamesAgree(n: string)
    requires n in NumericKotlinNames
    ensures n in TypeTransformer.JavaToKotlin && TypeTransformer.JavaToKotlin[n] == NumericKotlinNames[n]
  {
    assert forall m | m in NumericKotlinNames ::
      m in TypeTransformer.JavaToKotlin && TypeTransformer.JavaToKotlin[m] == NumericKotlinNames[m];
  }
}
