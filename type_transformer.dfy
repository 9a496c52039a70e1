/**
 * `JavaToKotlinTypeTransformer`: rewrites the Java spelling of a basic type
 * (boxed or primitive, plus `String` and byte arrays) to the matching
 * `kotlin.*` type, keeping the input's category and flags.
 */
module TypeTransformer {
  import opened CodegenModel

  /** The `kotlin` type called `name`, carrying `t`'s category and flags. */
  function KotlinType(t: Type, name: string): Type {
    Type(t.category, "kotlin." + name, "kotlin", name, t.isPrimitive, t.isFinal, [])
  }

  /** The rewrite, one branch per source case; any other simple name is returned as is. */
  function Transform(t: Type): (r: Type)
    ensures r.category == t.category && r.isPrimitive == t.isPrimitive && r.isFinal == t.isFinal
    ensures r == t || (r.packageName == "kotlin" && r.fullName == "kotlin." + r.simpleName)
  {
    var n := t.simpleName;
    if n == "Integer" || n == "int" then KotlinType(t, "Int")
    else if n == "Short" || n == "short" then KotlinType(t, "Short")
    else if n == "Float" || n == "float" then KotlinType(t, "Float")
    else if n == "Double" || n == "double" then KotlinType(t, "Double")
    else if n == "Byte" || n == "byte" then KotlinType(t, "Byte")
    else if n == "Long" || n == "long" then KotlinType(t, "Long")
    else if n == "Boolean" || n == "boolean" then KotlinType(t, "Boolean")
    else if n == "String" then KotlinType(t, "String")
    else if n == "byte[]" || n == "Byte[]" then KotlinType(t, "ByteArray")
    else t
  }

  /** The translation table, written out as a map from Java to Kotlin simple names. */
  const JavaToKotlin: map<string, string> := map[
    "Integer" := "Int", "int" := "Int",
    "Short" := "Short", "short" := "Short",
    "Float" := "Float", "float" := "Float",
    "Double" := "Double", "double" := "Double",
    "Byte" := "Byte", "byte" := "Byte",
    "Long" := "Long", "long" := "Long",
    "Boolean" := "Boolean", "boolean" := "Boolean",
    "String" := "String",
    "byte[]" := "ByteArray", "Byte[]" := "ByteArray"]

  /** Boxed spellings paired with their primitive (or array) spelling. */
  const BoxedAndPrimitive: set<(string, string)> := {
    ("Integer", "int"), ("Short", "short"), ("Float", "float"), ("Double", "double"),
    ("Byte", "byte"), ("Long", "long"), ("Boolean", "boolean"), ("Byte[]", "byte[]")}

  /**
   * Transform agrees with the table: a listed name becomes `kotlin.X` for
   * the listed X, every other type comes back unchanged.
   */
  lemma TransformFollowsTable(t: Type)
    ensures t.simpleName in JavaToKotlin ==> Transform(t) == KotlinType(t, JavaToKotlin[t.simpleName])
    ensures t.simpleName !in JavaToKotlin ==> Transform(t) == t
  {
    if t.simpleName in JavaToKotlin {
      TransformListed(t);
    } else {
      TransformUnlisted(t);
    }
  }

  lemma TransformListed(t: Type)
    requires t.simpleName in JavaToKotlin
    ensures Transform(t) == KotlinType(t, JavaToKotlin[t.simpleName])
  {
    var n := t.simpleName;
    if n == "Integer" || n == "int" {
      assert JavaToKotlin[n] == "Int";
    } else if n == "Short" || n == "short" {
      assert JavaToKotlin[n] == "Short";
    } else if n == "Float" || n == "float" {
      assert JavaToKotlin[n] == "Float";
    } else if n == "Double" || n == "double" {
      assert JavaToKotlin[n] == "Double";
    } else if n == "Byte" || n == "byte" {
      assert JavaToKotlin[n] == "Byte";
    } else if n == "Long" || n == "long" {
      assert JavaToKotlin[n] == "Long";
    } else if n == "Boolean" || n == "boolean" {
      assert JavaToKotlin[n] == "Boolean";
    } else if n == "String" {
      assert JavaToKotlin[n] == "String";
    } else {
      assert JavaToKotlin[n] == "ByteArray";
    }
  }

  lemma TransformUnlisted(t: Type)
    requires t.simpleName !in JavaToKotlin
    ensures Transform(t) == t
  {
  }

  /** Only the capitalised `String` is translated; `string` is not a Java type name. */
  lemma OnlyCapitalisedString(t: Type)
    ensures t.simpleName == "String" ==> Transform(t).fullName == "kotlin.String"
    ensures t.simpleName == "string" ==> Transform(t) == t
  {
  }

  /** The boxed and primitive spellings of a type give the same Kotlin type. */
  lemma BoxedAgreesWithPrimitive(boxed: Type, primitive: Type)
    requires (boxed.simpleName, primitive.simpleName) in BoxedAndPrimitive
    ensures Transform(boxed).fullName == Transform(primitive).fullName
    ensures Transform(boxed).simpleName == Transform(primitive).simpleName
    ensures Transform(boxed).packageName == "kotlin" == Transform(primitive).packageName
    ensures Transform(boxed).parameters == [] == Transform(primitive).parameters
  {
    PairTranslatedAlike(boxed.simpleName, primitive.simpleName);
    TransformListed(boxed);
    TransformListed(primitive);
  }

  /** Both spellings of a boxed/primitive pair are in the table, with the same Kotlin name. */
  lemma PairTranslatedAlike(b: string, p: string)
    requires (b, p) in BoxedAndPrimitive
    ensures b in JavaToKotlin && p in JavaToKotlin && JavaToKotlin[b] == JavaToKotlin[p]
  {
  }

  /** Every Kotlin name the table produces is a fixed point of the table or absent from it. */
  lemma {:induction false} TransformIdempotent(t: Type)
    ensures Transform(Transform(t)) == Transform(t)
  {
    var r := Transform(t);
    if r != t {
      assert r.simpleName in {"Int", "Short", "Float", "Double", "Byte", "Long", "Boolean", "String", "ByteArray"};
    }
  }
}
