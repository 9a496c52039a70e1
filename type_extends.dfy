/**
 * `KotlinTypeExtends`: a wildcard type argument whose rendering turns Java's
 * `? extends T` into Kotlin's `out T`.
 */
module TypeExtends {
  import opened Wrappers
  import opened Strings
  import opened CodegenModel

  const JavaWildcard := "? extends "
  const KotlinOut := "out "

  /** The framework's `TypeExtends.getGenericName(asArgType, packages, classes)`. */
  type SuperGenericName = (TypeArg, bool, set<string>, set<string>) -> string

  /** The two-argument constructor: a wildcard with a variable name and a bound. */
  function KotlinTypeExtends(varName: Option<string>, bound: Option<Type>): (r: TypeArg)
    ensures r.Extends? && r.varName == varName && r.bound == bound
  {
    Extends(varName, bound)
  }

  /** The one-argument constructor delegates with a null variable name. */
  function KotlinTypeExtendsOf(bound: Option<Type>): (r: TypeArg)
    ensures r.Extends? && r.varName.None? && r.bound == bound
  {
    KotlinTypeExtends(None, bound)
  }

  /** Every `? extends ` becomes `out `. */
  function OutProjection(s: string): string {
    ReplaceAll(s, JavaWildcard, KotlinOut)
  }

  /** No `? extends ` survives: `out ` cannot start a new match. */
  lemma {:induction false} NoJavaWildcardLeft(s: string)
    ensures !Contains(OutProjection(s), JavaWildcard)
  {
    assert JavaWildcard[0] == '?' && '?' !in KotlinOut;
    assert KotlinOut[0] == 'o' && 'o' !in JavaWildcard[1..];
    ReplaceAllLeavesNoMatch(s, JavaWildcard, KotlinOut);
  }

  /** A name without a Java wildcard is passed through unchanged. */
  lemma {:induction false} PlainNameUnchanged(s: string)
    ensures !Contains(s, JavaWildcard) ==> OutProjection(s) == s
  {
    if !Contains(s, JavaWildcard) {
      ReplaceAllAbsent(s, JavaWildcard, KotlinOut);
    }
  }

  /** Each rewritten wildcard shortens the name by six characters. */
  lemma {:induction false} RewriteLength(s: string)
    ensures |OutProjection(s)| == |s| - 6 * Replacements(s, JavaWildcard)
  {
    ReplaceAllLength(s, JavaWildcard, KotlinOut);
  }

  /**
   * `getGenericName(asArgType, packages, classes)`: the framework's name with
   * every `? extends ` turned into `out `, so none is left; a name without
   * one is passed through as the framework wrote it.
   */
  function GetGenericName(
    e: TypeArg, asArgType: bool, packages: set<string>, classes: set<string>,
    superGenericName: SuperGenericName): (r: string)
    ensures !Contains(r, JavaWildcard)
    ensures !Contains(superGenericName(e, asArgType, packages, classes), JavaWildcard) ==>
      r == superGenericName(e, asArgType, packages, classes)
  {
    var s := superGenericName(e, asArgType, packages, classes);
    NoJavaWildcardLeft(s);
    PlainNameUnchanged(s);
    OutProjection(s)
  }

  /** A wildcard in front of a name becomes `out `; what follows is projected in turn. */
  lemma WildcardThenName(rest: string)
    ensures OutProjection(JavaWildcard + rest) == KotlinOut + OutProjection(rest)
  {
    var s := JavaWildcard + rest;
    assert StartsWith(s, JavaWildcard);
    assert s[|JavaWildcard|..] == rest;
  }

  /**
   * Text before the wildcard is copied when it holds no `?`: `Path<? extends T>`
   * becomes `Path<out T'>`, with `T'` the projection of `T`.
   */
  lemma WildcardAfterPrefix(pre: string, rest: string)
    requires '?' !in pre
    ensures OutProjection(pre + JavaWildcard + rest) == pre + KotlinOut + OutProjection(rest)
  {
    assert pre + JavaWildcard + rest == pre + (JavaWildcard + rest);
    ReplaceAllCopiesPrefix(pre, JavaWildcard + rest, JavaWildcard, KotlinOut);
    WildcardThenName(rest);
  }

  /** A worked case: the path type of a non-final entity. */
  lemma PathOverWildcard()
    ensures OutProjection("Path<" + JavaWildcard + "QUser>") == "Path<out QUser>"
  {
    WildcardAfterPrefix("Path<", "QUser>");
    PlainNameUnchanged("QUser>");
    assert "Path<" + KotlinOut + "QUser>" == "Path<out QUser>";
  }
}
