/**
 * `KotlinCodeWriter`: the stateful emitter the serializers write through.
 *
 * The writer keeps two growing sets of imported class and package names, an
 * indentation level and the text written so far. The module first gives the
 * text each operation produces as pure functions of an `Env` (the framework
 * pieces the writer calls into) and a `Scope` (the two import sets), proves
 * what those texts look like, and then models the writer as a class whose
 * methods append exactly those texts.
 */
module KotlinWriter {
  import opened Wrappers
  import opened Strings
  import opened CodegenModel
  import TypeTransformer

  /**
   * What the writer takes from the framework: the indentation width, the
   * framework's own `Type.getGenericName` / `Type.getRawName` (which decide,
   * from the import sets, whether a name may be written unqualified), and
   * `StringUtils.escapeJava`.
   */
  datatype Env = Env(
    spaces: nat,
    typeGenericName: (Type, bool, set<string>, set<string>) -> string,
    typeRawName: (Type, set<string>, set<string>) -> string,
    escapeJava: string -> string)

  /** The imported class names and package names. */
  datatype Scope = Scope(classes: set<string>, packages: set<string>)

  /** `Symbols.COMMA`. */
  const Comma := ", "
  const ClassSuffix := "::class.java"

  // ---------------------------------------------------------------------
  // Lines and names

  /** The indentation of a line at `level`. */
  function Indent(env: Env, level: nat): string {
    Spaces(level * env.spaces)
  }

  /** `line(s)`: an indented line with its newline. */
  function LineText(env: Env, level: nat, s: string): string {
    Indent(env, level) + s + "\n"
  }

  /**
   * `getGenericName(asArgType, type)`: `Void` is Kotlin's `Unit`; anything
   * else is named after its Kotlin form. The source's `type == Types.VOID`
   * is the framework's `equals`, which compares the types' contents; `==`
   * on the `Type` value is that comparison.
   */
  function GenericName(env: Env, scope: Scope, asArgType: bool, t: Type): (r: string)
    ensures t == VoidType ==> r == "kotlin.Unit"
  {
    if t == VoidType then "kotlin.Unit"
    else env.typeGenericName(TypeTransformer.Transform(t), asArgType, scope.packages, scope.classes)
  }

  /** `getRawName(type)`: the framework's raw name of the Kotlin form of the type. */
  function RawName(env: Env, scope: Scope, t: Type): string {
    env.typeRawName(TypeTransformer.Transform(t), scope.packages, scope.classes)
  }

  /** `getClassConstant(className)`: the Kotlin class literal of a class name. */
  function ClassConstant(className: string): (r: string)
    ensures StartsWith(r, className) && EndsWith(r, ClassSuffix)
    ensures |r| == |className| + |ClassSuffix|
  {
    className + ClassSuffix
  }

  /**
   * A type already in its Kotlin form is named as the Java type it came
   * from: the writer may be handed either spelling.
   */
  lemma GenericNameSeesThroughTransform(env: Env, scope: Scope, asArgType: bool, t: Type)
    requires t != VoidType
    ensures GenericName(env, scope, asArgType, TypeTransformer.Transform(t))
         == GenericName(env, scope, asArgType, t)
  {
    TypeTransformer.TransformIdempotent(t);
    assert TypeTransformer.Transform(t) != VoidType by {
      var k := TypeTransformer.Transform(t);
      assert k == t || k.packageName == "kotlin";
      assert VoidType.packageName == "java.lang";
    }
  }

  lemma RawNameSeesThroughTransform(env: Env, scope: Scope, t: Type)
    ensures RawName(env, scope, TypeTransformer.Transform(t)) == RawName(env, scope, t)
  {
    TypeTransformer.TransformIdempotent(t);
  }

  /** Different class names give different class constants. */
  lemma ClassConstantInjective(a: string, b: string)
    requires ClassConstant(a) == ClassConstant(b)
    ensures a == b
  {
    assert |a| == |b|;
    assert a == ClassConstant(a)[..|a|];
  }

  // ---------------------------------------------------------------------
  // Field declarations

  /** The text of `field(modifier, type, name, nullable, commaSuffix)` for a rendered type name. */
  function FieldText(modifier: string, name: string, typeName: string, nullable: bool, commaSuffix: bool): string {
    modifier + " " + name + " : " + typeName + (if nullable then "?" else "") + (if commaSuffix then "," else "")
  }

  /** The text of `field(modifier, type, name, value, nullable)`: a declaration with an initialiser. */
  function FieldValueText(modifier: string, name: string, typeName: string, nullable: bool, value: string): (r: string)
    ensures StartsWith(r, modifier + " " + name + " : " + typeName)
    ensures EndsWith(r, " = " + value)
  {
    var decl := modifier + " " + name + " : " + typeName;
    assert (decl + (if nullable then "?" else "") + " = " + value)[..|decl|] == decl;
    decl + (if nullable then "?" else "") + " = " + value
  }

  /** The two flags of a field can be read back from its text: equal texts mean equal flags. */
  lemma FieldFlagsRecoverable(
    modifier: string, name: string, typeName: string,
    nullable1: bool, comma1: bool, nullable2: bool, comma2: bool)
    ensures FieldText(modifier, name, typeName, nullable1, comma1) == FieldText(modifier, name, typeName, nullable2, comma2)
        <==> nullable1 == nullable2 && comma1 == comma2
  {
    var t1 := FieldText(modifier, name, typeName, nullable1, comma1);
    var t2 := FieldText(modifier, name, typeName, nullable2, comma2);
    var d := modifier + " " + name + " : " + typeName;
    if nullable1 != nullable2 || comma1 != comma2 {
      if |t1| == |t2| {
        assert nullable1 != nullable2 && comma1 != comma2;
        assert t1[|t1| - 1] != t2[|t2| - 1];
      }
    }
  }

  /**
   * When the type name itself ends in neither `?` nor `,`: the line ends in
   * `,` exactly when commaSuffix is set, and without that comma it ends in
   * `?` exactly when the field is nullable.
   */
  lemma FieldMarkers(modifier: string, name: string, typeName: string, nullable: bool, commaSuffix: bool)
    requires !EndsWith(typeName, "?") && !EndsWith(typeName, ",")
    ensures var r := FieldText(modifier, name, typeName, nullable, commaSuffix);
      && (EndsWith(r, ",") <==> commaSuffix)
      && (EndsWith(FieldText(modifier, name, typeName, nullable, false), "?") <==> nullable)
  {
    var d := modifier + " " + name + " : " + typeName;
    var plain := FieldText(modifier, name, typeName, false, false);
    assert plain == d;
    if |typeName| > 0 {
      assert d[|d| - 1] == typeName[|typeName| - 1];
      assert typeName[|typeName| - 1..] == [typeName[|typeName| - 1]];
    } else {
      assert d[|d| - 1] == ' ';
    }
    var q := FieldText(modifier, name, typeName, nullable, false);
    assert q == d + (if nullable then "?" else "");
    if nullable {
      assert q[|q| - 1] == '?';
    }
  }

  // ---------------------------------------------------------------------
  // Parameter lists and type lists

  /** `param(parameter)`: `name : Type`. */
  function ParamText(env: Env, scope: Scope, p: Parameter): string {
    p.name + " : " + GenericName(env, scope, true, p.paramType)
  }

  /** The entries of a parameter list; a null parameter leaves an empty entry. */
  function EntryTexts(env: Env, scope: Scope, ps: seq<Option<Parameter>>): (r: seq<string>)
    ensures |r| == |ps|
    ensures forall i :: 0 <= i < |ps| ==> r[i] == (if ps[i].Some? then ParamText(env, scope, ps[i].value) else "")
  {
    seq(|ps|, i requires 0 <= i < |ps| => if ps[i].Some? then ParamText(env, scope, ps[i].value) else "")
  }

  /** `params(...)`: the entries between parentheses, separated by `Symbols.COMMA`. */
  function ParamsText(env: Env, scope: Scope, ps: seq<Option<Parameter>>): string {
    "(" + Join(Comma, EntryTexts(env, scope, ps)) + ")"
  }

  /** Non-null parameters, as a vararg of `Parameter?`. */
  function Somes(ps: seq<Parameter>): (r: seq<Option<Parameter>>)
    ensures |r| == |ps| && forall i :: 0 <= i < |ps| ==> r[i] == Some(ps[i])
  {
    seq(|ps|, i requires 0 <= i < |ps| => Some(ps[i]))
  }

  /**
   * A collection mapped through a transformer that may return null, as
   * `transform` stores its results.
   */
  function Transformed<T>(xs: seq<T>, f: T -> Option<Parameter>): (r: seq<Option<Parameter>>)
    ensures |r| == |xs| && forall i :: 0 <= i < |xs| ==> r[i] == f(xs[i])
  {
    seq(|xs|, i requires 0 <= i < |xs| => f(xs[i]))
  }

  /** A collection mapped through a transformer that never returns null. */
  function Applied<T>(xs: seq<T>, f: T -> Parameter): (r: seq<Option<Parameter>>)
    ensures |r| == |xs| && forall i :: 0 <= i < |xs| ==> r[i] == Some(f(xs[i]))
  {
    seq(|xs|, i requires 0 <= i < |xs| => Some(f(xs[i])))
  }

  /**
   * No parameters give `()`; n parameters give their entries, n - 1
   * separators and the two parentheses. A null entry contributes nothing
   * but keeps its separators.
   */
  lemma ParamsLength(env: Env, scope: Scope, ps: seq<Option<Parameter>>)
    ensures |ps| == 0 ==> ParamsText(env, scope, ps) == "()"
    ensures |ps| > 0 ==>
      |ParamsText(env, scope, ps)| == 2 + TotalLength(EntryTexts(env, scope, ps)) + (|ps| - 1) * |Comma|
  {
    if |ps| > 0 {
      JoinLength(Comma, EntryTexts(env, scope, ps));
    }
  }

  /** `appendCommaSeparatedTypes`: the generic names, separated by `Symbols.COMMA`. */
  function TypeNames(env: Env, scope: Scope, ts: seq<Type>): (r: seq<string>)
    ensures |r| == |ts| && forall i :: 0 <= i < |ts| ==> r[i] == GenericName(env, scope, false, ts[i])
  {
    seq(|ts|, i requires 0 <= i < |ts| => GenericName(env, scope, false, ts[i]))
  }

  function CommaSeparatedTypes(env: Env, scope: Scope, ts: seq<Type>): string {
    Join(Comma, TypeNames(env, scope, ts))
  }

  // ---------------------------------------------------------------------
  // Annotation values

  /**
   * Text written by an operation that may throw: everything appended up to
   * the point of failure, and whether it completed.
   */
  datatype Emitted = Emitted(text: string, ok: bool)

  /** An enum constant is written unqualified when its class or its package is imported. */
  predicate EnumImported(scope: Scope, enumClass: string, enumPackage: string) {
    enumClass in scope.classes || enumPackage in scope.packages
  }

  /**
   * `appendType`'s condition can be evaluated: the class's name is imported,
   * or the class has a package to look up.
   */
  predicate ClassNameResolvable(scope: Scope, t: Type, packaged: bool) {
    t.fullName in scope.classes || packaged
  }

  /**
   * The values `annotationConstant` can print in `scope`, all the way down:
   * not an object of an unknown kind, no class without a package whose name
   * is not imported, and no enum constant that is neither imported nor
   * nested in a declaring class.
   */
  ghost predicate Supported(scope: Scope, v: AnnotationValue) {
    match v
    case ArrayValue(es) => forall i :: 0 <= i < |es| ==> Supported(scope, es[i])
    case ClassValue(t, packaged) => ClassNameResolvable(scope, t, packaged)
    case EnumValue(_, enumClass, enumPackage, declaringClass) =>
      EnumImported(scope, enumClass, enumPackage) || declaringClass.Some?
    case OtherValue(_) => false
    case _ => true
  }

  /**
   * `annotationConstant(value)`: arrays in braces, classes as class
   * literals (failing where `appendType` dereferences a null package), numbers and booleans as themselves, enums qualified by their
   * declaring class unless imported (failing on the null declaring class of a
   * top-level enum), strings escaped and quoted; anything else fails.
   */
  function ConstantText(env: Env, scope: Scope, v: AnnotationValue): Emitted
    decreases v, 1, 0
  {
    match v
    case ArrayValue(es) =>
      var body := ElementsUpTo(env, scope, v, |es|);
      if body.ok then Emitted("{" + body.text + "}", true) else Emitted("{" + body.text, false)
    case ClassValue(t, packaged) =>
      if ClassNameResolvable(scope, t, packaged) then Emitted(GenericName(env, scope, false, t) + ClassSuffix, true)
      else Emitted("", false)
    case NumberValue(digits) => Emitted(digits, true)
    case BooleanValue(b) => Emitted(if b then "true" else "false", true)
    case EnumValue(constant, enumClass, enumPackage, declaringClass) =>
      if EnumImported(scope, enumClass, enumPackage) then Emitted(constant, true)
      else if declaringClass.None? then Emitted("", false)
      else Emitted(declaringClass.value + "." + constant, true)
    case StringValue(s) => Emitted("\"" + ReplaceAll(env.escapeJava(s), "\\/", "/") + "\"", true)
    case OtherValue(_) => Emitted("", false)
  }

  /** The first `n` elements of the array `parent`, separated by `, `, stopping at the first failure. */
  function ElementsUpTo(env: Env, scope: Scope, parent: AnnotationValue, n: nat): Emitted
    requires parent.ArrayValue? && n <= |parent.elements|
    decreases parent, 0, n
  {
    if n == 0 then Emitted("", true)
    else
      var prev := ElementsUpTo(env, scope, parent, n - 1);
      if !prev.ok then prev
      else
        var e := ConstantText(env, scope, parent.elements[n - 1]);
        Emitted(prev.text + (if n > 1 then ", " else "") + e.text, e.ok)
  }

  /** Once an element has failed, later elements add nothing. */
  lemma {:induction false} ElementsStopAfterFailure(env: Env, scope: Scope, parent: AnnotationValue, k: nat, n: nat)
    requires parent.ArrayValue? && k <= n <= |parent.elements|
    requires !ElementsUpTo(env, scope, parent, k).ok
    ensures ElementsUpTo(env, scope, parent, n) == ElementsUpTo(env, scope, parent, k)
    decreases n
  {
    if n > k {
      ElementsStopAfterFailure(env, scope, parent, k, n - 1);
    }
  }

  /** Rendering succeeds exactly for supported values. */
  lemma {:induction false} ConstantOkIffSupported(env: Env, scope: Scope, v: AnnotationValue)
    ensures ConstantText(env, scope, v).ok <==> Supported(scope, v)
    decreases v, 1
  {
    if v.ArrayValue? {
      ElementsOkIffSupported(env, scope, v, |v.elements|);
    }
  }

  lemma {:induction false} ElementsOkIffSupported(env: Env, scope: Scope, parent: AnnotationValue, n: nat)
    requires parent.ArrayValue? && n <= |parent.elements|
    ensures ElementsUpTo(env, scope, parent, n).ok <==> forall i :: 0 <= i < n ==> Supported(scope, parent.elements[i])
    decreases parent, 0, n
  {
    if n > 0 {
      ElementsOkIffSupported(env, scope, parent, n - 1);
      ConstantOkIffSupported(env, scope, parent.elements[n - 1]);
    }
  }

  /** The texts of the first `n` elements of an array, each rendered on its own. */
  function ElementTexts(env: Env, scope: Scope, es: seq<AnnotationValue>, n: nat): (r: seq<string>)
    requires n <= |es|
    ensures |r| == n && forall i :: 0 <= i < n ==> r[i] == ConstantText(env, scope, es[i]).text
  {
    seq(n, i requires 0 <= i < n => ConstantText(env, scope, es[i]).text)
  }

  lemma {:induction false} ElementsJoined(env: Env, scope: Scope, parent: AnnotationValue, n: nat)
    requires parent.ArrayValue? && n <= |parent.elements|
    requires forall i :: 0 <= i < n ==> Supported(scope, parent.elements[i])
    ensures ElementsUpTo(env, scope, parent, n) == Emitted(Join(Comma, ElementTexts(env, scope, parent.elements, n)), true)
  {
    if n > 0 {
      var es := parent.elements;
      ElementsJoined(env, scope, parent, n - 1);
      ConstantOkIffSupported(env, scope, es[n - 1]);
      var xs := ElementTexts(env, scope, es, n);
      assert xs == ElementTexts(env, scope, es, n - 1) + [xs[n - 1]];
      JoinSnoc(Comma, ElementTexts(env, scope, es, n - 1), xs[n - 1]);
    }
  }

  /** A supported array renders as its elements' texts between braces, separated by `, `. */
  lemma ArrayRendersJoined(env: Env, scope: Scope, es: seq<AnnotationValue>)
    requires forall i :: 0 <= i < |es| ==> Supported(scope, es[i])
    ensures ConstantText(env, scope, ArrayValue(es))
         == Emitted("{" + Join(Comma, ElementTexts(env, scope, es, |es|)) + "}", true)
  {
    ElementsJoined(env, scope, ArrayValue(es), |es|);
  }

  /** An enum constant is written bare exactly when its class or package is imported. */
  lemma EnumQualification(env: Env, scope: Scope, constant: string, enumClass: string, enumPackage: string,
                           declaringClass: Option<string>)
    ensures var r := ConstantText(env, scope, EnumValue(constant, enumClass, enumPackage, declaringClass));
      && (r.ok <==> EnumImported(scope, enumClass, enumPackage) || declaringClass.Some?)
      && (r.ok ==> (r.text == constant <==> EnumImported(scope, enumClass, enumPackage)))
      && (!EnumImported(scope, enumClass, enumPackage) && declaringClass.Some? ==>
            r.text == declaringClass.value + "." + constant)
      && (!r.ok ==> r.text == "")
  {
    var r := ConstantText(env, scope, EnumValue(constant, enumClass, enumPackage, declaringClass));
    if !EnumImported(scope, enumClass, enumPackage) && declaringClass.Some? {
      assert |r.text| > |constant|;
    }
  }

  /**
   * A class literal is the class's generic name followed by `::class.java`;
   * it fails, writing nothing, exactly when the class has no package and its
   * name is not imported.
   */
  lemma ClassLiteral(env: Env, scope: Scope, t: Type, packaged: bool)
    ensures var r := ConstantText(env, scope, ClassValue(t, packaged));
      && (r.ok <==> t.fullName in scope.classes || packaged)
      && (r.ok ==> StartsWith(r.text, GenericName(env, scope, false, t)) && EndsWith(r.text, ClassSuffix))
      && (!r.ok ==> r.text == "")
  {
    var name := GenericName(env, scope, false, t);
    if ClassNameResolvable(scope, t, packaged) {
      assert (name + ClassSuffix)[..|name|] == name;
      EndsWithAppend(name, ClassSuffix);
    }
  }

  /**
   * A string renders between quotes as its escaped form with each `\/`
   * turned back into `/`: one character shorter per such escape.
   */
  lemma StringQuoted(env: Env, scope: Scope, s: string)
    ensures var r := ConstantText(env, scope, StringValue(s));
      var escaped := env.escapeJava(s);
      && r.ok && StartsWith(r.text, "\"") && EndsWith(r.text, "\"")
      && |r.text| == 2 + |escaped| - Replacements(escaped, "\\/")
  {
    var escaped := env.escapeJava(s);
    ReplaceAllLength(escaped, "\\/", "/");
  }

  // ---------------------------------------------------------------------
  // Annotations

  /** An attribute the writer leaves out: null, or equal to its default. */
  predicate Skipped(a: AnnotationAttribute) {
    a.value.None? || a.value == a.defaultValue
  }

  /**
   * The attribute loop's state after some attributes: the text so far,
   * whether nothing failed, and whether no attribute has been written yet.
   */
  datatype AttributesEmitted = AttributesEmitted(text: string, ok: bool, first: bool)

  /**
   * The loop over the first `n` attributes: skipped ones add nothing, the
   * first written one opens with `(`, later ones are preceded by
   * `Symbols.COMMA`. An array value whose attribute has no default fails the
   * cast to an array, and so does a value the constant writer rejects.
   */
  function AttributesUpTo(env: Env, scope: Scope, attrs: seq<AnnotationAttribute>, n: nat): AttributesEmitted
    requires n <= |attrs|
  {
    if n == 0 then AttributesEmitted("", true, true)
    else
      var prev := AttributesUpTo(env, scope, attrs, n - 1);
      var a := attrs[n - 1];
      if !prev.ok || Skipped(a) then prev
      else if a.value.value.ArrayValue? && a.defaultValue.None? then AttributesEmitted(prev.text, false, prev.first)
      else
        var c := ConstantText(env, scope, a.value.value);
        AttributesEmitted(prev.text + (if prev.first then "(" else Comma) + a.name + "=" + c.text, c.ok, false)
  }

  lemma {:induction false} AttributesStopAfterFailure(env: Env, scope: Scope, attrs: seq<AnnotationAttribute>, k: nat, n: nat)
    requires k <= n <= |attrs|
    requires !AttributesUpTo(env, scope, attrs, k).ok
    ensures AttributesUpTo(env, scope, attrs, n) == AttributesUpTo(env, scope, attrs, k)
    decreases n
  {
    if n > k {
      AttributesStopAfterFailure(env, scope, attrs, k, n - 1);
    }
  }

  /** An attribute the loop can get through: skipped, or printable and not an array without default. */
  ghost predicate Renderable(scope: Scope, a: AnnotationAttribute) {
    Skipped(a) || (Supported(scope, a.value.value) && !(a.value.value.ArrayValue? && a.defaultValue.None?))
  }

  /** `name=value` for each written attribute among the first `n`, in order. */
  function ShownAttributes(env: Env, scope: Scope, attrs: seq<AnnotationAttribute>, n: nat): seq<string>
    requires n <= |attrs|
  {
    if n == 0 then []
    else
      var a := attrs[n - 1];
      ShownAttributes(env, scope, attrs, n - 1)
        + (if Skipped(a) then [] else [a.name + "=" + ConstantText(env, scope, a.value.value).text])
  }

  /**
   * When every attribute can be rendered, the loop writes nothing if all
   * are skipped, and otherwise `(` followed by the written attributes
   * separated by commas; the closing `)` is added after the loop.
   */
  lemma {:induction false} AttributesJoined(env: Env, scope: Scope, attrs: seq<AnnotationAttribute>, n: nat)
    requires n <= |attrs|
    requires forall i :: 0 <= i < n ==> Renderable(scope, attrs[i])
    ensures var shown := ShownAttributes(env, scope, attrs, n);
      AttributesUpTo(env, scope, attrs, n)
        == AttributesEmitted(if |shown| == 0 then "" else "(" + Join(Comma, shown), true, |shown| == 0)
  {
    if n > 0 {
      AttributesJoined(env, scope, attrs, n - 1);
      var a := attrs[n - 1];
      var before := ShownAttributes(env, scope, attrs, n - 1);
      var prev := AttributesUpTo(env, scope, attrs, n - 1);
      assert prev.ok;
      if Skipped(a) {
        assert ShownAttributes(env, scope, attrs, n) == before;
        assert AttributesUpTo(env, scope, attrs, n) == prev;
      } else {
        AttributesJoinedStep(env, scope, attrs, n);
      }
    }
  }

  /** The step of `AttributesJoined` for an attribute that is written. */
  lemma AttributesJoinedStep(env: Env, scope: Scope, attrs: seq<AnnotationAttribute>, n: nat)
    requires 0 < n <= |attrs| && Renderable(scope, attrs[n - 1]) && !Skipped(attrs[n - 1])
    requires var shown := ShownAttributes(env, scope, attrs, n - 1);
      AttributesUpTo(env, scope, attrs, n - 1)
        == AttributesEmitted(if |shown| == 0 then "" else "(" + Join(Comma, shown), true, |shown| == 0)
    ensures var shown := ShownAttributes(env, scope, attrs, n);
      AttributesUpTo(env, scope, attrs, n)
        == AttributesEmitted(if |shown| == 0 then "" else "(" + Join(Comma, shown), true, |shown| == 0)
  {
    var a := attrs[n - 1];
    var before := ShownAttributes(env, scope, attrs, n - 1);
    var prev := AttributesUpTo(env, scope, attrs, n - 1);
    var c := ConstantText(env, scope, a.value.value);
    var item := a.name + "=" + c.text;
    assert c.ok by {
      ConstantOkIffSupported(env, scope, a.value.value);
    }
    assert ShownAttributes(env, scope, attrs, n) == before + [item];
    assert AttributesUpTo(env, scope, attrs, n)
        == AttributesEmitted(prev.text + (if prev.first then "(" else Comma) + item, true, false);
    JoinSnoc(Comma, before, item);
    if |before| > 0 {
      AppendAssoc("(", Join(Comma, before), Comma + item);
      AppendAssoc("(" + Join(Comma, before), Comma, item);
    }
  }

  /** The annotation's head: indentation, `@` and the annotation class's name. */
  function AnnotationHead(env: Env, scope: Scope, level: nat, ann: AnnotationInstance): string {
    Indent(env, level) + "@" + GenericName(env, scope, false, ann.annotationType)
  }

  /** An annotation whose only attribute is `value`: written without its name, even when it equals its default. */
  predicate ValueOnly(ann: AnnotationInstance) {
    |ann.attributes| == 1 && ann.attributes[0].name == "value"
  }

  /** What `annotation(annotation)` writes after the head: the attribute list and the newline. */
  function AnnotationBodyText(env: Env, scope: Scope, ann: AnnotationInstance): Emitted {
    if ValueOnly(ann) then
      match ann.attributes[0].value
      case None => Emitted("(", false)
      case Some(v) =>
        var c := ConstantText(env, scope, v);
        if c.ok then Emitted("(" + c.text + ")" + "\n", true) else Emitted("(" + c.text, false)
    else
      var attrs := AttributesUpTo(env, scope, ann.attributes, |ann.attributes|);
      if attrs.ok then Emitted(attrs.text + (if attrs.first then "" else ")") + "\n", true)
      else Emitted(attrs.text, false)
  }

  /** `annotation(annotation)`: the line written for an annotation instance. */
  function AnnotationText(env: Env, scope: Scope, level: nat, ann: AnnotationInstance): Emitted {
    var body := AnnotationBodyText(env, scope, ann);
    Emitted(AnnotationHead(env, scope, level, ann) + body.text, body.ok)
  }

  /**
   * An annotation with renderable attributes, not of the value-only form, is
   * one line: `@Name`, then `(a=x, b=y)` over the attributes that differ from
   * their defaults, or nothing when there are none.
   */
  lemma AnnotationWithAttributes(env: Env, scope: Scope, level: nat, ann: AnnotationInstance)
    requires !ValueOnly(ann)
    requires forall i :: 0 <= i < |ann.attributes| ==> Renderable(scope, ann.attributes[i])
    ensures var shown := ShownAttributes(env, scope, ann.attributes, |ann.attributes|);
      AnnotationText(env, scope, level, ann)
        == Emitted(AnnotationHead(env, scope, level, ann)
                     + (if |shown| == 0 then "" else "(" + Join(Comma, shown) + ")") + "\n", true)
  {
    AttributesJoined(env, scope, ann.attributes, |ann.attributes|);
    var shown := ShownAttributes(env, scope, ann.attributes, |ann.attributes|);
    if |shown| > 0 {
      AppendAssoc(AnnotationHead(env, scope, level, ann), "(" + Join(Comma, shown) + ")", "\n");
    }
  }

  // ---------------------------------------------------------------------
  // Imports

  /** The names in a list, as a set. */
  function NameSet(names: seq<string>): (r: set<string>)
    ensures forall n :: n in r <==> n in names
  {
    set n | n in names
  }

  /** One `import` line per name, each `import name` followed by `suffix`. */
  function ImportLines(env: Env, level: nat, names: seq<string>, suffix: string): string {
    if |names| == 0 then ""
    else
      ImportLines(env, level, names[..|names| - 1], suffix)
        + LineText(env, level, "import " + names[|names| - 1] + suffix)
  }

  /** Names and suffix without line breaks give exactly one line per name. */
  lemma {:induction false} ImportLineCount(env: Env, level: nat, names: seq<string>, suffix: string)
    requires forall i :: 0 <= i < |names| ==> '\n' !in names[i]
    requires '\n' !in suffix
    ensures CountChar(ImportLines(env, level, names, suffix), '\n') == |names|
  {
    if |names| > 0 {
      var last := names[|names| - 1];
      ImportLineCount(env, level, names[..|names| - 1], suffix);
      var body := Indent(env, level) + ("import " + last + suffix);
      assert ImportLines(env, level, names, suffix)
          == ImportLines(env, level, names[..|names| - 1], suffix) + (body + "\n");
      assert '\n' !in body by {
        assert forall c | c in Indent(env, level) :: c == ' ';
      }
      CountCharAbsent(body, '\n');
      CountCharAppend(body, "\n", '\n');
      assert CountChar("\n", '\n') == 1 by {
        assert "\n"[..0] == "";
      }
      CountCharAppend(ImportLines(env, level, names[..|names| - 1], suffix), body + "\n", '\n');
    }
  }

  // ---------------------------------------------------------------------
  // Declaration headers

  /** The header `beginMethod(modifiers, returnType, methodName, args)` writes. */
  function MethodHeaderText(env: Env, scope: Scope, level: nat, modifiers: string, returnType: Type, methodName: string, args: seq<Option<Parameter>>): string {
    Indent(env, level) + modifiers + "fun " + methodName + ParamsText(env, scope, args)
      + " : " + GenericName(env, scope, true, returnType) + " {" + "\n"
  }

  /** The header of `beginConstructor(vararg parameters)`: `constructor(...) {`. */
  function ConstructorHeaderText(env: Env, scope: Scope, level: nat, ps: seq<Option<Parameter>>): string {
    Indent(env, level) + "constructor" + ParamsText(env, scope, ps) + " {" + "\n"
  }

  /**
   * The header `beginConstructor(parameters, transformer)` writes as the
   * source has it: `beginLine("constructor(")` followed by `params`, which
   * opens a parenthesis of its own.
   */
  function CollectionConstructorHeaderAsWritten<T>(env: Env, scope: Scope, level: nat, xs: seq<T>, f: T -> Parameter): string {
    Indent(env, level) + "constructor(" + ParamsText(env, scope, Applied(xs, f)) + " {" + "\n"
  }

  /**
   * As written, the collection overload opens two parentheses and closes
   * one: even an empty collection gives `constructor(() {`, which is not
   * Kotlin, and no collection gives the vararg overload's header.
   */
  lemma CollectionConstructorDoubleParen<T>(env: Env, scope: Scope, xs: seq<T>, f: T -> Parameter)
    ensures CollectionConstructorHeaderAsWritten(env, scope, 0, [], f) == "constructor(() {\n"
    ensures CollectionConstructorHeaderAsWritten(env, scope, 0, xs, f)
         != ConstructorHeaderText(env, scope, 0, Applied(xs, f))
  {
    ParamsLength(env, scope, Applied([], f));
    assert Indent(env, 0) == "";
    var a := CollectionConstructorHeaderAsWritten(env, scope, 0, xs, f);
    var b := ConstructorHeaderText(env, scope, 0, Applied(xs, f));
    assert |a| == |b| + 1;
  }

  /** Writing the separator and the next entry after the first `i` joined entries gives the first `i + 1`. */
  lemma JoinedOneMore(start: string, entries: seq<string>, i: nat)
    requires i < |entries|
    ensures start + Join(Comma, entries[..i]) + (if i > 0 then Comma else "") + entries[i]
         == start + Join(Comma, entries[..i + 1])
  {
    JoinStep(Comma, entries, i);
    AppendAssoc(start, Join(Comma, entries[..i]), (if i > 0 then Comma else ""));
    AppendAssoc(start, Join(Comma, entries[..i]) + (if i > 0 then Comma else ""), entries[i]);
  }

  /** `end()` at `level`: the block's closing brace, one level out. */
  function EndText(env: Env, level: nat): string
    requires level > 0
  {
    LineText(env, level - 1, "}")
  }

  // ---------------------------------------------------------------------
  // The writer

  class KotlinCodeWriter {
    const env: Env
    /** Imported class names. */
    var classes: set<string>
    /** Imported (or declared) package names. */
    var packages: set<string>
    /** Indentation level. */
    var level: nat
    /** Everything written so far. */
    var out: string

    /** A writer over a fresh output, with nothing imported and no indentation. */
    constructor (env: Env)
      ensures this.env == env
      ensures classes == {} && packages == {} && level == 0 && out == ""
    {
      this.env := env;
      classes := {};
      packages := {};
      level := 0;
      out := "";
    }

    function CurrentScope(): Scope
      reads this`classes, this`packages
    {
      Scope(classes, packages)
    }

    // The primitives of the framework's writer.

    method Append(s: string)
      modifies this`out
      ensures out == old(out) + s
    {
      out := out + s;
    }

    method BeginLine(s: string)
      modifies this`out
      ensures out == old(out) + Indent(env, level) + s
    {
      out := out + Indent(env, level) + s;
    }

    method Line(s: string)
      modifies this`out
      ensures out == old(out) + LineText(env, level, s)
    {
      out := out + LineText(env, level, s);
    }

    method Nl()
      modifies this`out
      ensures out == old(out) + "\n"
    {
      out := out + "\n";
    }

    method GoIn()
      modifies this`level
      ensures level == old(level) + 1
    {
      level := level + 1;
    }

    method GoOut()
      requires level > 0
      modifies this`level
      ensures level == old(level) - 1
    {
      level := level - 1;
    }

    // Parameters and types.

    method Param(p: Parameter)
      modifies this`out
      ensures out == old(out) + ParamText(env, CurrentScope(), p)
    {
      Append(p.name + " : " + GenericName(env, CurrentScope(), true, p.paramType));
    }

    /** One step of `params`: the separator when it is not the first entry, then the parameter if not null. */
    method ParamEntry(separated: bool, p: Option<Parameter>)
      modifies this`out
      ensures out == old(out) + (if separated then Comma else "")
                     + (if p.Some? then ParamText(env, CurrentScope(), p.value) else "")
    {
      if separated {
        Append(Comma);
      }
      if p.Some? {
        Param(p.value);
      }
    }

    /** `params(vararg params)`: a separator before every entry after the first, null entries left empty. */
    method Params(ps: seq<Option<Parameter>>)
      modifies this`out
      ensures out == old(out) + ParamsText(env, CurrentScope(), ps)
    {
      Append("(");
      ParamEntries(ps);
      Append(")");
    }

    /** The loop of `params(vararg params)`. */
    method ParamEntries(ps: seq<Option<Parameter>>)
      modifies this`out
      ensures out == old(out) + Join(Comma, EntryTexts(env, CurrentScope(), ps))
    {
      ghost var entries := EntryTexts(env, CurrentScope(), ps);
      var i := 0;
      while i < |ps|
        invariant 0 <= i <= |ps|
        invariant out == old(out) + Join(Comma, entries[..i])
      {
        ParamEntry(i > 0, ps[i]);
        JoinedOneMore(old(out), entries, i);
        i := i + 1;
      }
      assert entries[..|ps|] == entries;
    }

    /** `params(parameters, transformer)`: the same list over a transformed collection. */
    method ParamsOf<T>(xs: seq<T>, f: T -> Parameter)
      modifies this`out
      ensures out == old(out) + ParamsText(env, CurrentScope(), Applied(xs, f))
    {
      Append("(");
      ParamEntriesOf(xs, f);
      Append(")");
    }

    /** The loop of `params(parameters, transformer)`, driven by its `first` flag. */
    method ParamEntriesOf<T>(xs: seq<T>, f: T -> Parameter)
      modifies this`out
      ensures out == old(out) + Join(Comma, EntryTexts(env, CurrentScope(), Applied(xs, f)))
    {
      ghost var entries := EntryTexts(env, CurrentScope(), Applied(xs, f));
      var first := true;
      var i := 0;
      while i < |xs|
        invariant 0 <= i <= |xs| && first == (i == 0)
        invariant out == old(out) + Join(Comma, entries[..i])
      {
        ParamEntry(!first, Some(f(xs[i])));
        first := false;
        JoinedOneMore(old(out), entries, i);
        i := i + 1;
      }
      assert entries[..|xs|] == entries;
    }

    /**
     * `transform(parameters, transformer)`: an array of nulls filled in
     * collection order; a null the transformer returns stays in the array.
     */
    method TransformParams<T>(xs: seq<T>, f: T -> Option<Parameter>) returns (rv: seq<Option<Parameter>>)
      ensures |rv| == |xs|
      ensures forall i :: 0 <= i < |xs| ==> rv[i] == f(xs[i])
    {
      var a := new Option<Parameter>[|xs|](_ => None);
      var i := 0;
      while i < |xs|
        invariant 0 <= i <= |xs|
        invariant forall j :: 0 <= j < i ==> a[j] == f(xs[j])
      {
        a[i] := f(xs[i]);
        i := i + 1;
      }
      rv := a[..];
    }

    /** `appendCommaSeparatedTypes(types)`. */
    method AppendCommaSeparatedTypes(ts: seq<Type>)
      modifies this`out
      ensures out == old(out) + CommaSeparatedTypes(env, CurrentScope(), ts)
    {
      ghost var names := TypeNames(env, CurrentScope(), ts);
      ghost var start := out;
      var i := 0;
      while i < |ts|
        invariant 0 <= i <= |ts|
        invariant out == start + Join(Comma, names[..i])
      {
        ghost var before := out;
        ghost var sep := if i > 0 then Comma else "";
        if i > 0 {
          Append(Comma);
        }
        assert out == before + sep;
        Append(GenericName(env, CurrentScope(), false, ts[i]));
        JoinStep(Comma, names, i);
        AppendAssoc(start, Join(Comma, names[..i]) + sep, names[i]);
        AppendAssoc(start, Join(Comma, names[..i]), sep);
        i := i + 1;
      }
      assert names[..|ts|] == names;
    }

    /**
     * `appendType(type)`: both of its branches append the same generic name,
     * but the condition choosing between them looks up the class's package
     * when its name is not imported, and fails, appending nothing, when there
     * is none.
     */
    method AppendType(t: Type, packaged: bool) returns (ok: bool)
      modifies this`out
      ensures ok <==> t.fullName in classes || packaged
      ensures out == old(out) + (if ok then GenericName(env, CurrentScope(), false, t) else "")
    {
      ok := t.fullName in classes || packaged;
      if ok {
        Append(GenericName(env, CurrentScope(), false, t));
      } else {
        assert old(out) + "" == old(out);
      }
    }

    // Annotations.

    /** `annotationConstant(value)`; `ok` is false where the source throws. */
    method AnnotationConstant(v: AnnotationValue) returns (ok: bool)
      modifies this`out
      ensures ok == ConstantText(env, CurrentScope(), v).ok
      ensures out == old(out) + ConstantText(env, CurrentScope(), v).text
      decreases v, 1
    {
      ghost var o := out;
      match v
      case ArrayValue(es) =>
        Append("{");
        ok := ArrayElements(v);
        ghost var body := ElementsUpTo(env, CurrentScope(), v, |es|);
        if ok {
          Append("}");
          AppendAssoc(o, "{" + body.text, "}");
        }
        AppendAssoc(o, "{", body.text);
      case ClassValue(t, packaged) =>
        ok := AppendType(t, packaged);
        if ok {
          Append(ClassSuffix);
          AppendAssoc(o, GenericName(env, CurrentScope(), false, t), ClassSuffix);
        }
      case NumberValue(digits) =>
        Append(digits);
        ok := true;
      case BooleanValue(b) =>
        Append(if b then "true" else "false");
        ok := true;
      case EnumValue(constant, enumClass, enumPackage, declaringClass) =>
        if enumClass in classes || enumPackage in packages {
          Append(constant);
          ok := true;
        } else if declaringClass.None? {
          // the declaring class's name is read before anything is appended
          ok := false;
        } else {
          Append(declaringClass.value);
          Append(".");
          Append(constant);
          AppendAssoc(o, declaringClass.value + ".", constant);
          AppendAssoc(o, declaringClass.value, ".");
          ok := true;
        }
      case StringValue(s) =>
        var escaped := env.escapeJava(s);
        var unslashed := ReplaceAll(escaped, "\\/", "/");
        Append("\"");
        Append(unslashed);
        Append("\"");
        AppendAssoc(o, "\"" + unslashed, "\"");
        AppendAssoc(o, "\"", unslashed);
        ok := true;
      case OtherValue(_) =>
        ok := false;
    }

    /** The loop of `annotationConstant` over an array's elements, stopping at the first failure. */
    method ArrayElements(v: AnnotationValue) returns (ok: bool)
      requires v.ArrayValue?
      modifies this`out
      ensures ok == ElementsUpTo(env, CurrentScope(), v, |v.elements|).ok
      ensures out == old(out) + ElementsUpTo(env, CurrentScope(), v, |v.elements|).text
      decreases v, 0
    {
      var es := v.elements;
      ghost var start := out;
      var first := true;
      var i := 0;
      while i < |es|
        invariant 0 <= i <= |es| && first == (i == 0)
        invariant ElementsUpTo(env, CurrentScope(), v, i).ok
        invariant out == start + ElementsUpTo(env, CurrentScope(), v, i).text
      {
        ghost var prev := ElementsUpTo(env, CurrentScope(), v, i).text;
        ghost var sep := if i > 0 then ", " else "";
        if !first {
          Append(", ");
        }
        var elementOk := AnnotationConstant(es[i]);
        ghost var e := ConstantText(env, CurrentScope(), es[i]);
        AppendAssoc(start, prev + sep, e.text);
        AppendAssoc(start, prev, sep);
        if !elementOk {
          ElementsStopAfterFailure(env, CurrentScope(), v, i + 1, |es|);
          return false;
        }
        first := false;
        i := i + 1;
      }
      ok := true;
    }

    /** `annotation(annotation)`; `ok` is false where the source throws. */
    method Annotation(ann: AnnotationInstance) returns (ok: bool)
      modifies this`out
      ensures ok == AnnotationText(env, CurrentScope(), level, ann).ok
      ensures out == old(out) + AnnotationText(env, CurrentScope(), level, ann).text
    {
      ghost var o := out;
      ghost var indent := Indent(env, level);
      ghost var name := GenericName(env, CurrentScope(), false, ann.annotationType);
      BeginLine("");
      Append("@");
      // an annotation's class is neither primitive nor an array: it has a package
      var named := AppendType(ann.annotationType, true);
      AppendAssoc(o, indent + "" + "@", name);
      AppendAssoc(o, indent + "", "@");
      AppendAssoc(o, indent, "");
      assert out == o + AnnotationHead(env, CurrentScope(), level, ann);
      ghost var mid := out;
      ok := AnnotationBody(ann);
      AppendAssoc(o, AnnotationHead(env, CurrentScope(), level, ann), AnnotationBodyText(env, CurrentScope(), ann).text);
    }

    /** The part of `annotation(annotation)` after `@Name`. */
    method AnnotationBody(ann: AnnotationInstance) returns (ok: bool)
      modifies this`out
      ensures ok == AnnotationBodyText(env, CurrentScope(), ann).ok
      ensures out == old(out) + AnnotationBodyText(env, CurrentScope(), ann).text
    {
      ghost var o := out;
      var attrs := ann.attributes;
      if |attrs| == 1 && attrs[0].name == "value" {
        Append("(");
        if attrs[0].value.None? {
          return false;
        }
        ok := AnnotationConstant(attrs[0].value.value);
        ghost var c := ConstantText(env, CurrentScope(), attrs[0].value.value).text;
        AppendAssoc(o, "(", c);
        if !ok {
          return;
        }
        Append(")");
        Nl();
        AppendAssoc(o, "(" + c + ")", "\n");
        AppendAssoc(o, "(" + c, ")");
      } else {
        var first;
        ok, first := AnnotationAttributes(attrs);
        ghost var e := AttributesUpTo(env, CurrentScope(), attrs, |attrs|);
        if !ok {
          return;
        }
        ghost var mid := out;
        if !first {
          Append(")");
        }
        assert out == mid + (if e.first then "" else ")");
        Nl();
        AppendAssoc(o, e.text + (if e.first then "" else ")"), "\n");
        AppendAssoc(o, e.text, if e.first then "" else ")");
      }
    }

    /** The attribute loop of `annotation(annotation)`, up to but not including the closing parenthesis. */
    method AnnotationAttributes(attrs: seq<AnnotationAttribute>) returns (ok: bool, first: bool)
      modifies this`out
      ensures ok == AttributesUpTo(env, CurrentScope(), attrs, |attrs|).ok
      ensures first == AttributesUpTo(env, CurrentScope(), attrs, |attrs|).first
      ensures out == old(out) + AttributesUpTo(env, CurrentScope(), attrs, |attrs|).text
    {
      ghost var start := out;
      first := true;
      var i := 0;
      while i < |attrs|
        invariant 0 <= i <= |attrs|
        invariant AttributesUpTo(env, CurrentScope(), attrs, i).ok
        invariant first == AttributesUpTo(env, CurrentScope(), attrs, i).first
        invariant out == start + AttributesUpTo(env, CurrentScope(), attrs, i).text
      {
        var stepOk;
        stepOk, first := AttributeStep(attrs, i, first, start);
        if !stepOk {
          AttributesStopAfterFailure(env, CurrentScope(), attrs, i + 1, |attrs|);
          return false, first;
        }
        i := i + 1;
      }
      ok := true;
    }

    /** One turn of the attribute loop: skip, fail on an array without default, or write the attribute. */
    method AttributeStep(attrs: seq<AnnotationAttribute>, i: nat, first: bool, ghost start: string) returns (ok: bool, nextFirst: bool)
      requires i < |attrs|
      requires AttributesUpTo(env, CurrentScope(), attrs, i).ok
      requires first == AttributesUpTo(env, CurrentScope(), attrs, i).first
      requires out == start + AttributesUpTo(env, CurrentScope(), attrs, i).text
      modifies this`out
      ensures ok == AttributesUpTo(env, CurrentScope(), attrs, i + 1).ok
      ensures nextFirst == AttributesUpTo(env, CurrentScope(), attrs, i + 1).first
      ensures out == start + AttributesUpTo(env, CurrentScope(), attrs, i + 1).text
    {
      var a := attrs[i];
      if Skipped(a) {
        return true, first;
      }
      if a.value.value.ArrayValue? && a.defaultValue.None? {
        return false, first;
      }
      ghost var prev := AttributesUpTo(env, CurrentScope(), attrs, i);
      ghost var item := (if first then "(" else Comma) + a.name + "=" + ConstantText(env, CurrentScope(), a.value.value).text;
      ok := Attribute(a, first);
      AppendAssoc(start, prev.text, item);
      assert AttributesUpTo(env, CurrentScope(), attrs, i + 1) == AttributesEmitted(prev.text + item, ok, false);
      nextFirst := false;
    }

    /** One written attribute: `(` or the separator, then `name=value`. */
    method Attribute(a: AnnotationAttribute, first: bool) returns (ok: bool)
      requires a.value.Some?
      modifies this`out
      ensures ok == ConstantText(env, CurrentScope(), a.value.value).ok
      ensures out == old(out) + ((if first then "(" else Comma) + a.name + "=" + ConstantText(env, CurrentScope(), a.value.value).text)
    {
      ghost var o := out;
      ghost var lead := if first then "(" else Comma;
      if !first {
        Append(Comma);
      } else {
        Append("(");
      }
      Append(a.name);
      Append("=");
      ok := AnnotationConstant(a.value.value);
      ghost var c := ConstantText(env, CurrentScope(), a.value.value).text;
      AppendAssoc(o, lead + a.name + "=", c);
      AppendAssoc(o, lead + a.name, "=");
      AppendAssoc(o, lead, a.name);
    }

    /** `annotation(annotationClass)`: `@Name` on a line of its own. */
    method AnnotationOfClass(t: Type)
      modifies this`out
      ensures out == old(out) + LineText(env, level, "@" + GenericName(env, CurrentScope(), false, t))
    {
      BeginLine("");
      Append("@");
      var named := AppendType(t, true);
      Nl();
    }

    // Imports and the package.

    /** The loop shared by the import methods: each name is recorded, then written on an `import` line. */
    method AddImports(names: seq<string>, suffix: string, asPackages: bool)
      modifies this`out, this`classes, this`packages
      ensures asPackages ==> packages == old(packages) + NameSet(names) && classes == old(classes)
      ensures !asPackages ==> classes == old(classes) + NameSet(names) && packages == old(packages)
      ensures out == old(out) + ImportLines(env, level, names, suffix) + "\n"
    {
      ghost var start := out;
      var i := 0;
      while i < |names|
        invariant 0 <= i <= |names|
        invariant asPackages ==> packages == old(packages) + NameSet(names[..i]) && classes == old(classes)
        invariant !asPackages ==> classes == old(classes) + NameSet(names[..i]) && packages == old(packages)
        invariant out == start + ImportLines(env, level, names[..i], suffix)
      {
        ghost var before := ImportLines(env, level, names[..i], suffix);
        if asPackages {
          packages := packages + {names[i]};
        } else {
          classes := classes + {names[i]};
        }
        Line("import " + names[i] + suffix);
        assert names[..i + 1][..i] == names[..i];
        AppendAssoc(start, before, LineText(env, level, "import " + names[i] + suffix));
        assert NameSet(names[..i + 1]) == NameSet(names[..i]) + {names[i]} by {
          assert names[..i + 1] == names[..i] + [names[i]];
        }
        i := i + 1;
      }
      assert names[..|names|] == names;
      Nl();
    }

    /** `imports(vararg classes)`. */
    method Imports(classNames: seq<string>)
      modifies this`out, this`classes, this`packages
      ensures classes == old(classes) + NameSet(classNames) && packages == old(packages)
      ensures out == old(out) + ImportLines(env, level, classNames, "") + "\n"
    {
      AddImports(classNames, "", false);
    }

    /** `staticimports(vararg classes)`: the classes' members, imported with `.*`. */
    method StaticImports(classNames: seq<string>)
      modifies this`out, this`classes, this`packages
      ensures classes == old(classes) + NameSet(classNames) && packages == old(packages)
      ensures out == old(out) + ImportLines(env, level, classNames, ".*") + "\n"
    {
      AddImports(classNames, ".*", false);
    }

    /** `imports(vararg packages)`. */
    method ImportsOfPackages(packageNames: seq<string>)
      modifies this`out, this`classes, this`packages
      ensures packages == old(packages) + NameSet(packageNames) && classes == old(classes)
      ensures out == old(out) + ImportLines(env, level, packageNames, ".*") + "\n"
    {
      AddImports(packageNames, ".*", true);
    }

    /** `importClasses(vararg names)`. */
    method ImportClasses(classNames: seq<string>)
      modifies this`out, this`classes, this`packages
      ensures classes == old(classes) + NameSet(classNames) && packages == old(packages)
      ensures out == old(out) + ImportLines(env, level, classNames, "") + "\n"
    {
      AddImports(classNames, "", false);
    }

    /** `importPackages(vararg names)`: these lines end in `.*;`. */
    method ImportPackages(packageNames: seq<string>)
      modifies this`out, this`classes, this`packages
      ensures packages == old(packages) + NameSet(packageNames) && classes == old(classes)
      ensures out == old(out) + ImportLines(env, level, packageNames, ".*;") + "\n"
    {
      AddImports(packageNames, ".*;", true);
    }

    /** `packageDecl(packageName)`: the package is recorded, then declared, then a blank line. */
    method PackageDecl(packageName: string)
      modifies this`out, this`packages
      ensures packages == old(packages) + {packageName}
      ensures out == old(out) + LineText(env, level, "package " + packageName) + "\n"
    {
      packages := packages + {packageName};
      Line("package " + packageName);
      Nl();
    }

    /** `javadoc(...)` writes nothing. */
    method Javadoc(lines: seq<string>)
      ensures out == old(out)
    {
    }

    /** `suppressWarnings(...)` writes nothing. */
    method SuppressWarnings(names: seq<string>)
      ensures out == old(out)
    {
    }

    // Blocks.

    /** `writeDataClassWithConstructorStart(type)`: `data class Name(`, one level in. */
    method WriteDataClassWithConstructorStart(t: Type)
      modifies this`out, this`packages, this`level
      ensures packages == old(packages) + {t.packageName}
      ensures level == old(level) + 1
      ensures out == old(out) + LineText(env, old(level),
        "data class " + env.typeGenericName(t, false, packages, classes) + "(")
    {
      packages := packages + {t.packageName};
      Line("data class " + env.typeGenericName(t, false, packages, classes) + "(");
      GoIn();
    }

    /** `beginClass(type, superClass, interfaces)`: the superclass and the interface list each follow a `:`. */
    method BeginClass(t: Type, superClass: Option<Type>, interfaces: seq<Type>)
      modifies this`out, this`packages, this`level
      ensures packages == old(packages) + {t.packageName}
      ensures level == old(level) + 1
      ensures out == old(out) + Indent(env, old(level)) + "class " + env.typeGenericName(t, false, packages, classes)
        + (if superClass.Some? then ":" + env.typeGenericName(superClass.value, false, packages, classes) else "")
        + (if |interfaces| > 0 then ":" + CommaSeparatedTypes(env, CurrentScope(), interfaces) else "")
        + " {" + "\n" + "\n"
    {
      packages := packages + {t.packageName};
      ghost var o := out;
      var name := env.typeGenericName(t, false, packages, classes);
      ghost var ind := Indent(env, level);
      BeginLine("class " + name);
      AppendAssoc(o + ind, "class ", name);
      ghost var o1 := out;
      assert o1 == o + ind + "class " + name;
      SuperClassPart(superClass);
      ghost var o2 := out;
      TypeListPart(":", interfaces);
      ghost var o3 := out;
      Append(" {");
      Nl();
      Nl();
      assert out == o3 + " {" + "\n" + "\n";
      GoIn();
    }

    /** The `:Super` part of a class header, empty without a superclass. */
    method SuperClassPart(superClass: Option<Type>)
      modifies this`out
      ensures out == old(out)
        + (if superClass.Some? then ":" + env.typeGenericName(superClass.value, false, packages, classes) else "")
    {
      if superClass.Some? {
        ghost var o := out;
        Append(":");
        Append(env.typeGenericName(superClass.value, false, packages, classes));
        AppendAssoc(o, ":", env.typeGenericName(superClass.value, false, packages, classes));
      }
    }

    /** A prefix and the comma separated list of types, empty for an empty list. */
    method TypeListPart(prefix: string, types: seq<Type>)
      modifies this`out
      ensures out == old(out) + (if |types| > 0 then prefix + CommaSeparatedTypes(env, CurrentScope(), types) else "")
    {
      if |types| > 0 {
        ghost var o := out;
        Append(prefix);
        AppendCommaSeparatedTypes(types);
        AppendAssoc(o, prefix, CommaSeparatedTypes(env, CurrentScope(), types));
      }
    }

    /** `beginClass(type)`: no superclass, no interfaces. */
    method BeginPlainClass(t: Type)
      modifies this`out, this`packages, this`level
      ensures packages == old(packages) + {t.packageName}
      ensures level == old(level) + 1
      ensures out == old(out) + Indent(env, old(level)) + "class " + env.typeGenericName(t, false, packages, classes)
        + " {" + "\n" + "\n"
    {
      BeginClass(t, None, []);
    }

    /** `beginInterface(type, interfaces)`: the interface list follows `extends ` directly after the name. */
    method BeginInterface(t: Type, interfaces: seq<Type>)
      modifies this`out, this`packages, this`level
      ensures packages == old(packages) + {t.packageName}
      ensures level == old(level) + 1
      ensures out == old(out) + Indent(env, old(level)) + "interface " + env.typeGenericName(t, false, packages, classes)
        + (if |interfaces| > 0 then "extends " + CommaSeparatedTypes(env, CurrentScope(), interfaces) else "")
        + " {" + "\n" + "\n"
    {
      packages := packages + {t.packageName};
      ghost var o := out;
      var name := env.typeGenericName(t, false, packages, classes);
      ghost var ind := Indent(env, level);
      BeginLine("interface " + name);
      AppendAssoc(o + ind, "interface ", name);
      assert out == o + ind + "interface " + name;
      TypeListPart("extends ", interfaces);
      ghost var o2 := out;
      Append(" {");
      Nl();
      Nl();
      assert out == o2 + " {" + "\n" + "\n";
      GoIn();
    }

    /** `beginConstructor(vararg parameters)`. */
    method BeginConstructor(ps: seq<Parameter>)
      modifies this`out, this`level
      ensures level == old(level) + 1
      ensures out == old(out) + ConstructorHeaderText(env, CurrentScope(), old(level), Somes(ps))
    {
      ghost var o := out;
      ghost var indent := Indent(env, level);
      ghost var p := ParamsText(env, CurrentScope(), Somes(ps));
      BeginLine("constructor");
      Params(Somes(ps));
      Append(" {");
      Nl();
      GoIn();
      AppendAssoc(o, indent + "constructor" + p + " {", "\n");
      AppendAssoc(o, indent + "constructor" + p, " {");
      AppendAssoc(o, indent + "constructor", p);
      AppendAssoc(o, indent, "constructor");
    }

    /** `beginConstructor(superCall, vararg parameters)`: a constructor delegating to `superCall`. */
    method BeginDelegatingConstructor(superCall: string, ps: seq<Parameter>)
      modifies this`out, this`level
      ensures level == old(level) + 1
      ensures out == old(out) + Indent(env, old(level)) + "constructor" + ParamsText(env, CurrentScope(), Somes(ps))
                     + " :" + superCall + " {" + "\n"
    {
      BeginLine("constructor");
      Params(Somes(ps));
      Append(" :");
      Append(superCall);
      Append(" {");
      Nl();
      GoIn();
    }

    /** `beginConstructor(parameters, transformer)`, with its header corrected to the vararg form. */
    method BeginConstructorOf<T>(xs: seq<T>, f: T -> Parameter)
      modifies this`out, this`level
      ensures level == old(level) + 1
      ensures out == old(out) + ConstructorHeaderText(env, CurrentScope(), old(level), Applied(xs, f))
    {
      ghost var o := out;
      ghost var indent := Indent(env, level);
      ghost var p := ParamsText(env, CurrentScope(), Applied(xs, f));
      BeginLine("constructor");
      ParamsOf(xs, f);
      Append(" {");
      Nl();
      GoIn();
      AppendAssoc(o, indent + "constructor" + p + " {", "\n");
      AppendAssoc(o, indent + "constructor" + p, " {");
      AppendAssoc(o, indent + "constructor", p);
      AppendAssoc(o, indent, "constructor");
    }

    /** `beginMethod(modifiers, returnType, methodName, args)`. */
    method BeginMethod(modifiers: string, returnType: Type, methodName: string, args: seq<Option<Parameter>>)
      modifies this`out, this`level
      ensures level == old(level) + 1
      ensures out == old(out) + MethodHeaderText(env, CurrentScope(), old(level), modifiers, returnType, methodName, args)
    {
      ghost var o := out;
      ghost var ind := Indent(env, level);
      ghost var p := ParamsText(env, CurrentScope(), args);
      var r := GenericName(env, CurrentScope(), true, returnType);
      BeginLine(modifiers + "fun " + methodName);
      assert out == o + (ind + modifiers + "fun " + methodName);
      ghost var acc := ind + modifiers + "fun " + methodName;
      Params(args);
      AppendAssoc(o, acc, p);
      acc := acc + p;
      Append(" : ");
      AppendAssoc(o, acc, " : ");
      acc := acc + " : ";
      Append(r);
      AppendAssoc(o, acc, r);
      acc := acc + r;
      Append(" {");
      AppendAssoc(o, acc, " {");
      acc := acc + " {";
      Nl();
      AppendAssoc(o, acc, "\n");
      acc := acc + "\n";
      assert acc == MethodHeaderText(env, CurrentScope(), old(level), modifiers, returnType, methodName, args);
      GoIn();
    }

    /** `beginPublicMethod(type, methodName, vararg parameters)`: no modifiers. */
    method BeginPublicMethod(returnType: Type, methodName: string, ps: seq<Parameter>)
      modifies this`out, this`level
      ensures level == old(level) + 1
      ensures out == old(out) + MethodHeaderText(env, CurrentScope(), old(level), "", returnType, methodName, Somes(ps))
    {
      BeginMethod("", returnType, methodName, Somes(ps));
    }

    /** `beginPublicMethod(type, methodName, parameters, transformer)`. */
    method BeginPublicMethodOf<T>(returnType: Type, methodName: string, xs: seq<T>, f: T -> Option<Parameter>)
      modifies this`out, this`level
      ensures level == old(level) + 1
      ensures out == old(out) + MethodHeaderText(env, CurrentScope(), old(level), "", returnType, methodName, Transformed(xs, f))
    {
      var args := TransformParams(xs, f);
      assert args == Transformed(xs, f);
      BeginMethod("", returnType, methodName, args);
    }

    /** `beginStaticMethod(type, methodName, vararg parameters)`: written exactly as a public method. */
    method BeginStaticMethod(returnType: Type, methodName: string, ps: seq<Parameter>)
      modifies this`out, this`level
      ensures level == old(level) + 1
      ensures out == old(out) + MethodHeaderText(env, CurrentScope(), old(level), "", returnType, methodName, Somes(ps))
    {
      BeginMethod("", returnType, methodName, Somes(ps));
    }

    /** `beginStaticMethod(type, methodName, parameters, transformer)`. */
    method BeginStaticMethodOf<T>(returnType: Type, methodName: string, xs: seq<T>, f: T -> Option<Parameter>)
      modifies this`out, this`level
      ensures level == old(level) + 1
      ensures out == old(out) + MethodHeaderText(env, CurrentScope(), old(level), "", returnType, methodName, Transformed(xs, f))
    {
      var args := TransformParams(xs, f);
      assert args == Transformed(xs, f);
      BeginMethod("", returnType, methodName, args);
    }

    /** `beginCompanionObject()`. */
    method BeginCompanionObject()
      modifies this`out, this`level
      ensures level == old(level) + 1
      ensures out == old(out) + LineText(env, old(level), "companion object {")
    {
      Line("companion object {");
      GoIn();
    }

    /** `end()`: one level out, then the closing brace. */
    method End()
      requires level > 0
      modifies this`out, this`level
      ensures level == old(level) - 1
      ensures out == old(out) + EndText(env, old(level))
    {
      GoOut();
      Line("}");
    }

    // Fields.

    /** `field(modifier, type, name, nullable, commaSuffix)`. */
    method FieldLine(modifier: string, t: Type, name: string, nullable: bool, commaSuffix: bool)
      modifies this`out
      ensures out == old(out) + LineText(env, level,
        FieldText(modifier, name, GenericName(env, CurrentScope(), false, t), nullable, commaSuffix))
    {
      Line(FieldText(modifier, name, GenericName(env, CurrentScope(), false, t), nullable, commaSuffix));
    }

    /** `field(modifier, type, name, value, nullable)`: the type is named as an argument type. */
    method FieldLineWithValue(modifier: string, t: Type, name: string, value: string, nullable: bool)
      modifies this`out
      ensures out == old(out) + LineText(env, level,
        FieldValueText(modifier, name, GenericName(env, CurrentScope(), true, t), nullable, value))
    {
      Line(FieldValueText(modifier, name, GenericName(env, CurrentScope(), true, t), nullable, value));
    }

    /** `field(type, name)`: the modifier is `var ` with its own trailing blank. */
    method Field(t: Type, name: string)
      modifies this`out
      ensures out == old(out) + LineText(env, level,
        FieldText("var ", name, GenericName(env, CurrentScope(), false, t), false, false))
    {
      FieldLine("var ", t, name, false, false);
    }

    method PrivateField(t: Type, name: string)
      modifies this`out
      ensures out == old(out) + LineText(env, level,
        FieldText("private var", name, GenericName(env, CurrentScope(), false, t), false, false))
    {
      FieldLine("private var", t, name, false, false);
    }

    method PrivateFinal(t: Type, name: string)
      modifies this`out
      ensures out == old(out) + LineText(env, level,
        FieldText("private val", name, GenericName(env, CurrentScope(), false, t), false, false))
    {
      FieldLine("private val", t, name, false, false);
    }

    method PrivateFinalWithValue(t: Type, name: string, value: string)
      modifies this`out
      ensures out == old(out) + LineText(env, level,
        FieldValueText("private val", name, GenericName(env, CurrentScope(), true, t), false, value))
    {
      FieldLineWithValue("private val", t, name, value, false);
    }

    method PrivateStaticFinal(t: Type, name: string, value: string)
      modifies this`out
      ensures out == old(out) + LineText(env, level,
        FieldValueText("private val", name, GenericName(env, CurrentScope(), true, t), false, value))
    {
      FieldLineWithValue("private val", t, name, value, false);
    }

    method ProtectedField(t: Type, name: string)
      modifies this`out
      ensures out == old(out) + LineText(env, level,
        FieldText("protected var", name, GenericName(env, CurrentScope(), false, t), false, false))
    {
      FieldLine("protected var", t, name, false, false);
    }

    method ProtectedFinal(t: Type, name: string)
      modifies this`out
      ensures out == old(out) + LineText(env, level,
        FieldText("protected val", name, GenericName(env, CurrentScope(), false, t), false, false))
    {
      FieldLine("protected val", t, name, false, false);
    }

    method ProtectedFinalWithValue(t: Type, name: string, value: string)
      modifies this`out
      ensures out == old(out) + LineText(env, level,
        FieldValueText("protected val", name, GenericName(env, CurrentScope(), true, t), false, value))
    {
      FieldLineWithValue("protected val", t, name, value, false);
    }

    method PublicField(t: Type, name: string)
      modifies this`out
      ensures out == old(out) + LineText(env, level,
        FieldText("var", name, GenericName(env, CurrentScope(), false, t), false, false))
    {
      FieldLine("var", t, name, false, false);
    }

    method PublicFieldWithValue(t: Type, name: string, value: string)
      modifies this`out
      ensures out == old(out) + LineText(env, level,
        FieldValueText("var", name, GenericName(env, CurrentScope(), true, t), false, value))
    {
      FieldLineWithValue("var", t, name, value, false);
    }

    /** `publicField(type, name, nullable, commaSuffix)`, the one the bean serializer uses. */
    method PublicNullableField(t: Type, name: string, nullable: bool, commaSuffix: bool)
      modifies this`out
      ensures out == old(out) + LineText(env, level,
        FieldText("var", name, GenericName(env, CurrentScope(), false, t), nullable, commaSuffix))
    {
      FieldLine("var", t, name, nullable, commaSuffix);
    }

    method PublicFinal(t: Type, name: string)
      modifies this`out
      ensures out == old(out) + LineText(env, level,
        FieldText("val", name, GenericName(env, CurrentScope(), false, t), false, false))
    {
      FieldLine("val", t, name, false, false);
    }

    method PublicFinalWithValue(t: Type, name: string, value: string)
      modifies this`out
      ensures out == old(out) + LineText(env, level,
        FieldValueText("val", name, GenericName(env, CurrentScope(), true, t), false, value))
    {
      FieldLineWithValue("val", t, name, value, false);
    }

    method PublicStaticFinal(t: Type, name: string, value: string)
      modifies this`out
      ensures out == old(out) + LineText(env, level,
        FieldValueText("val", name, GenericName(env, CurrentScope(), true, t), false, value))
    {
      FieldLineWithValue("val", t, name, value, false);
    }
  }

  /** The writer a serializer is handed: this writer, or some other `CodeWriter`. */
  datatype WriterRef = KotlinWriterRef(w: KotlinCodeWriter) | OtherWriter
}
