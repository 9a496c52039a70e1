/**
 * `KotlinBeanSerializer`: writes an entity as a Kotlin `data class` whose
 * primary constructor declares one `var` per property.
 *
 * The text the serializer produces is first given as pure functions of the
 * writer's state before the call (`BeanText`), with lemmas on what that
 * text looks like; the serializer's methods are then proved to append
 * exactly that text through a `KotlinCodeWriter`.
 */
module BeanSerializer {
  import opened Wrappers
  import opened Strings
  import opened CodegenModel
  import opened KotlinWriter

  /** `Generated::class.java.name`. */
  const GeneratedName := "javax.annotation.Generated"
  /** The JVM names of Kotlin's `List`, `Collection`, `Set`, `Map`, and of `java.util.Arrays`. */
  const ListName := "java.util.List"
  const CollectionName := "java.util.Collection"
  const SetName := "java.util.Set"
  const MapName := "java.util.Map"
  const ArraysName := "java.util.Arrays"
  /**
   * `javaClass.name` of a serializer that is an instance of the class
   * itself; an instance of a subclass records the subclass's name instead.
   */
  const SerializerName := "io.github.kartoffelsup.ktqdsl.KotlinBeanSerializer"
  /** What follows every field but the last: `append(",").nl()`. */
  const FieldSeparator := ",\n"

  /** How `serialize` ends: normally, on a writer of the wrong kind, or on an annotation it cannot print. */
  datatype Outcome = Written | WrongWriter | AnnotationFailed

  // ---------------------------------------------------------------------
  // The import set

  /**
   * The runtime class names of the entity's annotations, as
   * `getAnnotationTypes` collects them; `classNameOf` is the JVM's
   * `javaClass.name` of an annotation object.
   */
  function AnnotationClassNames(anns: seq<AnnotationInstance>, classNameOf: AnnotationInstance -> string): set<string> {
    set i | 0 <= i < |anns| :: classNameOf(anns[i])
  }

  /** The classes `serialize` imports. */
  function ImportSet(model: EntityType, classNameOf: AnnotationInstance -> string): set<string> {
    AnnotationClassNames(model.annotations, classNameOf) + {GeneratedName}
      + (if model.hasLists then {ListName} else {})
      + (if model.hasCollections then {CollectionName} else {})
      + (if model.hasSets then {SetName} else {})
      + (if model.hasMaps then {MapName} else {})
      + (if model.hasArrays then {ArraysName} else {})
  }

  /**
   * The import set holds `Generated` and the class of every annotation, and
   * each collection class exactly when the entity uses that kind of
   * collection (provided no annotation object claims that class name).
   * Nothing else is imported.
   */
  lemma ImportSetContents(model: EntityType, classNameOf: AnnotationInstance -> string)
    ensures var r := ImportSet(model, classNameOf);
      && GeneratedName in r
      && (forall i :: 0 <= i < |model.annotations| ==> classNameOf(model.annotations[i]) in r)
      && (forall n :: n in r ==>
            || n == GeneratedName
            || (exists i :: 0 <= i < |model.annotations| && classNameOf(model.annotations[i]) == n)
            || n in {ListName, CollectionName, SetName, MapName, ArraysName})
    ensures var anns := AnnotationClassNames(model.annotations, classNameOf);
      var r := ImportSet(model, classNameOf);
      && (ListName !in anns ==> (ListName in r <==> model.hasLists))
      && (CollectionName !in anns ==> (CollectionName in r <==> model.hasCollections))
      && (SetName !in anns ==> (SetName in r <==> model.hasSets))
      && (MapName !in anns ==> (MapName in r <==> model.hasMaps))
      && (ArraysName !in anns ==> (ArraysName in r <==> model.hasArrays))
  {
  }

  /** `getAnnotationTypes(model)`: one pass over the annotations, adding each one's class name. */
  method AnnotationTypes(anns: seq<AnnotationInstance>, classNameOf: AnnotationInstance -> string)
    returns (imports: set<string>)
    ensures forall i :: 0 <= i < |anns| ==> classNameOf(anns[i]) in imports
    ensures forall n :: n in imports ==> exists i :: 0 <= i < |anns| && classNameOf(anns[i]) == n
    ensures imports == AnnotationClassNames(anns, classNameOf)
  {
    imports := {};
    for i := 0 to |anns|
      invariant imports == AnnotationClassNames(anns[..i], classNameOf)
    {
      assert AnnotationClassNames(anns[..i + 1], classNameOf)
          == AnnotationClassNames(anns[..i], classNameOf) + {classNameOf(anns[i])} by {
        assert forall j :: 0 <= j < i ==> anns[..i + 1][j] == anns[..i][j];
      }
      imports := imports + {classNameOf(anns[i])};
    }
    assert anns[..|anns|] == anns;
  }

  /** The import set of `serialize`, grown step by step as the source does. */
  method ImportedClasses(model: EntityType, classNameOf: AnnotationInstance -> string)
    returns (imported: set<string>)
    ensures imported == ImportSet(model, classNameOf)
  {
    imported := AnnotationTypes(model.annotations, classNameOf);
    imported := imported + {GeneratedName};
    if model.hasLists {
      imported := imported + {ListName};
    }
    if model.hasCollections {
      imported := imported + {CollectionName};
    }
    if model.hasSets {
      imported := imported + {SetName};
    }
    if model.hasMaps {
      imported := imported + {MapName};
    }
    if model.hasArrays {
      imported := imported + {ArraysName};
    }
  }

  /** No name occurs twice. */
  predicate Distinct(names: seq<string>) {
    forall i, j :: 0 <= i < j < |names| ==> names[i] != names[j]
  }

  /**
   * `toTypedArray()` of a hash set: every element exactly once, in an order
   * the model leaves open.
   */
  method ImportOrder(names: set<string>) returns (order: seq<string>)
    ensures NameSet(order) == names
    ensures Distinct(order)
  {
    order := [];
    var rest := names;
    while rest != {}
      invariant NameSet(order) + rest == names
      invariant NameSet(order) !! rest
      invariant Distinct(order)
      decreases rest
    {
      var n :| n in rest;
      assert NameSet(order + [n]) == NameSet(order) + {n};
      order := order + [n];
      rest := rest - {n};
    }
  }

  // ---------------------------------------------------------------------
  // The text written

  /** A field is nullable when its column metadata says so, and when there is no column metadata. */
  predicate Nullable(p: Property) {
    match p.column
    case Some(c) => c.isNullable
    case None => true
  }

  /** The line `publicField(type, escapedName, nullable)` writes for a property. */
  function FieldLine(env: Env, scope: Scope, level: nat, p: Property): string {
    LineText(env, level, FieldText("var", p.escapedName, GenericName(env, scope, false, p.propertyType), Nullable(p), false))
  }

  /** One field line per property, in property order. */
  function FieldLines(env: Env, scope: Scope, level: nat, props: seq<Property>): (r: seq<string>)
    ensures |r| == |props| && forall i :: 0 <= i < |props| ==> r[i] == FieldLine(env, scope, level, props[i])
  {
    seq(|props|, i requires 0 <= i < |props| => FieldLine(env, scope, level, props[i]))
  }

  /** The fields with a separator after all but the last, then the closing parenthesis. */
  function FieldsText(env: Env, scope: Scope, level: nat, props: seq<Property>): string {
    Join(FieldSeparator, FieldLines(env, scope, level, props)) + ")"
  }

  /** The package declaration, written only for a non-empty package name. */
  function PackageText(env: Env, level: nat, model: EntityType): string {
    if model.modelType.packageName != "" then LineText(env, level, "package " + model.modelType.packageName) + "\n"
    else ""
  }

  /** `line("@Generated(\"", javaClass.name, "\")")`, for a serializer whose runtime class is `generator`. */
  function GeneratedLine(env: Env, level: nat, generator: string): string {
    LineText(env, level, "@Generated(\"" + generator + "\")")
  }

  /** Pieces written in turn: their text up to and including the first that fails. */
  function UntilFailure(parts: seq<Emitted>, n: nat): Emitted
    requires n <= |parts|
  {
    if n == 0 then Emitted("", true)
    else
      var prev := UntilFailure(parts, n - 1);
      if !prev.ok then prev
      else Emitted(prev.text + parts[n - 1].text, parts[n - 1].ok)
  }

  /** After a failure nothing more is written. */
  lemma {:induction false} UntilFailureStops(parts: seq<Emitted>, k: nat, n: nat)
    requires k <= n <= |parts|
    requires !UntilFailure(parts, k).ok
    ensures UntilFailure(parts, n) == UntilFailure(parts, k)
    decreases n
  {
    if n > k {
      UntilFailureStops(parts, k, n - 1);
    }
  }

  /** The pieces are all written exactly when none of them fails. */
  lemma {:induction false} UntilFailureOkIff(parts: seq<Emitted>, n: nat)
    requires n <= |parts|
    ensures UntilFailure(parts, n).ok <==> forall i :: 0 <= i < n ==> parts[i].ok
  {
    if n > 0 {
      UntilFailureOkIff(parts, n - 1);
    }
  }

  /** What `annotation(...)` writes for each of the entity's annotations on its own. */
  function AnnotationTexts(env: Env, scope: Scope, level: nat, anns: seq<AnnotationInstance>): seq<Emitted> {
    seq(|anns|, j requires 0 <= j < |anns| => AnnotationText(env, scope, level, anns[j]))
  }

  /** The annotations' lines, up to and including the first one that fails. */
  function AnnotationsUpTo(env: Env, scope: Scope, level: nat, anns: seq<AnnotationInstance>, n: nat): Emitted
    requires n <= |anns|
  {
    UntilFailure(AnnotationTexts(env, scope, level, anns), n)
  }

  /** The annotations are all written exactly when each of them can be. */
  lemma AnnotationsOkIff(env: Env, scope: Scope, level: nat, anns: seq<AnnotationInstance>, n: nat)
    requires n <= |anns|
    ensures AnnotationsUpTo(env, scope, level, anns, n).ok
        <==> forall i :: 0 <= i < n ==> AnnotationText(env, scope, level, anns[i]).ok
  {
    var parts := AnnotationTexts(env, scope, level, anns);
    UntilFailureOkIff(parts, n);
    assert forall i :: 0 <= i < n ==> parts[i] == AnnotationText(env, scope, level, anns[i]);
  }

  /** The scope after `packageDecl` (only called for a non-empty package). */
  function AfterPackage(scope: Scope, model: EntityType): Scope {
    if model.modelType.packageName != "" then Scope(scope.classes, scope.packages + {model.modelType.packageName})
    else scope
  }

  /** The scope after `importClasses`. */
  function AfterImports(scope: Scope, imports: seq<string>): Scope {
    Scope(scope.classes + NameSet(imports), scope.packages)
  }

  /** The scope after `writeDataClassWithConstructorStart`. */
  function AfterDataClass(scope: Scope, model: EntityType): Scope {
    Scope(scope.classes, scope.packages + {model.modelType.packageName})
  }

  /** The part written before the annotations: package declaration and imports. */
  function PreambleText(env: Env, level: nat, model: EntityType, imports: seq<string>): string {
    PackageText(env, level, model) + ImportLines(env, level, imports, "") + "\n"
  }

  /** The `data class Name(` line. */
  function DataClassLine(env: Env, scope: Scope, level: nat, model: EntityType): string {
    LineText(env, level, "data class " + env.typeGenericName(model.modelType, false, scope.packages, scope.classes) + "(")
  }

  /** What follows the annotations: the `@Generated` line, the class line and the fields. */
  function ClassText(env: Env, scope: Scope, level: nat, model: EntityType, generator: string): string {
    GeneratedLine(env, level, generator) + DataClassLine(env, scope, level, model) + FieldsText(env, scope, level + 1, model.properties)
  }

  /**
   * Everything `serialize` writes on a writer in `scope` at `level`, with
   * the import names in the order given, by a serializer whose runtime
   * class is `generator`. It stops after an annotation it cannot print.
   */
  function BeanText(env: Env, scope: Scope, level: nat, model: EntityType, imports: seq<string>, generator: string): Emitted {
    var s2 := AfterImports(AfterPackage(scope, model), imports);
    var anns := AnnotationsUpTo(env, s2, level, model.annotations, |model.annotations|);
    var rest := if anns.ok then anns.text + ClassText(env, AfterDataClass(s2, model), level, model, generator) else anns.text;
    Emitted(PreambleText(env, level, model, imports) + rest, anns.ok)
  }

  // ---------------------------------------------------------------------
  // What the text looks like

  /** A non-empty list of import lines starts with the indentation and `import `. */
  lemma {:induction false} ImportLinesStart(env: Env, level: nat, names: seq<string>, suffix: string)
    requires |names| > 0
    ensures StartsWith(ImportLines(env, level, names, suffix), Indent(env, level) + "import ")
  {
    var name := names[|names| - 1];
    var last := LineText(env, level, "import " + name + suffix);
    var pre := Indent(env, level) + "import ";
    assert ("import " + name)[..|"import "|] == "import ";
    StartsWithAppend("import " + name, suffix, "import ");
    StartsWithPrepend(Indent(env, level), "import " + name + suffix, "import ");
    StartsWithAppend(Indent(env, level) + ("import " + name + suffix), "\n", pre);
    assert StartsWith(last, pre);
    if |names| > 1 {
      ImportLinesStart(env, level, names[..|names| - 1], suffix);
      StartsWithAppend(ImportLines(env, level, names[..|names| - 1], suffix), last, pre);
    } else {
      assert ImportLines(env, level, names, suffix) == "" + last;
    }
  }

  /** The output opens with a `package` line exactly when the entity's package name is non-empty. */
  lemma PackageDeclaredIffNamed(env: Env, scope: Scope, level: nat, model: EntityType, imports: seq<string>, generator: string)
    ensures StartsWith(BeanText(env, scope, level, model, imports, generator).text, Indent(env, level) + "package ")
        <==> model.modelType.packageName != ""
  {
    var text := BeanText(env, scope, level, model, imports, generator).text;
    var ind := Indent(env, level);
    var pre := ind + "package ";
    var pkg := model.modelType.packageName;
    var il := ImportLines(env, level, imports, "");
    var preamble := PreambleText(env, level, model, imports);
    var rest := text[|preamble|..];
    assert text == preamble + rest;
    if pkg != "" {
      assert ("package " + pkg)[..|"package "|] == "package ";
      StartsWithPrepend(ind, "package " + pkg, "package ");
      var line := ind + ("package " + pkg);
      StartsWithAppend(line, "\n", pre);
      StartsWithAppend(line + "\n", "\n", pre);
      StartsWithAppend(line + "\n" + "\n", il, pre);
      StartsWithAppend(line + "\n" + "\n" + il, "\n", pre);
      assert preamble == line + "\n" + "\n" + il + "\n";
      StartsWithAppend(preamble, rest, pre);
    } else {
      assert preamble == il + "\n";
      if |imports| > 0 {
        ImportLinesStart(env, level, imports, "");
        var ipre := ind + "import ";
        StartsWithAppend(il, "\n", ipre);
        StartsWithAppend(preamble, rest, ipre);
        assert text[|ind|] == text[..|ipre|][|ind|] == ipre[|ind|] == 'i';
      } else {
        assert il == "";
        assert text[0] == '\n';
        assert pre[0] == ' ' || pre[0] == 'p';
      }
    }
  }

  /**
   * The text is written in full exactly when every annotation can be
   * printed; then it ends with the fields and the closing parenthesis.
   */
  lemma BeanTextOkIff(env: Env, scope: Scope, level: nat, model: EntityType, imports: seq<string>, generator: string)
    ensures var s2 := AfterImports(AfterPackage(scope, model), imports);
      BeanText(env, scope, level, model, imports, generator).ok <==>
        forall i :: 0 <= i < |model.annotations| ==> AnnotationText(env, s2, level, model.annotations[i]).ok
    ensures var s3 := AfterDataClass(AfterImports(AfterPackage(scope, model), imports), model);
      BeanText(env, scope, level, model, imports, generator).ok ==>
        EndsWith(BeanText(env, scope, level, model, imports, generator).text, FieldsText(env, s3, level + 1, model.properties))
  {
    var s2 := AfterImports(AfterPackage(scope, model), imports);
    AnnotationsOkIff(env, s2, level, model.annotations, |model.annotations|);
    var text := BeanText(env, scope, level, model, imports, generator).text;
    if BeanText(env, scope, level, model, imports, generator).ok {
      var s3 := AfterDataClass(s2, model);
      var anns := AnnotationsUpTo(env, s2, level, model.annotations, |model.annotations|);
      var fields := FieldsText(env, s3, level + 1, model.properties);
      var front := GeneratedLine(env, level, generator) + DataClassLine(env, s3, level, model);
      var pre := PreambleText(env, level, model, imports);
      assert text == pre + (anns.text + (front + fields));
      AppendAssoc(anns.text, front, fields);
      AppendAssoc(pre, anns.text + front, fields);
      assert text == (pre + (anns.text + front)) + fields;
      EndsWithAppend(pre + (anns.text + front), fields);
    }
  }

  /** Without properties the constructor is closed at once. */
  lemma NoPropertiesNoFields(env: Env, scope: Scope, level: nat)
    ensures FieldsText(env, scope, level, []) == ")"
  {
    assert FieldLines(env, scope, level, []) == [];
  }

  /** A field line, and its type's rendered name, contain no comma when the name and type do not. */
  lemma FieldLineHasNoComma(env: Env, scope: Scope, level: nat, p: Property)
    requires ',' !in p.escapedName && ',' !in GenericName(env, scope, false, p.propertyType)
    ensures ',' !in FieldLine(env, scope, level, p)
  {
    var ind := Indent(env, level);
    assert ',' !in ind;
  }

  /** The separator holds one comma; the closing parenthesis none. */
  lemma SeparatorCommas()
    ensures CountChar(FieldSeparator, ',') == 1
    ensures CountChar(")", ',') == 0
  {
    assert FieldSeparator[..1] == ",";
    assert FieldSeparator[..0] == "";
    assert ")"[..0] == "";
  }

  /**
   * n properties give n - 1 separators, when no name or type name holds a
   * comma.
   */
  lemma FieldSeparators(env: Env, scope: Scope, level: nat, props: seq<Property>)
    requires |props| > 0
    requires forall i :: 0 <= i < |props| ==>
      ',' !in props[i].escapedName && ',' !in GenericName(env, scope, false, props[i].propertyType)
    ensures CountChar(FieldsText(env, scope, level, props), ',') == |props| - 1
  {
    var lines := FieldLines(env, scope, level, props);
    forall i | 0 <= i < |lines|
      ensures ',' !in lines[i]
    {
      FieldLineHasNoComma(env, scope, level, props[i]);
    }
    CountCharJoin(FieldSeparator, lines, ',');
    SeparatorCommas();
    CountCharAppend(Join(FieldSeparator, lines), ")", ',');
  }

  /** Nothing follows the last field but the closing parenthesis. */
  lemma LastFieldClosed(env: Env, scope: Scope, level: nat, props: seq<Property>)
    requires |props| > 0
    ensures EndsWith(FieldsText(env, scope, level, props), FieldLine(env, scope, level, props[|props| - 1]) + ")")
  {
    var lines := FieldLines(env, scope, level, props);
    var front := if |lines| == 1 then "" else Join(FieldSeparator, lines[..|lines| - 1]) + FieldSeparator;
    assert Join(FieldSeparator, lines) == front + lines[|lines| - 1];
    AppendAssoc(front, lines[|lines| - 1], ")");
    EndsWithAppend(front, lines[|lines| - 1] + ")");
  }

  /**
   * A field line ends in `?` and the newline exactly when the property is
   * nullable, when the rendered type name does not itself end in `?`.
   */
  lemma FieldNullability(env: Env, scope: Scope, level: nat, p: Property)
    requires !EndsWith(GenericName(env, scope, false, p.propertyType), "?")
    ensures EndsWith(FieldLine(env, scope, level, p), "?\n")
        <==> (p.column.None? || p.column.value.isNullable)
  {
    var typeName := GenericName(env, scope, false, p.propertyType);
    var ft := FieldText("var", p.escapedName, typeName, Nullable(p), false);
    var d := "var" + " " + p.escapedName + " : " + typeName;
    var line := FieldLine(env, scope, level, p);
    assert line == Indent(env, level) + ft + "\n";
    assert ft == d + (if Nullable(p) then "?" else "");
    if |typeName| > 0 {
      assert d[|d| - 1] == typeName[|typeName| - 1];
      assert typeName[|typeName| - 1..] == [typeName[|typeName| - 1]];
    } else {
      assert d[|d| - 1] == ' ';
    }
    assert line[|line| - 2] == ft[|ft| - 1];
    assert EndsWith(line, "?\n") <==> line[|line| - 2] == '?' by {
      assert line[|line| - 2..] == [line[|line| - 2], line[|line| - 1]];
    }
  }

  // ---------------------------------------------------------------------
  // Writing it

  /** The package declaration and the imports, in an order the model leaves open. */
  method WritePreamble(w: KotlinCodeWriter, model: EntityType, classNameOf: AnnotationInstance -> string)
    returns (imports: seq<string>)
    modifies w`out, w`classes, w`packages
    ensures NameSet(imports) == ImportSet(model, classNameOf) && Distinct(imports)
    ensures w.CurrentScope() == AfterImports(AfterPackage(old(w.CurrentScope()), model), imports)
    ensures w.out == old(w.out) + PreambleText(w.env, w.level, model, imports)
  {
    ghost var o := w.out;
    WritePackage(w, model);
    ghost var o1 := w.out;
    var imported := ImportedClasses(model, classNameOf);
    imports := ImportOrder(imported);
    w.ImportClasses(imports);
    AppendAssoc(o1, ImportLines(w.env, w.level, imports, ""), "\n");
    AppendAssoc(o, PackageText(w.env, w.level, model), ImportLines(w.env, w.level, imports, "") + "\n");
  }

  /** `packageDecl(...)`, for a non-empty package name only. */
  method WritePackage(w: KotlinCodeWriter, model: EntityType)
    modifies w`out, w`packages
    ensures w.classes == old(w.classes)
    ensures w.CurrentScope() == AfterPackage(old(w.CurrentScope()), model)
    ensures w.out == old(w.out) + PackageText(w.env, w.level, model)
  {
    ghost var o := w.out;
    if model.modelType.packageName != "" {
      w.PackageDecl(model.modelType.packageName);
      AppendAssoc(o, LineText(w.env, w.level, "package " + model.modelType.packageName), "\n");
    }
  }

  /** The entity's annotations, one `annotation(...)` each, stopping at the first that throws. */
  method WriteAnnotations(w: KotlinCodeWriter, anns: seq<AnnotationInstance>) returns (ok: bool)
    modifies w`out
    ensures ok == AnnotationsUpTo(w.env, w.CurrentScope(), w.level, anns, |anns|).ok
    ensures w.out == old(w.out) + AnnotationsUpTo(w.env, w.CurrentScope(), w.level, anns, |anns|).text
  {
    ok := WriteAnnotationParts(w, anns, w.CurrentScope(), w.level, AnnotationTexts(w.env, w.CurrentScope(), w.level, anns));
  }

  /** The annotation loop, against the lines each annotation writes on its own. */
  method WriteAnnotationParts(w: KotlinCodeWriter, anns: seq<AnnotationInstance>,
                              ghost scope: Scope, ghost level: nat, ghost parts: seq<Emitted>) returns (ok: bool)
    requires w.CurrentScope() == scope && w.level == level && |parts| == |anns|
    requires forall j {:trigger AnnotationText(w.env, scope, level, anns[j])} ::
      0 <= j < |anns| ==> parts[j] == AnnotationText(w.env, scope, level, anns[j])
    modifies w`out
    ensures ok == UntilFailure(parts, |parts|).ok
    ensures w.out == old(w.out) + UntilFailure(parts, |parts|).text
  {
    ghost var start := w.out;
    var i := 0;
    ok := true;
    while i < |anns| && ok
      invariant 0 <= i <= |anns|
      invariant w.CurrentScope() == scope && w.level == level
      invariant ok == UntilFailure(parts, i).ok
      invariant w.out == start + UntilFailure(parts, i).text
    {
      ok := WriteAnnotation(w, anns, i, start, scope, level, parts);
      i := i + 1;
    }
    if !ok {
      UntilFailureStops(parts, i, |parts|);
    }
  }

  /** One turn of the annotation loop. */
  method WriteAnnotation(w: KotlinCodeWriter, anns: seq<AnnotationInstance>, i: nat,
                         ghost start: string, ghost scope: Scope, ghost level: nat, ghost parts: seq<Emitted>)
      returns (ok: bool)
    requires i < |anns| == |parts| && w.CurrentScope() == scope && w.level == level
    requires forall j {:trigger AnnotationText(w.env, scope, level, anns[j])} ::
      0 <= j < |anns| ==> parts[j] == AnnotationText(w.env, scope, level, anns[j])
    requires UntilFailure(parts, i).ok && w.out == start + UntilFailure(parts, i).text
    modifies w`out
    ensures w.CurrentScope() == scope && w.level == level
    ensures ok == UntilFailure(parts, i + 1).ok
    ensures w.out == start + UntilFailure(parts, i + 1).text
  {
    ghost var prev := UntilFailure(parts, i).text;
    ok := w.Annotation(anns[i]);
    assert parts[i] == AnnotationText(w.env, scope, level, anns[i]);
    AppendAssoc(start, prev, parts[i].text);
  }

  /** The field loop: each property's line, then `,` and a newline unless it is the last. */
  method WriteFields(w: KotlinCodeWriter, props: seq<Property>)
    modifies w`out
    ensures w.out == old(w.out) + FieldsText(w.env, w.CurrentScope(), w.level, props)
  {
    ghost var start := w.out;
    ghost var lines := FieldLines(w.env, w.CurrentScope(), w.level, props);
    var i := 0;
    while i < |props|
      invariant 0 <= i <= |props|
      invariant w.out == start + Join(FieldSeparator, lines[..i]) + (if 0 < i < |props| then FieldSeparator else "")
    {
      WriteField(w, props, i, start);
      i := i + 1;
    }
    assert lines[..|props|] == lines;
    w.Append(")");
    AppendAssoc(start, Join(FieldSeparator, lines), ")");
  }

  /** One pass of the field loop. */
  method WriteField(w: KotlinCodeWriter, props: seq<Property>, i: nat, ghost start: string)
    requires i < |props|
    requires w.out == start + Join(FieldSeparator, FieldLines(w.env, w.CurrentScope(), w.level, props)[..i])
                      + (if 0 < i then FieldSeparator else "")
    modifies w`out
    ensures w.out == start + Join(FieldSeparator, FieldLines(w.env, w.CurrentScope(), w.level, props)[..i + 1])
                     + (if i + 1 < |props| then FieldSeparator else "")
  {
    ghost var lines := FieldLines(w.env, w.CurrentScope(), w.level, props);
    ghost var joined := Join(FieldSeparator, lines[..i]);
    ghost var sep := if 0 < i then FieldSeparator else "";
    ghost var before := w.out;
    w.PublicNullableField(props[i].propertyType, props[i].escapedName, Nullable(props[i]), false);
    assert w.out == before + lines[i];
    JoinStep(FieldSeparator, lines, i);
    AppendAssoc(start, joined, sep);
    AppendAssoc(start, joined + sep, lines[i]);
    ghost var joined1 := Join(FieldSeparator, lines[..i + 1]);
    assert w.out == start + joined1;
    if i < |props| - 1 {
      w.Append(",");
      w.Nl();
      AppendAssoc(start + joined1, ",", "\n");
    }
  }

  /** The `@Generated` line, the class line and the fields. */
  method WriteClass(w: KotlinCodeWriter, model: EntityType, generator: string)
    modifies w`out, w`packages, w`level
    ensures w.level == old(w.level) + 1
    ensures w.CurrentScope() == AfterDataClass(old(w.CurrentScope()), model)
    ensures w.out == old(w.out) + ClassText(w.env, w.CurrentScope(), old(w.level), model, generator)
  {
    ghost var o, level := w.out, w.level;
    WriteClassHeader(w, model, generator);
    ghost var h := w.out[|o|..];
    WriteFields(w, model.properties);
    AppendAssoc(o, h, FieldsText(w.env, w.CurrentScope(), level + 1, model.properties));
  }

  /** The `@Generated` line and `writeDataClassWithConstructorStart(...)`. */
  method WriteClassHeader(w: KotlinCodeWriter, model: EntityType, generator: string)
    modifies w`out, w`packages, w`level
    ensures w.level == old(w.level) + 1 && w.classes == old(w.classes)
    ensures w.CurrentScope() == AfterDataClass(old(w.CurrentScope()), model)
    ensures w.out == old(w.out) + (GeneratedLine(w.env, old(w.level), generator) + DataClassLine(w.env, w.CurrentScope(), old(w.level), model))
  {
    ghost var o := w.out;
    w.Line("@Generated(\"" + generator + "\")");
    ghost var g := GeneratedLine(w.env, old(w.level), generator);
    w.WriteDataClassWithConstructorStart(model.modelType);
    AppendAssoc(o, g, DataClassLine(w.env, w.CurrentScope(), old(w.level), model));
  }

  /** The value of `propertyToParameter`: the property's name and type. */
  function PropertyParameter(p: Property): Parameter {
    Parameter(p.name, p.propertyType)
  }

  /** The assignment line the full constructor writes for a property. */
  function AssignmentLine(env: Env, level: nat, p: Property): string {
    LineText(env, level, "this." + p.escapedName + " = " + p.escapedName + ";")
  }

  /** The assignment lines for the properties, in property order. */
  function AssignmentLines(env: Env, level: nat, props: seq<Property>): string {
    if |props| == 0 then ""
    else AssignmentLines(env, level, props[..|props| - 1]) + AssignmentLine(env, level, props[|props| - 1])
  }

  /** One assignment line per property, when no escaped name holds a line break. */
  lemma {:induction false} AssignmentLineCount(env: Env, level: nat, props: seq<Property>)
    requires forall i :: 0 <= i < |props| ==> '\n' !in props[i].escapedName
    ensures CountChar(AssignmentLines(env, level, props), '\n') == |props|
  {
    if |props| > 0 {
      var p := props[|props| - 1];
      AssignmentLineCount(env, level, props[..|props| - 1]);
      var ind := Indent(env, level);
      var body := "this." + p.escapedName + " = " + p.escapedName + ";";
      assert '\n' !in ind;
      CountCharAbsent(ind + body, '\n');
      CountCharAppend(ind + body, "\n", '\n');
      assert CountChar("\n", '\n') == 1 by {
        assert "\n"[..0] == "";
      }
      CountCharAppend(AssignmentLines(env, level, props[..|props| - 1]), AssignmentLine(env, level, p), '\n');
    }
  }

  /** `beginConstructor()` followed by `end()`: the public empty constructor. */
  function EmptyConstructorText(env: Env, scope: Scope, level: nat): string {
    ConstructorHeaderText(env, scope, level, []) + EndText(env, level + 1)
  }

  /** The constructor taking every property, each assigned in property order. */
  function PropertyConstructorText(env: Env, scope: Scope, level: nat, props: seq<Property>): string {
    ConstructorHeaderText(env, scope, level, Applied(props, PropertyParameter))
      + AssignmentLines(env, level + 1, props) + EndText(env, level + 1)
  }

  /** The empty constructor takes no parameters and has an empty body. */
  lemma EmptyConstructorShape(env: Env, scope: Scope, level: nat)
    ensures EmptyConstructorText(env, scope, level)
      == Indent(env, level) + "constructor" + "()" + " {" + "\n" + Indent(env, level) + "}" + "\n"
  {
    ParamsLength(env, scope, []);
    var ind := Indent(env, level);
    var h := ConstructorHeaderText(env, scope, level, []);
    assert h == ind + "constructor" + "()" + " {" + "\n";
    assert EndText(env, level + 1) == ind + "}" + "\n";
    AppendAssoc(h, ind + "}", "\n");
    AppendAssoc(h, ind, "}");
  }

  /** The full constructor's parameters are the properties' names and types, in property order. */
  lemma PropertyConstructorParameters(env: Env, scope: Scope, level: nat, props: seq<Property>)
    ensures var ps := Applied(props, PropertyParameter);
      |ps| == |props| && forall i :: 0 <= i < |props| ==> ps[i] == Some(Parameter(props[i].name, props[i].propertyType))
    ensures StartsWith(PropertyConstructorText(env, scope, level, props),
      Indent(env, level) + "constructor" + ParamsText(env, scope, Applied(props, PropertyParameter)))
  {
    var h := Indent(env, level) + "constructor" + ParamsText(env, scope, Applied(props, PropertyParameter));
    var t := PropertyConstructorText(env, scope, level, props);
    assert h[..|h|] == h;
    StartsWithAppend(h, " {", h);
    StartsWithAppend(h + " {", "\n", h);
    StartsWithAppend(h + " {" + "\n", AssignmentLines(env, level + 1, props), h);
    StartsWithAppend(h + " {" + "\n" + AssignmentLines(env, level + 1, props), EndText(env, level + 1), h);
  }

  /** The assignment lines of the full constructor. */
  method WriteAssignments(w: KotlinCodeWriter, props: seq<Property>)
    modifies w`out
    ensures w.out == old(w.out) + AssignmentLines(w.env, w.level, props)
  {
    ghost var start := w.out;
    for i := 0 to |props|
      invariant w.out == start + AssignmentLines(w.env, w.level, props[..i])
    {
      w.Line("this." + props[i].escapedName + " = " + props[i].escapedName + ";");
      assert props[..i + 1][..i] == props[..i];
      AppendAssoc(start, AssignmentLines(w.env, w.level, props[..i]), AssignmentLine(w.env, w.level, props[i]));
    }
    assert props[..|props|] == props;
  }

  /**
   * The serializer; its one piece of state is the full-constructor switch.
   * `generatorName` is its runtime class's name, `SerializerName` unless the
   * open class was subclassed.
   */
  class KotlinBeanSerializer {
    var addFullConstructor: bool
    const generatorName: string

    constructor (generatorName: string)
      ensures !addFullConstructor && this.generatorName == generatorName
    {
      addFullConstructor := false;
      this.generatorName := generatorName;
    }

    /** `setAddFullConstructor(b)`. */
    method SetAddFullConstructor(b: bool)
      modifies this`addFullConstructor
      ensures addFullConstructor == b
    {
      addFullConstructor := b;
    }

    /**
     * `serialize(model, config, writer)`: rejects any writer but the Kotlin
     * one and leaves it untouched; otherwise writes `BeanText` for the
     * writer's state on entry, leaving the data class's indentation open.
     */
    method Serialize(model: EntityType, writer: WriterRef, classNameOf: AnnotationInstance -> string)
      returns (outcome: Outcome, imports: seq<string>)
      modifies if writer.KotlinWriterRef? then {writer.w} else {}
      ensures writer.OtherWriter? <==> outcome == WrongWriter
      ensures writer.KotlinWriterRef? ==>
        && NameSet(imports) == ImportSet(model, classNameOf) && Distinct(imports)
        && (outcome == Written <==> BeanText(writer.w.env, old(writer.w.CurrentScope()), old(writer.w.level), model, imports, generatorName).ok)
        && writer.w.out == old(writer.w.out)
             + BeanText(writer.w.env, old(writer.w.CurrentScope()), old(writer.w.level), model, imports, generatorName).text
        && writer.w.level == old(writer.w.level) + (if outcome == Written then 1 else 0)
        && writer.w.CurrentScope()
             == (var s := AfterImports(AfterPackage(old(writer.w.CurrentScope()), model), imports);
                 if outcome == Written then AfterDataClass(s, model) else s)
    {
      imports := [];
      if writer.OtherWriter? {
        return WrongWriter, imports;
      }
      var w := writer.w;
      ghost var o := w.out;
      ghost var level := w.level;
      imports := WritePreamble(w, model, classNameOf);
      ghost var s2 := w.CurrentScope();
      ghost var pre := PreambleText(w.env, level, model, imports);
      var ok := WriteAnnotations(w, model.annotations);
      ghost var anns := AnnotationsUpTo(w.env, s2, level, model.annotations, |model.annotations|);
      AppendAssoc(o, pre, anns.text);
      if !ok {
        return AnnotationFailed, imports;
      }
      WriteClass(w, model, generatorName);
      ghost var cls := ClassText(w.env, AfterDataClass(s2, model), level, model, generatorName);
      AppendAssoc(o + pre, anns.text, cls);
      AppendAssoc(o, pre, anns.text + cls);
      outcome := Written;
    }

    /** `addFullConstructor(model, writer)`, with the corrected header of the full constructor. */
    method AddFullConstructor(model: EntityType, w: KotlinCodeWriter)
      modifies w`out, w`level
      ensures w.level == old(w.level)
      ensures w.out == old(w.out) + EmptyConstructorText(w.env, w.CurrentScope(), w.level)
                       + PropertyConstructorText(w.env, w.CurrentScope(), w.level, model.properties)
    {
      ghost var o := w.out;
      WriteEmptyConstructor(w);
      ghost var o1 := w.out;
      WritePropertyConstructor(w, model.properties);
      AppendAssoc(o, o1[|o|..], w.out[|o1|..]);
    }
  }

  /** `beginConstructor()` and `end()`. */
  method WriteEmptyConstructor(w: KotlinCodeWriter)
    modifies w`out, w`level
    ensures w.level == old(w.level) && w.classes == old(w.classes) && w.packages == old(w.packages)
    ensures w.out == old(w.out) + EmptyConstructorText(w.env, w.CurrentScope(), w.level)
  {
    ghost var o := w.out;
    assert Somes([]) == [];
    w.BeginConstructor([]);
    w.End();
    AppendAssoc(o, ConstructorHeaderText(w.env, w.CurrentScope(), w.level, []), EndText(w.env, w.level + 1));
  }

  /** The constructor over the properties: its header, one assignment per property, and `end()`. */
  method WritePropertyConstructor(w: KotlinCodeWriter, props: seq<Property>)
    modifies w`out, w`level
    ensures w.level == old(w.level)
    ensures w.out == old(w.out) + PropertyConstructorText(w.env, w.CurrentScope(), w.level, props)
  {
    ghost var o := w.out;
    w.BeginConstructorOf(props, PropertyParameter);
    ghost var h := w.out[|o|..];
    WriteAssignments(w, props);
    ghost var a := AssignmentLines(w.env, w.level, props);
    w.End();
    ghost var e := EndText(w.env, w.level + 1);
    AppendAssoc(o, h, a);
    AppendAssoc(o, h + a, e);
  }
}
