/**
 * The reflection catalogue the cursor reads: classes, their declared fields and methods,
 * their public constructors, their package, and the annotations on each of them.
 * In Java these come from `java.lang.reflect`; here they are plain input values.
 */
module Reflection {
  import opened Wrappers

  /** An annotation type, by its fully qualified name (`javax.validation.constraints.Max`). */
  type Kind = string

  /** The value of one annotation element (`@Max(value = 20)`, `@XmlAttribute(name = "NAME")`). */
  datatype ElementValue = IntValue(i: int) | StringValue(s: string) | EnumValue(constant: string)

  /** An annotation instance: its annotation type and its element values. */
  datatype Annotation = Annotation(kind: Kind, elements: map<string, ElementValue>)

  /** A declared field and the annotations on it. */
  datatype FieldDecl = FieldDecl(name: string, annotations: seq<Annotation>)

  /** The parameter types of a method or constructor, by class name. */
  type Signature = seq<string>

  /**
   * A method or a constructor: the annotations on it, one annotation array per parameter
   * (`getParameterAnnotations`), and the parameter names the name discoverer finds
   * (`None` when it finds none, as when the class was compiled without debug information).
   */
  datatype Executable = Executable(
    name: string,
    signature: Signature,
    annotations: seq<Annotation>,
    parameterAnnotations: seq<seq<Annotation>>,
    parameterNames: Option<seq<string>>)

  /** A package and the annotations of its `package-info`. */
  datatype PackageDecl = PackageDecl(name: string, annotations: seq<Annotation>)

  /**
   * A class. `declaredAnnotations` are those written on the class itself
   * (`getDeclaredAnnotations`); `presentAnnotations` add those inherited through
   * `@Inherited` from superclasses (what `getAnnotation` searches). Fields and methods are
   * the declared ones of any visibility; constructors are the public ones only
   * (`getDeclaredField`/`getDeclaredMethod` against `getConstructor`).
   */
  datatype ClassDecl = ClassDecl(
    name: string,
    declaredAnnotations: seq<Annotation>,
    presentAnnotations: seq<Annotation>,
    declaredFields: seq<FieldDecl>,
    declaredMethods: map<(string, Signature), Executable>,
    publicConstructors: map<Signature, Executable>,
    pkg: Option<PackageDecl>)

  /** No two fields share a name, as the Java compiler guarantees within one class. */
  predicate DistinctNames(fields: seq<FieldDecl>)
  {
    forall i, j :: 0 <= i < j < |fields| ==> fields[i].name != fields[j].name
  }

  /**
   * The classes Java can produce: every annotation written on the class is also present
   * on it (inheritance only adds), and no two declared fields share a name.
   */
  predicate WellFormed(c: ClassDecl)
  {
    (forall a :: a in c.declaredAnnotations ==> a in c.presentAnnotations)
    && DistinctNames(c.declaredFields)
  }

  /** `getDeclaredField(name)`: the declared field of that name, if any. */
  function DeclaredField(fields: seq<FieldDecl>, name: string): (r: Option<FieldDecl>)
    ensures r.Some? ==> r.value in fields && r.value.name == name
    ensures r.None? <==> forall f :: f in fields ==> f.name != name
  {
    if fields == [] then None
    else if fields[0].name == name then Some(fields[0])
    else DeclaredField(fields[1..], name)
  }

  /** Among fields with distinct names, the lookup by a field's name finds that very field. */
  lemma {:induction false} DeclaredFieldUnique(fields: seq<FieldDecl>, f: FieldDecl)
    requires DistinctNames(fields) && f in fields
    ensures DeclaredField(fields, f.name) == Some(f)
  {
    if fields[0] != f {
      assert f in fields[1..];
      var j :| 0 <= j < |fields| && fields[j] == f;
      assert fields[0].name != f.name by { assert 0 < j; }
      assert DistinctNames(fields[1..]) by {
        forall i, j | 0 <= i < j < |fields[1..]|
          ensures fields[1..][i].name != fields[1..][j].name
        {
          assert fields[1..][i] == fields[i + 1] && fields[1..][j] == fields[j + 1];
        }
      }
      DeclaredFieldUnique(fields[1..], f);
    }
  }

  /** The position of the first annotation of type `kind`, or -1 when there is none. */
  function FirstIndex(anns: seq<Annotation>, kind: Kind): (i: int)
    ensures -1 <= i < |anns|
    ensures 0 <= i ==> anns[i].kind == kind
    ensures forall j :: 0 <= j < |anns| && (i < 0 || j < i) ==> anns[j].kind != kind
  {
    if anns == [] then -1
    else if anns[0].kind == kind then 0
    else
      var i := FirstIndex(anns[1..], kind);
      if i < 0 then -1 else i + 1
  }

  /** The first annotation of type `kind`, or `None` (Java's `null`). */
  function First(anns: seq<Annotation>, kind: Kind): (r: Option<Annotation>)
    ensures r.Some? ==> r.value in anns && r.value.kind == kind
    ensures r.None? <==> forall a :: a in anns ==> a.kind != kind
  {
    var i := FirstIndex(anns, kind);
    if i < 0 then None else Some(anns[i])
  }
}
