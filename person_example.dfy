/**
 * The test fixture `Person` as a catalogue entry, and the cursor chains the test suite runs
 * on it, stated as lemmas about the model.
 */
module PersonExample {
  import opened Wrappers
  import opened Reflection
  import opened Cursor

  const StringType := "java.lang.String"
  const IntegerType := "java.lang.Integer"

  const NotNullKind: Kind := "javax.validation.constraints.NotNull"
  const MaxKind: Kind := "javax.validation.constraints.Max"
  const DeprecatedKind: Kind := "java.lang.Deprecated"
  const TransientKind: Kind := "javax.persistence.Transient"
  const XmlAttributeKind: Kind := "javax.xml.bind.annotation.XmlAttribute"
  const XmlRootElementKind: Kind := "javax.xml.bind.annotation.XmlRootElement"
  const XmlAccessorTypeKind: Kind := "javax.xml.bind.annotation.XmlAccessorType"
  const PackageAnnotationKind: Kind := "z.cube.utils.PackageAnnotationTest"

  const NotNull := Annotation(NotNullKind, map[])
  const Max20 := Annotation(MaxKind, map["value" := IntValue(20)])
  const Deprecated := Annotation(DeprecatedKind, map[])
  const Transient := Annotation(TransientKind, map[])
  const XmlAttributeName := Annotation(XmlAttributeKind, map["name" := StringValue("NAME")])
  const XmlRoot := Annotation(XmlRootElementKind, map["name" := StringValue("z.cube.utils.Person")])
  const XmlAccessor := Annotation(XmlAccessorTypeKind, map["value" := EnumValue("FIELD")])

  const NameField := FieldDecl("name", [XmlAttributeName, Deprecated])
  const AgeField := FieldDecl("age", [])

  const GetName := Executable("getName", [], [Deprecated, Transient], [], Some([]))
  const SetName := Executable("setName", [StringType], [Deprecated], [[NotNull]], Some(["name"]))
  const GetAge := Executable("getAge", [], [], [], Some([]))
  const SetAge := Executable("setAge", [IntegerType], [], [[]], Some(["age"]))
  const MutlEle := Executable("mutlEle", [StringType, IntegerType], [], [[NotNull], [Max20]],
    Some(["name", "age"]))
  const ToString := Executable("toString", [], [], [], Some([]))   // `@Override` is source-only
  const NoArgConstructor := Executable("z.cube.utils.Person", [], [], [], Some([]))
  const NameAgeConstructor := Executable("z.cube.utils.Person", [StringType, IntegerType],
    [Deprecated], [[NotNull], [Max20]], Some(["name", "age"]))

  const Person := ClassDecl(
    "z.cube.utils.Person",
    [XmlRoot, XmlAccessor],
    [XmlRoot, XmlAccessor],
    [NameField, AgeField],
    map[("getName", []) := GetName, ("setName", [StringType]) := SetName,
        ("getAge", []) := GetAge, ("setAge", [IntegerType]) := SetAge,
        ("mutlEle", [StringType, IntegerType]) := MutlEle, ("toString", []) := ToString],
    map[[] := NoArgConstructor, [StringType, IntegerType] := NameAgeConstructor],
    Some(PackageDecl("z.cube.utils", [Annotation(PackageAnnotationKind, map[])])))

  /** `Person` is a class Java can produce, so the lookups above pick unique members. */
  lemma PersonWellFormed()
    ensures WellFormed(Person)
    ensures Field(AtClass(Person), "age") == Ok(AtField(AgeField))
    ensures NoArgMethod(AtClass(Person), "toString") == Ok(AtMethod(ToString))
    ensures Annotations(AtMethod(ToString)) == Err(NoAnnotations)
  {
  }

  /** `constructor(String, Integer).param("age")` and `.arg(1)` both reach `@Max(20)`. */
  lemma ConstructorParameterAnnotation()
    ensures Constructor(AtClass(Person), [StringType, IntegerType]) == Ok(AtConstructor(NameAgeConstructor))
    ensures Param(AtConstructor(NameAgeConstructor), "age") == Arg(AtConstructor(NameAgeConstructor), 1)
    ensures Param(AtConstructor(NameAgeConstructor), "age") == Ok(At(ArraySel([Max20])))
    ensures Get(AnnotationOf(At(ArraySel([Max20])), MaxKind)) == Ok(Some(Max20))
    ensures Max20.elements["value"] == IntValue(20)
    ensures Annotations(Param(AtConstructor(NameAgeConstructor), "name").value)
      == Ok(At(ListSel([NotNull])))
  {
  }

  /** `method("setName", String).param("name")` and `.arg(0)` both reach `@NotNull`. */
  lemma MethodParameterAnnotation()
    ensures Method(AtClass(Person), "setName", [StringType]) == Ok(AtMethod(SetName))
    ensures Param(AtMethod(SetName), "name") == Arg(AtMethod(SetName), 0)
    ensures Param(AtMethod(SetName), "name") == Ok(At(ArraySel([NotNull])))
    ensures Get(AnnotationOf(At(ArraySel([NotNull])), NotNullKind)) == Ok(Some(NotNull))
  {
  }

  /** The class annotations of `Person`, singly and as a list. */
  lemma ClassAnnotations()
    ensures Get(AnnotationOf(AtClass(Person), XmlRootElementKind)) == Ok(Some(XmlRoot))
    ensures XmlRoot.elements["name"] == StringValue("z.cube.utils.Person")
    ensures Annotations(AtClass(Person)) == Ok(At(ListSel([XmlRoot, XmlAccessor])))
  {
  }

  /** `field("name")` and its annotations, singly and as a list. */
  lemma FieldAnnotations()
    ensures Field(AtClass(Person), "name") == Ok(AtField(NameField))
    ensures Get(AnnotationOf(AtField(NameField), XmlAttributeKind)) == Ok(Some(XmlAttributeName))
    ensures XmlAttributeName.elements["name"] == StringValue("NAME")
    ensures Annotations(AtField(NameField)) == Ok(At(ListSel([XmlAttributeName, Deprecated])))
  {
  }

  /** `method("getName")` and its annotations, singly and as a list. */
  lemma MethodAnnotations()
    ensures NoArgMethod(AtClass(Person), "getName") == Ok(AtMethod(GetName))
    ensures Get(AnnotationOf(AtMethod(GetName), DeprecatedKind)) == Ok(Some(Deprecated))
    ensures Annotations(AtMethod(GetName)) == Ok(At(ListSel([Deprecated, Transient])))
  {
  }

  /** `param().map()` on the two-parameter constructor. */
  lemma ConstructorParameterMap()
    ensures Map(ParamTableOf(AtConstructor(NameAgeConstructor)).value)
      == Ok(map["name" := [NotNull], "age" := [Max20]])
  {
    var names := ["name", "age"];
    var ps := [[NotNull], [Max20]];
    assert names[..1] == ["name"] && ["name"][..0] == [];
    assert NamedTable([], ps) == map[];
    assert NamedTable(["name"], ps) == map["name" := [NotNull]];
    assert NamedTable(names, ps) == NamedTable(["name"], ps)["age" := [Max20]];
  }

  /** Navigation that the selection does not support fails. */
  lemma UnsupportedNavigationFails()
    ensures Field(AtMethod(GetName), "name") == Err(NotAClass)
    ensures NoArgMethod(AtMethod(GetName), "getName") == Err(NotAClass)
    ensures Constructor(AtMethod(GetName), [StringType, IntegerType]) == Err(NotAClass)
    ensures Param(AtField(NameField), "name") == Err(NotExecutable)
    ensures Arg(AtField(NameField), 0) == Err(NotExecutable)
  {
  }

  /** Missing members fail, and so does `annotation()` on an element without annotations. */
  lemma MissingMembersFail()
    ensures Constructor(AtClass(Person), []) == Ok(AtConstructor(NoArgConstructor))
    ensures Annotations(AtConstructor(NoArgConstructor)) == Err(NoAnnotations)
    ensures Constructor(AtClass(Person), [IntegerType]) == Err(NoSuchConstructor)
    ensures NoArgMethod(AtClass(Person), "setPerson") == Err(NoSuchMethod)
    ensures Field(AtClass(Person), "bean") == Err(NoSuchField)
  {
  }

  /**
   * `annotation(XmlAttribute).get()` on `getName` selects null and `get()` returns null:
   * nothing throws there. Only `ai` fails on that miss.
   */
  lemma MissingAnnotationIsNull()
    ensures AnnotationOf(AtMethod(GetName), XmlAttributeKind) == At(Null)
    ensures Get(AnnotationOf(AtMethod(GetName), XmlAttributeKind)) == Ok(None)
    ensures !IsPresentKind(AtMethod(GetName), XmlAttributeKind)
  {
  }
}
