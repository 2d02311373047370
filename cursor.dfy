/**
 * The `AT` cursor: an immutable holder of one selected thing (a class, field, method,
 * constructor or package; one annotation; one parameter's annotation array; a list of
 * annotations; a map from keys to annotation arrays; or null). Every navigation step
 * dispatches on the kind of the selection and returns a new cursor, a terminal value, or
 * a failure (a `RuntimeException` in Java).
 */
module Cursor {
  import opened Wrappers
  import opened Reflection
  import Decimal

  /** The run-time kinds of object an `AT` can hold. */
  datatype Selection =
    | ClassSel(cls: ClassDecl)
    | FieldSel(fld: FieldDecl)
    | MethodSel(mth: Executable)
    | ConstructorSel(ctor: Executable)
    | PackageSel(pack: PackageDecl)
    | AnnotationSel(ann: Annotation)
    | ArraySel(arr: seq<Annotation>)                  // an `Annotation[]` of one parameter
    | ListSel(lst: seq<Annotation>)                   // `Arrays.asList(annotations)`
    | MapSel(tbl: map<string, seq<Annotation>>)       // a `Map<String, Annotation[]>`
    | Null

  /** The cursor. Its one field is final: operations build new cursors. */
  datatype AT = AT(obj: Selection)

  /** Why an operation throws. */
  datatype Failure =
    | NotAClass          // field, method, constructor, package_, fields on a non-Class
    | NotExecutable      // param, arg on something that is neither Method nor Constructor
    | NoSuchField
    | NoSuchMethod
    | NoSuchConstructor
    | IndexOutOfBounds   // the array access of arg(i), or param() with more names than arrays
    | NamesUnavailable   // the name discoverer returned null
    | NoAnnotations      // annotation() found nothing to list
    | AnnotationMissing  // ai(kind) found nothing
    | NotAMap            // map() on anything but a Map
    | BadCast            // get()/list() on an object of another type

  /** `instanceof AnnotatedElement`. */
  predicate IsAnnotatedElement(s: Selection)
  {
    s.ClassSel? || s.FieldSel? || s.MethodSel? || s.ConstructorSel? || s.PackageSel?
  }

  /** `instanceof Method || instanceof Constructor`. */
  predicate IsExecutable(s: Selection)
  {
    s.MethodSel? || s.ConstructorSel?
  }

  /**
   * What `annotation(kind)` and `ai(kind)` search: the annotations `getAnnotation` sees on an
   * element (a class's include inherited ones), or the selected annotation array. `None`
   * for every other selection, which carries no annotations to search.
   */
  function Searched(s: Selection): Option<seq<Annotation>>
  {
    match s
    case ClassSel(c) => Some(c.presentAnnotations)
    case FieldSel(f) => Some(f.annotations)
    case MethodSel(m) => Some(m.annotations)
    case ConstructorSel(k) => Some(k.annotations)
    case PackageSel(p) => Some(p.annotations)
    case ArraySel(a) => Some(a)
    case _ => None
  }

  /**
   * What `annotation()` lists: the annotations `getDeclaredAnnotations` returns for an
   * element, or the selected annotation array; `None` for every other selection.
   */
  function Listed(s: Selection): Option<seq<Annotation>>
  {
    match s
    case ClassSel(c) => Some(c.declaredAnnotations)
    case ArraySel(a) => Some(a)
    case _ => Searched(s)
  }

  /** `getParameterAnnotations` of the selected method or constructor. */
  function Params(s: Selection): seq<seq<Annotation>>
    requires IsExecutable(s)
  {
    if s.MethodSel? then s.mth.parameterAnnotations else s.ctor.parameterAnnotations
  }

  /** The name discoverer's answer for the selected method or constructor. */
  function Names(s: Selection): Option<seq<string>>
    requires IsExecutable(s)
  {
    if s.MethodSel? then s.mth.parameterNames else s.ctor.parameterNames
  }

  // ---------------------------------------------------------------------------------------
  // Entry points

  /** The private constructor and `_at`. */
  function At(obj: Selection): AT
  {
    AT(obj)
  }

  function AtClass(c: ClassDecl): AT { At(ClassSel(c)) }
  function AtMethod(m: Executable): AT { At(MethodSel(m)) }
  function AtField(f: FieldDecl): AT { At(FieldSel(f)) }
  function AtConstructor(k: Executable): AT { At(ConstructorSel(k)) }
  function AtPackage(p: PackageDecl): AT { At(PackageSel(p)) }

  /** Every entry point yields a present cursor whose annotation queries read that element. */
  lemma AtSelectsElement(c: ClassDecl, m: Executable, f: FieldDecl, k: Executable, p: PackageDecl)
    ensures IsPresent(AtClass(c)) && Searched(AtClass(c).obj) == Some(c.presentAnnotations)
    ensures Listed(AtClass(c).obj) == Some(c.declaredAnnotations)
    ensures IsPresent(AtMethod(m)) && Listed(AtMethod(m).obj) == Some(m.annotations)
    ensures Searched(AtMethod(m).obj) == Some(m.annotations)
    ensures IsPresent(AtField(f)) && Listed(AtField(f).obj) == Some(f.annotations)
    ensures Searched(AtField(f).obj) == Some(f.annotations)
    ensures IsPresent(AtConstructor(k)) && Listed(AtConstructor(k).obj) == Some(k.annotations)
    ensures Searched(AtConstructor(k).obj) == Some(k.annotations)
    ensures IsPresent(AtPackage(p)) && Listed(AtPackage(p).obj) == Some(p.annotations)
    ensures Searched(AtPackage(p).obj) == Some(p.annotations)
  {
  }

  // ---------------------------------------------------------------------------------------
  // Navigation from a class

  /** `field(name)`: the declared field of that name. */
  function Field(at: AT, name: string): (r: Result<AT, Failure>)
    ensures !at.obj.ClassSel? ==> r == Err(NotAClass)
    ensures at.obj.ClassSel? ==>
      (r.Ok? <==> exists f :: f in at.obj.cls.declaredFields && f.name == name)
    ensures at.obj.ClassSel? && r.Err? ==> r.error == NoSuchField
    ensures r.Ok? ==> (at.obj.ClassSel? && r.value.obj.FieldSel?
      && r.value.obj.fld in at.obj.cls.declaredFields && r.value.obj.fld.name == name)
  {
    match at.obj
    case ClassSel(c) =>
      (match DeclaredField(c.declaredFields, name)
       case Some(f) => Ok(At(FieldSel(f)))
       case None => Err(NoSuchField))
    case _ => Err(NotAClass)
  }

  /** On a class Java can produce, `field(f.name)` selects the declared field `f` itself. */
  lemma FieldSelectsDeclared(at: AT, f: FieldDecl)
    requires at.obj.ClassSel? && WellFormed(at.obj.cls)
    requires f in at.obj.cls.declaredFields
    ensures Field(at, f.name) == Ok(AtField(f))
  {
    DeclaredFieldUnique(at.obj.cls.declaredFields, f);
  }

  /** `method(name, args...)`: the declared method of that name and parameter types. */
  function Method(at: AT, name: string, sig: Signature): (r: Result<AT, Failure>)
    ensures !at.obj.ClassSel? ==> r == Err(NotAClass)
    ensures at.obj.ClassSel? ==> (r.Ok? <==> (name, sig) in at.obj.cls.declaredMethods)
    ensures at.obj.ClassSel? && r.Err? ==> r.error == NoSuchMethod
    ensures r.Ok? ==> (at.obj.ClassSel? && (name, sig) in at.obj.cls.declaredMethods
      && r.value.obj == MethodSel(at.obj.cls.declaredMethods[(name, sig)]))
  {
    match at.obj
    case ClassSel(c) =>
      if (name, sig) in c.declaredMethods then Ok(At(MethodSel(c.declaredMethods[(name, sig)])))
      else Err(NoSuchMethod)
    case _ => Err(NotAClass)
  }

  /** `method(name)`: the method of that name without parameters. */
  function NoArgMethod(at: AT, name: string): (r: Result<AT, Failure>)
    ensures r == Method(at, name, [])
  {
    Method(at, name, [])
  }

  /** `constructor(parameterTypes...)`: the PUBLIC constructor with those parameter types. */
  function Constructor(at: AT, sig: Signature): (r: Result<AT, Failure>)
    ensures !at.obj.ClassSel? ==> r == Err(NotAClass)
    ensures at.obj.ClassSel? ==> (r.Ok? <==> sig in at.obj.cls.publicConstructors)
    ensures at.obj.ClassSel? && r.Err? ==> r.error == NoSuchConstructor
    ensures r.Ok? ==> (at.obj.ClassSel? && sig in at.obj.cls.publicConstructors
      && r.value.obj == ConstructorSel(at.obj.cls.publicConstructors[sig]))
  {
    match at.obj
    case ClassSel(c) =>
      if sig in c.publicConstructors then Ok(At(ConstructorSel(c.publicConstructors[sig])))
      else Err(NoSuchConstructor)
    case _ => Err(NotAClass)
  }

  /** `package_()`: the class's package, or a null selection when the class has none. */
  function Package(at: AT): (r: Result<AT, Failure>)
    ensures r.Ok? <==> at.obj.ClassSel?
    ensures r.Err? ==> r.error == NotAClass
    ensures r.Ok? ==> (IsPresent(r.value) <==> at.obj.cls.pkg.Some?)
    ensures r.Ok? && IsPresent(r.value) ==>
      r.value.obj.PackageSel? && at.obj.cls.pkg == Some(r.value.obj.pack)
  {
    match at.obj
    case ClassSel(c) =>
      (match c.pkg
       case Some(p) => Ok(At(PackageSel(p)))
       case None => Ok(At(Null)))
    case _ => Err(NotAClass)
  }

  // ---------------------------------------------------------------------------------------
  // Annotations

  /**
   * The cursor `annotation(kind)` returns: the first annotation of type `kind` among those
   * searched, or a null selection on a miss and on every selection that carries none.
   * For a non-null annotation class it never fails.
   */
  function AnnotationOf(at: AT, kind: Kind): (r: AT)
    ensures r.obj.Null? || (r.obj.AnnotationSel? && r.obj.ann.kind == kind)
    ensures r.obj.AnnotationSel? <==>
      Searched(at.obj).Some? && exists a :: a in Searched(at.obj).value && a.kind == kind
    ensures r.obj.AnnotationSel? ==> r.obj.ann in Searched(at.obj).value
  {
    match Searched(at.obj)
    case None => At(Null)
    case Some(anns) =>
      (match First(anns, kind)
       case Some(a) => At(AnnotationSel(a))
       case None => At(Null))
  }

  /** `annotation(kind)` selects the FIRST match: an earlier annotation of that type wins. */
  lemma AnnotationSelectsFirstMatch(at: AT, kind: Kind, i: nat)
    requires Searched(at.obj).Some? && i < |Searched(at.obj).value|
    requires Searched(at.obj).value[i].kind == kind
    requires forall j :: 0 <= j < i ==> Searched(at.obj).value[j].kind != kind
    ensures AnnotationOf(at, kind).obj == AnnotationSel(Searched(at.obj).value[i])
  {
  }

  /** On a single annotation, a list, a map or null, `annotation(kind)` selects null. */
  lemma AnnotationOnNonElementIsNull(at: AT, kind: Kind)
    requires at.obj.AnnotationSel? || at.obj.ListSel? || at.obj.MapSel? || at.obj.Null?
    ensures AnnotationOf(at, kind).obj == Null
  {
  }

  /** The search loop of `annotation(kind)` and `ai(kind)` over an annotation array. */
  method FirstOfKind(anns: seq<Annotation>, kind: Kind) returns (found: Option<Annotation>)
    ensures found == First(anns, kind)
  {
    found := None;
    var i := 0;
    while i < |anns|
      invariant 0 <= i <= |anns|
      invariant found.None?
      invariant forall j :: 0 <= j < i ==> anns[j].kind != kind
    {
      if kind == anns[i].kind {
        found := Some(anns[i]);
        break;
      }
      i := i + 1;
    }
  }

  /** `annotation(kind)` as the source writes it. */
  method FindAnnotation(at: AT, kind: Kind) returns (r: AT)
    ensures r == AnnotationOf(at, kind)
  {
    var annObject: Option<Annotation> := None;
    if IsAnnotatedElement(at.obj) {
      annObject := First(Searched(at.obj).value, kind);   // getAnnotation
    } else if at.obj.ArraySel? {
      annObject := FirstOfKind(at.obj.arr, kind);
    }
    r := At(if annObject.Some? then AnnotationSel(annObject.value) else Null);
  }

  /** `ai(kind)`: the annotation `annotation(kind)` would select; fails where that is null. */
  method Ai(at: AT, kind: Kind) returns (r: Result<Annotation, Failure>)
    ensures AnnotationOf(at, kind).obj.AnnotationSel? ==>
      r == Ok(AnnotationOf(at, kind).obj.ann)
    ensures AnnotationOf(at, kind).obj.Null? ==> r == Err(AnnotationMissing)
  {
    var t: Option<Annotation> := None;
    if IsAnnotatedElement(at.obj) {
      t := First(Searched(at.obj).value, kind);           // getAnnotation
    } else if at.obj.ArraySel? {
      t := FirstOfKind(at.obj.arr, kind);
    }
    if t.None? {
      return Err(AnnotationMissing);
    }
    r := Ok(t.value);
  }

  /** `annotation()`: all annotations listed, in order; fails when there are none to list. */
  function Annotations(at: AT): (r: Result<AT, Failure>)
    ensures r.Ok? <==> Listed(at.obj).Some? && |Listed(at.obj).value| > 0
    ensures r.Err? ==> r.error == NoAnnotations
    ensures r.Ok? ==> r.value.obj == ListSel(Listed(at.obj).value)
  {
    match Listed(at.obj)
    case Some(anns) => if |anns| == 0 then Err(NoAnnotations) else Ok(At(ListSel(anns)))
    case None => Err(NoAnnotations)
  }

  /** No annotation reached through inheritance: what `getAnnotation` sees is declared. */
  predicate NothingInherited(s: Selection)
  {
    s.ClassSel? ==> forall a :: a in s.cls.presentAnnotations ==> a in s.cls.declaredAnnotations
  }

  /** Whatever `annotation(kind)` selects is among what `annotation()` lists. */
  lemma AnnotationIsListed(at: AT, kind: Kind)
    requires NothingInherited(at.obj)
    requires AnnotationOf(at, kind).obj.AnnotationSel?
    ensures Annotations(at).Ok?
    ensures AnnotationOf(at, kind).obj.ann in Annotations(at).value.obj.lst
  {
  }

  /** When `annotation()` fails, `annotation(kind)` selects null for every kind. */
  lemma NoAnnotationsMeansNoneFound(at: AT, kind: Kind)
    requires NothingInherited(at.obj)
    requires Annotations(at).Err?
    ensures AnnotationOf(at, kind).obj == Null
  {
  }

  /**
   * The converse needs no restriction on a class Java can produce: every annotation that
   * `annotation()` lists is found again by `annotation(kind)` for its own type.
   */
  lemma ListedIsFound(at: AT, a: Annotation)
    requires at.obj.ClassSel? ==> WellFormed(at.obj.cls)
    requires Annotations(at).Ok? && a in Annotations(at).value.obj.lst
    ensures AnnotationOf(at, a.kind).obj.AnnotationSel?
    ensures AnnotationOf(at, a.kind).obj.ann.kind == a.kind
  {
  }

  /**
   * Without that restriction the two disagree: a class whose only annotation is inherited,
   * of a made-up `@Inherited` annotation type.
   */
  lemma InheritedAnnotationIsNotListed()
    ensures var inherited := Annotation("z.cube.utils.InheritedMarker", map[]);
      var c := ClassDecl("Child", [], [inherited], [], map[], map[], None);
      AnnotationOf(AtClass(c), inherited.kind).obj == AnnotationSel(inherited)
      && Annotations(AtClass(c)) == Err(NoAnnotations)
  {
  }

  // ---------------------------------------------------------------------------------------
  // Terminal queries

  /** `get()`: the selected annotation; null passes the cast, anything else does not. */
  function Get(at: AT): (r: Result<Option<Annotation>, Failure>)
    ensures r.Ok? <==> at.obj.AnnotationSel? || at.obj.Null?
    ensures r.Err? ==> r.error == BadCast
    ensures r.Ok? ==> (r.value.Some? <==> IsPresent(at))
    ensures r.Ok? && r.value.Some? ==> at.obj == AnnotationSel(r.value.value)
  {
    match at.obj
    case AnnotationSel(a) => Ok(Some(a))
    case Null => Ok(None)
    case _ => Err(BadCast)
  }

  /** `list()`: the selected annotation list; null passes the cast, anything else does not. */
  function List(at: AT): (r: Result<Option<seq<Annotation>>, Failure>)
    ensures r.Ok? <==> at.obj.ListSel? || at.obj.Null?
    ensures r.Err? ==> r.error == BadCast
    ensures r.Ok? ==> (r.value.Some? <==> IsPresent(at))
    ensures r.Ok? && r.value.Some? ==> at.obj == ListSel(r.value.value)
  {
    match at.obj
    case ListSel(l) => Ok(Some(l))
    case Null => Ok(None)
    case _ => Err(BadCast)
  }

  /** `map()`: the selected map, and only a map. */
  function Map(at: AT): (r: Result<map<string, seq<Annotation>>, Failure>)
    ensures r.Ok? <==> at.obj.MapSel?
    ensures r.Err? ==> r.error == NotAMap
    ensures r.Ok? ==> at.obj == MapSel(r.value)
  {
    match at.obj
    case MapSel(m) => Ok(m)
    case _ => Err(NotAMap)
  }

  /** `isPresent()`: the cursor holds something; a null cursor carries no annotations. */
  function IsPresent(at: AT): (r: bool)
    ensures r <==> at != At(Null)
    ensures !r ==> Searched(at.obj).None? && Listed(at.obj).None?
  {
    at.obj != Null
  }

  /** `isPresent(kind)`: `annotation(kind).isPresent()`. */
  function IsPresentKind(at: AT, kind: Kind): (r: bool)
    ensures r <==> Searched(at.obj).Some? && exists a :: a in Searched(at.obj).value && a.kind == kind
  {
    IsPresent(AnnotationOf(at, kind))
  }

  /** `has()`, an alias of `isPresent()`. */
  function Has(at: AT): (r: bool)
    ensures r <==> !at.obj.Null?
  {
    IsPresent(at)
  }

  /** `has(kind)`, an alias of `isPresent(kind)`. */
  function HasKind(at: AT, kind: Kind): (r: bool)
    ensures r <==> Searched(at.obj).Some? && exists a :: a in Searched(at.obj).value && a.kind == kind
  {
    IsPresentKind(at, kind)
  }

  /** The presence probes agree with the annotation query they wrap, on every selection. */
  lemma PresenceProbes(at: AT, kind: Kind)
    ensures Has(at) == IsPresent(at) && HasKind(at, kind) == IsPresentKind(at, kind)
    ensures IsPresentKind(at, kind) <==>
      (Get(AnnotationOf(at, kind)).Ok? && Get(AnnotationOf(at, kind)).value.Some?)
    ensures !IsPresentKind(at, kind) <==> Get(AnnotationOf(at, kind)) == Ok(None)
  {
  }

  // ---------------------------------------------------------------------------------------
  // Parameters

  /** `parameterNames()`: the name discoverer's answer (possibly null). */
  function ParameterNames(at: AT): (r: Result<Option<seq<string>>, Failure>)
    ensures r.Ok? <==> IsExecutable(at.obj)
    ensures r.Err? ==> r.error == NotExecutable
    ensures r.Ok? ==> r.value == Names(at.obj)
  {
    if IsExecutable(at.obj) then Ok(Names(at.obj)) else Err(NotExecutable)
  }

  /** `parameterAnnotations()`: one annotation array per parameter. */
  function ParameterAnnotations(at: AT): (r: Result<seq<seq<Annotation>>, Failure>)
    ensures r.Ok? <==> IsExecutable(at.obj)
    ensures r.Err? ==> r.error == NotExecutable
    ensures r.Ok? ==> r.value == Params(at.obj)
  {
    if IsExecutable(at.obj) then Ok(Params(at.obj)) else Err(NotExecutable)
  }

  /** `List.indexOf`: the first position holding `name`, or -1. */
  function IndexOf(names: seq<string>, name: string): (i: int)
    ensures -1 <= i < |names|
    ensures 0 <= i ==> names[i] == name
    ensures forall j :: 0 <= j < |names| && (i < 0 || j < i) ==> names[j] != name
  {
    if names == [] then -1
    else if names[0] == name then 0
    else
      var i := IndexOf(names[1..], name);
      if i < 0 then -1 else i + 1
  }

  /** `arg(i)`: the annotation array of parameter `i`; any `i` outside `[0, n)` fails. */
  function Arg(at: AT, i: int): (r: Result<AT, Failure>)
    ensures !IsExecutable(at.obj) ==> r == Err(NotExecutable)
    ensures IsExecutable(at.obj) ==> (r.Ok? <==> 0 <= i < |Params(at.obj)|)
    ensures IsExecutable(at.obj) && r.Err? ==> r.error == IndexOutOfBounds
    ensures r.Ok? ==> (IsExecutable(at.obj) && 0 <= i < |Params(at.obj)|
      && r.value.obj == ArraySel(Params(at.obj)[i]))
  {
    match ParameterAnnotations(at)
    case Err(e) => Err(e)
    case Ok(annotations) =>
      if 0 <= i < |annotations| then Ok(At(ArraySel(annotations[i]))) else Err(IndexOutOfBounds)
  }

  /** `param(name)`: `arg(indexOf(names, name))`. */
  function Param(at: AT, name: string): (r: Result<AT, Failure>)
    ensures !IsExecutable(at.obj) ==> r == Err(NotExecutable)
    ensures IsExecutable(at.obj) && Names(at.obj).None? ==> r == Err(NamesUnavailable)
    ensures IsExecutable(at.obj) && Names(at.obj).Some? ==>
      r == Arg(at, IndexOf(Names(at.obj).value, name))
  {
    match ParameterNames(at)
    case Err(e) => Err(e)
    case Ok(None) => Err(NamesUnavailable)
    case Ok(Some(names)) => Arg(at, IndexOf(names, name))
  }

  /** `param(name)` selects the array of the first parameter so named. */
  lemma ParamSelectsNamedSlot(at: AT, name: string, i: nat)
    requires IsExecutable(at.obj) && Names(at.obj).Some?
    requires i < |Names(at.obj).value| && i < |Params(at.obj)|
    requires Names(at.obj).value[i] == name
    requires forall j :: 0 <= j < i ==> Names(at.obj).value[j] != name
    ensures Param(at, name) == Arg(at, i)
    ensures Param(at, name) == Ok(At(ArraySel(Params(at.obj)[i])))
  {
  }

  /** An unknown name gives index -1, and `arg(-1)` fails. */
  lemma ParamUnknownNameFails(at: AT, name: string)
    requires IsExecutable(at.obj) && Names(at.obj).Some?
    requires name !in Names(at.obj).value
    ensures Param(at, name) == Err(IndexOutOfBounds)
  {
  }

  // ---------------------------------------------------------------------------------------
  // Parameter maps

  /** The map `arg()` fills: `String.valueOf(i)` to the array of parameter `i`. */
  function IndexTable(ps: seq<seq<Annotation>>): map<string, seq<Annotation>>
  {
    if ps == [] then map[]
    else IndexTable(ps[..|ps| - 1])[Decimal.Str(|ps| - 1) := ps[|ps| - 1]]
  }

  /** Every index `i` is a key, "i", bound to the array at that index. */
  lemma {:induction false} IndexTableEntries(ps: seq<seq<Annotation>>, i: nat)
    requires i < |ps|
    ensures Decimal.Str(i) in IndexTable(ps) && IndexTable(ps)[Decimal.Str(i)] == ps[i]
  {
    var n := |ps| - 1;
    if i < n {
      IndexTableEntries(ps[..n], i);
      if Decimal.Str(i) == Decimal.Str(n) {
        Decimal.StrInjective(i, n);
      }
    }
  }

  /** Every key is the spelling of an index: there are no others. */
  lemma {:induction false} IndexTableKeys(ps: seq<seq<Annotation>>, k: string)
    requires k in IndexTable(ps)
    ensures exists i :: 0 <= i < |ps| && k == Decimal.Str(i)
  {
    var n := |ps| - 1;
    if k != Decimal.Str(n) {
      IndexTableKeys(ps[..n], k);
    }
  }

  /** The result of `arg()`. */
  function ArgTableOf(at: AT): Result<AT, Failure>
  {
    match ParameterAnnotations(at)
    case Err(e) => Err(e)
    case Ok(ps) => Ok(At(MapSel(IndexTable(ps))))
  }

  /** `arg()` as the source writes it: a loop that puts one entry per parameter. */
  method ArgTable(at: AT) returns (r: Result<AT, Failure>)
    ensures r == ArgTableOf(at)
  {
    var params := ParameterAnnotations(at);
    if params.Err? {
      return Err(params.error);
    }
    var annotations := params.value;
    var m: map<string, seq<Annotation>> := map[];
    var i := 0;
    while i < |annotations|
      invariant 0 <= i <= |annotations|
      invariant m == IndexTable(annotations[..i])
    {
      assert annotations[..i + 1][..i] == annotations[..i];
      m := m[Decimal.Str(i) := annotations[i]];
      i := i + 1;
    }
    assert annotations[..i] == annotations;
    r := Ok(At(MapSel(m)));
  }

  /** The positional views agree: entry `String.valueOf(i)` of `arg().map()` is `arg(i)`. */
  lemma ArgTableAgreesWithArg(at: AT, i: nat)
    requires IsExecutable(at.obj) && i < |Params(at.obj)|
    ensures ArgTableOf(at).Ok? && Map(ArgTableOf(at).value).Ok?
    ensures Decimal.Str(i) in Map(ArgTableOf(at).value).value
    ensures Arg(at, i) == Ok(At(ArraySel(Map(ArgTableOf(at).value).value[Decimal.Str(i)])))
  {
    IndexTableEntries(Params(at.obj), i);
  }

  /** The map `param()` fills: `names[i]` to the array of parameter `i`, later puts winning. */
  function NamedTable(names: seq<string>, ps: seq<seq<Annotation>>): map<string, seq<Annotation>>
    requires |names| <= |ps|
  {
    if names == [] then map[]
    else NamedTable(names[..|names| - 1], ps)[names[|names| - 1] := ps[|names| - 1]]
  }

  /** Its keys are exactly the parameter names. */
  lemma {:induction false} NamedTableKeys(names: seq<string>, ps: seq<seq<Annotation>>)
    requires |names| <= |ps|
    ensures forall k :: k in NamedTable(names, ps) <==> k in names
  {
    if names != [] {
      var n := |names| - 1;
      NamedTableKeys(names[..n], ps);
      assert names == names[..n] + [names[n]];
    }
  }

  /** A name maps to the array of its LAST occurrence (`HashMap.put` overwrites). */
  lemma {:induction false} NamedTableLastWins(names: seq<string>, ps: seq<seq<Annotation>>, i: nat)
    requires |names| <= |ps| && i < |names|
    requires forall j :: i < j < |names| ==> names[j] != names[i]
    ensures names[i] in NamedTable(names, ps) && NamedTable(names, ps)[names[i]] == ps[i]
  {
    var n := |names| - 1;
    if i < n {
      NamedTableLastWins(names[..n], ps, i);
    }
  }

  /** With distinct names, every name maps to the array at its own position. */
  lemma NamedTableDistinct(names: seq<string>, ps: seq<seq<Annotation>>)
    requires |names| <= |ps|
    requires forall i, j :: 0 <= i < j < |names| ==> names[i] != names[j]
    ensures forall i :: 0 <= i < |names| ==>
      names[i] in NamedTable(names, ps) && NamedTable(names, ps)[names[i]] == ps[i]
  {
  }

  /** The result of `param()`. */
  function ParamTableOf(at: AT): Result<AT, Failure>
  {
    match ParameterAnnotations(at)
    case Err(e) => Err(e)
    case Ok(ps) =>
      match ParameterNames(at)
      case Err(e) => Err(e)
      case Ok(None) => Err(NamesUnavailable)
      case Ok(Some(names)) =>
        if |names| <= |ps| then Ok(At(MapSel(NamedTable(names, ps)))) else Err(IndexOutOfBounds)
  }

  /** `param()` as the source writes it: a loop over the names that indexes the arrays. */
  method ParamTable(at: AT) returns (r: Result<AT, Failure>)
    ensures r == ParamTableOf(at)
  {
    var params := ParameterAnnotations(at);
    if params.Err? {
      return Err(params.error);
    }
    var annotations := params.value;
    var found := ParameterNames(at);
    if found.value.None? {
      return Err(NamesUnavailable);
    }
    var names := found.value.value;
    var m: map<string, seq<Annotation>> := map[];
    var i := 0;
    while i < |names|
      invariant 0 <= i <= |names| && i <= |annotations|
      invariant m == NamedTable(names[..i], annotations)
    {
      if i >= |annotations| {
        return Err(IndexOutOfBounds);
      }
      assert names[..i + 1][..i] == names[..i];
      m := m[names[i] := annotations[i]];
      i := i + 1;
    }
    assert names[..i] == names;
    r := Ok(At(MapSel(m)));
  }

  /** The by-name views agree: with distinct names, `param().map()` at a name is `param(name)`. */
  lemma ParamTableAgreesWithParam(at: AT, i: nat)
    requires IsExecutable(at.obj) && Names(at.obj).Some?
    requires |Names(at.obj).value| <= |Params(at.obj)| && i < |Names(at.obj).value|
    requires forall j, k :: 0 <= j < k < |Names(at.obj).value| ==>
      Names(at.obj).value[j] != Names(at.obj).value[k]
    ensures ParamTableOf(at).Ok? && Map(ParamTableOf(at).value).Ok?
    ensures Names(at.obj).value[i] in Map(ParamTableOf(at).value).value
    ensures Param(at, Names(at.obj).value[i])
      == Ok(At(ArraySel(Map(ParamTableOf(at).value).value[Names(at.obj).value[i]])))
  {
    var names := Names(at.obj).value;
    NamedTableDistinct(names, Params(at.obj));
    ParamSelectsNamedSlot(at, names[i], i);
  }

  // ---------------------------------------------------------------------------------------
  // Fields

  /** Whether `fields(filter)` keeps a field cursor: always when the filter is null. */
  predicate Keeps(filter: Option<AT -> bool>, a: AT)
  {
    filter.None? || filter.value(a)
  }

  /** The cursors `fields(filter)` collects from `fs`, in declaration order. */
  function Kept(fs: seq<FieldDecl>, filter: Option<AT -> bool>): seq<AT>
  {
    if fs == [] then []
    else
      var a := AtField(fs[|fs| - 1]);
      Kept(fs[..|fs| - 1], filter) + (if Keeps(filter, a) then [a] else [])
  }

  /** A field's cursor is collected exactly when the field is declared and passes the filter. */
  lemma {:induction false} KeptMembers(fs: seq<FieldDecl>, filter: Option<AT -> bool>)
    ensures forall a :: a in Kept(fs, filter) ==> a.obj.FieldSel?
    ensures forall f :: AtField(f) in Kept(fs, filter) <==> f in fs && Keeps(filter, AtField(f))
  {
    if fs != [] {
      var n := |fs| - 1;
      KeptMembers(fs[..n], filter);
      assert fs == fs[..n] + [fs[n]];
    }
  }

  /** Collecting keeps order: the cursors of a prefix come before those of the rest. */
  lemma {:induction false} KeptAppend(fs: seq<FieldDecl>, gs: seq<FieldDecl>, filter: Option<AT -> bool>)
    ensures Kept(fs + gs, filter) == Kept(fs, filter) + Kept(gs, filter)
  {
    if gs == [] {
      assert fs + gs == fs;
    } else {
      var n := |gs| - 1;
      KeptAppend(fs, gs[..n], filter);
      assert (fs + gs)[..|fs + gs| - 1] == fs + gs[..n];
    }
  }

  /** Without a filter every declared field is collected, one cursor each, in order. */
  lemma {:induction false} KeptAll(fs: seq<FieldDecl>)
    ensures |Kept(fs, None)| == |fs|
    ensures forall i :: 0 <= i < |fs| ==> Kept(fs, None)[i] == AtField(fs[i])
  {
    if fs != [] {
      KeptAll(fs[..|fs| - 1]);
    }
  }

  /** The result of `fields(filter)`. */
  function FieldsOf(at: AT, filter: Option<AT -> bool>): Result<seq<AT>, Failure>
  {
    if at.obj.ClassSel? then Ok(Kept(at.obj.cls.declaredFields, filter)) else Err(NotAClass)
  }

  /** `fields(filter)` as the source writes it: a loop appending the cursors it keeps. */
  method Fields(at: AT, filter: Option<AT -> bool>) returns (r: Result<seq<AT>, Failure>)
    ensures r == FieldsOf(at, filter)
  {
    if !at.obj.ClassSel? {
      return Err(NotAClass);
    }
    var fields := at.obj.cls.declaredFields;
    var ats: seq<AT> := [];
    for i := 0 to |fields|
      invariant ats == Kept(fields[..i], filter)
    {
      assert fields[..i + 1][..i] == fields[..i];
      var a := AtField(fields[i]);
      if filter.None? || filter.value(a) {
        ats := ats + [a];
      }
    }
    assert fields[..|fields|] == fields;
    r := Ok(ats);
  }

  /** `fields()`: `fields(null)`, one cursor per declared field in declaration order. */
  method AllFields(at: AT) returns (r: Result<seq<AT>, Failure>)
    ensures r == FieldsOf(at, None)
    ensures r.Ok? <==> at.obj.ClassSel?
    ensures r.Ok? ==> |r.value| == |at.obj.cls.declaredFields|
    ensures r.Ok? ==>
      forall i :: 0 <= i < |r.value| ==> r.value[i] == AtField(at.obj.cls.declaredFields[i])
  {
    r := Fields(at, None);
    if at.obj.ClassSel? {
      KeptAll(at.obj.cls.declaredFields);
    }
  }
}
