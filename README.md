# AT: a fluent cursor over Java annotation metadata, in Dafny

`AT` is a small Java utility class for reading annotations. It works on packages, classes,
constructors, fields and methods, and on the parameters of methods and constructors. A
chain starts at `at(element)`. It moves on with `field`, `method`, `constructor`,
`package_`, `param` and `arg`. It ends with a query: `annotation(kind).get()`,
`annotation().list()`, `ai(kind)`, `isPresent`/`has`, `map()` or `fields()`. Each cursor
holds one selected object in a final field. Every step checks what kind of object it holds
and returns a new cursor, a terminal value, or throws a `RuntimeException`.

This project models that class.

- `Reflection` (`reflection.dfy`) is the reflection catalogue, given as plain input values.
  A class has:
  - its declared and present annotations;
  - its declared fields, in order;
  - its declared methods, keyed by name and parameter types;
  - its public constructors, keyed by parameter types;
  - an optional package.

  A method or constructor has its own annotations, one annotation array per parameter,
  and the parameter names the name discoverer finds, or `None`.
- `Cursor` (`cursor.dfy`) is the class `AT`. It has:
  - a `Selection` datatype with one variant per kind of object the Java field can hold,
    including `Null`;
  - a `Failure` datatype for the exceptions;
  - one function per dispatching operation;
  - one method per loop in the source. These are the annotation search with `break`, the
    `HashMap` fills of `param()` and `arg()`, and the `ArrayList` appends of `fields`.
    Each method is proved equal to a specification function, and lemmas state what those
    functions mean.
- `Decimal` (`decimal.dfy`) is `String.valueOf` on indices. It is proved injective through
  its inverse, so the keys `arg()` writes never collide.
- `PersonExample` (`person_example.dfy`) is the test fixture `Person`, with the suite's
  chains as lemmas.

Where the code and its own test disagree, the model follows the code:

- For a non-null annotation class, `annotation(kind)` never throws. On a miss, and on a selection that carries no annotations
  (one annotation, a list, a map, null), it selects null. `get()` then returns null.
- The test at `src/test/java/z/cube/utils/ATTest.java:213-216` expects
  `at(Person.class).method("getName").annotation(XmlAttribute.class).get()` to throw. By
  the code it returns null (`PersonExample.MissingAnnotationIsNull`). Only `ai(kind)` and
  `annotation()` throw on a miss.
- `arg(i)` has no bounds check of its own. The array access fails for every `i` outside
  `[0, n)`, and that includes the `-1` that `param(name)` passes for an unknown name.
- A class's `getAnnotation` also sees annotations inherited through `@Inherited`, while
  `getDeclaredAnnotations` does not. So on a class, `annotation(kind)` can find an
  annotation that `annotation()` does not list (`Cursor.InheritedAnnotationIsNotListed`).
  The consistency between the two holds for every other selection, and for classes that
  inherit nothing.
- `get()` and `list()` cast to a type variable whose bound is `Annotation` or `Iterable`.
  The compiled cast checks that bound, so null passes and any other kind of object fails.

## Model

| member | source | states |
|---|---|---|
| `Cursor.AtSelectsElement` | src/main/java/z/cube/utils/AT.java:45-82 | the entry points `AtClass`, `AtMethod`, `AtField`, `AtConstructor` and `AtPackage` (through `At`, the private constructor): `at(x)` for a class, method, field, constructor or package yields a present cursor whose annotation queries read exactly x's present and declared annotations |
| `Cursor.Field` | src/main/java/z/cube/utils/AT.java:90-102 | fails with NotAClass off a class; on a class, succeeds exactly when a declared field has that name, and then selects a declared field of that name; otherwise NoSuchField |
| `Cursor.FieldSelectsDeclared` | src/main/java/z/cube/utils/AT.java:90-102 | on a class Java can produce, `field(f.name)` selects the declared field `f` itself |
| `Cursor.Method` | src/main/java/z/cube/utils/AT.java:111-123 | fails with NotAClass off a class; on a class, succeeds exactly when a declared method has that name and parameter types, and selects it; otherwise NoSuchMethod |
| `Cursor.NoArgMethod` | src/main/java/z/cube/utils/AT.java:131-133 | `method(name)` equals `method(name, [])`: the declared method of that name with no parameters |
| `Cursor.Constructor` | src/main/java/z/cube/utils/AT.java:141-153 | fails with NotAClass off a class; on a class, succeeds exactly when a PUBLIC constructor has those parameter types, and selects it; otherwise NoSuchConstructor |
| `Cursor.Package` | src/main/java/z/cube/utils/AT.java:161-169 | fails exactly off a class; on a class, the cursor is present exactly when the class has a package, and then holds that package |
| `Cursor.AnnotationOf` | src/main/java/z/cube/utils/AT.java:177-192 | never fails for a non-null annotation class; selects an annotation of the asked type exactly when the searched annotations (an element's present ones, or the array) contain one, and that annotation is among them; otherwise null |
| `Cursor.AnnotationSelectsFirstMatch` | src/main/java/z/cube/utils/AT.java:182-189 | when annotation `i` is the first of the asked type, `annotation(kind)` selects annotation `i` |
| `Cursor.AnnotationOnNonElementIsNull` | src/main/java/z/cube/utils/AT.java:177-192 | on a single annotation, a list, a map or null, `annotation(kind)` selects null and does not fail |
| `Cursor.FirstOfKind` | src/main/java/z/cube/utils/AT.java:184-189 | the loop with `break` returns the first annotation of the asked type, or null when there is none |
| `Cursor.FindAnnotation` | src/main/java/z/cube/utils/AT.java:177-192 | the method, with its loop, yields exactly the cursor `AnnotationOf` describes |
| `Cursor.Ai` | src/main/java/z/cube/utils/AT.java:309-327 | returns the annotation `annotation(kind)` selects, and fails with AnnotationMissing exactly when that selection is null |
| `Cursor.Annotations` | src/main/java/z/cube/utils/AT.java:199-211 | fails with NoAnnotations exactly when the selection lists nothing: no declared annotations, an empty array, or an unsupported kind; otherwise selects the listed annotations in their order |
| `Cursor.AnnotationIsListed` | src/main/java/z/cube/utils/AT.java:177-211 | when nothing is inherited, an annotation that `annotation(kind)` selects is in the list `annotation()` returns |
| `Cursor.NoAnnotationsMeansNoneFound` | src/main/java/z/cube/utils/AT.java:177-211 | when nothing is inherited and `annotation()` fails, `annotation(kind)` selects null for every kind |
| `Cursor.ListedIsFound` | src/main/java/z/cube/utils/AT.java:177-211 | on any selection except a malformed class, every annotation `annotation()` lists is found by `annotation(kind)` for its own type |
| `Cursor.InheritedAnnotationIsNotListed` | src/main/java/z/cube/utils/AT.java:179-203 | a class whose only annotation is inherited: `annotation(kind)` finds it while `annotation()` fails |
| `Cursor.Get` | src/main/java/z/cube/utils/AT.java:284-286 | succeeds exactly on an annotation or null; returns the selected annotation, or null exactly when nothing is selected |
| `Cursor.List` | src/main/java/z/cube/utils/AT.java:295-297 | succeeds exactly on a list or null; returns the selected list, or null exactly when nothing is selected |
| `Cursor.Map` | src/main/java/z/cube/utils/AT.java:396-401 | succeeds exactly when the selection is a map, and returns that map; otherwise NotAMap |
| `Cursor.IsPresent` | src/main/java/z/cube/utils/AT.java:334-336 | true exactly when the cursor is not the null cursor; a null cursor has nothing to search or list |
| `Cursor.IsPresentKind` | src/main/java/z/cube/utils/AT.java:344-346 | true exactly when the searched annotations contain one of the asked type; never fails for a non-null annotation class |
| `Cursor.Has` | src/main/java/z/cube/utils/AT.java:353-355 | true exactly when the selection is not null |
| `Cursor.HasKind` | src/main/java/z/cube/utils/AT.java:363-365 | the same answer as `isPresent(kind)` |
| `Cursor.PresenceProbes` | src/main/java/z/cube/utils/AT.java:334-365 | `has` and `has(kind)` equal `isPresent` and `isPresent(kind)`; `isPresent(kind)` holds exactly when `annotation(kind).get()` returns an annotation, and is false exactly when it returns null |
| `Cursor.ParameterNames` | src/main/java/z/cube/utils/AT.java:232-243 | succeeds exactly on a method or constructor, with the discoverer's answer; otherwise NotExecutable |
| `Cursor.ParameterAnnotations` | src/main/java/z/cube/utils/AT.java:250-261 | succeeds exactly on a method or constructor, with its per-parameter arrays; otherwise NotExecutable |
| `Cursor.IndexOf` | src/main/java/z/cube/utils/AT.java:223 | the first position holding the name, or -1 exactly when no position does |
| `Cursor.Arg` | src/main/java/z/cube/utils/AT.java:269-275 | off a method or constructor fails with NotExecutable; on one, succeeds exactly for `0 <= i < n`, selecting array `i`; every other `i`, -1 included, fails with IndexOutOfBounds |
| `Cursor.Param` | src/main/java/z/cube/utils/AT.java:219-225 | fails with NotExecutable off a method or constructor and with NamesUnavailable without names; otherwise equals `arg(indexOf(names, name))` |
| `Cursor.ParamSelectsNamedSlot` | src/main/java/z/cube/utils/AT.java:219-225 | for the first parameter named `name`, at position `i`, `param(name)` equals `arg(i)` and selects array `i` |
| `Cursor.ParamUnknownNameFails` | src/main/java/z/cube/utils/AT.java:219-275 | a name that no parameter has fails with IndexOutOfBounds, through `arg(-1)` |
| `Cursor.IndexTableEntries` | src/main/java/z/cube/utils/AT.java:383-390 | in the map `arg()` builds, key `String.valueOf(i)` holds array `i` for every `i < n` |
| `Cursor.IndexTableKeys` | src/main/java/z/cube/utils/AT.java:383-390 | every key of that map is `String.valueOf(i)` for some `i < n` |
| `Cursor.ArgTable` | src/main/java/z/cube/utils/AT.java:383-390 | the loop that fills the map yields exactly the result `ArgTableOf` describes: the index map, or NotExecutable |
| `Cursor.ArgTableAgreesWithArg` | src/main/java/z/cube/utils/AT.java:269-390 | for every `i < n`, `arg().map()` holds at key `String.valueOf(i)` the array that `arg(i)` selects |
| `Cursor.NamedTableKeys` | src/main/java/z/cube/utils/AT.java:370-378 | the keys of the map `param()` builds are exactly the parameter names |
| `Cursor.NamedTableLastWins` | src/main/java/z/cube/utils/AT.java:373-376 | a name maps to the array at its last occurrence, because a later put replaces an earlier one |
| `Cursor.NamedTableDistinct` | src/main/java/z/cube/utils/AT.java:370-378 | with distinct names, `names[i]` maps to array `i` for every `i` |
| `Cursor.ParamTable` | src/main/java/z/cube/utils/AT.java:370-378 | the loop yields exactly what `ParamTableOf` describes: NotExecutable, NamesUnavailable, IndexOutOfBounds when there are more names than arrays, or the name map |
| `Cursor.ParamTableAgreesWithParam` | src/main/java/z/cube/utils/AT.java:219-378 | with distinct names, `param().map()` holds at `names[i]` the array that `param(names[i])` selects |
| `Cursor.KeptMembers` | src/main/java/z/cube/utils/AT.java:407-413 | `fields(filter)` collects a field's cursor exactly when the field is declared and passes the filter, or when there is no filter; it collects nothing but field cursors |
| `Cursor.KeptAppend` | src/main/java/z/cube/utils/AT.java:407-413 | collecting keeps declaration order: over `fs + gs` it gives the cursors of `fs`, then those of `gs` |
| `Cursor.KeptAll` | src/main/java/z/cube/utils/AT.java:407-413 | with no filter it collects one cursor per declared field, the i-th for the i-th field |
| `Cursor.Fields` | src/main/java/z/cube/utils/AT.java:403-417 | the loop yields exactly what `FieldsOf` describes: NotAClass off a class, else the kept cursors in order |
| `Cursor.AllFields` | src/main/java/z/cube/utils/AT.java:418-420 | `fields()` is `fields(null)`: succeeds exactly on a class, with one cursor per declared field, in order |
| `Decimal.Str` | src/main/java/z/cube/utils/AT.java:387 | `String.valueOf(i)` for `i >= 0`: a non-empty string of decimal digits, one digit exactly when `i < 10`, no leading zero |
| `Decimal.ValueOfStr` | src/main/java/z/cube/utils/AT.java:387 | reading the digits back gives the index again |
| `Decimal.StrInjective` | src/main/java/z/cube/utils/AT.java:387 | distinct indices get distinct keys |
| `Reflection.DeclaredField` | src/main/java/z/cube/utils/AT.java:94 | the lookup returns a declared field with that name, and finds nothing exactly when no declared field has it |
| `Reflection.DeclaredFieldUnique` | src/main/java/z/cube/utils/AT.java:94 | among fields with distinct names, looking up a field's name finds that field |
| `Reflection.FirstIndex` | src/main/java/z/cube/utils/AT.java:184-189 | returns -1 or a position holding the asked type, and no earlier position holds it |
| `Reflection.First` | src/main/java/z/cube/utils/AT.java:181-189 | the annotation found is among those searched and of the asked type; null exactly when none is |
| `PersonExample.PersonWellFormed` | src/test/java/z/cube/utils/Person.java:12-62 | `Person` is well formed; `field("age")` and `method("toString")` succeed, and `toString` has no run-time annotations to list |
| `PersonExample.ConstructorParameterAnnotation` | src/test/java/z/cube/utils/ATTest.java:112-139 | `constructor(String, Integer)` then `param("age")`, or `arg(1)`, reaches `@Max(20)`; `param("name")` lists `@NotNull` |
| `PersonExample.MethodParameterAnnotation` | src/test/java/z/cube/utils/ATTest.java:141-174 | `method("setName", String)` then `param("name")`, or `arg(0)`, reaches `@NotNull` |
| `PersonExample.ClassAnnotations` | src/test/java/z/cube/utils/ATTest.java:49-62 | `@XmlRootElement` of `Person` comes back with its name, and `annotation()` lists both class annotations in order |
| `PersonExample.FieldAnnotations` | src/test/java/z/cube/utils/ATTest.java:64-79 | `field("name")` selects the field; its `@XmlAttribute` has name "NAME"; `annotation()` lists `@XmlAttribute` and `@Deprecated` |
| `PersonExample.MethodAnnotations` | src/test/java/z/cube/utils/ATTest.java:81-96 | `method("getName")` selects the method; it carries `@Deprecated`; `annotation()` lists `@Deprecated` and `@Transient` |
| `PersonExample.ConstructorParameterMap` | src/test/java/z/cube/utils/Person.java:25-29 | `param().map()` on the two-parameter constructor is `{"name": [@NotNull], "age": [@Max(20)]}` |
| `PersonExample.UnsupportedNavigationFails` | src/test/java/z/cube/utils/ATTest.java:198-231 | field, method and constructor from a method selection, and param and arg from a field selection, all fail |
| `PersonExample.MissingMembersFail` | src/test/java/z/cube/utils/ATTest.java:234-252 | `constructor()` selects the public no-argument constructor, which fails `annotation()`; a missing constructor, method or field fails |
| `PersonExample.MissingAnnotationIsNull` | src/test/java/z/cube/utils/ATTest.java:213-216 | by the code, `annotation(XmlAttribute).get()` on `getName` returns null instead of throwing as the test expects |

## Left out

- The reflection calls themselves are replaced by catalogue values. These are
  `getDeclaredField`, `getDeclaredMethod`, `getConstructor`, `getPackage`,
  `getAnnotation`, `getDeclaredAnnotations` and `getParameterAnnotations`. Lookups by
  parameter type are exact key matches.
- `getAnnotation` on an element is modelled as a search for the first annotation of that
  type among the element's present annotations. Java keeps at most one of each type there.
- Spring's `DefaultParameterNameDiscoverer` reads bytecode, so it is an input:
  `Option<seq<string>>` per method or constructor. Its thread-safety is not modelled.
- Exception classes and message texts (`String.format`) become the tags of `Failure`.
- The generic type parameter of `get()` and `list()` at the call site is not modelled.
  So a caller's cast to a narrower annotation type is not modelled either.
- `fields(filter)`: a filter that throws is not modelled. The filter is a total function.
- `at(null)` for the entry points is not modelled. The catalogue values are never null.
- A null annotation class passed to `annotation(kind)`, `ai(kind)`, `isPresent(kind)` or
  `has(kind)` is not modelled, because a `Kind` is never null. Java throws
  `NullPointerException` there on an element or on a non-empty annotation array.
- A null name passed to `method(name)` or `field(name)` is not modelled, and neither is a
  `SecurityException` from the security manager.
- The package annotation of the fixture, `PackageAnnotationTest`, comes from a
  `package-info.java` that is not part of this model.
