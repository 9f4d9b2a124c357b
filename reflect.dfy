/** What reflection tells the framework about the application's classes.
    The Reflections library and java.lang.reflect are replaced by this value:
    for each class, whether it carries `@Controller`, what its no-arg
    constructor does when called reflectively, and its methods with their
    `@RequestMapping` annotations. */
module Reflect {
  import opened Lang
  import opened Web

  /** A class, by package and simple name. */
  datatype ClassId = ClassId(pkg: string, name: string)

  /** A method as reflection reports it, with its `@RequestMapping` if it has one. */
  datatype JMethod = JMethod(declaringClass: ClassId, name: string, requestMapping: Option<RequestMapping>)

  /** What `getDeclaredConstructor().newInstance()` does for a class: builds an
      instance, or throws one of the reflective exceptions (no such constructor,
      abstract class, inaccessible, or the constructor itself threw), whose
      `getMessage()` is given. */
  datatype Construction = Constructs | Throws(message: Option<string>)

  /** One class: whether the `@Controller` scan reports it (annotated, or a
      subtype or annotation type the library also reports), its constructor's behaviour and all its
      methods, inherited ones included (what `getAllMethods` enumerates). */
  datatype ClassInfo = ClassInfo(isController: bool, construction: Construction, methods: set<JMethod>)

  /** The classes visible to reflection. */
  datatype ClassPath = ClassPath(classes: map<ClassId, ClassInfo>)

  /** `new Reflections(basePackage)`: a scanner over the class path restricted
      to the given base packages. */
  datatype Reflections = Reflections(classPath: ClassPath, basePackage: seq<string>)

  /** A class is in scope when one of the base-package strings is a prefix of its package. */
  predicate InScope(c: ClassId, basePackage: seq<string>)
  {
    exists p :: p in basePackage && p <= c.pkg
  }

  /** `getTypesAnnotatedWith(Controller.class)`: the `@Controller` classes in scope. */
  function TypesAnnotatedWithController(r: Reflections): (s: set<ClassId>)
    ensures forall c :: c in s <==>
      c in r.classPath.classes && r.classPath.classes[c].isController && InScope(c, r.basePackage)
  {
    set c | c in r.classPath.classes && r.classPath.classes[c].isController && InScope(c, r.basePackage)
  }

  /** `getAllMethods(controller, withAnnotation(RequestMapping.class))`: the
      methods of a class that carry `@RequestMapping`. */
  function RequestMappingMethods(cp: ClassPath, c: ClassId): (s: set<JMethod>)
    requires c in cp.classes
    ensures forall m :: m in s <==> m in cp.classes[c].methods && m.requestMapping.Some?
  {
    set m | m in cp.classes[c].methods && m.requestMapping.Some?
  }

  /** An object built by a controller class's no-arg constructor. Each `new`
      is a distinct object, as each `newInstance()` call is. */
  class ControllerInstance {
    const cls: ClassId

    constructor (cls: ClassId)
      ensures this.cls == cls
    {
      this.cls := cls;
    }
  }
}
