/** ControllerScanner: one fresh instance per `@Controller` class in scope. */
module Scanner {
  import opened Lang
  import opened Reflect

  /** Every scanned class's constructor succeeds. */
  predicate AllConstruct(r: Reflections)
  {
    forall c :: c in TypesAnnotatedWithController(r) ==> r.classPath.classes[c].construction == Constructs
  }

  /** The exception `getControllers` may end with: the RuntimeException that
      carries the message of some scanned class's constructor failure. */
  predicate ConstructionFailure(r: Reflections, e: Exception)
  {
    exists c :: c in TypesAnnotatedWithController(r) && r.classPath.classes[c].construction.Throws? &&
      e == Exception(RuntimeException, r.classPath.classes[c].construction.message)
  }

  class ControllerScanner {
    const reflections: Reflections

    constructor (reflections: Reflections)
      ensures this.reflections == reflections
    {
      this.reflections := reflections;
    }

    /** Builds a map from each scanned class to a new instance of it. The
        classes are visited in an unspecified order (that of a HashSet); the
        first constructor failure met aborts the scan. */
    method GetControllers() returns (r: Result<map<ClassId, ControllerInstance>>)
      ensures r.Ok? <==> AllConstruct(reflections)
      ensures r.Ok? ==> r.value.Keys == TypesAnnotatedWithController(reflections)
      ensures r.Ok? ==> forall c :: c in r.value ==> r.value[c].cls == c && fresh(r.value[c])
      ensures r.Err? ==> ConstructionFailure(reflections, r.error)
    {
      var controllerClasses := TypesAnnotatedWithController(reflections);
      var controllers: map<ClassId, ControllerInstance> := map[];
      var pending := controllerClasses;
      while pending != {}
        invariant pending <= controllerClasses
        invariant controllers.Keys == controllerClasses - pending
        invariant forall c :: c in controllers ==> controllers[c].cls == c && fresh(controllers[c])
        invariant forall c :: c in controllerClasses - pending ==>
          reflections.classPath.classes[c].construction == Constructs
        decreases pending
      {
        var controller :| controller in pending;
        var created := CreateController(controller);
        if created.Err? {
          return Err(created.error);
        }
        controllers := controllers[controller := created.value];
        pending := pending - {controller};
      }
      return Ok(controllers);
    }

    /** `getDeclaredConstructor().newInstance()`, with any reflective failure
        rethrown as a RuntimeException carrying its message. */
    method CreateController(controller: ClassId) returns (r: Result<ControllerInstance>)
      requires controller in reflections.classPath.classes
      ensures r.Ok? <==> reflections.classPath.classes[controller].construction == Constructs
      ensures r.Ok? ==> r.value.cls == controller && fresh(r.value)
      ensures r.Err? ==> r.error == Exception(RuntimeException, reflections.classPath.classes[controller].construction.message)
    {
      match reflections.classPath.classes[controller].construction
      case Constructs =>
        var instance := new ControllerInstance(controller);
        return Ok(instance);
      case Throws(message) =>
        return Err(Exception(RuntimeException, message));
    }
  }
}
