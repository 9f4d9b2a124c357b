/** AnnotationHandlerMapping: a route table built from `@RequestMapping`
    methods of the scanned controllers, looked up by exact (URI, method). */
module AnnotationMapping {
  import opened Lang
  import opened Web
  import opened Reflect
  import opened Handlers
  import opened Scanner

  /** One key per entry of `methods`, in order, all with the same path. */
  function KeysFor(path: string, methods: seq<RequestMethod>): (r: seq<HandlerKey>)
    ensures |r| == |methods|
    ensures forall i :: 0 <= i < |r| ==> r[i] == HandlerKey(path, methods[i])
  {
    if methods == [] then [] else [HandlerKey(path, methods[0])] + KeysFor(path, methods[1..])
  }

  /** The keys an annotation stands for: none for a missing annotation, else
      `value()` paired with each entry of `method()`, in array order. */
  function GetHandlerKeys(requestMapping: Option<RequestMapping>): (r: seq<HandlerKey>)
    ensures requestMapping.None? ==> r == []
    ensures requestMapping.Some? ==>
      |r| == |requestMapping.value.methods| &&
      forall i :: 0 <= i < |r| ==> r[i] == HandlerKey(requestMapping.value.value, requestMapping.value.methods[i])
  {
    match requestMapping
    case None => []
    case Some(rm) => KeysFor(rm.value, rm.methods)
  }

  /** As a set, the keys of an annotation are its path with each of its methods. */
  lemma HandlerKeysMembership(rm: RequestMapping, k: HandlerKey)
    ensures k in GetHandlerKeys(Some(rm)) <==> k.url == rm.value && k.requestMethod in rm.methods
  {
    var keys := GetHandlerKeys(Some(rm));
    if k.url == rm.value && k.requestMethod in rm.methods {
      var i :| 0 <= i < |rm.methods| && rm.methods[i] == k.requestMethod;
      assert keys[i] == k;
    }
  }

  /** The keys of a set of route methods. */
  ghost function MethodKeys(methods: set<JMethod>): set<HandlerKey>
  {
    set m, k | m in methods && k in GetHandlerKeys(m.requestMapping) :: k
  }

  /** The keys of the route methods of a set of classes. */
  ghost function ClassKeys(cp: ClassPath, classes: set<ClassId>): set<HandlerKey>
    requires classes <= cp.classes.Keys
  {
    set c, k | c in classes && k in MethodKeys(RequestMappingMethods(cp, c)) :: k
  }

  /** Every key that scanning with `reflections` registers. */
  ghost function RouteKeys(reflections: Reflections): set<HandlerKey>
  {
    ClassKeys(reflections.classPath, TypesAnnotatedWithController(reflections))
  }

  /** `e` is an entry scanning with `reflections` may store under `k`: a route
      method of a scanned class, whose annotation yields `k`, bound to an
      instance of that class. */
  ghost predicate Routes(reflections: Reflections, k: HandlerKey, e: HandlerExecution)
  {
    && e.handler.cls in TypesAnnotatedWithController(reflections)
    && e.routeMethod in RequestMappingMethods(reflections.classPath, e.handler.cls)
    && k in GetHandlerKeys(e.routeMethod.requestMapping)
  }

  lemma MethodKeysAdd(methods: set<JMethod>, m: JMethod)
    ensures MethodKeys(methods + {m}) == MethodKeys(methods) + set k | k in GetHandlerKeys(m.requestMapping)
  {
  }

  lemma ClassKeysAdd(cp: ClassPath, classes: set<ClassId>, c: ClassId)
    requires classes <= cp.classes.Keys && c in cp.classes
    ensures ClassKeys(cp, classes + {c}) == ClassKeys(cp, classes) + MethodKeys(RequestMappingMethods(cp, c))
  {
  }

  class AnnotationHandlerMapping {
    const basePackage: seq<string>
    var handlerExecutions: map<HandlerKey, HandlerExecution>

    constructor (basePackage: seq<string>)
      ensures this.basePackage == basePackage && handlerExecutions == map[]
    {
      this.basePackage := basePackage;
      handlerExecutions := map[];
    }

    /** The table holds the entries of `before` plus the keys a scan of the
        class path registers: each of the latter bound to a route it stands
        for, every other key keeping its entry from `before`. */
    ghost predicate Initialized(cp: ClassPath, before: map<HandlerKey, HandlerExecution>)
      reads this
    {
      && handlerExecutions.Keys == before.Keys + RouteKeys(Reflections(cp, basePackage))
      && (forall k :: k in before && k !in RouteKeys(Reflections(cp, basePackage)) ==>
            handlerExecutions[k] == before[k])
      && forall k :: k in RouteKeys(Reflections(cp, basePackage)) ==>
           Routes(Reflections(cp, basePackage), k, handlerExecutions[k])
    }

    /** Scans the base packages and registers every route of every scanned
        controller, bound to the one instance the scan built for its class
        (`instances`, a proof-only view of the scanner's map).
        Classes and methods are visited in unspecified (hash) order, so where
        two routes share a key, either may be the one left in the table.
        Nothing is ever removed. */
    method Initialize(cp: ClassPath) returns (r: Result<()>, ghost instances: map<ClassId, ControllerInstance>)
      modifies this
      ensures r.Ok? <==> AllConstruct(Reflections(cp, basePackage))
      ensures r.Err? ==>
        ConstructionFailure(Reflections(cp, basePackage), r.error) && handlerExecutions == old(handlerExecutions)
      ensures r.Ok? ==>
        handlerExecutions.Keys == old(handlerExecutions).Keys + RouteKeys(Reflections(cp, basePackage))
      ensures r.Ok? ==> forall k :: k in old(handlerExecutions) && k !in RouteKeys(Reflections(cp, basePackage)) ==>
        handlerExecutions[k] == old(handlerExecutions)[k]
      ensures r.Ok? ==> instances.Keys == TypesAnnotatedWithController(Reflections(cp, basePackage))
      ensures r.Ok? ==> forall c :: c in instances ==> instances[c].cls == c && fresh(instances[c])
      ensures r.Ok? ==> forall k :: k in RouteKeys(Reflections(cp, basePackage)) ==>
        Routes(Reflections(cp, basePackage), k, handlerExecutions[k]) &&
        handlerExecutions[k].handler == instances[handlerExecutions[k].handler.cls]
      ensures r.Ok? ==> Initialized(cp, old(handlerExecutions))
    {
      var reflections := Reflections(cp, basePackage);
      var scanner := new ControllerScanner(reflections);
      var scanned := scanner.GetControllers();
      if scanned.Err? {
        return Err(scanned.error), map[];
      }
      var controllers := scanned.value;
      instances := controllers;
      var pending := controllers.Keys;
      while pending != {}
        invariant pending <= controllers.Keys
        invariant Registered(cp, controllers, controllers.Keys - pending, handlerExecutions, old(handlerExecutions))
        decreases pending
      {
        var controller :| controller in pending;
        ghost var before := handlerExecutions;
        PutRoutes(RequestMappingMethods(cp, controller), controllers[controller]);
        RegisteredStep(cp, controllers, controllers.Keys - pending, controller, before, handlerExecutions,
                       old(handlerExecutions));
        assert controllers.Keys - (pending - {controller}) == (controllers.Keys - pending) + {controller};
        pending := pending - {controller};
      }
      assert controllers.Keys - pending == TypesAnnotatedWithController(reflections);
      RegisteredAll(reflections, controllers, handlerExecutions, old(handlerExecutions));
      r := Ok(());
    }

    /** The inner loop of `initialize`: every route method of one controller
        class is put into the table, bound to that class's instance. */
    method PutRoutes(methods: set<JMethod>, handler: ControllerInstance)
      modifies this
      ensures RoutesPut(old(handlerExecutions), handlerExecutions, methods, handler)
    {
      var todo := methods;
      while todo != {}
        invariant todo <= methods
        invariant handlerExecutions.Keys == old(handlerExecutions).Keys + MethodKeys(methods - todo)
        invariant forall k :: k in old(handlerExecutions) && k !in MethodKeys(methods - todo) ==>
          handlerExecutions[k] == old(handlerExecutions)[k]
        invariant forall k :: k in MethodKeys(methods - todo) ==>
          handlerExecutions[k].handler == handler &&
          handlerExecutions[k].routeMethod in methods &&
          k in GetHandlerKeys(handlerExecutions[k].routeMethod.requestMapping)
        decreases todo
      {
        var m :| m in todo;
        PutHandlerExecution(m, handler);
        MethodKeysAdd(methods - todo, m);
        assert methods - (todo - {m}) == (methods - todo) + {m};
        todo := todo - {m};
      }
    }

    /** The stored execution for the request's exact (URI, method) key, or
        null; a method name that names no RequestMethod constant throws. */
    function GetHandler(request: Request): (r: Result<Option<HandlerExecution>>)
      reads this
      ensures r.Err? <==> forall m :: Name(m) != request.methodName
      ensures r.Err? ==> r.error == Exception(IllegalArgumentException, Some(NoEnumConstant(request.methodName)))
      ensures r.Ok? && r.value.Some? ==>
        exists k :: k in handlerExecutions && Matches(k, request) && handlerExecutions[k] == r.value.value
      ensures r == Ok(None) ==> forall k :: k in handlerExecutions ==> !Matches(k, request)
    {
      match ValueOf(request.methodName)
      case Err(e) => Err(e)
      case Ok(m) =>
        var key := HandlerKey(request.uri, m);
        if key in handlerExecutions then Ok(Some(handlerExecutions[key])) else Ok(None)
    }

    /** Every stored key is reachable: the request carrying its path and its
        method's name gets the entry stored under it. */
    lemma StoredKeyIsFound(k: HandlerKey)
      requires k in handlerExecutions
      ensures GetHandler(Request(k.url, Name(k.requestMethod))) == Ok(Some(handlerExecutions[k]))
    {
      ValueOfName(k.requestMethod);
    }

    /** Stores `HandlerExecution(handler, method)` under every key of the
        method's annotation, overwriting what was there (last write wins). */
    method PutHandlerExecution(routeMethod: JMethod, handler: ControllerInstance)
      modifies this
      ensures handlerExecutions.Keys ==
        old(handlerExecutions).Keys + set k | k in GetHandlerKeys(routeMethod.requestMapping)
      ensures forall k :: k in GetHandlerKeys(routeMethod.requestMapping) ==>
        handlerExecutions[k] == HandlerExecution(handler, routeMethod)
      ensures forall k :: k in old(handlerExecutions) && k !in GetHandlerKeys(routeMethod.requestMapping) ==>
        handlerExecutions[k] == old(handlerExecutions)[k]
    {
      PutAll(GetHandlerKeys(routeMethod.requestMapping), HandlerExecution(handler, routeMethod));
    }

    /** The loop of `putHandlerExecution`: `put` of one execution under each key in turn. */
    method PutAll(handlerKeys: seq<HandlerKey>, execution: HandlerExecution)
      modifies this
      ensures handlerExecutions.Keys == old(handlerExecutions).Keys + set k | k in handlerKeys
      ensures forall k :: k in handlerKeys ==> handlerExecutions[k] == execution
      ensures forall k :: k in old(handlerExecutions) && k !in handlerKeys ==>
        handlerExecutions[k] == old(handlerExecutions)[k]
    {
      ghost var added: set<HandlerKey> := {};
      for i := 0 to |handlerKeys|
        invariant added == set k | k in handlerKeys[..i]
        invariant handlerExecutions.Keys == old(handlerExecutions).Keys + added
        invariant forall k :: k in added ==> handlerExecutions[k] == execution
        invariant forall k :: k in old(handlerExecutions) && k !in added ==>
          handlerExecutions[k] == old(handlerExecutions)[k]
      {
        handlerExecutions := handlerExecutions[handlerKeys[i] := execution];
        assert handlerKeys[..i + 1] == handlerKeys[..i] + [handlerKeys[i]];
        added := added + {handlerKeys[i]};
      }
      assert handlerKeys[..|handlerKeys|] == handlerKeys;
    }
  }

  /** Initializing twice over the same class path: nothing is removed, and
      the second run leaves the key set exactly as the first left it. */
  method InitializeTwice(mapping: AnnotationHandlerMapping, cp: ClassPath)
    returns (once: set<HandlerKey>, twice: set<HandlerKey>)
    modifies mapping
    ensures AllConstruct(Reflections(cp, mapping.basePackage)) ==>
      once == twice == old(mapping.handlerExecutions).Keys + RouteKeys(Reflections(cp, mapping.basePackage))
    ensures !AllConstruct(Reflections(cp, mapping.basePackage)) ==>
      once == twice == old(mapping.handlerExecutions).Keys
  {
    var first, _ := mapping.Initialize(cp);
    once := mapping.handlerExecutions.Keys;
    var second, _ := mapping.Initialize(cp);
    twice := mapping.handlerExecutions.Keys;
  }

  /** `after` is `before` with every route of `methods` put in, bound to `handler`. */
  ghost predicate RoutesPut(before: map<HandlerKey, HandlerExecution>, after: map<HandlerKey, HandlerExecution>,
                            methods: set<JMethod>, handler: ControllerInstance)
  {
    && after.Keys == before.Keys + MethodKeys(methods)
    && (forall k :: k in before && k !in MethodKeys(methods) ==> after[k] == before[k])
    && (forall k :: k in MethodKeys(methods) ==>
          && after[k].handler == handler
          && after[k].routeMethod in methods
          && k in GetHandlerKeys(after[k].routeMethod.requestMapping))
  }

  /** Loop invariant of Initialize: `table` is `original` with the routes of
      the classes in `done` put in, each bound to its class's instance. */
  ghost predicate Registered(cp: ClassPath, controllers: map<ClassId, ControllerInstance>, done: set<ClassId>,
                             table: map<HandlerKey, HandlerExecution>, original: map<HandlerKey, HandlerExecution>)
  {
    && done <= controllers.Keys <= cp.classes.Keys
    && (forall c :: c in controllers ==> controllers[c].cls == c)
    && table.Keys == original.Keys + ClassKeys(cp, done)
    && (forall k :: k in original && k !in ClassKeys(cp, done) ==> table[k] == original[k])
    && (forall k :: k in ClassKeys(cp, done) ==> BoundTo(cp, controllers, done, k, table[k]))
  }

  /** One round of Initialize's outer loop keeps its invariant. */
  lemma RegisteredStep(cp: ClassPath, controllers: map<ClassId, ControllerInstance>, done: set<ClassId>,
                       c: ClassId, before: map<HandlerKey, HandlerExecution>, after: map<HandlerKey, HandlerExecution>,
                       original: map<HandlerKey, HandlerExecution>)
    requires Registered(cp, controllers, done, before, original)
    requires c in controllers
    requires RoutesPut(before, after, RequestMappingMethods(cp, c), controllers[c])
    ensures Registered(cp, controllers, done + {c}, after, original)
  {
    ClassKeysAdd(cp, done, c);
    StepKeys(cp, done, c, before, after, original);
    StepUnchanged(cp, done, c, before, after, original);
    StepBound(cp, controllers, done, c, before, after, original);
  }

  /** The table's key set grows by the keys of class `c`. */
  lemma StepKeys(cp: ClassPath, done: set<ClassId>, c: ClassId, before: map<HandlerKey, HandlerExecution>,
                 after: map<HandlerKey, HandlerExecution>, original: map<HandlerKey, HandlerExecution>)
    requires done <= cp.classes.Keys && c in cp.classes
    requires before.Keys == original.Keys + ClassKeys(cp, done)
    requires after.Keys == before.Keys + MethodKeys(RequestMappingMethods(cp, c))
    requires ClassKeys(cp, done + {c}) == ClassKeys(cp, done) + MethodKeys(RequestMappingMethods(cp, c))
    ensures after.Keys == original.Keys + ClassKeys(cp, done + {c})
  {
  }

  /** Keys of no class done so far keep their original entries. */
  lemma StepUnchanged(cp: ClassPath, done: set<ClassId>, c: ClassId, before: map<HandlerKey, HandlerExecution>,
                      after: map<HandlerKey, HandlerExecution>, original: map<HandlerKey, HandlerExecution>)
    requires done <= cp.classes.Keys && c in cp.classes
    requires original.Keys <= before.Keys <= after.Keys
    requires forall k :: k in original && k !in ClassKeys(cp, done) ==> before[k] == original[k]
    requires forall k :: k in before && k !in MethodKeys(RequestMappingMethods(cp, c)) ==> after[k] == before[k]
    requires ClassKeys(cp, done + {c}) == ClassKeys(cp, done) + MethodKeys(RequestMappingMethods(cp, c))
    ensures forall k :: k in original && k !in ClassKeys(cp, done + {c}) ==> after[k] == original[k]
  {
  }

  /** The keys of the classes done so far stay bound to their instances. */
  lemma StepBound(cp: ClassPath, controllers: map<ClassId, ControllerInstance>, done: set<ClassId>, c: ClassId,
                  before: map<HandlerKey, HandlerExecution>, after: map<HandlerKey, HandlerExecution>,
                  original: map<HandlerKey, HandlerExecution>)
    requires Registered(cp, controllers, done, before, original)
    requires c in controllers
    requires RoutesPut(before, after, RequestMappingMethods(cp, c), controllers[c])
    requires ClassKeys(cp, done + {c}) == ClassKeys(cp, done) + MethodKeys(RequestMappingMethods(cp, c))
    ensures forall k :: k in ClassKeys(cp, done + {c}) ==> BoundTo(cp, controllers, done + {c}, k, after[k])
  {
  }

  /** Once every scanned class is done, the table meets Initialize's contract. */
  lemma RegisteredAll(reflections: Reflections, controllers: map<ClassId, ControllerInstance>,
                      table: map<HandlerKey, HandlerExecution>, original: map<HandlerKey, HandlerExecution>)
    requires controllers.Keys == TypesAnnotatedWithController(reflections)
    requires Registered(reflections.classPath, controllers, controllers.Keys, table, original)
    ensures table.Keys == original.Keys + RouteKeys(reflections)
    ensures forall k :: k in original && k !in RouteKeys(reflections) ==> table[k] == original[k]
    ensures forall k :: k in RouteKeys(reflections) ==>
      Routes(reflections, k, table[k]) && table[k].handler == controllers[table[k].handler.cls]
  {
  }

  /** Loop bookkeeping of Initialize: the entry under `k` is a route method of
      an already visited class `c`, bound to `controllers[c]`. */
  ghost predicate BoundTo(cp: ClassPath, controllers: map<ClassId, ControllerInstance>, done: set<ClassId>,
                          k: HandlerKey, e: HandlerExecution)
  {
    && e.handler.cls in done
    && e.handler.cls in controllers
    && e.handler.cls in cp.classes
    && e.handler == controllers[e.handler.cls]
    && e.routeMethod in RequestMappingMethods(cp, e.handler.cls)
    && k in GetHandlerKeys(e.routeMethod.requestMapping)
  }
}
