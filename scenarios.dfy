/** A worked configuration: one controller with a GET "/hello" route, one
    annotation mapping over its package, and both adapters registered. */
module Scenarios {
  import opened Lang
  import opened Web
  import opened Reflect
  import opened Handlers
  import opened Scanner
  import opened AnnotationMapping
  import opened MappingRegistry
  import opened Adapters
  import opened AdapterRegistry
  import opened Dispatcher

  const HelloClass: ClassId := ClassId("com.techcourse.controller", "HelloController")
  const HelloRoute: JMethod := JMethod(HelloClass, "hello", Some(RequestMapping("/hello", [GET])))
  const HelloClassPath: ClassPath := ClassPath(map[HelloClass := ClassInfo(true, Constructs, {HelloRoute})])
  const BasePackage: seq<string> := ["com.techcourse"]

  /** Scanning the package finds the one route, under the one key. */
  lemma HelloRouteKeys()
    ensures AllConstruct(Reflections(HelloClassPath, BasePackage))
    ensures RouteKeys(Reflections(HelloClassPath, BasePackage)) == {HandlerKey("/hello", GET)}
  {
    var reflections := Reflections(HelloClassPath, BasePackage);
    assert BasePackage[0] in BasePackage && BasePackage[0] <= HelloClass.pkg;
    assert InScope(HelloClass, BasePackage);
    assert TypesAnnotatedWithController(reflections) == {HelloClass};
    assert RequestMappingMethods(HelloClassPath, HelloClass) == {HelloRoute};
    var keys := GetHandlerKeys(HelloRoute.requestMapping);
    assert keys == [HandlerKey("/hello", GET)];
    MethodKeysAdd({}, HelloRoute);
    assert {} + {HelloRoute} == {HelloRoute};
    assert MethodKeys({HelloRoute}) == {HandlerKey("/hello", GET)};
  }

  /** Of the route keys, only GET /hello exists, so a POST to the same path matches none. */
  lemma PostHelloUnmatched(keys: set<HandlerKey>)
    requires keys == {HandlerKey("/hello", GET)}
    ensures forall k :: k in keys ==> !Matches(k, Request("/hello", "POST"))
  {
    assert Name(GET) != "POST";
  }

  const HelloKey: HandlerKey := HandlerKey("/hello", GET)

  /** What an initialized mapping over the package holds: the hello route
      under its one key, next to whatever it held before. */
  lemma HelloTable(mapping: AnnotationHandlerMapping, before: map<HandlerKey, HandlerExecution>)
    requires mapping.basePackage == BasePackage && mapping.Initialized(HelloClassPath, before)
    ensures mapping.handlerExecutions.Keys == before.Keys + {HelloKey}
    ensures mapping.handlerExecutions[HelloKey].routeMethod == HelloRoute
  {
    HelloRouteKeys();
    assert Routes(Reflections(HelloClassPath, BasePackage), HelloKey, mapping.handlerExecutions[HelloKey]);
  }

  /** One annotation mapping over the package, registered and initialized. */
  method SetUpHello() returns (mapping: AnnotationHandlerMapping, mappings: HandlerMappingRegistry)
    ensures fresh(mapping) && fresh(mappings)
    ensures mappings.handlerMappings == [mapping] && mapping.basePackage == BasePackage
    ensures mapping.handlerExecutions.Keys == {HelloKey}
    ensures mapping.handlerExecutions[HelloKey].routeMethod == HelloRoute
  {
    mapping := new AnnotationHandlerMapping(BasePackage);
    mappings := new HandlerMappingRegistry();
    mappings.RegisterHandlerMapping(mapping);
    HelloRouteKeys();
    var initialized, _ := mappings.Initialize(HelloClassPath);
    assert mapping in mappings.handlerMappings;
    HelloTable(mapping, map[]);
  }

  /** GET /hello resolves to the hello route and POST /hello finds no handler. */
  method HelloResolution() returns (get: Result<Handler>, post: Result<Handler>)
    ensures get.Ok? && get.value.execution.Some? && get.value.execution.value.routeMethod == HelloRoute
    ensures post == Err(BareRuntimeException)
  {
    var mapping, mappings := SetUpHello();
    mapping.StoredKeyIsFound(HelloKey);
    get := mappings.GetHandler(Request("/hello", "GET"));
    PostHelloUnmatched(mapping.handlerExecutions.Keys);
    post := mappings.GetHandler(Request("/hello", "POST"));
  }

  /** Initializing a mapping over the package adds the hello key to what it held. */
  method InitializeHello(mapping: AnnotationHandlerMapping) returns (keys: set<HandlerKey>)
    requires mapping.basePackage == BasePackage
    modifies mapping
    ensures keys == mapping.handlerExecutions.Keys == old(mapping.handlerExecutions.Keys) + {HelloKey}
  {
    HelloRouteKeys();
    var initialized, _ := mapping.Initialize(HelloClassPath);
    HelloTable(mapping, old(mapping.handlerExecutions));
    keys := mapping.handlerExecutions.Keys;
  }

  /** Initializing a mapping a second time leaves its key set as the first time did. */
  method HelloReinitialized() returns (keysOnce: set<HandlerKey>, keysTwice: set<HandlerKey>)
    ensures keysOnce == keysTwice == {HelloKey}
  {
    var mapping := new AnnotationHandlerMapping(BasePackage);
    keysOnce := InitializeHello(mapping);
    keysTwice := InitializeHello(mapping);
  }

  /** Serving GET /hello through both registered adapters picks the
      HandlerExecution adapter, whose cast to Controller fails. */
  method HelloServed(env: Collaborators) returns (served: Result<()>)
    ensures served == Err(Rewrap(CastFailure(ControllerType)))
  {
    var mapping, mappings := SetUpHello();
    var adapters := new HandlerAdapterRegistry();
    adapters.AddHandlerMapping(HandlerExecutionHandlerAdapter);
    adapters.AddHandlerMapping(ControllerHandlerAdapter);
    var request := Request("/hello", "GET");
    mapping.StoredKeyIsFound(HelloKey);
    var handler := mappings.GetHandler(request);
    var adapter := adapters.GetHandlerAdapter(handler.value);
    assert adapter == Ok(HandlerExecutionHandlerAdapter);
    served := HandleRequest(env, request, handler.value, adapter.value);
  }
}
