/** DispatcherServlet: the front controller. Per request it resolves a
    handler, then an adapter for that handler, then lets the adapter handle
    the request and renders the result. */
module Dispatcher {
  import opened Lang
  import opened Web
  import opened Reflect
  import opened Handlers
  import opened Scanner
  import opened AnnotationMapping
  import opened MappingRegistry
  import opened Adapters
  import opened AdapterRegistry

  /** `handleRequest`: handle, then render only if handling returned; any
      exception of either step comes out as a RuntimeException carrying only
      its message. */
  function HandleRequest(env: Collaborators, request: Request, handler: Handler, adapter: HandlerAdapter): (r: Result<()>)
    ensures r.Ok? <==>
      Handle(adapter, env, request, handler).Ok? &&
      env.renderView(Handle(adapter, env, request, handler).value, request).Ok?
    ensures Handle(adapter, env, request, handler).Err? ==>
      r == Err(Rewrap(Handle(adapter, env, request, handler).error))
    ensures Handle(adapter, env, request, handler).Ok? &&
            env.renderView(Handle(adapter, env, request, handler).value, request).Err? ==>
      r == Err(Rewrap(env.renderView(Handle(adapter, env, request, handler).value, request).error))
  {
    match Handle(adapter, env, request, handler)
    case Err(e) => Err(Rewrap(e))
    case Ok(modelAndView) =>
      match env.renderView(modelAndView, request)
      case Err(e) => Err(Rewrap(e))
      case Ok(_) => Ok(())
  }

  /** When handling throws, the view is never rendered: the outcome is the
      same whatever rendering would have done. */
  lemma NoRenderAfterFailedHandle(env: Collaborators, request: Request, handler: Handler, adapter: HandlerAdapter,
                                  render: (ModelAndView, Request) -> Result<()>)
    requires Handle(adapter, env, request, handler).Err?
    ensures HandleRequest(env.(renderView := render), request, handler, adapter) == HandleRequest(env, request, handler, adapter)
  {
  }

  class DispatcherServlet {
    const handlerAdapters: HandlerAdapterRegistry
    const handlerMappingRegistry: HandlerMappingRegistry

    /** Both registries start empty, and nothing in the servlet ever fills them. */
    constructor ()
      ensures fresh(handlerAdapters) && fresh(handlerMappingRegistry)
      ensures handlerAdapters.handlerAdapters == [] && handlerMappingRegistry.handlerMappings == []
    {
      handlerAdapters := new HandlerAdapterRegistry();
      handlerMappingRegistry := new HandlerMappingRegistry();
    }

    /** `init`: initializes the mapping registry and changes nothing else. */
    method Init(cp: ClassPath) returns (r: Result<()>)
      modifies handlerMappingRegistry.handlerMappings
      ensures handlerMappingRegistry.handlerMappings == old(handlerMappingRegistry.handlerMappings)
      ensures handlerAdapters.handlerAdapters == old(handlerAdapters.handlerAdapters)
      ensures r.Ok? <==> forall i :: 0 <= i < |handlerMappingRegistry.handlerMappings| ==>
        AllConstruct(Reflections(cp, handlerMappingRegistry.handlerMappings[i].basePackage))
      ensures r.Ok? ==> forall m :: m in handlerMappingRegistry.handlerMappings ==>
        m.Initialized(cp, old(m.handlerExecutions))
      ensures r.Err? ==>
        exists f :: && 0 <= f < |handlerMappingRegistry.handlerMappings|
                    && (forall j :: 0 <= j < f ==>
                          AllConstruct(Reflections(cp, handlerMappingRegistry.handlerMappings[j].basePackage)))
                    && ConstructionFailure(Reflections(cp, handlerMappingRegistry.handlerMappings[f].basePackage), r.error)
                    && (forall m :: m in handlerMappingRegistry.handlerMappings ==>
                          if m in handlerMappingRegistry.handlerMappings[..f] then m.Initialized(cp, old(m.handlerExecutions))
                          else m.handlerExecutions == old(m.handlerExecutions))
    {
      ghost var failedAt;
      r, failedAt := handlerMappingRegistry.Initialize(cp);
    }

    /** `service`: handler lookup and adapter lookup sit outside the try, so
        their exceptions come out as they are; handling and rendering sit
        inside it. */
    function Service(env: Collaborators, request: Request): (r: Result<()>)
      reads this, handlerMappingRegistry, handlerMappingRegistry.handlerMappings, handlerAdapters
      ensures handlerMappingRegistry.GetHandler(request).Err? ==>
        r == Err(handlerMappingRegistry.GetHandler(request).error)
      ensures handlerMappingRegistry.GetHandler(request).Ok? ==>
        var handler := handlerMappingRegistry.GetHandler(request).value;
        && (handlerAdapters.GetHandlerAdapter(handler).Err? ==> r == Err(BareRuntimeException))
        && (handlerAdapters.GetHandlerAdapter(handler).Ok? ==>
              r == HandleRequest(env, request, handler, handlerAdapters.GetHandlerAdapter(handler).value))
    {
      match handlerMappingRegistry.GetHandler(request)
      case Err(e) => Err(e)
      case Ok(handler) =>
        match handlerAdapters.GetHandlerAdapter(handler)
        case Err(e) => Err(e)
        case Ok(adapter) => HandleRequest(env, request, handler, adapter)
    }
  }

  /** A servlet whose mapping registry is empty, as every servlet of this
      class is, fails every request with a bare RuntimeException. */
  lemma ServiceWithoutMappingsFails(servlet: DispatcherServlet, env: Collaborators, request: Request)
    requires servlet.handlerMappingRegistry.handlerMappings == []
    ensures servlet.Service(env, request) == Err(BareRuntimeException)
  {
  }

  /** No request ever completes: every handler the mappings produce is a
      plain HandlerExecution, the only adapter that supports it casts it to
      Controller, and the cast fails. So whatever of these mappings and adapters the registries hold and
      whatever the application does, `service` throws: the lookup's own
      exception, a bare RuntimeException, or the rewrapped ClassCastException. */
  lemma ServiceNeverCompletes(servlet: DispatcherServlet, env: Collaborators, request: Request)
    ensures servlet.Service(env, request).Err?
    ensures servlet.handlerMappingRegistry.GetHandler(request).Ok? ==>
      servlet.Service(env, request).error in {BareRuntimeException, Rewrap(CastFailure(ControllerType))}
  {
    var lookup := servlet.handlerMappingRegistry.GetHandler(request);
    if lookup.Ok? {
      var handler := lookup.value;
      assert IsHandlerExecution(handler) && !IsController(handler);
      var adapter := servlet.handlerAdapters.GetHandlerAdapter(handler);
      if adapter.Ok? {
        assert adapter.value == HandlerExecutionHandlerAdapter;
        SupportedOneShapeFailsCast(adapter.value, env, request, handler);
      }
    }
  }
}
