/** HandlerAdapter: the two adapters of the framework behind one interface. */
module Adapters {
  import opened Lang
  import opened Web
  import opened Handlers
  import ExecutionAdapter
  import ControllerAdapter

  datatype HandlerAdapter = HandlerExecutionHandlerAdapter | ControllerHandlerAdapter

  /** `adapter.support(handler)` */
  function Support(adapter: HandlerAdapter, handler: Handler): (b: bool)
    ensures adapter.HandlerExecutionHandlerAdapter? ==> (b <==> IsHandlerExecution(handler))
    ensures adapter.ControllerHandlerAdapter? ==> (b <==> IsController(handler))
  {
    match adapter
    case HandlerExecutionHandlerAdapter => ExecutionAdapter.Support(handler)
    case ControllerHandlerAdapter => ControllerAdapter.Support(handler)
  }

  /** `adapter.handle(request, response, handler)` */
  function Handle(adapter: HandlerAdapter, env: Collaborators, request: Request, handler: Handler): (r: Result<ModelAndView>)
    ensures adapter.HandlerExecutionHandlerAdapter? ==> r == ExecutionAdapter.Handle(env, request, handler)
    ensures adapter.ControllerHandlerAdapter? ==> r == ControllerAdapter.Handle(env, request, handler)
  {
    match adapter
    case HandlerExecutionHandlerAdapter => ExecutionAdapter.Handle(env, request, handler)
    case ControllerHandlerAdapter => ControllerAdapter.Handle(env, request, handler)
  }

  /** The casts are swapped: an adapter that supports a handler of only one
      shape fails on it with a ClassCastException, whatever the application does. */
  lemma SupportedOneShapeFailsCast(adapter: HandlerAdapter, env: Collaborators, request: Request, handler: Handler)
    requires Support(adapter, handler)
    requires !(IsHandlerExecution(handler) && IsController(handler))
    ensures Handle(adapter, env, request, handler).Err?
    ensures Handle(adapter, env, request, handler).error.cls == ClassCastException
  {
    match adapter
    case HandlerExecutionHandlerAdapter => ExecutionAdapter.SupportedButNotController(env, request, handler);
    case ControllerHandlerAdapter => ControllerAdapter.SupportedButNotExecution(env, request, handler);
  }

  /** Conversely, a supported handler is handled only if it has both shapes. */
  lemma HandledOnlyIfBothShapes(adapter: HandlerAdapter, env: Collaborators, request: Request, handler: Handler)
    requires Support(adapter, handler) && Handle(adapter, env, request, handler).Ok?
    ensures IsHandlerExecution(handler) && IsController(handler)
  {
    if !(IsHandlerExecution(handler) && IsController(handler)) {
      SupportedOneShapeFailsCast(adapter, env, request, handler);
    }
  }
}
