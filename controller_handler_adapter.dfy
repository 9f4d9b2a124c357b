/** ControllerHandlerAdapter, as written: it accepts legacy Controllers but
    invokes them as HandlerExecutions. */
module ControllerAdapter {
  import opened Lang
  import opened Web
  import opened Handlers

  /** `handler instanceof Controller` */
  function Support(handler: Handler): (b: bool)
    ensures b <==> IsController(handler)
  {
    handler.controller.Some?
  }

  /** Casts the handler to HandlerExecution and returns what its `handle`
      returns, or lets through what it throws. */
  function Handle(env: Collaborators, request: Request, handler: Handler): (r: Result<ModelAndView>)
    ensures !IsHandlerExecution(handler) ==> r == Err(CastFailure(HandlerExecutionType))
    ensures IsHandlerExecution(handler) ==> r == env.handle(handler.execution.value, request)
  {
    match handler.execution
    case None => Err(CastFailure(HandlerExecutionType))
    case Some(execution) => env.handle(execution, request)
  }

  /** A handler this adapter accepts fails its cast unless it is a HandlerExecution too. */
  lemma SupportedButNotExecution(env: Collaborators, request: Request, handler: Handler)
    requires Support(handler) && !IsHandlerExecution(handler)
    ensures Handle(env, request, handler) == Err(CastFailure(HandlerExecutionType))
  {
  }
}
