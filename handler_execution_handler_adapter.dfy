/** HandlerExecutionHandlerAdapter, as written: it accepts HandlerExecution
    handlers but invokes them as legacy Controllers. */
module ExecutionAdapter {
  import opened Lang
  import opened Web
  import opened Handlers

  /** `handler instanceof HandlerExecution` */
  function Support(handler: Handler): (b: bool)
    ensures b <==> IsHandlerExecution(handler)
  {
    handler.execution.Some?
  }

  /** Casts the handler to Controller, calls `execute`, and wraps the view
      name it returns in a JSP view with an empty model. */
  function Handle(env: Collaborators, request: Request, handler: Handler): (r: Result<ModelAndView>)
    ensures !IsController(handler) ==> r == Err(CastFailure(ControllerType))
    ensures r.Ok? ==>
      && IsController(handler)
      && r.value.view.JspView? && r.value.model == map[]
      && env.execute(handler.controller.value, request) == Ok(r.value.view.viewName)
    ensures IsController(handler) && env.execute(handler.controller.value, request).Err? ==>
      r == Err(env.execute(handler.controller.value, request).error)
    ensures IsController(handler) && env.execute(handler.controller.value, request).Ok? ==> r.Ok?
  {
    match handler.controller
    case None => Err(CastFailure(ControllerType))
    case Some(controller) =>
      match env.execute(controller, request)
      case Err(e) => Err(e)
      case Ok(viewName) => Ok(ModelAndView(JspView(viewName), map[]))
  }

  /** A handler this adapter accepts fails its cast unless it is a Controller too. */
  lemma SupportedButNotController(env: Collaborators, request: Request, handler: Handler)
    requires Support(handler) && !IsController(handler)
    ensures Handle(env, request, handler) == Err(CastFailure(ControllerType))
  {
  }
}
