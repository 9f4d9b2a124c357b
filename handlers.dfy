/** The handler objects a mapping hands out, and the application code that
    runs behind them. */
module Handlers {
  import opened Lang
  import opened Web
  import opened Reflect

  /** HandlerExecution: a route method bound to the controller instance it is invoked on. */
  datatype HandlerExecution = HandlerExecution(handler: ControllerInstance, routeMethod: JMethod)

  /** An object implementing the legacy `Controller` interface, by identity. */
  datatype Controller = Controller(id: string)

  /** A handler as the adapters see it: an `Object` whose `instanceof` tests
      are answered by which facets it has. A plain HandlerExecution has only
      the first, a legacy controller only the second, an object of a class that
      is both has both, and any other object has neither. */
  datatype Handler = Handler(execution: Option<HandlerExecution>, controller: Option<Controller>)

  /** `handler instanceof HandlerExecution` */
  predicate IsHandlerExecution(h: Handler) { h.execution.Some? }

  /** `handler instanceof Controller` */
  predicate IsController(h: Handler) { h.controller.Some? }

  /** The handler object that a route table entry is: a HandlerExecution and nothing else. */
  function OfExecution(e: HandlerExecution): (h: Handler)
    ensures IsHandlerExecution(h) && !IsController(h) && h.execution.value == e
  {
    Handler(Some(e), None)
  }

  /** Application code the model does not see, as functions that may throw:
      `HandlerExecution.handle`, `Controller.execute` and `ModelAndView.renderView`.
      The response they write to is not modelled. */
  datatype Collaborators = Collaborators(
    handle: (HandlerExecution, Request) -> Result<ModelAndView>,
    execute: (Controller, Request) -> Result<string>,
    renderView: (ModelAndView, Request) -> Result<()>)

  const ControllerType: string := "com.interface21.webmvc.servlet.mvc.asis.Controller"
  const HandlerExecutionType: string := "com.interface21.webmvc.servlet.mvc.tobe.HandlerExecution"

  /** The ClassCastException a failed `(T) handler` cast throws. The JVM's
      message also names the object's own class; here it names only `T`. */
  function CastFailure(typeName: string): (e: Exception)
    ensures e.cls == ClassCastException && e.message.Some?
  {
    Exception(ClassCastException, Some("handler cannot be cast to " + typeName))
  }
}
