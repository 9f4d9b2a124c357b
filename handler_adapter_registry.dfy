/** HandlerAdapterRegistry: an ordered, append-only list of adapters. */
module AdapterRegistry {
  import opened Lang
  import opened Handlers
  import opened Adapters

  /** The adapters filtered by `support`, taken by `findAny`: as a sequential
      stream does, the first supporting adapter in list order; a bare
      RuntimeException when there is none. */
  function FirstSupporting(adapters: seq<HandlerAdapter>, handler: Handler): (r: Result<HandlerAdapter>)
    ensures r.Ok? ==>
      exists i :: 0 <= i < |adapters| && adapters[i] == r.value && Support(r.value, handler) &&
                  NoneSupports(adapters, handler, i)
    ensures r.Err? <==> NoneSupports(adapters, handler, |adapters|)
    ensures r.Err? ==> r.error == BareRuntimeException
  {
    if adapters == [] then Err(BareRuntimeException)
    else if Support(adapters[0], handler) then Ok(adapters[0])
    else FirstSupporting(adapters[1..], handler)
  }

  /** No adapter before position `i` supports the handler. */
  predicate NoneSupports(adapters: seq<HandlerAdapter>, handler: Handler, i: nat)
    requires i <= |adapters|
  {
    forall j :: 0 <= j < i ==> !Support(adapters[j], handler)
  }

  class HandlerAdapterRegistry {
    var handlerAdapters: seq<HandlerAdapter>

    constructor ()
      ensures handlerAdapters == []
    {
      handlerAdapters := [];
    }

    /** Appends an adapter (the method is named `addHandlerMapping`, but what
        it adds is an adapter); earlier adapters keep their places. */
    method AddHandlerMapping(handlerAdapter: HandlerAdapter)
      modifies this
      ensures handlerAdapters == old(handlerAdapters) + [handlerAdapter]
    {
      handlerAdapters := handlerAdapters + [handlerAdapter];
    }

    /** `getHandlerAdater`: a registered adapter that supports the handler,
        or a bare RuntimeException when none does. Being a function, it
        leaves the list as it is. */
    function GetHandlerAdapter(handler: Handler): (r: Result<HandlerAdapter>)
      reads this
      ensures r.Ok? ==> r.value in handlerAdapters && Support(r.value, handler)
      ensures r.Err? <==> forall a :: a in handlerAdapters ==> !Support(a, handler)
      ensures r.Err? ==> r.error == BareRuntimeException
    {
      FirstSupporting(handlerAdapters, handler)
    }
  }
}
