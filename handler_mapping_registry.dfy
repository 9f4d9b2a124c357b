/** HandlerMappingRegistry: an ordered, append-only list of handler mappings. */
module MappingRegistry {
  import opened Lang
  import opened Web
  import opened Reflect
  import opened Handlers
  import opened Scanner
  import opened AnnotationMapping

  /** The stream of `getHandler` results, filtered for non-null, taken by
      `findAny`: as a sequential stream does, mappings are asked in list order
      and the first non-null answer is returned; an exception from a mapping
      asked before any answer propagates; an exhausted list throws a bare
      RuntimeException. */
  function FirstHandler(mappings: seq<AnnotationHandlerMapping>, request: Request): (r: Result<Handler>)
    reads mappings
    ensures r.Ok? ==> r.value.execution.Some? && r.value == OfExecution(r.value.execution.value)
    ensures r.Ok? ==>
      exists i :: 0 <= i < |mappings| && NullBefore(mappings, request, i) &&
                  mappings[i].GetHandler(request) == Ok(Some(r.value.execution.value))
    ensures r == Err(BareRuntimeException) <==> NullBefore(mappings, request, |mappings|)
    ensures r.Err? && r != Err(BareRuntimeException) ==>
      exists i :: 0 <= i < |mappings| && NullBefore(mappings, request, i) &&
                  mappings[i].GetHandler(request) == Err(r.error)
    decreases |mappings|
  {
    if mappings == [] then Err(BareRuntimeException)
    else
      match mappings[0].GetHandler(request)
      case Err(e) => Err(e)
      case Ok(None) => FirstHandler(mappings[1..], request)
      case Ok(Some(execution)) => Ok(OfExecution(execution))
  }

  /** Every mapping before position `i` answers null. */
  ghost predicate NullBefore(mappings: seq<AnnotationHandlerMapping>, request: Request, i: nat)
    reads mappings
    requires i <= |mappings|
  {
    forall j :: 0 <= j < i ==> mappings[j].GetHandler(request) == Ok(None)
  }

  class HandlerMappingRegistry {
    var handlerMappings: seq<AnnotationHandlerMapping>

    constructor ()
      ensures handlerMappings == []
    {
      handlerMappings := [];
    }

    /** Initializes every registered mapping, in list order; the first one
        that throws (at position `failedAt`) stops the rest. A mapping registered twice is initialized
        twice, which leaves its key set as one run does. */
    method Initialize(cp: ClassPath) returns (r: Result<()>, ghost failedAt: nat)
      modifies handlerMappings
      ensures r.Ok? <==> forall i :: 0 <= i < |handlerMappings| ==> AllConstruct(Reflections(cp, handlerMappings[i].basePackage))
      ensures r.Ok? ==> forall m :: m in handlerMappings ==> m.Initialized(cp, old(m.handlerExecutions))
      ensures r.Err? ==>
        && failedAt < |handlerMappings|
        && (forall j :: 0 <= j < failedAt ==> AllConstruct(Reflections(cp, handlerMappings[j].basePackage)))
        && ConstructionFailure(Reflections(cp, handlerMappings[failedAt].basePackage), r.error)
        && (forall m :: m in handlerMappings ==>
              if m in handlerMappings[..failedAt] then m.Initialized(cp, old(m.handlerExecutions))
              else m.handlerExecutions == old(m.handlerExecutions))
    {
      var i := 0;
      while i < |handlerMappings|
        invariant 0 <= i <= |handlerMappings|
        invariant forall j :: 0 <= j < i ==> AllConstruct(Reflections(cp, handlerMappings[j].basePackage))
        invariant forall m :: m in handlerMappings ==>
          if m in handlerMappings[..i] then m.Initialized(cp, old(m.handlerExecutions))
          else m.handlerExecutions == old(m.handlerExecutions)
      {
        var mapping := handlerMappings[i];
        var initialized, _ := mapping.Initialize(cp);
        if initialized.Err? {
          return initialized, i;
        }
        assert handlerMappings[..i + 1] == handlerMappings[..i] + [mapping];
        i := i + 1;
      }
      assert handlerMappings[..i] == handlerMappings;
      return Ok(()), 0;
    }

    /** Appends a mapping; earlier mappings keep their places. */
    method RegisterHandlerMapping(handlerMapping: AnnotationHandlerMapping)
      modifies this
      ensures handlerMappings == old(handlerMappings) + [handlerMapping]
    {
      handlerMappings := handlerMappings + [handlerMapping];
    }

    /** A non-null handler from a registered mapping, or the exception of
        a mapping, or a bare RuntimeException when every mapping answers null. */
    function GetHandler(request: Request): (r: Result<Handler>)
      reads this, handlerMappings
      ensures r.Ok? ==> r.value.execution.Some? && r.value == OfExecution(r.value.execution.value)
      ensures r.Ok? ==> exists m :: m in handlerMappings && m.GetHandler(request) == Ok(Some(r.value.execution.value))
      ensures r == Err(BareRuntimeException) <==> forall m :: m in handlerMappings ==> m.GetHandler(request) == Ok(None)
    {
      FirstHandler(handlerMappings, request)
    }
  }
}
