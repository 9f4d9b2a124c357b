/** The request-side values of the framework: HTTP methods, requests,
    route annotations, handler keys and the model-and-view result. */
module Web {
  import opened Lang

  /** The constants of the RequestMethod enum. */
  datatype RequestMethod = GET | HEAD | POST | PUT | PATCH | DELETE | OPTIONS | TRACE

  /** The name of an enum constant, as `name()` gives it. */
  function Name(m: RequestMethod): string
  {
    match m
    case GET => "GET"
    case HEAD => "HEAD"
    case POST => "POST"
    case PUT => "PUT"
    case PATCH => "PATCH"
    case DELETE => "DELETE"
    case OPTIONS => "OPTIONS"
    case TRACE => "TRACE"
  }

  /** No two constants share a name. */
  lemma NameInjective(m1: RequestMethod, m2: RequestMethod)
    ensures Name(m1) == Name(m2) ==> m1 == m2
  {
    if Name(m1) == Name(m2) {
      assert Name(m1)[0] == Name(m2)[0];
      assert |Name(m1)| == |Name(m2)|;
      if Name(m1)[0] == 'P' { assert Name(m1)[1] == Name(m2)[1]; }
    }
  }

  /** The message of the IllegalArgumentException that `valueOf` throws. */
  function NoEnumConstant(name: string): string
  {
    "No enum constant com.interface21.web.bind.annotation.RequestMethod." + name
  }

  /** `RequestMethod.valueOf(name)`: the constant whose name is exactly `name`
      (case-sensitive), or an IllegalArgumentException. */
  function ValueOf(name: string): (r: Result<RequestMethod>)
    ensures forall m :: Name(m) == name <==> r == Ok(m)
    ensures r.Err? ==> r.error == Exception(IllegalArgumentException, Some(NoEnumConstant(name)))
  {
    if name == "GET" then Ok(GET)
    else if name == "HEAD" then Ok(HEAD)
    else if name == "POST" then Ok(POST)
    else if name == "PUT" then Ok(PUT)
    else if name == "PATCH" then Ok(PATCH)
    else if name == "DELETE" then Ok(DELETE)
    else if name == "OPTIONS" then Ok(OPTIONS)
    else if name == "TRACE" then Ok(TRACE)
    else Err(Exception(IllegalArgumentException, Some(NoEnumConstant(name))))
  }

  /** `valueOf` inverts `name()`. */
  lemma ValueOfName(m: RequestMethod)
    ensures ValueOf(Name(m)) == Ok(m)
  {
    NameInjective(m, ValueOf(Name(m)).value);
  }

  /** What the servlet container tells the framework about a request: the
      URI and the method name, as `getRequestURI()` and `getMethod()` give them. */
  datatype Request = Request(uri: string, methodName: string)

  /** The `@RequestMapping` annotation: its `value()` path and its `method()` array (held as `methods`). */
  datatype RequestMapping = RequestMapping(value: string, methods: seq<RequestMethod>)

  /** HandlerKey: the (path, method) pair a route table is keyed by; equality is structural. */
  datatype HandlerKey = HandlerKey(url: string, requestMethod: RequestMethod)

  /** The key of a request equals `k`: same URI and a method name that is `k`'s. */
  predicate Matches(k: HandlerKey, request: Request)
  {
    k.url == request.uri && Name(k.requestMethod) == request.methodName
  }

  /** A view: a JSP view named by a string, or any other view a handler builds. */
  datatype View = JspView(viewName: string) | OtherView(id: string)

  /** ModelAndView: the view to render and the model attributes it is rendered with. */
  datatype ModelAndView = ModelAndView(view: View, model: map<string, string>)
}
