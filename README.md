# Request dispatch of the interface21 mini MVC framework, in Dafny

This project models how the framework's front controller dispatches a
request, and proves properties of that model. The flow is:

- `DispatcherServlet` asks a `HandlerMappingRegistry` for a handler.
- It then asks a `HandlerAdapterRegistry` for an adapter that supports that handler.
- It lets the adapter handle the request, then renders the resulting `ModelAndView`.

The route table behind the mapping registry is an `AnnotationHandlerMapping`.
It is built by a `ControllerScanner`, which creates one instance per
`@Controller` class. From that table, each `@RequestMapping(value, method)`
method is stored under one `HandlerKey(value, m)` per HTTP method `m`.

Each Java file of the core is one Dafny module:

| module | models |
|---|---|
| `AnnotationMapping` | `AnnotationHandlerMapping` |
| `Scanner` | `ControllerScanner` |
| `MappingRegistry` | `HandlerMappingRegistry` |
| `AdapterRegistry` | `HandlerAdapterRegistry` |
| `ExecutionAdapter` | `HandlerExecutionHandlerAdapter` |
| `ControllerAdapter` | `ControllerHandlerAdapter` |
| `Adapters` | the `HandlerAdapter` interface over the two adapters |
| `Dispatcher` | `DispatcherServlet` |

Four modules hold what the code leans on:

- `Lang`: null becomes `Option`, and a thrown exception becomes the `Err` side of `Result`.
- `Web`: `RequestMethod`, requests, `@RequestMapping`, `HandlerKey`, `ModelAndView`.
- `Reflect`: a class-path value that stands in for the Reflections library.
- `Handlers`: handler objects, and the application code behind them as functions that may fail.

`Scenarios` is a worked configuration: one controller with a `GET /hello` route.

Classes whose fields the Java code updates become Dafny classes, and their
methods change those fields:

- the route table (a `map` field);
- both registries (`seq` fields);
- the servlet.

Everything else is pure functions and lemmas. Iteration over a `HashSet` or
`HashMap` key set is an unspecified choice (`:|`), so the contracts hold for
every visiting order. `findAny` on a sequential list stream is modelled as
the first match, and the contracts state both "some registered element" and
"the first one".

A handler is seen through its `instanceof` facets. It may be a
`HandlerExecution`, a legacy `Controller`, both, or neither.

The two adapters are modelled as the code is written, with their casts swapped:

- `HandlerExecutionHandlerAdapter` supports a `HandlerExecution` but casts it to `Controller`.
- `ControllerHandlerAdapter` supports a `Controller` but casts it to `HandlerExecution`.

`Adapters.SupportedOneShapeFailsCast` proves the consequence: an adapter
fails with a `ClassCastException` on every handler it accepts, unless that
handler has both shapes. Every handler an `AnnotationHandlerMapping` produces
is a plain `HandlerExecution` (assumed not to implement `Controller`), so `Dispatcher.ServiceNeverCompletes` shows
that no request through the servlet completes normally.

## Model

| member | source | states |
|---|---|---|
| Lang.Rewrap | app/src/main/java/com/techcourse/DispatcherServlet.java:49-50 | the rethrown exception is a RuntimeException that keeps only the original message |
| Web.ValueOf | mvc/src/main/java/com/interface21/webmvc/servlet/mvc/tobe/AnnotationHandlerMapping.java:48 | `RequestMethod.valueOf` returns the constant whose name is exactly the string, for every constant in both directions; it throws IllegalArgumentException with the JDK's "No enum constant" message otherwise |
| Web.ValueOfName | mvc/src/main/java/com/interface21/webmvc/servlet/mvc/tobe/AnnotationHandlerMapping.java:48 | `valueOf` is the inverse of the constants' names |
| Reflect.TypesAnnotatedWithController | mvc/src/main/java/com/interface21/webmvc/servlet/mvc/tobe/ControllerScanner.java:19 | the scan yields exactly the classes the class path marks as reported for `@Controller` (`isController`) whose package lies under a base package |
| Reflect.RequestMappingMethods | mvc/src/main/java/com/interface21/webmvc/servlet/mvc/tobe/AnnotationHandlerMapping.java:52-54 | a class's route methods are exactly its methods that carry `@RequestMapping` |
| Reflect.ControllerInstance.constructor | mvc/src/main/java/com/interface21/webmvc/servlet/mvc/tobe/ControllerScanner.java:30 | a new controller object is an instance of the class it was built from |
| Handlers.OfExecution | mvc/src/main/java/com/interface21/webmvc/servlet/mvc/tobe/AnnotationHandlerMapping.java:46-49 | a route-table entry handed out as a handler is a HandlerExecution and not a Controller |
| Handlers.CastFailure | mvc/src/main/java/com/interface21/webmvc/servlet/mvc/tobe/HandlerExecutionHandlerAdapter.java:17 | a failed cast throws a ClassCastException with a message |
| Scanner.ControllerScanner.constructor | mvc/src/main/java/com/interface21/webmvc/servlet/mvc/tobe/ControllerScanner.java:14-16 | the scanner keeps the Reflections it is given |
| Scanner.ControllerScanner.GetControllers | mvc/src/main/java/com/interface21/webmvc/servlet/mvc/tobe/ControllerScanner.java:18-26 | succeeds iff every scanned class constructs; the key set is then exactly the scanned classes (one entry each), and each value is a fresh instance of its key's class; otherwise it throws the RuntimeException of some failing constructor |
| Scanner.ControllerScanner.CreateController | mvc/src/main/java/com/interface21/webmvc/servlet/mvc/tobe/ControllerScanner.java:28-34 | a fresh instance of the class when its no-arg constructor succeeds, else a RuntimeException carrying the reflective failure's message |
| AnnotationMapping.KeysFor | mvc/src/main/java/com/interface21/webmvc/servlet/mvc/tobe/AnnotationHandlerMapping.java:57-59 | one key per HTTP method, in array order, each with the given path |
| AnnotationMapping.GetHandlerKeys | mvc/src/main/java/com/interface21/webmvc/servlet/mvc/tobe/AnnotationHandlerMapping.java:55-62 | no keys for a missing annotation; otherwise exactly one key per entry of `method()`, in order, each paired with `value()` |
| AnnotationMapping.HandlerKeysMembership | mvc/src/main/java/com/interface21/webmvc/servlet/mvc/tobe/AnnotationHandlerMapping.java:55-62 | a key comes from an annotation iff its path is `value()` and its method is listed in `method()` |
| AnnotationMapping.AnnotationHandlerMapping.constructor | mvc/src/main/java/com/interface21/webmvc/servlet/mvc/tobe/AnnotationHandlerMapping.java:27-30 | a new mapping keeps its base packages and has an empty route table |
| AnnotationMapping.AnnotationHandlerMapping.Initialize | mvc/src/main/java/com/interface21/webmvc/servlet/mvc/tobe/AnnotationHandlerMapping.java:32-44 | succeeds iff every scanned class constructs, and on failure the table is untouched. On success: the key set becomes the old keys plus every key of every route of every scanned class, so nothing is removed; untouched keys keep their entries; each new key holds a route method of a scanned class whose annotation yields it; all routes of one class are bound to the single fresh instance built for that class |
| AnnotationMapping.AnnotationHandlerMapping.PutRoutes | mvc/src/main/java/com/interface21/webmvc/servlet/mvc/tobe/AnnotationHandlerMapping.java:37-40 | after the inner loop, every key of the class's routes is bound to that class's instance and a route yielding the key, and other keys are unchanged |
| AnnotationMapping.AnnotationHandlerMapping.GetHandler | mvc/src/main/java/com/interface21/webmvc/servlet/mvc/tobe/AnnotationHandlerMapping.java:46-50 | throws IllegalArgumentException iff the method name names no constant; returns an entry only from a key matching the request's URI and method; returns null only when no stored key matches |
| AnnotationMapping.AnnotationHandlerMapping.StoredKeyIsFound | mvc/src/main/java/com/interface21/webmvc/servlet/mvc/tobe/AnnotationHandlerMapping.java:46-50 | every stored key is found again by a request with its path and its method's name, and the lookup returns the stored entry |
| AnnotationMapping.AnnotationHandlerMapping.PutHandlerExecution | mvc/src/main/java/com/interface21/webmvc/servlet/mvc/tobe/AnnotationHandlerMapping.java:71-79 | every key of the method's annotation is mapped to `HandlerExecution(handler, method)`, overwriting any earlier entry (last write wins); the key set grows by exactly those keys; every other key is unchanged |
| AnnotationMapping.AnnotationHandlerMapping.PutAll | mvc/src/main/java/com/interface21/webmvc/servlet/mvc/tobe/AnnotationHandlerMapping.java:75-77 | putting one execution under a list of keys maps each of them to it and leaves the other keys unchanged |
| AnnotationMapping.InitializeTwice | mvc/src/main/java/com/interface21/webmvc/servlet/mvc/tobe/AnnotationHandlerMapping.java:32-41 | initializing twice over the same classes leaves the same key set as once (the old keys plus the route keys), or the old keys when the scan fails |
| MappingRegistry.FirstHandler | mvc/src/main/java/com/interface21/webmvc/servlet/mvc/tobe/HandlerMappingRegistry.java:27-31 | a found handler is the non-null answer of a mapping that every earlier mapping preceded with null; a bare RuntimeException is thrown iff every mapping answers null; any other exception is that of a mapping asked after only nulls |
| MappingRegistry.HandlerMappingRegistry.constructor | mvc/src/main/java/com/interface21/webmvc/servlet/mvc/tobe/HandlerMappingRegistry.java:14-16 | a new registry holds no mappings |
| MappingRegistry.HandlerMappingRegistry.Initialize | mvc/src/main/java/com/interface21/webmvc/servlet/mvc/tobe/HandlerMappingRegistry.java:18-20 | every mapping is initialized, in list order. It succeeds iff every mapping's scan constructs. Initialized means: the old entries plus the route keys, each route key bound to a route yielding it, and every other key keeping its old entry. On failure there is a first failing mapping, whose constructor failure is the exception; the mappings before it are initialized and the others are untouched |
| MappingRegistry.HandlerMappingRegistry.RegisterHandlerMapping | mvc/src/main/java/com/interface21/webmvc/servlet/mvc/tobe/HandlerMappingRegistry.java:22-24 | the mapping is appended at the end; earlier mappings keep their order |
| MappingRegistry.HandlerMappingRegistry.GetHandler | mvc/src/main/java/com/interface21/webmvc/servlet/mvc/tobe/HandlerMappingRegistry.java:26-32 | never yields null: either the non-null answer of some registered mapping, or a throw; the bare RuntimeException iff every mapping (none, when empty) answers null |
| AdapterRegistry.FirstSupporting | mvc/src/main/java/com/interface21/webmvc/servlet/mvc/tobe/HandlerAdapterRegistry.java:21-24 | the first adapter in list order that supports the handler; a bare RuntimeException iff none does |
| AdapterRegistry.HandlerAdapterRegistry.constructor | mvc/src/main/java/com/interface21/webmvc/servlet/mvc/tobe/HandlerAdapterRegistry.java:12-14 | a new registry holds no adapters |
| AdapterRegistry.HandlerAdapterRegistry.AddHandlerMapping | mvc/src/main/java/com/interface21/webmvc/servlet/mvc/tobe/HandlerAdapterRegistry.java:16-18 | the adapter is appended at the end; earlier adapters keep their order |
| AdapterRegistry.HandlerAdapterRegistry.GetHandlerAdapter | mvc/src/main/java/com/interface21/webmvc/servlet/mvc/tobe/HandlerAdapterRegistry.java:20-25 | a registered adapter that supports the handler; a bare RuntimeException iff no registered adapter (none, when empty) supports it; the list is read, not changed |
| ExecutionAdapter.Support | mvc/src/main/java/com/interface21/webmvc/servlet/mvc/tobe/HandlerExecutionHandlerAdapter.java:10-13 | true exactly for HandlerExecution handlers |
| ExecutionAdapter.Handle | mvc/src/main/java/com/interface21/webmvc/servlet/mvc/tobe/HandlerExecutionHandlerAdapter.java:15-20 | a ClassCastException to Controller for any non-Controller handler; otherwise `execute`'s exception propagates, or the result is a JSP view named by `execute`'s string with an empty model |
| ExecutionAdapter.SupportedButNotController | mvc/src/main/java/com/interface21/webmvc/servlet/mvc/tobe/HandlerExecutionHandlerAdapter.java:11-17 | a handler this adapter supports that is not also a Controller fails the cast |
| ControllerAdapter.Support | mvc/src/main/java/com/interface21/webmvc/servlet/mvc/tobe/ControllerHandlerAdapter.java:9-12 | true exactly for Controller handlers |
| ControllerAdapter.Handle | mvc/src/main/java/com/interface21/webmvc/servlet/mvc/tobe/ControllerHandlerAdapter.java:14-18 | a ClassCastException to HandlerExecution for any handler that is not one; otherwise exactly what `HandlerExecution.handle` returns or throws |
| ControllerAdapter.SupportedButNotExecution | mvc/src/main/java/com/interface21/webmvc/servlet/mvc/tobe/ControllerHandlerAdapter.java:10-16 | a handler this adapter supports that is not also a HandlerExecution fails the cast |
| Adapters.Support | mvc/src/main/java/com/interface21/webmvc/servlet/mvc/tobe/HandlerAdapter.java:9 | each adapter's `support` is its own `instanceof` test |
| Adapters.Handle | mvc/src/main/java/com/interface21/webmvc/servlet/mvc/tobe/HandlerAdapter.java:10 | `adapter.handle(...)` dispatches to the `handle` of the adapter it is: the HandlerExecution adapter's or the Controller adapter's, with its result or exception unchanged |
| Adapters.SupportedOneShapeFailsCast | mvc/src/main/java/com/interface21/webmvc/servlet/mvc/tobe/HandlerExecutionHandlerAdapter.java:11-17 | either adapter, given a handler it supports that has only one shape, throws a ClassCastException whatever the application code does |
| Adapters.HandledOnlyIfBothShapes | mvc/src/main/java/com/interface21/webmvc/servlet/mvc/tobe/ControllerHandlerAdapter.java:10-16 | a supported handler is handled normally only if it is both a HandlerExecution and a Controller |
| Dispatcher.HandleRequest | app/src/main/java/com/techcourse/DispatcherServlet.java:43-52 | completes iff handling and then rendering both return; an exception from either comes out as a RuntimeException with only its message |
| Dispatcher.NoRenderAfterFailedHandle | app/src/main/java/com/techcourse/DispatcherServlet.java:47-48 | when handling throws, rendering is not reached: the outcome does not depend on the view renderer |
| Dispatcher.DispatcherServlet.constructor | app/src/main/java/com/techcourse/DispatcherServlet.java:25-28 | a new servlet has new, empty adapter and mapping registries |
| Dispatcher.DispatcherServlet.Init | app/src/main/java/com/techcourse/DispatcherServlet.java:30-33 | initializes the mapping registry and nothing else: both lists are unchanged; it succeeds iff every mapping's scan constructs, and then every mapping is initialized (old entries plus route keys, other entries kept); on failure the exception is the constructor failure of the first failing mapping, the mappings before it are initialized and the others are untouched |
| Dispatcher.DispatcherServlet.Service | app/src/main/java/com/techcourse/DispatcherServlet.java:35-41 | handler lookup comes first and its exception is passed through unwrapped; then the adapter for that same handler is looked up, and its failure also comes out unwrapped; otherwise the outcome is `handleRequest` on that handler/adapter pair |
| Dispatcher.ServiceWithoutMappingsFails | app/src/main/java/com/techcourse/DispatcherServlet.java:25-41 | with no registered mappings (the state the constructor leaves) every request fails with a bare RuntimeException at handler lookup |
| Dispatcher.ServiceNeverCompletes | app/src/main/java/com/techcourse/DispatcherServlet.java:35-41 | every request throws; once a handler is found, the exception is either the adapter lookup's bare RuntimeException or the rewrapped ClassCastException to Controller |
| Scenarios.HelloRouteKeys | mvc/src/main/java/com/interface21/webmvc/servlet/mvc/tobe/AnnotationHandlerMapping.java:32-41 | scanning a package with one controller whose route is `GET /hello` registers exactly the key (/hello, GET) |
| Scenarios.PostHelloUnmatched | mvc/src/main/java/com/interface21/webmvc/servlet/mvc/tobe/AnnotationHandlerMapping.java:46-49 | a POST to /hello matches no key of that table |
| Scenarios.HelloTable | mvc/src/main/java/com/interface21/webmvc/servlet/mvc/tobe/AnnotationHandlerMapping.java:32-41 | after initialization the table is the old keys plus (/hello, GET), and that key holds the hello route |
| Scenarios.SetUpHello | mvc/src/main/java/com/interface21/webmvc/servlet/mvc/tobe/HandlerMappingRegistry.java:18-24 | registering then initializing one mapping leaves it alone in the registry, holding only the hello route |
| Scenarios.HelloResolution | mvc/src/main/java/com/interface21/webmvc/servlet/mvc/tobe/HandlerMappingRegistry.java:26-32 | GET /hello resolves to the hello route; POST /hello throws a bare RuntimeException |
| Scenarios.InitializeHello | mvc/src/main/java/com/interface21/webmvc/servlet/mvc/tobe/AnnotationHandlerMapping.java:32-41 | initializing over the hello package adds exactly the hello key to what the table held |
| Scenarios.HelloReinitialized | mvc/src/main/java/com/interface21/webmvc/servlet/mvc/tobe/AnnotationHandlerMapping.java:32-41 | a second initialization leaves the key set {(/hello, GET)} as the first one did |
| Scenarios.HelloServed | app/src/main/java/com/techcourse/DispatcherServlet.java:35-52 | `service`'s steps for GET /hello, taken in turn over a filled mapping registry and an adapter registry holding both adapters: handler lookup finds the hello route, adapter lookup picks the HandlerExecution adapter, its cast to Controller fails, and `handleRequest` throws a RuntimeException carrying the ClassCastException's message (a servlet's own registries are private and stay empty, so this runs the steps on registries built outside a servlet) |

## Left out

- Reflection:
  - The Reflections library, `ReflectionUtils.getAllMethods` and `getAnnotation` are replaced by a class-path value that lists each class's `@Controller` tag, its methods with their optional `@RequestMapping`, and what its no-arg constructor does.
  - The Reflections library's package filter is approximated as "some base-package string is a prefix of the class's package".
  - Only string base packages are modelled.
  - `isController` means "reported by `getTypesAnnotatedWith(Controller.class)`". By default the Reflections library also reports unannotated subtypes of `@Controller` classes, and annotation types that carry `@Controller`; the class-path value must mark those itself, since the model does not derive them from a type hierarchy.
  - A method is identified by its declaring class, name and annotation, without parameter types. Two overloads with the same name and the same `@RequestMapping` therefore collapse into one route, where Java puts both and either one's behaviour may win.
- `getHandler(Method)` (AnnotationHandlerMapping.java:63-70) is private and never called, so it has no effect on behaviour and is not modelled.
- Logging (AnnotationHandlerMapping.java:22, 43 and DispatcherServlet.java:20) is a side channel and is not modelled.
- Servlet request and response:
  - A request is its URI and method name.
  - The response object, and whatever the application writes to it, are not modelled.
- Application code is not modelled. `HandlerExecution.handle`, `Controller.execute` and `ModelAndView.renderView` (with `JspView`) are parameters that may throw (`Handlers.Collaborators`). Their sources are not part of this model.
- A null `ModelAndView`, or a null view name returned by application code, is not modelled. In Java the first makes `renderView` throw a NullPointerException inside the try.
- Handlers.CastFailure: the JVM's ClassCastException message also names the handler's runtime class. The model's message names only the target type.
- Handler mappings other than `AnnotationHandlerMapping` (`ManualHandlerMapping` and the `HandlerMapping` interface) are not part of this model. The mapping registry holds annotation mappings only. Likewise, the `HandlerAdapter` datatype is closed: it admits only the two adapters of the source, and a third adapter implementation is not part of this model. Dispatcher.ServiceNeverCompletes depends on both restrictions: every annotation mapping hands out plain HandlerExecutions, and neither of the two adapters can handle one. A third adapter could complete a request.
- The `RequestMethod` enum, `HandlerKey`, `HandlerExecution` and `Controller` sources are not part of this model:
  - the enum's eight standard HTTP constants are assumed;
  - `HandlerKey` equality is assumed to be structural;
  - `HandlerExecution` is the pair of controller instance and route method, and is assumed to compare by value. It is also assumed not to implement `Controller`: Handlers.OfExecution and Dispatcher.ServiceNeverCompletes rest on this, since otherwise the cast at HandlerExecutionHandlerAdapter.java:17 would succeed. Java builds a separate `new HandlerExecution(handler, method)` for each key (AnnotationHandlerMapping.java:76), while AnnotationMapping.AnnotationHandlerMapping.PutAll puts one value under every key. The two agree only under that assumption.
- MappingRegistry.HandlerMappingRegistry.Initialize: two per-mapping guarantees are not carried up to the registry level: that each mapping's controller instances are fresh, and that all routes of one class share that class's single instance. Both are stated per mapping by AnnotationMapping.AnnotationHandlerMapping.Initialize.
- AnnotationMapping.AnnotationHandlerMapping.Initialize: where two routes share a key, the contract does not say which one ends up in the table. Which one wins depends on hash iteration order, which is unspecified.
- Concurrency: the code has none, and the servlet container's init-before-service ordering is not modelled.
- The study module's JUnit runners (`Junit3TestRunner`, `Junit4TestRunner`) are reflection exercises unrelated to dispatch and are not modelled.
