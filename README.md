# Bing Webmaster MCP tool layer, modelled in Dafny

This project models the adaptation layer of the `mcp-server-bwt` MCP server. The layer turns the
methods of the Bing Webmaster service classes into MCP tools. It has two parts:

- **Tool synthesis** (`mcp_server_bwt/tools/bing_webmaster.py`).
  - `SERVICE_CLASSES` maps ten attribute names to service classes.
  - `wrap_service_method` looks a method up on its class and builds an async `wrapper` closure.
  - `@wraps` gives the closure the method's name and docstring.
  - The closure is registered with `mcp.tool()`. Only after that does it get the method's signature
    without the receiver parameter, plus the method's docstring.
  - On each call the closure drops any `self` keyword, enters the service with `async with`, looks
    up the sub-service attribute, calls the method and leaves the service.
  - `add_bing_webmaster_tools` makes 62 such registrations, in a fixed order.
- **Session lifecycle** (`mcp_server_bwt/services/bing_webmaster.py`).
  - `BingWebmasterService` holds the settings and a `client` field.
  - `__aenter__` stores a new client, opens it and copies its ten sub-services onto the service.
  - `__aexit__` closes the stored client, if there is one, and never suppresses an exception.
  - `SiteInfo` is a dataclass with defaults.

## Modules

| file | module | what it holds |
|---|---|---|
| `wrappers.dfy` | `Wrappers` | `Option` and `Result` |
| `python_values.dfy` | `PyValues` | the values and exceptions the layer passes through, and how an outcome becomes `__aexit__`'s exception info |
| `reflection.dfy` | `Reflection` | signatures as data, `[1:]` on the parameter list, and the `self` keyword filter |
| `service.dfy` | `Service` | `SiteInfo`, the client as a class with a phase, and `BingWebmasterService` as a class with `Enter`/`Exit` |
| `catalog.dfy` | `Catalog` | `SERVICE_CLASSES`, the 62-entry registration table, and its distinctness proofs |
| `synthesis.dfy` | `Synthesis` | what `wrap_service_method` publishes for one entry and for a run of entries, as functions |
| `tools.dfy` | `Tools` | the wrapper closure as a class with `Call`, the registry, and `WrapServiceMethod`/`AddBingWebmasterTools` as methods |

### Modelling choices

- **Reflection is a parameter.** `describe(className, methodName)` stands for reflection: the method's
  `__name__`, `inspect.signature` and `__doc__`, or `None` where `getattr` raises AttributeError.
- **Live calls are a parameter.** `invoke` gives the outcome of calling a method on a live sub-service.
- **The client is a parameter.** `ClientBehaviour` says whether building or opening the client raises.
- **`SERVICE_CLASSES` is passed in.** `WrapServiceMethod` and `RegisterEach` take the module-level
  table as an argument, `classes`. `AddBingWebmasterTools` passes the constant `ServiceClasses`.
- **The 62 calls become a loop.** `RegisterEach` loops over `Catalog.Table`, one entry per source line.
  Its contract states what the straight-line sequence does: the calls run in order, and the first
  exception stops the rest.
- **Two kinds of attribute.** A Python attribute that was never assigned is `None` in the
  `Option`-typed fields of `BingWebmasterService`. `Attribute(name)` is `getattr` for a service
  attribute, with `None` standing for AttributeError.
- **The registry is seen twice.** The MCP server is modelled as `ToolRegistry`: the list of function
  objects `mcp.tool()` was applied to. Because it holds the objects themselves, it sees the signature
  and docstring set after registration. The ghost `signaturesAtRegistration` records the signature
  each function carried when it was registered. For `wrap_service_method` that is the original
  signature, receiver included.

### Behaviour of the code worth knowing

- **No duplicate-name check.** `add_bing_webmaster_tools` (mcp_server_bwt/tools/bing_webmaster.py:79-160)
  registers its 62 tools without checking their names, so the model has no such check either.
  `Synthesis.ToolNamesDistinct` proves the 62 names are pairwise distinct, given that each method's
  `__name__` is its attribute name.
- **No release when entering fails.** `async with` does not call `__aexit__` when `__aenter__` raises.
  `__aenter__` stores the new client before opening it (mcp_server_bwt/services/bing_webmaster.py:18-19).
  So if opening raises, that client stays in `client` and is never closed. `Tools.ToolFunction.Call`
  states this case (`OpenRaises`).
- **A failed constructor keeps the old client.** When `BingWebmasterClient(self.settings)` raises
  (mcp_server_bwt/services/bing_webmaster.py:18), the assignment does not happen. The previous
  client stays in place.

## Model

| member | source | states |
|---|---|---|
| PyValues.ExcInfoOf | mcp_server_bwt/services/bing_webmaster.py:34-36 | the exception info `__aexit__` receives is empty exactly when the block returned, and otherwise carries the raised exception |
| Reflection.StripReceiver | mcp_server_bwt/tools/bing_webmaster.py:52-57 | the new signature is the old one with exactly its first parameter removed; the rest keep order, kind, default and annotation, and the return annotation is kept; an empty list stays empty; an `inspect`-valid list stays valid |
| Reflection.ReceiverRestored | mcp_server_bwt/tools/bing_webmaster.py:54-57 | putting the removed first parameter back in front gives the original signature |
| Reflection.DropReceiverKeyword | mcp_server_bwt/tools/bing_webmaster.py:64 | the filtered keywords have no `self` key, hold every other key, and map each to its original value |
| Reflection.DropReceiverKeywordIdempotent | mcp_server_bwt/tools/bing_webmaster.py:64 | filtering twice equals filtering once |
| Reflection.DropReceiverKeywordKeepsOthers | mcp_server_bwt/tools/bing_webmaster.py:64 | keywords without `self` pass through unchanged |
| Reflection.SelfKeywordIgnored | mcp_server_bwt/tools/bing_webmaster.py:64 | whatever value a caller gives `self`, the filtered keywords are the same as without it |
| Reflection.DropReceiverKeywordSize | mcp_server_bwt/tools/bing_webmaster.py:64 | the filter removes one entry when `self` is present and none otherwise |
| Service.SiteInfoOf | mcp_server_bwt/services/bing_webmaster.py:5-10 | a `SiteInfo` built from a URL alone has no crawl date, allows crawling and has no sitemaps |
| Service.Client.constructor | mcp_server_bwt/services/bing_webmaster.py:18 | a new client holds the settings, is not open and has never been exited |
| Service.Client.Open | mcp_server_bwt/services/bing_webmaster.py:19 | opening either succeeds and the client is open, or raises and the client's phase is unchanged |
| Service.Client.Close | mcp_server_bwt/services/bing_webmaster.py:36 | the client is closed and has received exactly this exception info, once more |
| Service.BingWebmasterService.constructor | mcp_server_bwt/services/bing_webmaster.py:13-15 | settings carry the API key, no client is held, no service attribute exists yet, and no client is open |
| Service.BingWebmasterService.Attribute | mcp_server_bwt/tools/bing_webmaster.py:67 | `getattr(s, service_attr)` answers only for one of the ten sub-service names and raises AttributeError for any other; `AttributeWhenExposed` proves that once exposed it answers every one of the ten with the current client's member |
| Service.BingWebmasterService.AttributeWhenExposed | mcp_server_bwt/services/bing_webmaster.py:22-31 | after the services are exposed, the modelled `getattr` finds exactly the ten sub-service attribute names, each bound to the same-named member of the current client |
| Service.BingWebmasterService.Enter | mcp_server_bwt/services/bing_webmaster.py:17-32 | a failing client constructor changes nothing; otherwise a fresh client with the service's settings is stored; if opening fails it stays stored, unopened, and no attribute changes; on success the client is open, all ten attributes are its members, and the service itself is returned |
| Service.BingWebmasterService.ExposeServices | mcp_server_bwt/services/bing_webmaster.py:21-31 | all ten attributes are the same-named members of the client; settings and client are untouched |
| Service.BingWebmasterService.ExposeRest | mcp_server_bwt/services/bing_webmaster.py:27-31 | the last five attributes are set and the first five are left as they were |
| Service.BingWebmasterService.Exit | mcp_server_bwt/services/bing_webmaster.py:34-36 | nothing is suppressed; the service's fields are untouched; a held client is closed and receives the exception info unchanged, exactly once; with no client nothing happens |
| Catalog.Section | mcp_server_bwt/tools/bing_webmaster.py:81-89 | one registration per method name, in order, all on the same service attribute |
| Catalog.MethodNamesOfTable | mcp_server_bwt/tools/bing_webmaster.py:81-160 | the method names of the table are the ten sections' names, in source order |
| Catalog.TableSize | mcp_server_bwt/tools/bing_webmaster.py:81-160 | the table has 62 registrations |
| Catalog.TableAttributesKnown | mcp_server_bwt/tools/bing_webmaster.py:22-33 | every attribute the table uses is a key of `SERVICE_CLASSES` |
| Catalog.TableMethodsDistinct | mcp_server_bwt/tools/bing_webmaster.py:81-160 | no two registrations wrap methods of the same name |
| Catalog.SectionsInternallyDistinct | mcp_server_bwt/tools/bing_webmaster.py:81-160 | within each service's block the method names are distinct |
| Synthesis.WrapSpec | mcp_server_bwt/tools/bing_webmaster.py:35-77 | wrapping succeeds exactly when the lookup does and otherwise raises the lookup's exception; the function object it returns forwards to the attribute and method it was built for, and carries the method's name and docstring and its signature without the receiver |
| Synthesis.Lookup | mcp_server_bwt/tools/bing_webmaster.py:48-50 | a lookup succeeds only for a known attribute whose class has the method, returning what reflection finds; it raises KeyError for an unknown attribute, before any method lookup, and AttributeError otherwise; `WrapSpecRaises` states both conditions in both directions |
| Synthesis.WrapSpecRaises | mcp_server_bwt/tools/bing_webmaster.py:48-50 | an unknown attribute raises KeyError; for a known one, wrapping succeeds exactly when the class has the method and otherwise raises AttributeError naming it |
| Synthesis.ToolSignatureLacksOnlyReceiver | mcp_server_bwt/tools/bing_webmaster.py:52-75 | the tool has the method's name and docstring, and its signature with the receiver put back is the method's own |
| Synthesis.ToolSignatureWellFormed | mcp_server_bwt/tools/bing_webmaster.py:52-57 | a signature `inspect` accepts stays acceptable after the receiver is removed |
| Synthesis.Synthesize | mcp_server_bwt/tools/bing_webmaster.py:79-160 | a run that completes publishes one tool per registration |
| Synthesis.SynthesizeSucceeds | mcp_server_bwt/tools/bing_webmaster.py:79-160 | a run completes exactly when each of its registrations does |
| Synthesis.SynthesizeEntrywise | mcp_server_bwt/tools/bing_webmaster.py:79-160 | a completed run publishes, at each position, the tool of that position's registration |
| Synthesis.SynthesizeStopsAtFirstFailure | mcp_server_bwt/tools/bing_webmaster.py:79-160 | a run raises exactly what its first failing registration raises |
| Synthesis.SynthesizeFailsOnlyOnMissingMethod | mcp_server_bwt/tools/bing_webmaster.py:48-50 | when every attribute is known, a run can only raise AttributeError, and completes exactly when every method exists |
| Synthesis.FirstFailure | mcp_server_bwt/tools/bing_webmaster.py:79-160 | a run that does not fully succeed has a first failing registration, and all before it succeed |
| Synthesis.RegistrationNeverKeyError | mcp_server_bwt/tools/bing_webmaster.py:48 | `add_bing_webmaster_tools` never raises KeyError, and completes exactly when all 62 methods exist on their classes |
| Synthesis.ToolNamesDistinct | mcp_server_bwt/tools/bing_webmaster.py:61 | when each method's `__name__` is its attribute name, a completed registration publishes 62 tools with pairwise distinct names |
| Synthesis.RegisteredSignaturesAt | mcp_server_bwt/tools/bing_webmaster.py:50-62 | in a run whose first registrations succeed, the signature recorded for each is the one reflection reports for that entry's method, receiver included |
| Tools.SelfKeywordHasNoEffect | mcp_server_bwt/tools/bing_webmaster.py:64-71 | a `self=` keyword from the caller does not change the outcome of a call |
| Tools.CallOutcome | mcp_server_bwt/tools/bing_webmaster.py:64-71 | the block's outcome is AttributeError for an unknown attribute, and otherwise the method's outcome on the same-named member of the client, called with the arguments and the keywords minus `self`; `SelfKeywordHasNoEffect` and `TableToolsReachService` build on it |
| Tools.ServiceClassesExposed | mcp_server_bwt/tools/bing_webmaster.py:22-33 | the keys of `SERVICE_CLASSES` are exactly the ten attributes `__aenter__` exposes |
| Tools.TableToolsReachService | mcp_server_bwt/tools/bing_webmaster.py:67-71 | for every registered tool the sub-service lookup succeeds, and the call gets the positional arguments and the filtered keywords |
| Tools.ToolFunction.Wraps | mcp_server_bwt/tools/bing_webmaster.py:61-62 | the closure starts with the wrapped method's name, docstring and signature |
| Tools.ToolFunction.Call | mcp_server_bwt/tools/bing_webmaster.py:62-71 | a failing enter is re-raised with no lookup, call or exit; otherwise the steps are enter, attribute lookup, method call (when the attribute exists) and exactly one exit; the exit is handed the body's outcome, which reaches the caller unchanged; after a successful enter the ten service attributes are bound to the new client, and after a failed one they are as before; a service with no open client has none after the call |
| Tools.ToolRegistry.Register | mcp_server_bwt/tools/bing_webmaster.py:60 | the registry appends the function object itself and notes the signature it carries at that moment |
| Tools.WrapServiceMethod | mcp_server_bwt/tools/bing_webmaster.py:35-77 | on a failed lookup it raises that error and registers nothing; otherwise it registers one fresh function bound to the service, whose final name, signature and docstring are `WrapSpec`'s, while the registry saw the original signature when registering it |
| Tools.RegisterEach | mcp_server_bwt/tools/bing_webmaster.py:81-160 | registrations run in order; each registered function is bound to the service and carries its entry's tool; the registry's record of signatures keeps its old part and gains, for each new function, the original signature of its entry's method; the method completes exactly when `Synthesize` does, and otherwise stops at the first failing entry with its exception |
| Tools.AddBingWebmasterTools | mcp_server_bwt/tools/bing_webmaster.py:79-160 | the same as `RegisterEach`, for the 62-entry table |

## Left out

- `FastMCP` internals are not modelled. That covers what `mcp.tool()` derives from a function (input schema, tool name), duplicate-name handling, argument validation and coercion, and the stdio transport. The registry is only the list of registered function objects.
- `inspect.signature` and `functools.wraps` internals are not modelled. Their effect is data: a parameter list, `WellFormed` for the ordering rules `inspect` enforces, and copies of name and docstring. `inspect.signature` raising for a callable is not modelled.
- The `bing_webmaster_tools` client, its HTTP transport, authentication, retries and rate limiting are not modelled. The 62 business operations are opaque outcomes given by `invoke`. The client's own `__aexit__` is modelled as recording what it was handed and never raising. A client `__aexit__` that raises is not modelled.
- Async execution, overlapping calls and cancellation are not modelled. Each call runs sequentially on the one shared service. Concurrent calls would overwrite `client` on each other, and that is not captured.
- Positional `*args` are passed through opaquely and carry no checked behaviour.
- `Settings` keeps only the API key. Its other configuration knobs are not modelled.
- `if self.client:` is modelled as "a client is stored". The client object's own truthiness is not modelled.
- The process entry points `mcp_server_bwt/main.py` and `mcp-server-bwt/main.py` are not part of this model. They hold environment checks, server construction and a template left over from another app.
- Tools.RegisterEach: the 62 straight-line calls of `add_bing_webmaster_tools` are modelled as one loop over the registration table, which is equivalent since every call has the same shape.
- Service.BingWebmasterService.Attribute: answers AttributeError for `settings`, `client` and the class's methods, which Python's `getattr` would find; see the next line for why the wrapper never asks for them.
- Service.BingWebmasterService.AttributeWhenExposed: `getattr(s, service_attr)` in Python also finds `settings`, `client` and the class's methods; the model answers AttributeError for every name other than the ten sub-service attributes, because every key of `SERVICE_CLASSES` is one of those ten (`Tools.ServiceClassesExposed`), so the wrapper never asks for another name.
- Tools.ToolFunction.Call: the `getattr(service_obj, method_name)` on the live sub-service and the call itself are one opaque outcome (`invoke`), so an AttributeError from a live object is an outcome like any other.
