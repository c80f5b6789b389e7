/**
 * The tools layer: the closure `wrap_service_method` builds around one service method,
 * its registration with the MCP server, and `add_bing_webmaster_tools`, which registers
 * every entry of the table in order.
 *
 * The MCP server is modelled only as the list of function objects `@mcp.tool()` was applied
 * to. The live sub-service method that a call finally reaches is a parameter `invoke`.
 */
module Tools {
  import opened Wrappers
  import opened PyValues
  import opened Reflection
  import opened Service
  import opened Catalog
  import opened Synthesis

  /** `getattr(service_obj, method_name)(*args, **kwargs)` on a live sub-service. */
  datatype MethodCall = MethodCall(target: SubService, methodName: string, args: seq<Value>, kwargs: map<string, Value>)

  /** The observable steps of one tool invocation, in the order they happen. */
  datatype Step = EnterService | ResolveService(attribute: string) | InvokeMethod(call: MethodCall) | ExitService(exc: ExcInfo)

  /**
   * What the body of the `async with` block evaluates to once the service is entered on
   * client `c`: the sub-service attribute, then the method call with the receiver keyword dropped.
   */
  function CallOutcome(c: Client, serviceAttr: string, methodName: string, args: seq<Value>, kwargs: map<string, Value>,
                       invoke: MethodCall -> Outcome): (r: Outcome)
    ensures serviceAttr !in AttributeNames ==> r == Raised(AttributeError(serviceAttr))
    ensures serviceAttr in AttributeNames ==>
      r == invoke(MethodCall(SubService(c, serviceAttr), methodName, args, kwargs - {Receiver}))
  {
    if serviceAttr in AttributeNames then
      assert DropReceiverKeyword(kwargs) == kwargs - {Receiver} by {
        assert DropReceiverKeyword(kwargs).Keys == (kwargs - {Receiver}).Keys;
      }
      invoke(MethodCall(SubService(c, serviceAttr), methodName, args, DropReceiverKeyword(kwargs)))
    else Raised(AttributeError(serviceAttr))
  }

  /** A client that passes `self=` as a keyword gets exactly the outcome it would get without it. */
  lemma SelfKeywordHasNoEffect(c: Client, serviceAttr: string, methodName: string, args: seq<Value>, kwargs: map<string, Value>,
                               v: Value, invoke: MethodCall -> Outcome)
    ensures CallOutcome(c, serviceAttr, methodName, args, kwargs[Receiver := v], invoke)
         == CallOutcome(c, serviceAttr, methodName, args, kwargs, invoke)
  {
    SelfKeywordIgnored(kwargs, v);
  }

  /** The attributes `SERVICE_CLASSES` names are exactly the ones `__aenter__` exposes. */
  lemma ServiceClassesExposed()
    ensures forall a :: a in ServiceClasses <==> a in AttributeNames
  {
  }

  /**
   * Every tool of the table reaches its service: inside the `async with` block the attribute
   * lookup never fails, and the method is called with the remaining keywords.
   */
  lemma TableToolsReachService(i: nat, c: Client, args: seq<Value>, kwargs: map<string, Value>, invoke: MethodCall -> Outcome)
    requires i < |Table|
    ensures CallOutcome(c, Table[i].serviceAttr, Table[i].methodName, args, kwargs, invoke)
         == invoke(MethodCall(SubService(c, Table[i].serviceAttr), Table[i].methodName, args, DropReceiverKeyword(kwargs)))
  {
    TableAttributesKnown();
    ServiceClassesExposed();
  }

  /** The `wrapper` coroutine function: a closure over the service, attribute and method name. */
  class ToolFunction {
    const service: BingWebmasterService
    const serviceAttr: string
    const methodName: string
    /** `__name__`, `__doc__` and `__signature__` (or what `inspect` finds through `__wrapped__`). */
    var name: string
    var doc: Option<string>
    var signature: Signature

    /** The closure as `@wraps(original_method)` leaves it: the original's name, docstring and signature. */
    constructor Wraps(service: BingWebmasterService, serviceAttr: string, methodName: string, original: MethodInfo)
      ensures this.service == service && this.serviceAttr == serviceAttr && this.methodName == methodName
      ensures name == original.name && doc == original.doc && signature == original.signature
    {
      this.service := service;
      this.serviceAttr := serviceAttr;
      this.methodName := methodName;
      name := original.name;
      doc := original.doc;
      signature := original.signature;
    }

    /** The tool this function currently publishes. */
    function Spec(): ToolSpec
      reads this
    {
      ToolSpec(name, serviceAttr, methodName, signature, doc)
    }

    /**
     * One invocation: drop a `self` keyword, enter the service, call the method on the
     * sub-service, and leave the service whatever the call did. `behaviour` says how the
     * new client's construction and opening go.
     */
    method Call(args: seq<Value>, kwargs: map<string, Value>, behaviour: ClientBehaviour, invoke: MethodCall -> Outcome)
      returns (r: Outcome, ghost trace: seq<Step>)
      modifies service
      ensures service.settings == old(service.settings)
      ensures behaviour.ConstructorRaises? ==> r == Raised(behaviour.error) && service.client == old(service.client)
      ensures !behaviour.ConstructorRaises? ==>
        service.client != null && fresh(service.client) && service.client.settings == service.settings
      ensures behaviour.OpenRaises? ==>
        r == Raised(behaviour.error) && service.client.phase == Created && service.client.exits == []
      ensures behaviour.Connects? ==>
        r == CallOutcome(service.client, serviceAttr, methodName, args, kwargs, invoke) &&
        service.client.phase == Closed && service.client.exits == [ExcInfoOf(r)]
      ensures behaviour.Connects? ==> service.Exposes(service.client)
      ensures !behaviour.Connects? ==> service.Exposed() == old(service.Exposed())
      ensures !behaviour.Connects? ==> trace == [EnterService]
      ensures behaviour.Connects? ==>
        trace == [EnterService, ResolveService(serviceAttr)] +
                 (if serviceAttr in AttributeNames
                  then [InvokeMethod(MethodCall(SubService(service.client, serviceAttr), methodName, args, DropReceiverKeyword(kwargs)))]
                  else []) +
                 [ExitService(ExcInfoOf(r))]
      ensures old(service.Quiescent()) ==> service.Quiescent()
    {
      var filtered := DropReceiverKeyword(kwargs);
      var entered := service.Enter(behaviour);
      trace := [EnterService];
      if entered.Failure? {
        return Raised(entered.error), trace;
      }
      var s := entered.value;
      s.AttributeWhenExposed(s.client, serviceAttr);
      var body: Outcome;
      trace := trace + [ResolveService(serviceAttr)];
      match s.Attribute(serviceAttr) {
        case None =>
          body := Raised(AttributeError(serviceAttr));
        case Some(serviceObj) =>
          var call := MethodCall(serviceObj, methodName, args, filtered);
          trace := trace + [InvokeMethod(call)];
          body := invoke(call);
      }
      var suppress := s.Exit(ExcInfoOf(body));
      trace := trace + [ExitService(ExcInfoOf(body))];
      // A suppressed exception would end the block normally and the coroutine would return None.
      r := if suppress && body.Raised? then Returned(NoneValue) else body;
    }
  }

  /** The MCP server, as far as tool registration goes. */
  class ToolRegistry {
    /** The function objects `@mcp.tool()` was applied to, in order. */
    var tools: seq<ToolFunction>
    /** The signature each function carried at the moment it was registered. */
    ghost var signaturesAtRegistration: seq<Signature>

    constructor ()
      ensures tools == [] && signaturesAtRegistration == []
    {
      tools := [];
      signaturesAtRegistration := [];
    }

    /** `mcp.tool()(fn)`: keeps a reference to the function object itself. */
    method Register(fn: ToolFunction)
      modifies this
      ensures tools == old(tools) + [fn]
      ensures signaturesAtRegistration == old(signaturesAtRegistration) + [fn.signature]
    {
      tools := tools + [fn];
      signaturesAtRegistration := signaturesAtRegistration + [fn.signature];
    }
  }

  /**
   * `wrap_service_method`, with the module-level `SERVICE_CLASSES` passed in as `classes`:
   * look the method up, build the closure, register it, and only then
   * set its signature (without the receiver) and docstring. The registry holds the object, so
   * it sees the final signature; at the moment of registration the signature was the original one.
   */
  method WrapServiceMethod(classes: map<string, string>, mcp: ToolRegistry, service: BingWebmasterService, serviceAttr: string, methodName: string,
                           describe: Describe)
    returns (r: Result<ToolFunction, Exception>)
    modifies mcp
    ensures WrapSpec(classes, serviceAttr, methodName, describe).Failure? ==>
      r == Failure(WrapSpec(classes, serviceAttr, methodName, describe).error) &&
      mcp.tools == old(mcp.tools) && mcp.signaturesAtRegistration == old(mcp.signaturesAtRegistration)
    ensures WrapSpec(classes, serviceAttr, methodName, describe).Success? ==>
      r.Success? && fresh(r.value) && r.value.service == service &&
      r.value.Spec() == WrapSpec(classes, serviceAttr, methodName, describe).value &&
      mcp.tools == old(mcp.tools) + [r.value] &&
      mcp.signaturesAtRegistration == old(mcp.signaturesAtRegistration) + [Lookup(classes, serviceAttr, methodName, describe).value.signature]
  {
    if serviceAttr !in classes {
      return Failure(KeyError(serviceAttr));
    }
    var serviceClass := classes[serviceAttr];
    var original := describe(serviceClass, methodName);
    if original.None? {
      return Failure(AttributeError(methodName));
    }
    var info := original.value;
    var newSignature := StripReceiver(info.signature);
    var wrapper := new ToolFunction.Wraps(service, serviceAttr, methodName, info);
    mcp.Register(wrapper);
    wrapper.signature := newSignature;
    wrapper.doc := info.doc;
    r := Success(wrapper);
  }

  /**
   * `add_bing_webmaster_tools`: the table's registrations, in order, each bound to the same
   * service; the first one that raises stops the rest.
   */
  method AddBingWebmasterTools(mcp: ToolRegistry, service: BingWebmasterService, describe: Describe)
    returns (raised: Option<Exception>)
    modifies mcp
    ensures |old(mcp.tools)| <= |mcp.tools| <= |old(mcp.tools)| + |Table|
    ensures mcp.tools[..|old(mcp.tools)|] == old(mcp.tools)
    ensures forall k :: |old(mcp.tools)| <= k < |mcp.tools| ==>
      mcp.tools[k].service == service &&
      WrapEntry(ServiceClasses, Table, k - |old(mcp.tools)|, describe) == Success(mcp.tools[k].Spec())
    ensures SucceedsBefore(ServiceClasses, Table, |mcp.tools| - |old(mcp.tools)|, describe)
    ensures mcp.signaturesAtRegistration ==
      old(mcp.signaturesAtRegistration) + RegisteredSignatures(ServiceClasses, Table, describe, |mcp.tools| - |old(mcp.tools)|)
    ensures raised.None? <==> Synthesize(ServiceClasses, Table, describe).Success?
    ensures raised.None? ==> |mcp.tools| == |old(mcp.tools)| + |Table|
    ensures raised.Some? ==>
      |mcp.tools| < |old(mcp.tools)| + |Table| &&
      Synthesize(ServiceClasses, Table, describe) == Failure(raised.value) &&
      WrapEntry(ServiceClasses, Table, |mcp.tools| - |old(mcp.tools)|, describe) == Failure(raised.value)
  {
    raised := RegisterEach(ServiceClasses, mcp, service, Table, describe);
  }

  /** The registrations of `entries`, one `wrap_service_method` call each, stopping at the first that raises. */
  method RegisterEach(classes: map<string, string>, mcp: ToolRegistry, service: BingWebmasterService, entries: seq<Registration>, describe: Describe)
    returns (raised: Option<Exception>)
    modifies mcp
    ensures |old(mcp.tools)| <= |mcp.tools| <= |old(mcp.tools)| + |entries|
    ensures mcp.tools[..|old(mcp.tools)|] == old(mcp.tools)
    ensures forall k :: |old(mcp.tools)| <= k < |mcp.tools| ==>
      mcp.tools[k].service == service &&
      WrapEntry(classes, entries, k - |old(mcp.tools)|, describe) == Success(mcp.tools[k].Spec())
    ensures SucceedsBefore(classes, entries, |mcp.tools| - |old(mcp.tools)|, describe)
    ensures mcp.signaturesAtRegistration ==
      old(mcp.signaturesAtRegistration) + RegisteredSignatures(classes, entries, describe, |mcp.tools| - |old(mcp.tools)|)
    ensures raised.None? <==> Synthesize(classes, entries, describe).Success?
    ensures raised.None? ==> |mcp.tools| == |old(mcp.tools)| + |entries|
    ensures raised.Some? ==>
      |mcp.tools| < |old(mcp.tools)| + |entries| &&
      Synthesize(classes, entries, describe) == Failure(raised.value) &&
      WrapEntry(classes, entries, |mcp.tools| - |old(mcp.tools)|, describe) == Failure(raised.value)
  {
    var k := 0;
    while k < |entries|
      invariant 0 <= k <= |entries|
      invariant |mcp.tools| == |old(mcp.tools)| + k
      invariant mcp.tools[..|old(mcp.tools)|] == old(mcp.tools)
      invariant forall j :: |old(mcp.tools)| <= j < |mcp.tools| ==>
        mcp.tools[j].service == service &&
        WrapEntry(classes, entries, j - |old(mcp.tools)|, describe) == Success(mcp.tools[j].Spec())
      invariant SucceedsBefore(classes, entries, k, describe)
      invariant mcp.signaturesAtRegistration == old(mcp.signaturesAtRegistration) + RegisteredSignatures(classes, entries, describe, k)
    {
      var wrapped := WrapServiceMethod(classes, mcp, service, entries[k].serviceAttr, entries[k].methodName, describe);
      if wrapped.Failure? {
        SynthesizeStopsAtFirstFailure(classes, entries, k, describe);
        return Some(wrapped.error);
      }
      RegisteredSignaturesGrow(classes, entries, describe, k);
      k := k + 1;
    }
    SynthesizeSucceeds(classes, entries, describe);
    raised := None;
  }
}
