/**
 * The pure part of `wrap_service_method` and `add_bing_webmaster_tools`: from a
 * (service attribute, method name) pair to the name, signature and docstring the
 * wrapper function carries, and the same over the whole registration table.
 *
 * Python's reflection (`getattr` on a service class, `inspect.signature`, the
 * method's `__name__` and `__doc__`) is a parameter: `describe(className, methodName)`
 * gives what reflection would find, or None where `getattr` raises AttributeError.
 */
module Synthesis {
  import opened Wrappers
  import opened PyValues
  import opened Reflection
  import opened Catalog

  /** What reflection finds on a service class attribute: `__name__`, `inspect.signature` and `__doc__`. */
  datatype MethodInfo = MethodInfo(name: string, signature: Signature, doc: Option<string>)

  /** Reflection over the foreign service classes, by class name and method name. */
  type Describe = (string, string) -> Option<MethodInfo>

  /** What a wrapper function carries once built: its name, the service method it forwards to, its signature and docstring. */
  datatype ToolSpec = ToolSpec(name: string, serviceAttr: string, methodName: string, signature: Signature, doc: Option<string>)

  /**
   * `classes[service_attr]` followed by `getattr(service_class, method_name)`:
   * the lookup raises KeyError first, AttributeError second.
   */
  function Lookup(classes: map<string, string>, serviceAttr: string, methodName: string, describe: Describe): (r: Result<MethodInfo, Exception>)
    ensures r.Success? ==> serviceAttr in classes && describe(classes[serviceAttr], methodName) == Some(r.value)
    ensures r.Failure? ==> r.error == (if serviceAttr in classes then AttributeError(methodName) else KeyError(serviceAttr))
  {
    if serviceAttr !in classes then Failure(KeyError(serviceAttr))
    else match describe(classes[serviceAttr], methodName)
      case None => Failure(AttributeError(methodName))
      case Some(info) => Success(info)
  }

  /**
   * What the function object `wrap_service_method` returns carries, or the exception it raises:
   * `@wraps` copies the name and docstring, and the signature set last is the method's without
   * its first parameter. (The registry saw the function before that last step; see
   * `RegisteredSignatures`.)
   */
  function WrapSpec(classes: map<string, string>, serviceAttr: string, methodName: string, describe: Describe): (r: Result<ToolSpec, Exception>)
    ensures r.Success? <==> Lookup(classes, serviceAttr, methodName, describe).Success?
    ensures r.Failure? ==> r.error == Lookup(classes, serviceAttr, methodName, describe).error
    ensures r.Success? ==> r.value.serviceAttr == serviceAttr && r.value.methodName == methodName
    ensures r.Success? ==>
      var info := Lookup(classes, serviceAttr, methodName, describe).value;
      r.value.name == info.name && r.value.doc == info.doc && r.value.signature == StripReceiver(info.signature)
  {
    match Lookup(classes, serviceAttr, methodName, describe)
    case Failure(e) => Failure(e)
    case Success(info) => Success(ToolSpec(info.name, serviceAttr, methodName, StripReceiver(info.signature), info.doc))
  }

  /**
   * A wrapper function differs from the method it wraps only by the receiver: putting the first
   * parameter back gives the method's own signature, and the name and docstring are the method's.
   */
  lemma ToolSignatureLacksOnlyReceiver(classes: map<string, string>, serviceAttr: string, methodName: string, describe: Describe)
    requires Lookup(classes, serviceAttr, methodName, describe).Success?
    requires |Lookup(classes, serviceAttr, methodName, describe).value.signature.parameters| > 0
    ensures var info := Lookup(classes, serviceAttr, methodName, describe).value;
            var tool := WrapSpec(classes, serviceAttr, methodName, describe).value;
            tool.name == info.name && tool.doc == info.doc &&
            Signature([info.signature.parameters[0]] + tool.signature.parameters, tool.signature.returnAnnotation) == info.signature
  {
    ReceiverRestored(Lookup(classes, serviceAttr, methodName, describe).value.signature);
  }

  /** A method whose signature `inspect` accepts yields a tool whose signature `inspect` accepts. */
  lemma ToolSignatureWellFormed(classes: map<string, string>, serviceAttr: string, methodName: string, describe: Describe)
    requires Lookup(classes, serviceAttr, methodName, describe).Success?
    requires WellFormed(Lookup(classes, serviceAttr, methodName, describe).value.signature.parameters)
    ensures WellFormed(WrapSpec(classes, serviceAttr, methodName, describe).value.signature.parameters)
  {
  }

  /** The tools a run of registrations publishes, in order, or the first exception raised. */
  function Synthesize(classes: map<string, string>, entries: seq<Registration>, describe: Describe): (r: Result<seq<ToolSpec>, Exception>)
    ensures r.Success? ==> |r.value| == |entries|
    decreases |entries|
  {
    if |entries| == 0 then Success([])
    else match WrapSpec(classes, entries[0].serviceAttr, entries[0].methodName, describe)
      case Failure(e) => Failure(e)
      case Success(t) =>
        match Synthesize(classes, entries[1..], describe)
        case Failure(e) => Failure(e)
        case Success(ts) => Success([t] + ts)
  }

  /** The i-th registration of `entries`, wrapped. */
  function WrapEntry(classes: map<string, string>, entries: seq<Registration>, i: nat, describe: Describe): Result<ToolSpec, Exception>
    requires i < |entries|
  {
    WrapSpec(classes, entries[i].serviceAttr, entries[i].methodName, describe)
  }

  /** Every registration before index n succeeds. */
  predicate SucceedsBefore(classes: map<string, string>, entries: seq<Registration>, n: nat, describe: Describe)
    requires n <= |entries|
  {
    forall k :: 0 <= k < n ==> WrapEntry(classes, entries, k, describe).Success?
  }

  /**
   * The signatures the methods of the first `n` registrations carry when they are looked
   * up, which is what the registry sees at each registration (the receiver is dropped only after).
   */
  function RegisteredSignatures(classes: map<string, string>, entries: seq<Registration>, describe: Describe, n: nat): (r: seq<Signature>)
    requires n <= |entries| && SucceedsBefore(classes, entries, n, describe)
    ensures |r| == n
  {
    if n == 0 then []
    else
      assert WrapEntry(classes, entries, n - 1, describe).Success?;
      RegisteredSignatures(classes, entries, describe, n - 1) +
      [Lookup(classes, entries[n - 1].serviceAttr, entries[n - 1].methodName, describe).value.signature]
  }

  /** Entry `j` of the record is the signature reflection reports for the `j`-th registration's method. */
  lemma {:induction false} RegisteredSignaturesAt(classes: map<string, string>, entries: seq<Registration>, describe: Describe, n: nat, j: nat)
    requires n <= |entries| && SucceedsBefore(classes, entries, n, describe) && j < n
    ensures Lookup(classes, entries[j].serviceAttr, entries[j].methodName, describe).Success?
    ensures RegisteredSignatures(classes, entries, describe, n)[j] ==
      Lookup(classes, entries[j].serviceAttr, entries[j].methodName, describe).value.signature
    decreases n
  {
    if j < n - 1 {
      RegisteredSignaturesAt(classes, entries, describe, n - 1, j);
    } else {
      assert WrapEntry(classes, entries, j, describe).Success?;
    }
  }

  /** One more successful registration adds its method's signature at the end. */
  lemma RegisteredSignaturesGrow(classes: map<string, string>, entries: seq<Registration>, describe: Describe, n: nat)
    requires n < |entries| && SucceedsBefore(classes, entries, n, describe) && WrapEntry(classes, entries, n, describe).Success?
    ensures SucceedsBefore(classes, entries, n + 1, describe)
    ensures Lookup(classes, entries[n].serviceAttr, entries[n].methodName, describe).Success?
    ensures RegisteredSignatures(classes, entries, describe, n + 1) ==
      RegisteredSignatures(classes, entries, describe, n) + [Lookup(classes, entries[n].serviceAttr, entries[n].methodName, describe).value.signature]
  {
  }

  /** A run of registrations succeeds exactly when each of its registrations does. */
  lemma {:induction false} SynthesizeSucceeds(classes: map<string, string>, entries: seq<Registration>, describe: Describe)
    ensures Synthesize(classes, entries, describe).Success? <==> SucceedsBefore(classes, entries, |entries|, describe)
    decreases |entries|
  {
    if |entries| > 0 {
      var rest := entries[1..];
      SynthesizeSucceeds(classes, rest, describe);
      if SucceedsBefore(classes, entries, |entries|, describe) {
        forall k | 0 <= k < |rest| ensures WrapEntry(classes, rest, k, describe).Success? {
          assert WrapEntry(classes, rest, k, describe) == WrapEntry(classes, entries, k + 1, describe);
        }
        assert WrapEntry(classes, entries, 0, describe).Success?;
      } else {
        var k :| 0 <= k < |entries| && WrapEntry(classes, entries, k, describe).Failure?;
        if k > 0 {
          assert WrapEntry(classes, rest, k - 1, describe) == WrapEntry(classes, entries, k, describe);
        }
      }
    }
  }

  /** A run that succeeds publishes, at each position, the tool of that position's registration. */
  lemma {:induction false} SynthesizeEntrywise(classes: map<string, string>, entries: seq<Registration>, describe: Describe)
    requires Synthesize(classes, entries, describe).Success?
    ensures forall i :: 0 <= i < |entries| ==> WrapEntry(classes, entries, i, describe) == Success(Synthesize(classes, entries, describe).value[i])
    decreases |entries|
  {
    if |entries| > 0 {
      var rest := entries[1..];
      SynthesizeEntrywise(classes, rest, describe);
      var ts := Synthesize(classes, entries, describe).value;
      forall i | 0 <= i < |entries| ensures WrapEntry(classes, entries, i, describe) == Success(ts[i]) {
        if i > 0 {
          assert ts[i] == Synthesize(classes, rest, describe).value[i - 1];
          assert WrapEntry(classes, rest, i - 1, describe) == WrapEntry(classes, entries, i, describe);
        }
      }
    }
  }

  /** A run whose first n registrations succeed and whose next one fails raises what that one raises. */
  lemma {:induction false} SynthesizeStopsAtFirstFailure(classes: map<string, string>, entries: seq<Registration>, n: nat, describe: Describe)
    requires n < |entries| && SucceedsBefore(classes, entries, n, describe) && WrapEntry(classes, entries, n, describe).Failure?
    ensures Synthesize(classes, entries, describe) == Failure(WrapEntry(classes, entries, n, describe).error)
    decreases n
  {
    if n > 0 {
      var rest := entries[1..];
      assert WrapEntry(classes, entries, 0, describe).Success?;
      forall k | 0 <= k < n - 1 ensures WrapEntry(classes, rest, k, describe).Success? {
        assert WrapEntry(classes, rest, k, describe) == WrapEntry(classes, entries, k + 1, describe);
      }
      assert WrapEntry(classes, rest, n - 1, describe) == WrapEntry(classes, entries, n, describe);
      SynthesizeStopsAtFirstFailure(classes, rest, n - 1, describe);
    }
  }

  /**
   * A run whose attributes are all keys of `SERVICE_CLASSES` can only raise AttributeError,
   * and completes exactly when every method it names exists on its class.
   */
  lemma SynthesizeFailsOnlyOnMissingMethod(classes: map<string, string>, entries: seq<Registration>, describe: Describe)
    requires forall i :: 0 <= i < |entries| ==> entries[i].serviceAttr in classes
    ensures Synthesize(classes, entries, describe).Failure? ==> Synthesize(classes, entries, describe).error.AttributeError?
    ensures Synthesize(classes, entries, describe).Success? <==>
      forall i :: 0 <= i < |entries| ==> describe(classes[entries[i].serviceAttr], entries[i].methodName).Some?
  {
    SynthesizeSucceeds(classes, entries, describe);
    forall i | 0 <= i < |entries|
      ensures WrapEntry(classes, entries, i, describe).Success? <==> describe(classes[entries[i].serviceAttr], entries[i].methodName).Some?
      ensures WrapEntry(classes, entries, i, describe).Failure? ==> WrapEntry(classes, entries, i, describe).error.AttributeError?
    {
      WrapSpecRaises(classes, entries[i].serviceAttr, entries[i].methodName, describe);
    }
    if Synthesize(classes, entries, describe).Failure? {
      var n := FirstFailure(classes, entries, describe);
      SynthesizeStopsAtFirstFailure(classes, entries, n, describe);
    }
  }

  /**
   * The two ways `wrap_service_method` raises: KeyError for an attribute missing from the
   * class map, and otherwise AttributeError exactly when the class lacks the method.
   */
  lemma WrapSpecRaises(classes: map<string, string>, serviceAttr: string, methodName: string, describe: Describe)
    ensures serviceAttr !in classes ==> WrapSpec(classes, serviceAttr, methodName, describe) == Failure(KeyError(serviceAttr))
    ensures serviceAttr in classes ==>
      (WrapSpec(classes, serviceAttr, methodName, describe).Success? <==> describe(classes[serviceAttr], methodName).Some?)
    ensures serviceAttr in classes && WrapSpec(classes, serviceAttr, methodName, describe).Failure? ==>
      WrapSpec(classes, serviceAttr, methodName, describe).error == AttributeError(methodName)
  {
  }

  /**
   * `add_bing_webmaster_tools` never raises KeyError: every attribute it names is in
   * `SERVICE_CLASSES`, so it completes exactly when every method it names exists on its class.
   */
  lemma RegistrationNeverKeyError(describe: Describe)
    ensures Synthesize(ServiceClasses, Table, describe).Failure? ==> Synthesize(ServiceClasses, Table, describe).error.AttributeError?
    ensures Synthesize(ServiceClasses, Table, describe).Success? <==>
      forall i :: 0 <= i < |Table| ==>
        Table[i].serviceAttr in ServiceClasses && describe(ServiceClasses[Table[i].serviceAttr], Table[i].methodName).Some?
  {
    TableAttributesKnown();
    SynthesizeFailsOnlyOnMissingMethod(ServiceClasses, Table, describe);
  }

  /** The index of the first failing registration, when there is one. */
  function FirstFailure(classes: map<string, string>, entries: seq<Registration>, describe: Describe): (n: nat)
    requires !SucceedsBefore(classes, entries, |entries|, describe)
    ensures n < |entries| && SucceedsBefore(classes, entries, n, describe) && WrapEntry(classes, entries, n, describe).Failure?
    decreases |entries|
  {
    if WrapEntry(classes, entries, 0, describe).Failure? then 0
    else
      var rest := entries[1..];
      assert forall k :: 1 <= k < |entries| ==> WrapEntry(classes, entries, k, describe) == WrapEntry(classes, rest, k - 1, describe);
      var m := FirstFailure(classes, rest, describe);
      m + 1
  }

  /** Reflection reports, as a method's `__name__`, the attribute it was found under (a `def` inside the class). */
  ghost predicate NamesFaithful(describe: Describe)
  {
    forall className, methodName :: describe(className, methodName).Some? ==> describe(className, methodName).value.name == methodName
  }

  /**
   * When `add_bing_webmaster_tools` completes, it has published 62 tools whose names are
   * pairwise distinct, so no registration shadows another.
   */
  lemma ToolNamesDistinct(describe: Describe)
    requires NamesFaithful(describe)
    requires Synthesize(ServiceClasses, Table, describe).Success?
    ensures |Synthesize(ServiceClasses, Table, describe).value| == 62
    ensures var tools := Synthesize(ServiceClasses, Table, describe).value;
            forall i, j :: 0 <= i < j < |tools| ==> tools[i].name != tools[j].name
  {
    TableSize();
    TableAttributesKnown();
    TableMethodsDistinct();
    SynthesizeEntrywise(ServiceClasses, Table, describe);
    var tools := Synthesize(ServiceClasses, Table, describe).value;
    forall i | 0 <= i < |tools| ensures tools[i].name == Table[i].methodName {
      assert WrapEntry(ServiceClasses, Table, i, describe) == Success(tools[i]);
    }
  }
}
