/**
 * Signatures as data, and the two pure steps of `wrap_service_method`
 * (mcp_server_bwt/tools/bing_webmaster.py): dropping the receiver from the
 * signature that is exposed, and dropping a `self` keyword from the arguments
 * of a call.
 */
module Reflection {
  import opened Wrappers
  import opened PyValues

  /** The five kinds of `inspect.Parameter`, in the order a signature must list them. */
  datatype ParamKind = PositionalOnly | PositionalOrKeyword | VarPositional | KeywordOnly | VarKeyword

  /** One parameter as `inspect.signature` reports it; `None` stands for `Parameter.empty`. */
  datatype Param = Param(name: string, kind: ParamKind, default: Option<Value>, annotation: Option<string>)

  /** An `inspect.Signature`: ordered parameters and the return annotation. */
  datatype Signature = Signature(parameters: seq<Param>, returnAnnotation: Option<string>)

  function KindRank(k: ParamKind): nat
  {
    match k
    case PositionalOnly => 0
    case PositionalOrKeyword => 1
    case VarPositional => 2
    case KeywordOnly => 3
    case VarKeyword => 4
  }

  predicate TakesPositional(p: Param)
  {
    p.kind == PositionalOnly || p.kind == PositionalOrKeyword
  }

  /**
   * The rules `inspect.Signature` checks when it is built or `replace`d: kinds
   * never go back down, no positional parameter without a default follows one
   * with a default, and names are unique. A list breaking them makes `replace`
   * raise ValueError.
   */
  predicate WellFormed(ps: seq<Param>)
  {
    && (forall i, j :: 0 <= i < j < |ps| ==> KindRank(ps[i].kind) <= KindRank(ps[j].kind))
    && (forall i, j :: 0 <= i < j < |ps| && TakesPositional(ps[i]) && ps[i].default.Some? && TakesPositional(ps[j])
          ==> ps[j].default.Some?)
    && (forall i, j :: 0 <= i < j < |ps| ==> ps[i].name != ps[j].name)
  }

  /**
   * `sig.replace(parameters=list(sig.parameters.values())[1:])`: the signature
   * exposed for a tool is the original without its first entry, whatever that
   * entry is named. Like Python's `[1:]`, an empty list stays empty.
   */
  function StripReceiver(sig: Signature): (r: Signature)
    ensures r.returnAnnotation == sig.returnAnnotation
    ensures |sig.parameters| == 0 ==> r.parameters == []
    ensures |sig.parameters| > 0 ==>
              && |r.parameters| == |sig.parameters| - 1
              && forall i :: 0 <= i < |r.parameters| ==> r.parameters[i] == sig.parameters[i + 1]
    ensures WellFormed(sig.parameters) ==> WellFormed(r.parameters)
  {
    if |sig.parameters| == 0 then sig else sig.(parameters := sig.parameters[1..])
  }

  /** Putting the receiver back in front of the exposed parameters gives the original signature. */
  lemma ReceiverRestored(sig: Signature)
    requires |sig.parameters| > 0
    ensures Signature([sig.parameters[0]] + StripReceiver(sig).parameters, StripReceiver(sig).returnAnnotation) == sig
  {
    var r := StripReceiver(sig);
    assert [sig.parameters[0]] + r.parameters == sig.parameters by {
      forall i | 0 <= i < |sig.parameters|
        ensures ([sig.parameters[0]] + r.parameters)[i] == sig.parameters[i]
      {
        if i > 0 { assert ([sig.parameters[0]] + r.parameters)[i] == r.parameters[i - 1]; }
      }
    }
  }

  /** The receiver keyword the wrapper refuses to forward. */
  const Receiver: string := "self"

  /** `{k: v for k, v in kwargs.items() if k != 'self'}`. */
  function DropReceiverKeyword(kwargs: map<string, Value>): (r: map<string, Value>)
    ensures Receiver !in r
    ensures forall k :: k in r <==> k in kwargs && k != Receiver
    ensures forall k :: k in r ==> r[k] == kwargs[k]
  {
    map k | k in kwargs && k != Receiver :: kwargs[k]
  }

  /** Filtering a second time changes nothing. */
  lemma DropReceiverKeywordIdempotent(kwargs: map<string, Value>)
    ensures DropReceiverKeyword(DropReceiverKeyword(kwargs)) == DropReceiverKeyword(kwargs)
  {
    var once := DropReceiverKeyword(kwargs);
    assert DropReceiverKeyword(once).Keys == once.Keys;
  }

  /** Arguments without a `self` key pass through untouched. */
  lemma DropReceiverKeywordKeepsOthers(kwargs: map<string, Value>)
    requires Receiver !in kwargs
    ensures DropReceiverKeyword(kwargs) == kwargs
  {
    assert DropReceiverKeyword(kwargs).Keys == kwargs.Keys;
  }

  /** Whatever a caller passes as `self`, the forwarded arguments are the same as if it had passed none. */
  lemma SelfKeywordIgnored(kwargs: map<string, Value>, v: Value)
    ensures DropReceiverKeyword(kwargs[Receiver := v]) == DropReceiverKeyword(kwargs)
  {
    assert DropReceiverKeyword(kwargs[Receiver := v]).Keys == DropReceiverKeyword(kwargs).Keys;
  }

  /** The filter removes one entry exactly when a `self` key was present. */
  lemma DropReceiverKeywordSize(kwargs: map<string, Value>)
    ensures |DropReceiverKeyword(kwargs)| == if Receiver in kwargs then |kwargs| - 1 else |kwargs|
  {
    var r := DropReceiverKeyword(kwargs);
    if Receiver in kwargs {
      assert r.Keys == kwargs.Keys - {Receiver};
      assert |r.Keys| == |kwargs.Keys| - 1;
    } else {
      assert r.Keys == kwargs.Keys;
    }
  }
}
