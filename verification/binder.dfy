/** Binding an adapter to the search port and wrapping each of its
    operations with argument and result validation. */
module Binder {
  import opened Json
  import opened Shapes
  import opened SearchPort
  import opened Capture

  /** An adapter's implementation of one operation. The awaited outcome is
      modelled directly: it either returns a value or throws one. */
  type Impl = Value -> Completion<Value, Value>

  /** A member of a candidate adapter object: a function, or plain data. */
  datatype Member = Function(impl: Impl) | Data(value: Value)

  /** What binding reports about an operation the adapter does not supply. */
  datatype Issue = Missing(name: string) | NotAFunction(name: string)

  /** Binding either fails with the offending operations, or yields the
      bound instance: the seven operations, each wrapped. */
  datatype BindResult =
    | Rejected(issues: seq<Issue>)
    | Bound(instance: map<string, Value -> Outcome>)

  /** The outcome of one call through a wrapped operation. */
  datatype Outcome =
    | ArgumentError(arg: Value)     // the argument does not fit; the adapter is not called
    | ResultError(result: Value)    // the adapter returned something that does not fit
    | Fault(error: Value)           // the adapter threw; passed on unchanged
    | Ok(value: Value)              // the adapter's own, validated, result

  /** The candidate has a callable member called `name`. */
  predicate Provides(candidate: map<string, Member>, name: string)
  {
    name in candidate && candidate[name].Function?
  }

  /** The issue reported for an operation the candidate does not provide. */
  function IssueFor(candidate: map<string, Member>, name: string): Issue
  {
    if name in candidate then NotAFunction(name) else Missing(name)
  }

  /** The issues found checking `names`, in order: one for each name the
      candidate does not provide, and none otherwise. */
  function Issues(names: seq<string>, candidate: map<string, Member>): (r: seq<Issue>)
    ensures |r| == 0 <==> forall i | 0 <= i < |names| :: Provides(candidate, names[i])
    ensures forall k | 0 <= k < |r| ::
              r[k].name in names && !Provides(candidate, r[k].name) && r[k] == IssueFor(candidate, r[k].name)
    ensures forall i | 0 <= i < |names| :: !Provides(candidate, names[i]) ==> IssueFor(candidate, names[i]) in r
    ensures |r| <= |names|
  {
    if |names| == 0 then []
    else
      var rest := Issues(names[1..], candidate);
      if Provides(candidate, names[0]) then rest else [IssueFor(candidate, names[0])] + rest
  }

  /** One call through the wrapper of an operation with signature `sig`:
      check the argument, call the implementation, check its result. */
  function Call(sig: Signature, impl: Impl, arg: Value): (r: Outcome)
    ensures r.ArgumentError? <==> !Conforms(arg, sig.args)
    ensures r.Ok? ==> impl(arg) == Returned(r.value) && Conforms(r.value, sig.result)
    ensures r.ResultError? ==> impl(arg) == Returned(r.result) && !Conforms(r.result, sig.result)
    ensures r.Fault? ==> impl(arg) == Threw(r.error)
  {
    if !Conforms(arg, sig.args) then ArgumentError(arg)
    else
      match impl(arg)
      case Threw(e) => Fault(e)
      case Returned(v) => if Conforms(v, sig.result) then Ok(v) else ResultError(v)
  }

  /** The wrapper that replaces an operation's implementation. */
  function Wrap(sig: Signature, impl: Impl): Value -> Outcome
  {
    arg => Call(sig, impl, arg)
  }

  /** Binding a candidate adapter: every operation of the port must be a
      function of the candidate; if so, each is replaced by its wrapper. */
  function Bind(candidate: map<string, Member>): (r: BindResult)
    ensures r.Bound? <==> forall name | name in Port :: Provides(candidate, name)
    ensures r.Rejected? ==>
              && |r.issues| > 0
              && forall k | 0 <= k < |r.issues| :: r.issues[k].name in Port && !Provides(candidate, r.issues[k].name)
    ensures r.Bound? ==> r.instance.Keys == Port.Keys
    ensures r.Bound? ==> forall name, arg | name in Port && Provides(candidate, name) ::
              r.instance[name](arg) == Call(Port[name], candidate[name].impl, arg)
  {
    OperationsEnumeratePort();
    var issues := Issues(Operations, candidate);
    if |issues| > 0 then Rejected(issues)
    else Bound(map name | name in Port :: Wrap(Port[name], candidate[name].impl))
  }
}
