/** What the search port promises its callers and demands of its adapters,
    stated over the model of binding and wrapping. */
module PortProperties {
  import opened Json
  import opened Shapes
  import opened SearchPort
  import opened Capture
  import opened Binder

  // ---------------------------------------------------------------------
  // Binding
  // ---------------------------------------------------------------------

  /** Checking a list of names only looks at the members with those names. */
  lemma {:induction false} IssuesIgnoreOtherMembers(names: seq<string>, candidate: map<string, Member>, name: string, m: Member)
    requires name !in names
    ensures Issues(names, candidate[name := m]) == Issues(names, candidate)
  {
    if |names| > 0 {
      assert names[0] != name;
      IssuesIgnoreOtherMembers(names[1..], candidate, name, m);
    }
  }

  /** An adapter that lacks one of the seven operations, or has it as
      something other than a function, is rejected, and the rejection
      names that operation with the right kind of issue. */
  lemma BindRejectsUnprovidedOperation(candidate: map<string, Member>, name: string)
    requires name in Port && !Provides(candidate, name)
    ensures Bind(candidate).Rejected?
    ensures IssueFor(candidate, name) in Bind(candidate).issues
    ensures name !in candidate ==> Missing(name) in Bind(candidate).issues
    ensures name in candidate ==> NotAFunction(name) in Bind(candidate).issues
  {
    OperationsEnumeratePort();
    var i :| 0 <= i < |Operations| && Operations[i] == name;
    assert IssueFor(candidate, Operations[i]) in Issues(Operations, candidate);
  }

  /** Members other than the seven operations neither help nor hurt: adding
      or replacing one leaves the outcome of binding as it was. */
  lemma BindIgnoresExtraMembers(candidate: map<string, Member>, name: string, m: Member)
    requires name !in Port
    ensures Bind(candidate[name := m]).Bound? <==> Bind(candidate).Bound?
    ensures Bind(candidate).Rejected? ==> Bind(candidate[name := m]).issues == Bind(candidate).issues
    ensures Bind(candidate).Bound? ==>
              forall op, arg | op in Port :: Bind(candidate[name := m]).instance[op](arg) == Bind(candidate).instance[op](arg)
  {
    OperationsEnumeratePort();
    IssuesIgnoreOtherMembers(Operations, candidate, name, m);
  }

  // ---------------------------------------------------------------------
  // Argument schemas
  // ---------------------------------------------------------------------

  /** Every operation but `deleteIndex` takes an object whose `index` is a
      string; the three keyed operations also need a string `key`. Nothing
      else about the argument is checked: `mappings`, `doc` and `q` are
      free-form and other properties are ignored. */
  lemma ObjectArgumentShape(name: string, arg: Value)
    requires name in Port && name != "deleteIndex"
    ensures Conforms(arg, Port[name].args) <==>
              && arg.Obj?
              && Get(arg.props, "index").Str?
              && (name in KeyedOperations ==> Get(arg.props, "key").Str?)
  {
    if name == "indexDoc" {
      ThreeFieldsConform(arg, Field("index", ZString), Field("key", ZString), Field("doc", ZAny));
    } else if name == "createIndex" {
      TwoFieldsConform(arg, Field("index", ZString), Field("mappings", ZAny));
    } else if name == "updateDoc" {
      TwoFieldsConform(arg, Field("index", ZString), Field("doc", ZAny));
    } else if name == "query" {
      TwoFieldsConform(arg, Field("index", ZString), Field("q", ZAny));
    } else {
      TwoFieldsConform(arg, Field("index", ZString), Field("key", ZString));
    }
  }

  /** `deleteIndex` takes the bare index name and nothing else. */
  lemma DeleteIndexArgumentShape(arg: Value)
    ensures Conforms(arg, Port["deleteIndex"].args) <==> arg.Str?
  {
  }

  /** Whatever is put in a free-form property (`mappings`, `doc`, `q`), or
      whether it is there at all, does not change whether an argument fits. */
  lemma FreeFormPropertiesUnconstrained(name: string, props: map<string, Value>, prop: string, v: Value)
    requires name in Port && name != "deleteIndex"
    requires prop in {"mappings", "doc", "q"}
    ensures Conforms(Obj(props[prop := v]), Port[name].args) <==> Conforms(Obj(props), Port[name].args)
    ensures Conforms(Obj(props - {prop}), Port[name].args) <==> Conforms(Obj(props), Port[name].args)
  {
    ObjectArgumentShape(name, Obj(props[prop := v]));
    ObjectArgumentShape(name, Obj(props - {prop}));
    ObjectArgumentShape(name, Obj(props));
  }

  // ---------------------------------------------------------------------
  // Result schemas
  // ---------------------------------------------------------------------

  /** A write-style operation must give back an object with a boolean `ok`
      and, optionally, a string `msg`. */
  lemma AckResultShape(name: string, result: Value)
    requires name in WriteOperations
    ensures Conforms(result, Port[name].result) <==>
              && result.Obj?
              && Get(result.props, "ok").Bool?
              && (Get(result.props, "msg").Undefined? || Get(result.props, "msg").Str?)
  {
    TwoFieldsConform(result, Field("ok", ZBoolean), Field("msg", ZOptional(ZString)));
  }

  /** `getDoc` must give back a boolean `ok` and a string `key`; its `doc`
      is free-form. */
  lemma GetDocResultShape(result: Value)
    ensures Conforms(result, Port["getDoc"].result) <==>
              result.Obj? && Get(result.props, "ok").Bool? && Get(result.props, "key").Str?
  {
    ThreeFieldsConform(result, Field("ok", ZBoolean), Field("key", ZString), Field("doc", ZAny));
  }

  /** `query` must give back a boolean `ok` and an array of `matches`,
      whose elements are free-form. */
  lemma QueryResultShape(result: Value)
    ensures Conforms(result, Port["query"].result) <==>
              result.Obj? && Get(result.props, "ok").Bool? && Get(result.props, "matches").Arr?
  {
    TwoFieldsConform(result, Field("ok", ZBoolean), Field("matches", ZArray(ZAny)));
  }

  // ---------------------------------------------------------------------
  // Wrapped calls
  // ---------------------------------------------------------------------

  /** A rejected argument never reaches the adapter: the outcome is the same
      whichever implementation sits behind the wrapper. */
  lemma ArgumentErrorNeverCallsAdapter(sig: Signature, impl: Impl, other: Impl, arg: Value)
    requires !Conforms(arg, sig.args)
    ensures Call(sig, impl, arg) == Call(sig, other, arg) == ArgumentError(arg)
  {
  }

  /** The wrapper consults the implementation at the call's own argument
      only: two implementations that agree there give the same outcome. */
  lemma CallConsultsOnlyItsArgument(sig: Signature, impl: Impl, other: Impl, arg: Value)
    requires impl(arg) == other(arg)
    ensures Call(sig, impl, arg) == Call(sig, other, arg)
  {
  }

  /** On a bound instance, a call whose argument fits and whose adapter
      result fits returns exactly the adapter's result. */
  lemma WrappedCallPassesResultThrough(candidate: map<string, Member>, name: string, arg: Value, v: Value)
    requires Bind(candidate).Bound? && name in Port
    requires Conforms(arg, Port[name].args)
    requires candidate[name].impl(arg) == Returned(v)
    requires Conforms(v, Port[name].result)
    ensures Bind(candidate).instance[name](arg) == Ok(v)
  {
  }

  /** On a bound instance every call ends in exactly one of the four ways,
      and a successful one always carries a result that fits the schema. */
  lemma BoundCallOutcomes(candidate: map<string, Member>, name: string, arg: Value)
    requires Bind(candidate).Bound? && name in Port
    ensures var r := Bind(candidate).instance[name](arg);
            && (r.ArgumentError? <==> !Conforms(arg, Port[name].args))
            && (r.Fault? <==> Conforms(arg, Port[name].args) && candidate[name].impl(arg).Threw?)
            && (r.ResultError? <==>
                  Conforms(arg, Port[name].args) && candidate[name].impl(arg).Returned?
                  && !Conforms(candidate[name].impl(arg).value, Port[name].result))
            && (r.Ok? ==> Conforms(r.value, Port[name].result))
  {
  }

  /** A write-style result whose `msg` is present but not a string is a
      result error, though the adapter returned normally. */
  lemma NonStringMessageIsResultError(name: string, impl: Impl, arg: Value)
    requires name in WriteOperations
    requires Conforms(arg, Port[name].args)
    requires impl(arg).Returned? && impl(arg).value.Obj?
    requires var msg := Get(impl(arg).value.props, "msg"); !msg.Undefined? && !msg.Str?
    ensures Call(Port[name], impl, arg) == ResultError(impl(arg).value)
  {
    AckResultShape(name, impl(arg).value);
  }

  // ---------------------------------------------------------------------
  // Concrete calls
  // ---------------------------------------------------------------------

  /** `{index: 123, key: "k"}` is turned away by `getDoc` and `removeDoc`. */
  lemma NumericIndexRejected(name: string, impl: Impl)
    requires name == "getDoc" || name == "removeDoc"
    ensures var arg := Obj(map["index" := Num(123), "key" := Str("k")]);
            Call(Port[name], impl, arg) == ArgumentError(arg)
  {
    ObjectArgumentShape(name, Obj(map["index" := Num(123), "key" := Str("k")]));
  }

  /** `deleteIndex({index: "x"})` is turned away: it wants a bare string. */
  lemma DeleteIndexRejectsObject(impl: Impl)
    ensures var arg := Obj(map["index" := Str("x")]);
            Call(Port["deleteIndex"], impl, arg) == ArgumentError(arg)
  {
  }

  /** A bound `getDoc({index: "books", key: "42"})` whose adapter answers
      `{ok: true, key: "42", doc: {title: "Dune"}}` hands that answer back. */
  lemma GetDocScenario(candidate: map<string, Member>)
    requires Bind(candidate).Bound?
    requires candidate["getDoc"].impl(Obj(map["index" := Str("books"), "key" := Str("42")])) ==
             Returned(Obj(map["ok" := Bool(true), "key" := Str("42"), "doc" := Obj(map["title" := Str("Dune")])]))
    ensures Bind(candidate).instance["getDoc"](Obj(map["index" := Str("books"), "key" := Str("42")])) ==
            Ok(Obj(map["ok" := Bool(true), "key" := Str("42"), "doc" := Obj(map["title" := Str("Dune")])]))
  {
    var arg := Obj(map["index" := Str("books"), "key" := Str("42")]);
    ObjectArgumentShape("getDoc", arg);
    GetDocResultShape(Obj(map["ok" := Bool(true), "key" := Str("42"), "doc" := Obj(map["title" := Str("Dune")])]));
  }

  /** A bound `query({index: "books", q: "dune"})` whose adapter answers
      `{ok: true, matches: [{title: "Dune"}]}` hands that answer back. */
  lemma QueryScenario(candidate: map<string, Member>)
    requires Bind(candidate).Bound?
    requires candidate["query"].impl(Obj(map["index" := Str("books"), "q" := Str("dune")])) ==
             Returned(Obj(map["ok" := Bool(true), "matches" := Arr([Obj(map["title" := Str("Dune")])])]))
    ensures Bind(candidate).instance["query"](Obj(map["index" := Str("books"), "q" := Str("dune")])) ==
            Ok(Obj(map["ok" := Bool(true), "matches" := Arr([Obj(map["title" := Str("Dune")])])]))
  {
    ObjectArgumentShape("query", Obj(map["index" := Str("books"), "q" := Str("dune")]));
    QueryResultShape(Obj(map["ok" := Bool(true), "matches" := Arr([Obj(map["title" := Str("Dune")])])]));
  }

  /** A `query` adapter that answers `{ok: true}` with no `matches` has
      returned normally, yet the call is a result error. */
  lemma QueryWithoutMatchesIsResultError(impl: Impl)
    requires impl(Obj(map["index" := Str("books"), "q" := Str("dune")])) == Returned(Obj(map["ok" := Bool(true)]))
    ensures Call(Port["query"], impl, Obj(map["index" := Str("books"), "q" := Str("dune")])) ==
            ResultError(Obj(map["ok" := Bool(true)]))
  {
    ObjectArgumentShape("query", Obj(map["index" := Str("books"), "q" := Str("dune")]));
    QueryResultShape(Obj(map["ok" := Bool(true)]));
  }
}
