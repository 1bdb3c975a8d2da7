# Search port contract, modelled in Dafny

The search port (`packages/port-search/index.js`) is the contract a
search-indexing adapter has to satisfy. It declares seven operations
(`createIndex`, `deleteIndex`, `indexDoc`, `updateDoc`, `getDoc`,
`removeDoc`, `query`), each with a runtime schema for its argument and for
its awaited result. Binding an adapter checks that every operation is a
function of the adapter object. It then replaces each operation with a
wrapper that validates the argument, calls the adapter and validates the
result. A separate helper, `tryCatch`, turns a function that may throw into
one that returns `Right(value)` or `Left(error)`.

The model is purely functional:

- `json.dfy` (`Json`): JavaScript values, with `Undefined` standing for an
  absent property.
- `shapes.dfy` (`Shapes`): the schema builders the port uses (`z.string()`,
  `z.boolean()`, `z.any()`, `.optional()`, `z.array`, `z.object`) and their
  structural meaning `Conforms(v, s)`.
- `search_port.dfy` (`SearchPort`): the port itself, a constant map from
  operation name to argument and result schema.
- `binder.dfy` (`Binder`): `Bind`, which rejects an adapter or yields the
  bound instance, and `Call`, one call through a wrapper. An adapter's
  operation is a total function from argument to `Returned(result)` or
  `Threw(error)`.
- `capture.dfy` (`Capture`): `tryCatch` and its `Either` result.
- `properties.dfy` (`PortProperties`): what binding and the wrapped calls
  promise, including concrete `getDoc` and `query` calls.

Binding collects one issue per operation the adapter does not supply, in
the port's declared order. Each issue is `Missing` or `NotAFunction`. No
bound instance exists when there is any issue.

## Model

| member | source | states |
|---|---|---|
| Shapes.UndeclaredPropertiesIgnored | packages/port-search/index.js:7-71 | an object schema looks only at its declared properties: two objects that agree on them both pass or both fail |
| SearchPort.OperationsEnumeratePort | packages/port-search/index.js:7-71 | the declared order names exactly the seven operations of the port |
| Binder.Issues | packages/port-search/index.js:73 | checking the adapter yields no issue iff every operation is a function of it; each issue names an unsupplied operation with the right kind, and every unsupplied operation gets one |
| Binder.Bind | packages/port-search/index.js:73-84 | binding succeeds iff all seven operations are functions; a rejection lists only unsupplied operations and carries no instance; a bound instance has exactly the seven operations, each behaving as the validating wrapper around the adapter's function |
| Binder.Call | packages/port-search/index.js:75-82 | a wrapped call is an argument error iff the argument does not fit; success carries the adapter's own result, which fits the result schema; a result error carries a returned value that does not fit; a throw is passed on unchanged |
| Capture.TryCatch | packages/port-search/index.js:87-95 | the captured function returns `Right` iff the original returns normally, with its value; a throw becomes `Left` of the thrown value |
| Capture.TryCatchRoundTrip | packages/port-search/index.js:87-95 | re-throwing the captured result gives back exactly how the original call completed, so capture loses nothing |
| PortProperties.IssuesIgnoreOtherMembers | packages/port-search/index.js:73 | the adapter check depends only on the members named by the port |
| PortProperties.BindRejectsUnprovidedOperation | packages/port-search/index.js:7-73 | an adapter missing any one operation, or having it as non-function data, is rejected with a `Missing` or `NotAFunction` issue naming that operation |
| PortProperties.BindIgnoresExtraMembers | packages/port-search/index.js:7-73 | adding or replacing a member outside the seven operations changes neither the verdict, nor the issues, nor the behaviour of the bound operations |
| PortProperties.ObjectArgumentShape | packages/port-search/index.js:9-66 | every operation but `deleteIndex` accepts exactly the objects whose `index` is a string, plus a string `key` for `indexDoc`, `getDoc` and `removeDoc` |
| PortProperties.DeleteIndexArgumentShape | packages/port-search/index.js:18-19 | `deleteIndex` accepts exactly bare strings |
| PortProperties.FreeFormPropertiesUnconstrained | packages/port-search/index.js:9-66 | setting or deleting `mappings`, `doc` or `q` never changes whether an argument fits |
| PortProperties.AckResultShape | packages/port-search/index.js:14-61 | a write-style result fits iff it is an object with a boolean `ok` and a `msg` that is absent or a string |
| PortProperties.GetDocResultShape | packages/port-search/index.js:48-52 | a `getDoc` result fits iff it is an object with a boolean `ok` and a string `key` |
| PortProperties.QueryResultShape | packages/port-search/index.js:67-70 | a `query` result fits iff it is an object with a boolean `ok` and an array `matches` |
| PortProperties.ArgumentErrorNeverCallsAdapter | packages/port-search/index.js:75-82 | a call with a misfit argument gives an argument error whichever implementation is bound, so the implementation is not consulted |
| PortProperties.CallConsultsOnlyItsArgument | packages/port-search/index.js:75-82 | a wrapped call depends on the implementation only through its answer at the call's own argument |
| PortProperties.WrappedCallPassesResultThrough | packages/port-search/index.js:75-82 | through a bound instance, a fitting argument with a fitting adapter result returns exactly that result |
| PortProperties.BoundCallOutcomes | packages/port-search/index.js:75-82 | through a bound instance each call is an argument error, a fault, a result error or a success, each exactly in its own case, and success always fits the result schema |
| PortProperties.NonStringMessageIsResultError | packages/port-search/index.js:14-17 | a write-style result whose `msg` is present but not a string is a result error although the adapter returned normally |
| PortProperties.NumericIndexRejected | packages/port-search/index.js:43-57 | `getDoc` and `removeDoc` turn `{index: 123, key: "k"}` away with an argument error |
| PortProperties.DeleteIndexRejectsObject | packages/port-search/index.js:18-19 | `deleteIndex({index: "x"})` is an argument error |
| PortProperties.GetDocScenario | packages/port-search/index.js:43-52 | a bound `getDoc({index: "books", key: "42"})` hands back the adapter's `{ok: true, key: "42", doc: {title: "Dune"}}` unchanged |
| PortProperties.QueryScenario | packages/port-search/index.js:62-70 | a bound `query({index: "books", q: "dune"})` hands back the adapter's `{ok: true, matches: [{title: "Dune"}]}` unchanged |
| PortProperties.QueryWithoutMatchesIsResultError | packages/port-search/index.js:67-70 | a `query` answer of `{ok: true}` with no `matches` is a result error |

## Left out

- Promises: each implementation is modelled by its awaited outcome. The
  schema's `z.promise` wrapper would also turn away an implementation that
  returns a plain value instead of a promise; that case is not modelled.
- Removal of undeclared properties: the validator would strip properties
  that a schema does not declare from the adapter object, from arguments and
  from results. The model passes arguments and results through unchanged and
  keeps only the seven operations in the bound instance.
- The wording and layout of validation errors: an argument or result error
  carries only the offending value, and a binding issue carries only the
  operation name and its kind.
- A second layer of wrapping that the validator may add when it parses a
  function member during binding: the model wraps each operation once.
- The `env` parameter, which the source accepts and never uses.
- An adapter that is not an object at all: the candidate is always a map
  from member name to member.
- Calls with more than one argument: every operation and `tryCatch` take one
  value. A function of several arguments is the same function of a tuple.
- Numbers are integers. No schema of the port constrains numbers, so
  fractions and special values change nothing.
- The comment on `indexDoc` about invalidating a cached query whose key
  equals the document key: no cache exists at this layer, so none is
  modelled.
- The adapters themselves and any I/O they perform.
