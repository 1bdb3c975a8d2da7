/** The search port: the seven operations a search adapter must provide,
    each with the schema of its argument and of its (awaited) result. */
module SearchPort {
  import opened Json
  import opened Shapes

  /** What an operation accepts and what it must give back. */
  datatype Signature = Signature(args: Shape, result: Shape)

  /** The result of the write-style operations: `{ok: boolean, msg?: string}`. */
  const Ack: Shape := ZObject([Field("ok", ZBoolean), Field("msg", ZOptional(ZString))])

  /** The operations in the order the port declares them. */
  const Operations: seq<string> :=
    ["createIndex", "deleteIndex", "indexDoc", "updateDoc", "getDoc", "removeDoc", "query"]

  /** The port itself, keyed by operation name. */
  const Port: map<string, Signature> := map[
    "createIndex" := Signature(ZObject([Field("index", ZString), Field("mappings", ZAny)]), Ack),
    "deleteIndex" := Signature(ZString, Ack),
    "indexDoc" := Signature(ZObject([Field("index", ZString), Field("key", ZString), Field("doc", ZAny)]), Ack),
    "updateDoc" := Signature(ZObject([Field("index", ZString), Field("doc", ZAny)]), Ack),
    "getDoc" := Signature(
      ZObject([Field("index", ZString), Field("key", ZString)]),
      ZObject([Field("ok", ZBoolean), Field("key", ZString), Field("doc", ZAny)])),
    "removeDoc" := Signature(ZObject([Field("index", ZString), Field("key", ZString)]), Ack),
    "query" := Signature(
      ZObject([Field("index", ZString), Field("q", ZAny)]),
      ZObject([Field("ok", ZBoolean), Field("matches", ZArray(ZAny))]))
  ]

  /** The operations whose result is `{ok, msg?}`. */
  const WriteOperations: set<string> := {"createIndex", "deleteIndex", "indexDoc", "updateDoc", "removeDoc"}

  /** The operations whose argument carries a document `key`. */
  const KeyedOperations: set<string> := {"indexDoc", "getDoc", "removeDoc"}

  /** The declared order lists exactly the operations of the port. */
  lemma OperationsEnumeratePort()
    ensures forall name :: name in Operations <==> name in Port
  {
  }
}
