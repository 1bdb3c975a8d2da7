/** The structural meaning of the schema constructors the port uses:
    `z.string()`, `z.boolean()`, `z.any()`, `.optional()`, `z.array(…)`
    and `z.object({…})`. */
module Shapes {
  import opened Json

  /** A schema, one constructor per schema builder. */
  datatype Shape =
    | ZString
    | ZBoolean
    | ZAny
    | ZOptional(inner: Shape)
    | ZArray(element: Shape)
    | ZObject(fields: seq<Field>)

  /** One declared property of an object schema. */
  datatype Field = Field(name: string, shape: Shape)

  /** `v` passes the schema `s`. An object schema looks up every declared
      property (an absent one reads as `Undefined`) and ignores any other
      property the object has; an optional schema also admits `Undefined`;
      `z.any()` admits everything, `Undefined` included. */
  predicate Conforms(v: Value, s: Shape)
    decreases s
  {
    match s
    case ZString => v.Str?
    case ZBoolean => v.Bool?
    case ZAny => true
    case ZOptional(inner) => v.Undefined? || Conforms(v, inner)
    case ZArray(element) =>
      v.Arr? && forall i | 0 <= i < |v.items| :: Conforms(v.items[i], element)
    case ZObject(fields) =>
      v.Obj? && forall i | 0 <= i < |fields| :: Conforms(Get(v.props, fields[i].name), fields[i].shape)
  }

  /** Two objects that agree on every declared property of an object schema
      either both pass it or both fail it: undeclared properties never
      matter. */
  lemma UndeclaredPropertiesIgnored(p: map<string, Value>, q: map<string, Value>, fields: seq<Field>)
    requires forall i | 0 <= i < |fields| :: Get(p, fields[i].name) == Get(q, fields[i].name)
    ensures Conforms(Obj(p), ZObject(fields)) <==> Conforms(Obj(q), ZObject(fields))
  {
  }

  /** An object schema with two declared properties, unfolded. */
  lemma TwoFieldsConform(v: Value, f: Field, g: Field)
    ensures Conforms(v, ZObject([f, g])) <==>
              v.Obj? && Conforms(Get(v.props, f.name), f.shape) && Conforms(Get(v.props, g.name), g.shape)
  {
    var fields := [f, g];
    if v.Obj? && Conforms(Get(v.props, f.name), f.shape) && Conforms(Get(v.props, g.name), g.shape) {
      assert forall i | 0 <= i < |fields| :: fields[i] == f || fields[i] == g;
    }
    if Conforms(v, ZObject(fields)) {
      assert fields[0] == f && fields[1] == g;
    }
  }

  /** An object schema with three declared properties, unfolded. */
  lemma ThreeFieldsConform(v: Value, f: Field, g: Field, h: Field)
    ensures Conforms(v, ZObject([f, g, h])) <==>
              v.Obj? && Conforms(Get(v.props, f.name), f.shape) && Conforms(Get(v.props, g.name), g.shape)
                && Conforms(Get(v.props, h.name), h.shape)
  {
    var fields := [f, g, h];
    if v.Obj? && Conforms(Get(v.props, f.name), f.shape) && Conforms(Get(v.props, g.name), g.shape)
       && Conforms(Get(v.props, h.name), h.shape) {
      assert forall i | 0 <= i < |fields| :: fields[i] == f || fields[i] == g || fields[i] == h;
    }
    if Conforms(v, ZObject(fields)) {
      assert fields[0] == f && fields[1] == g && fields[2] == h;
    }
  }
}
