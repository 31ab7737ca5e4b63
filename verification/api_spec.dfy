/**
 The parsed capability specification (`api.json`): class name -> class
 object, whose `members` map method name -> method object, whose `args` map
 argument name -> argument object. Every other property at every level is kept
 as opaque JSON.
 */
module ApiSpec {
  import opened OrderedMap

  /** A parsed JSON value. Numbers are integers here (see README, Left out). */
  datatype Json =
    | JNull
    | JBool(b: bool)
    | JNumber(n: int)
    | JString(s: string)
    | JArray(items: seq<Json>)
    | JObject(fields: OMap<Json>)

  /** One argument descriptor: a JSON object, its own properties in order. */
  datatype Arg = Arg(fields: OMap<Json>)

  /** A method object: its `args` property and all its other properties. */
  datatype Method = Method(args: OMap<Arg>, other: OMap<Json>)

  /** A class object: its `members` property and all its other properties. */
  datatype Class = Class(members: OMap<Method>, other: OMap<Json>)

  /** The whole specification: class name -> class. */
  type Spec = OMap<Class>

  /** Every object at every level has distinct keys, as anything `JSON.parse` builds does. */
  predicate WellFormed(spec: Spec) {
    && Valid(spec)
    && forall c :: 0 <= c < |spec| ==> ClassWellFormed(spec[c].value)
  }

  predicate ClassWellFormed(cls: Class) {
    && Valid(cls.members)
    && Valid(cls.other)
    && "members" !in Keys(cls.other)
    && forall m :: 0 <= m < |cls.members| ==> MethodWellFormed(cls.members[m].value)
  }

  predicate MethodWellFormed(meth: Method) {
    && Valid(meth.args)
    && Valid(meth.other)
    && "args" !in Keys(meth.other)
    && forall a :: 0 <= a < |meth.args| ==> Valid(meth.args[a].value.fields)
  }
}
