/**
 The JavaScript value coercions the request handler relies on: how a parsed
 query-string value becomes a property key (or a string in a concatenation),
 its truthiness, and which keys every plain object inherits.
 */
module JsKeys {

  /**
   A value of the parsed query string: an absent parameter, a string, an
   array (`a=1&a=2`) or a nested object (`a[b]=1`).
   */
  datatype QueryValue =
    | Missing
    | Text(s: string)
    | List(items: seq<QueryValue>)
    | Dict(entries: seq<(string, QueryValue)>)

  /** What `String(o)` gives for any plain object. */
  const ObjectTag: string := "[object Object]"

  /** The empty object literal `{}`. */
  const EmptyObject: QueryValue := Dict([])

  /**
   Whether `String(v)` returns rather than throws. A parsed object may carry
   its own `toString` entry (`command[toString]=x`); that entry is a string,
   not a function, and the inherited `valueOf` returns the object itself, so
   the conversion throws a TypeError. An array's join converts each element
   in turn; an object converts without looking at its entries' values.
   */
  predicate Coercible(v: QueryValue) {
    match v
    case Missing => true
    case Text(_) => true
    case List(items) => forall i :: 0 <= i < |items| ==> Coercible(items[i])
    case Dict(entries) => forall e :: e in entries ==> e.0 != "toString"
  }

  /**
   `String(v)`, which is also the key `obj[v]` looks up, when `Coercible(v)`:
   `undefined` becomes "undefined", an array is joined with commas, any object
   is ObjectTag.
   */
  function ToKey(v: QueryValue): (r: string)
    ensures v.Text? ==> r == v.s
    ensures v.Dict? ==> r == ObjectTag
    ensures v.Missing? ==> r == "undefined"
    ensures v.List? && |v.items| == 1 && v.items[0].Text? ==> r == v.items[0].s
    decreases v, 1
  {
    match v
    case Missing => "undefined"
    case Text(s) => s
    case List(items) => Join(items)
    case Dict(_) => ObjectTag
  }

  /** `Array.prototype.join(",")`, built from the back. */
  function Join(items: seq<QueryValue>): string
    decreases items, 0
  {
    if |items| == 0 then ""
    else
      var s := Piece(items[|items| - 1]);
      if |items| == 1 then s else Join(items[..|items| - 1]) + "," + s
  }

  /** What one array element contributes to the join: an undefined element gives the empty string. */
  function Piece(v: QueryValue): (r: string)
    decreases v, 2
    ensures v.Text? ==> r == v.s
  {
    if v.Missing? then "" else ToKey(v)
  }

  /** The join as the language describes it: the first element's piece, a comma, the join of the rest. */
  function JoinFront(items: seq<QueryValue>): string
    decreases |items|
  {
    if |items| == 0 then ""
    else if |items| == 1 then Piece(items[0])
    else Piece(items[0]) + "," + JoinFront(items[1..])
  }

  /** Building the join from the back gives the front-first join, so `String(['a', 'b'])` is "a,b". */
  lemma {:induction false} JoinIsFrontJoin(items: seq<QueryValue>)
    ensures Join(items) == JoinFront(items)
    ensures |items| >= 2 ==> Join(items) == Piece(items[0]) + "," + Join(items[1..])
    decreases |items|
  {
    if |items| >= 2 {
      var n := |items|;
      var init := items[..n - 1];
      JoinIsFrontJoin(init);
      JoinIsFrontJoin(items[1..]);
      if n > 2 {
        assert items[1..][..n - 2] == init[1..];
        JoinIsFrontJoin(init[1..]);
      }
    }
  }

  /** JavaScript truthiness of a query value: only `undefined` and the empty string are falsy. */
  predicate Truthy(v: QueryValue) {
    match v
    case Missing => false
    case Text(s) => s != ""
    case List(_) => true
    case Dict(_) => true
  }

  /** Names every plain object inherits from `Object.prototype`; looking one up is truthy. */
  const InheritedKeys: set<string> := {
    "constructor", "hasOwnProperty", "isPrototypeOf", "propertyIsEnumerable",
    "toLocaleString", "toString", "valueOf", "__proto__",
    "__defineGetter__", "__defineSetter__", "__lookupGetter__", "__lookupSetter__"
  }
}
