/**
 The offline normalisation pass over the capability specification: every
 argument of every method of every class gets an `order` property holding
 its position among that method's arguments; the count restarts at 0 for
 each method.
 */
module ArgOrder {
  import opened Wrappers
  import opened OrderedMap
  import opened ApiSpec

  /** The property the pass writes. */
  const OrderKey: string := "order"

  /** `arg.order = n`. */
  function SetOrder(arg: Arg, n: nat): (r: Arg)
    ensures Lookup(r.fields, OrderKey) == Some(JNumber(n))
    ensures forall k :: k != OrderKey ==> Lookup(r.fields, k) == Lookup(arg.fields, k)
    ensures OrderKey in Keys(arg.fields) ==> Keys(r.fields) == Keys(arg.fields)
    ensures OrderKey !in Keys(arg.fields) ==> Keys(r.fields) == Keys(arg.fields) + [OrderKey]
    ensures Valid(arg.fields) ==> Valid(r.fields)
  {
    Arg(Put(arg.fields, OrderKey, JNumber(n)))
  }

  /** The `order` property an argument carries, if any. */
  function OrderOf(arg: Arg): Option<Json> {
    Lookup(arg.fields, OrderKey)
  }

  /** Each argument is numbered by its position in this method's key sequence. */
  predicate Numbered(args: OMap<Arg>) {
    forall a :: 0 <= a < |args| ==> OrderOf(args[a].value) == Some(JNumber(a))
  }

  /** The inner loop for one method: a fresh counter, stepped once per argument key. */
  function StampArgs(args: OMap<Arg>): (r: OMap<Arg>)
    ensures Keys(r) == Keys(args)
    ensures Numbered(r)
    ensures forall a :: 0 <= a < |args| ==> ArgSameExceptOrder(args[a].value, r[a].value)
  {
    seq(|args|, a requires 0 <= a < |args| => Entry(args[a].key, SetOrder(args[a].value, a)))
  }

  function StampMethod(meth: Method): Method {
    meth.(args := StampArgs(meth.args))
  }

  function StampClass(cls: Class): Class {
    cls.(members := MapValues(cls.members, StampMethod))
  }

  /** The pass over the whole specification. */
  function Normalise(spec: Spec): (r: Spec)
    ensures SameExceptOrder(spec, r)
    ensures forall c, m :: 0 <= c < |spec| && 0 <= m < |spec[c].value.members| ==>
      Numbered(r[c].value.members[m].value.args)
  {
    MapValues(spec, StampClass)
  }

  /**
   The nested loops as written: classes, then methods, then arguments, with the
   counter reset before each method's arguments and incremented after each one.
   */
  method NormaliseLoop(spec: Spec) returns (out: Spec)
    ensures out == Normalise(spec)
  {
    out := [];
    var c := 0;
    while c < |spec|
      invariant 0 <= c <= |spec|
      invariant out == Normalise(spec[..c])
    {
      var cls := spec[c].value;
      var members: OMap<Method> := [];
      var m := 0;
      while m < |cls.members|
        invariant 0 <= m <= |cls.members|
        invariant members == MapValues(cls.members[..m], StampMethod)
      {
        var meth := cls.members[m].value;
        var args: OMap<Arg> := [];
        var order := 0;
        var a := 0;
        while a < |meth.args|
          invariant 0 <= a <= |meth.args|
          invariant order == a
          invariant args == StampArgs(meth.args[..a])
        {
          args := args + [Entry(meth.args[a].key, SetOrder(meth.args[a].value, order))];
          order := order + 1;
          a := a + 1;
          assert meth.args[..a] == meth.args[..a - 1] + [meth.args[a - 1]];
        }
        assert meth.args[..a] == meth.args;
        members := members + [Entry(cls.members[m].key, meth.(args := args))];
        m := m + 1;
        assert cls.members[..m] == cls.members[..m - 1] + [cls.members[m - 1]];
      }
      assert cls.members[..m] == cls.members;
      out := out + [Entry(spec[c].key, cls.(members := members))];
      c := c + 1;
      assert spec[..c] == spec[..c - 1] + [spec[c - 1]];
    }
    assert spec[..c] == spec;
  }

  /** After the pass every argument of every method of every class is numbered by its position. */
  lemma EveryArgNumbered(spec: Spec)
    ensures forall c, m :: 0 <= c < |spec| && 0 <= m < |spec[c].value.members| ==>
      && Keys(Normalise(spec)[c].value.members[m].value.args) == Keys(spec[c].value.members[m].value.args)
      && Numbered(Normalise(spec)[c].value.members[m].value.args)
  {
  }

  /** Position numbering is a bijection onto 0 .. n-1: distinct, below n, and every value used. */
  lemma NumberedOrdersAreARange(args: OMap<Arg>)
    requires Numbered(args)
    ensures forall a, b :: 0 <= a < b < |args| ==> OrderOf(args[a].value) != OrderOf(args[b].value)
    ensures forall a :: 0 <= a < |args| ==>
      OrderOf(args[a].value).Some? && OrderOf(args[a].value).value.JNumber? &&
      0 <= OrderOf(args[a].value).value.n < |args|
    ensures (set a | 0 <= a < |args| :: OrderOf(args[a].value))
         == (set n | 0 <= n < |args| :: Some(JNumber(n)))
  {
  }

  /** An argument object is unchanged except for its `order` property. */
  ghost predicate ArgSameExceptOrder(before: Arg, after: Arg) {
    && (forall k :: k != OrderKey ==> Lookup(after.fields, k) == Lookup(before.fields, k))
    && (OrderKey in Keys(before.fields) ==> Keys(after.fields) == Keys(before.fields))
    && (OrderKey !in Keys(before.fields) ==> Keys(after.fields) == Keys(before.fields) + [OrderKey])
  }

  ghost predicate MethodSameExceptOrder(before: Method, after: Method) {
    && after.other == before.other
    && Keys(after.args) == Keys(before.args)
    && forall a :: 0 <= a < |before.args| ==> ArgSameExceptOrder(before.args[a].value, after.args[a].value)
  }

  ghost predicate ClassSameExceptOrder(before: Class, after: Class) {
    && after.other == before.other
    && Keys(after.members) == Keys(before.members)
    && forall m :: 0 <= m < |before.members| ==>
         MethodSameExceptOrder(before.members[m].value, after.members[m].value)
  }

  /** Class names, method names, argument names and every property but `order` are kept. */
  ghost predicate SameExceptOrder(before: Spec, after: Spec) {
    && Keys(after) == Keys(before)
    && forall c :: 0 <= c < |before| ==> ClassSameExceptOrder(before[c].value, after[c].value)
  }

  lemma ShapeUnchanged(spec: Spec)
    ensures SameExceptOrder(spec, Normalise(spec))
  {
  }

  /** A second run rewrites every `order` with the value it already holds. */
  lemma NormaliseIdempotent(spec: Spec)
    ensures Normalise(Normalise(spec)) == Normalise(spec)
  {
    forall args: OMap<Arg> ensures StampArgs(StampArgs(args)) == StampArgs(args) {
      forall a | 0 <= a < |args|
        ensures SetOrder(SetOrder(args[a].value, a), a) == SetOrder(args[a].value, a)
      {
        PutExisting(SetOrder(args[a].value, a).fields, OrderKey, JNumber(a));
      }
    }
    forall meth: Method ensures StampMethod(StampMethod(meth)) == StampMethod(meth) {
    }
    forall cls: Class ensures StampClass(StampClass(cls)) == StampClass(cls) {
    }
  }

  /** Distinct keys at every level survive the pass. */
  lemma NormalisePreservesWellFormed(spec: Spec)
    requires WellFormed(spec)
    ensures WellFormed(Normalise(spec))
  {
  }
}
