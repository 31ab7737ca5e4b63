/**
 The read-only view the request handler takes of the capability
 specification: the member names of the `Page`, `Result`, `Browser` and
 `BrowserContext` classes, consulted by name only.
 */
module Capability {
  import opened Wrappers
  import opened OrderedMap
  import opened ApiSpec
  import opened JsKeys
  import ArgOrder

  /** The four member-name sets the handler consults. */
  datatype Capabilities = Capabilities(
    page: set<string>,
    result: set<string>,
    browser: set<string>,
    context: set<string>)

  /** The member names of one class of the specification, when the class exists. */
  function MemberNames(spec: Spec, cls: string): (r: Option<set<string>>)
    ensures r.Some? <==> cls in Keys(spec)
    ensures r.Some? ==> forall m :: m in r.value <==> m in Keys(Lookup(spec, cls).value.members)
  {
    match Lookup(spec, cls)
    case None => None
    case Some(c) => Some(set i | 0 <= i < |c.members| :: c.members[i].key)
  }

  /** The handler's view of a loaded specification; None when one of the four classes is missing. */
  function CapabilitiesOf(spec: Spec): (r: Option<Capabilities>)
    ensures r.Some? <==>
      "Page" in Keys(spec) && "Result" in Keys(spec) && "Browser" in Keys(spec) && "BrowserContext" in Keys(spec)
    ensures r.Some? ==> forall m :: m in r.value.page <==> m in Keys(Lookup(spec, "Page").value.members)
    ensures r.Some? ==> forall m :: m in r.value.result <==> m in Keys(Lookup(spec, "Result").value.members)
    ensures r.Some? ==> forall m :: m in r.value.browser <==> m in Keys(Lookup(spec, "Browser").value.members)
    ensures r.Some? ==>
      forall m :: m in r.value.context <==> m in Keys(Lookup(spec, "BrowserContext").value.members)
  {
    match (MemberNames(spec, "Page"), MemberNames(spec, "Result"),
           MemberNames(spec, "Browser"), MemberNames(spec, "BrowserContext"))
    case (Some(p), Some(r), Some(b), Some(c)) => Some(Capabilities(p, r, b, c))
    case _ => None
  }

  /**
   `spec.<Class>.members[command]` is truthy: the command is one of the class's
   own members (each a non-empty JSON object) or a name every object inherits.
   */
  predicate HasMember(names: set<string>, command: string) {
    command in names || command in InheritedKeys
  }

  /** The argument-order pass does not change which commands the handler recognises. */
  lemma NormalisePreservesCapabilities(spec: Spec)
    ensures CapabilitiesOf(ArgOrder.Normalise(spec)) == CapabilitiesOf(spec)
  {
    var out := ArgOrder.Normalise(spec);
    forall cls ensures MemberNames(out, cls) == MemberNames(spec, cls) {
      LookupMapValues(spec, ArgOrder.StampClass, cls);
      if Lookup(spec, cls).Some? {
        var before := Lookup(spec, cls).value.members;
        var after := ArgOrder.StampClass(Lookup(spec, cls).value).members;
        assert Keys(after) == Keys(before);
        assert forall i :: 0 <= i < |before| ==> after[i].key == Keys(after)[i] == before[i].key;
        assert (set i | 0 <= i < |after| :: after[i].key) == (set i | 0 <= i < |before| :: before[i].key);
      }
    }
  }
}
