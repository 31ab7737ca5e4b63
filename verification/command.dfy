/**
 The `/command` request handler of the bridge: one request is one atomic step
 over two registries (`pages`, `responses`) that map an engine guid to the
 object the engine handed back, plus the launched browser. The handler reads
 the capability specification by member name only and calls into the browser
 engine, which the model leaves uninterpreted (the Host parameter).
 */
module Command {
  import opened Wrappers
  import opened JsKeys
  import opened Capability

  /** A value the engine (or any JavaScript object) hands back. */
  datatype Value =
    | Undefined
    | Null
    | Bool(b: bool)
    | Number(n: int)
    | Str(s: string)
    | Object(guid: Option<string>, kind: Option<string>, ref: nat)

  /** JavaScript truthiness of an engine value. */
  predicate IsTruthy(v: Value) {
    match v
    case Undefined => false
    case Null => false
    case Bool(b) => b
    case Number(n) => n != 0
    case Str(s) => s != ""
    case Object(_, _, _) => true
  }

  /** `res._guid` used as a property key: an object's guid, otherwise the key "undefined". */
  function GuidKey(v: Value): string {
    if v.Object? && v.guid.Some? then v.guid.value else "undefined"
  }

  /** `res._type === 'Response'`. */
  predicate IsResponse(v: Value) {
    v.Object? && v.kind == Some("Response")
  }

  /** What `reg[key]` yields when `reg` is a plain object literal used as a registry. */
  datatype Slot = Own(v: Value) | Inherited(name: string) | Absent

  function Get(reg: map<string, Value>, key: string): (s: Slot)
    ensures s.Own? <==> key in reg
    ensures s.Own? ==> s.v == reg[key]
    ensures s.Inherited? <==> key !in reg && key in InheritedKeys
    ensures s.Inherited? ==> s.name == key
  {
    if key in reg then Own(reg[key])
    else if key in InheritedKeys then Inherited(key)
    else Absent
  }

  /** Whether `reg[key]` is truthy. */
  predicate SlotTruthy(s: Slot) {
    match s
    case Own(v) => IsTruthy(v)
    case Inherited(_) => true
    case Absent => false
  }

  /** The object a member is looked up on. */
  datatype Receiver = Remote(obj: Value) | Builtin(name: string)

  function ReceiverOf(s: Slot): Receiver {
    match s
    case Own(v) => Remote(v)
    case Inherited(name) => Builtin(name)
    case Absent => Remote(Undefined)
  }

  /** How a call into the engine ended: a value, or a thrown error / rejected promise. */
  datatype Outcome = Returned(value: Value) | Threw

  /**
   Code the model cannot see: `receiver[name](...args)` awaited (`invoke`) and
   `receiver[name]` awaited without a call (`read`).
   */
  datatype Host = Host(
    invoke: (Receiver, string, seq<QueryValue>) -> Outcome,
    read: (Receiver, string) -> Outcome)

  /** The handler's mutable state: the launched browser (Undefined before a session) and the registries. */
  datatype State = State(browser: Value, pages: map<string, Value>, responses: map<string, Value>)

  /** The query parameters the handler reads. */
  datatype Request = Request(page: QueryValue, result: QueryValue, command: QueryValue, args: QueryValue)

  /** The JSON envelope `{ error, message }`. */
  datatype Message = Note(text: string) | Data(value: Value)
  datatype Envelope = Envelope(error: bool, message: Message)

  /** Either a JSON reply, or the async handler's promise rejects and nothing is written. */
  datatype Reply = Sent(envelope: Envelope) | Rejected

  datatype Step = Step(state: State, reply: Reply)

  /** The four branches, in the order the handler tries them. */
  datatype Branch = OnPage | OnResponse | OnBrowser | Unmatched

  function Rank(b: Branch): nat {
    match b
    case OnPage => 0
    case OnResponse => 1
    case OnBrowser => 2
    case Unmatched => 3
  }

  /** The condition under which each branch, taken on its own, applies. */
  predicate Eligible(caps: Capabilities, st: State, pageKey: string, responseKey: string, command: string, b: Branch) {
    match b
    case OnPage => SlotTruthy(Get(st.pages, pageKey)) && HasMember(caps.page, command)
    case OnResponse => SlotTruthy(Get(st.responses, responseKey)) && HasMember(caps.result, command)
    case OnBrowser => HasMember(caps.browser, command) || HasMember(caps.context, command)
    case Unmatched => true
  }

  /** The if / else-if chain: the first branch, in the fixed order, that applies. */
  function SelectBranch(caps: Capabilities, st: State, pageKey: string, responseKey: string, command: string): (b: Branch)
    ensures Eligible(caps, st, pageKey, responseKey, command, b)
    ensures forall e: Branch :: Rank(e) < Rank(b) ==> !Eligible(caps, st, pageKey, responseKey, command, e)
  {
    if SlotTruthy(Get(st.pages, pageKey)) && HasMember(caps.page, command) then OnPage
    else if SlotTruthy(Get(st.responses, responseKey)) && HasMember(caps.result, command) then OnResponse
    else if HasMember(caps.browser, command) || HasMember(caps.context, command) then OnBrowser
    else Unmatched
  }

  /**
   `args = payload.args || []; if (typeof args !== 'Array') args = [args];`
   `typeof` never yields 'Array', so the value is always wrapped, arrays included.
   */
  function NormaliseArgs(raw: QueryValue): (args: seq<QueryValue>)
    ensures |args| == 1
    ensures Truthy(raw) ==> args == [raw]
    ensures !Truthy(raw) ==> args == [List([])]
  {
    var value := if Truthy(raw) then raw else List([]);
    [value]
  }

  /** The same normalisation with the evident intent: an array is passed on as the argument list. */
  function NormaliseArgsIntended(raw: QueryValue): (args: seq<QueryValue>)
    ensures raw.List? ==> args == raw.items
    ensures !Truthy(raw) ==> args == []
    ensures Truthy(raw) && !raw.List? ==> args == [raw]
  {
    var value := if Truthy(raw) then raw else List([]);
    if value.List? then value.items else [value]
  }

  /** The error message of the fall-through branch. */
  function NoSuchCommand(command: string): string {
    "No such page, or " + command + " is not a globally recognized command for puppeteer"
  }

  /** An awaited call in the page or response branch: its value becomes the message, a throw rejects. */
  function Settle(st: State, outcome: Outcome): (r: Step)
    ensures r.state == st
    ensures outcome.Threw? <==> r.reply.Rejected?
    ensures outcome.Returned? ==> r.reply == Sent(Envelope(false, Data(outcome.value)))
  {
    match outcome
    case Threw => Step(st, Rejected)
    case Returned(v) => Step(st, Sent(Envelope(false, Data(v))))
  }

  /**
   Filing away a browser-branch result: `pages[res._guid] = res` after `newPage`
   (the loose `command == 'newPage'` agrees with comparing the coerced key), and
   `responses[res._guid] = res` for a Response.
   */
  function Register(st: State, command: string, res: Value): (r: State)
    ensures r.browser == st.browser
    ensures command == "newPage" ==> GuidKey(res) in r.pages && r.pages[GuidKey(res)] == res
    ensures command != "newPage" ==> r.pages == st.pages
    ensures IsResponse(res) ==> GuidKey(res) in r.responses && r.responses[GuidKey(res)] == res
    ensures !IsResponse(res) ==> r.responses == st.responses
    ensures forall k :: k != GuidKey(res) ==>
      (k in r.pages <==> k in st.pages) && (k in st.pages ==> r.pages[k] == st.pages[k])
    ensures forall k :: k != GuidKey(res) ==>
      (k in r.responses <==> k in st.responses) && (k in st.responses ==> r.responses[k] == st.responses[k])
  {
    var pages := if command == "newPage" then st.pages[GuidKey(res) := res] else st.pages;
    var responses := if IsResponse(res) then st.responses[GuidKey(res) := res] else st.responses;
    st.(pages := pages, responses := responses)
  }

  /**
   The browser branch: `browser[command](...args)` throws when no browser was
   launched; reading `_guid` or `_type` of an undefined or null result throws
   before anything is filed away.
   */
  function CallBrowser(host: Host, st: State, command: string, args: seq<QueryValue>): (r: Step)
    ensures r.reply.Rejected? ==> r.state == st
    ensures var out := host.invoke(Remote(st.browser), command, args);
      r.reply.Sent? <==>
        && !st.browser.Undefined? && !st.browser.Null?
        && out.Returned? && !out.value.Undefined? && !out.value.Null?
    ensures r.reply.Sent? ==>
      var res := host.invoke(Remote(st.browser), command, args).value;
      && r.reply == Sent(Envelope(false, Data(res)))
      && r.state == Register(st, command, res)
  {
    if st.browser.Undefined? || st.browser.Null? then Step(st, Rejected)
    else
      match host.invoke(Remote(st.browser), command, args)
      case Threw => Step(st, Rejected)
      case Returned(res) =>
        if res.Undefined? || res.Null? then Step(st, Rejected)
        else Step(Register(st, command, res), Sent(Envelope(false, Data(res))))
  }

  /** The branch a request takes when the response registry is consulted under `responseKey`. */
  function BranchOf(caps: Capabilities, st: State, req: Request, responseKey: string): Branch {
    SelectBranch(caps, st, ToKey(req.page), responseKey, ToKey(req.command))
  }

  /** Line 104's first operand: the page entry is truthy and the command is a Page member. */
  predicate PageApplies(caps: Capabilities, st: State, req: Request) {
    SlotTruthy(Get(st.pages, ToKey(req.page))) && HasMember(caps.page, ToKey(req.command))
  }

  /**
   Every property-key conversion the handler reaches succeeds: `page` at line
   104, `command` on every path (lines 104, 108 or 111), and the value
   `resultRef` consulted at line 108, which is reached only when the page
   branch does not apply.
   */
  predicate Coerces(caps: Capabilities, st: State, req: Request, resultRef: QueryValue) {
    && Coercible(req.page)
    && Coercible(req.command)
    && (PageApplies(caps, st, req) || Coercible(resultRef))
  }

  /**
   The handler body after its parameters are read: key conversion, branch
   selection, the call, registration and the envelope. `resultRef` is the
   value line 108 looks the response registry up with.
   */
  function Dispatch(caps: Capabilities, host: Host, st: State, req: Request, resultRef: QueryValue,
                    args: seq<QueryValue>): (r: Step)
    ensures !Coerces(caps, st, req, resultRef) ==> r == Step(st, Rejected)
    ensures r.reply.Rejected? ==> r.state == st
    ensures r.reply.Sent? ==> (r.reply.envelope.error <==> BranchOf(caps, st, req, ToKey(resultRef)) == Unmatched)
    ensures BranchOf(caps, st, req, ToKey(resultRef)) != OnBrowser ==> r.state == st
    ensures r.state.browser == st.browser
    ensures st.pages.Keys <= r.state.pages.Keys && st.responses.Keys <= r.state.responses.Keys
    ensures Coerces(caps, st, req, resultRef) && BranchOf(caps, st, req, ToKey(resultRef)) == OnPage ==>
      var out := host.invoke(ReceiverOf(Get(st.pages, ToKey(req.page))), ToKey(req.command), args);
      && (r.reply.Rejected? <==> out.Threw?)
      && (out.Returned? ==> r.reply == Sent(Envelope(false, Data(out.value))))
    ensures Coerces(caps, st, req, resultRef) && BranchOf(caps, st, req, ToKey(resultRef)) == OnResponse ==>
      var out := host.read(ReceiverOf(Get(st.responses, ToKey(resultRef))), ToKey(req.command));
      && (r.reply.Rejected? <==> out.Threw?)
      && (out.Returned? ==> r.reply == Sent(Envelope(false, Data(out.value))))
    ensures Coerces(caps, st, req, resultRef) && BranchOf(caps, st, req, ToKey(resultRef)) == OnBrowser ==>
      r == CallBrowser(host, st, ToKey(req.command), args)
    ensures Coerces(caps, st, req, resultRef) && BranchOf(caps, st, req, ToKey(resultRef)) == Unmatched ==>
      r == Step(st, Sent(Envelope(true, Note(NoSuchCommand(ToKey(req.command))))))
  {
    if !Coerces(caps, st, req, resultRef) then Step(st, Rejected)
    else
      var command := ToKey(req.command);
      var pageKey := ToKey(req.page);
      var responseKey := ToKey(resultRef);
      match SelectBranch(caps, st, pageKey, responseKey, command)
      case OnPage => Settle(st, host.invoke(ReceiverOf(Get(st.pages, pageKey)), command, args))
      case OnResponse => Settle(st, host.read(ReceiverOf(Get(st.responses, responseKey)), command))
      case OnBrowser => CallBrowser(host, st, command, args)
      case Unmatched => Step(st, Sent(Envelope(true, Note(NoSuchCommand(command)))))
  }

  /** The handler as written: `result` is re-declared as `{}`, so responses are looked up under "[object Object]". */
  function Handle(caps: Capabilities, host: Host, st: State, req: Request): (r: Step)
    ensures !(Coercible(req.page) && Coercible(req.command)) ==> r == Step(st, Rejected)
    ensures r.reply.Rejected? ==> r.state == st
    ensures r.reply.Sent? ==> (r.reply.envelope.error <==> BranchOf(caps, st, req, ObjectTag) == Unmatched)
    ensures BranchOf(caps, st, req, ObjectTag) != OnBrowser ==> r.state == st
    ensures r.state.browser == st.browser
    ensures st.pages.Keys <= r.state.pages.Keys && st.responses.Keys <= r.state.responses.Keys
  {
    Dispatch(caps, host, st, req, EmptyObject, NormaliseArgs(req.args))
  }

  /** The handler as evidently intended: the client's `result` selects the response, arrays are spread. */
  function HandleIntended(caps: Capabilities, host: Host, st: State, req: Request): (r: Step)
    ensures !Coerces(caps, st, req, req.result) ==> r == Step(st, Rejected)
    ensures r.reply.Rejected? ==> r.state == st
    ensures r.reply.Sent? ==> (r.reply.envelope.error <==> BranchOf(caps, st, req, ToKey(req.result)) == Unmatched)
    ensures BranchOf(caps, st, req, ToKey(req.result)) != OnBrowser ==> r.state == st
    ensures r.state.browser == st.browser
    ensures st.pages.Keys <= r.state.pages.Keys && st.responses.Keys <= r.state.responses.Keys
  {
    Dispatch(caps, host, st, req, req.result, NormaliseArgsIntended(req.args))
  }
}
