/**
 Properties of the `/command` handler: which branch a request takes, what
 the reply is, and how the registries change, one request at a time and over
 a sequence of requests served one after another.
 */
module CommandProperties {
  import opened Wrappers
  import opened JsKeys
  import opened Capability
  import opened Command

  /**
   A truthy page entry and a Page member select the page branch, whatever else
   the command is a member of; the call goes to that page and nothing is filed,
   unless converting `page` or `command` to a key throws.
   */
  lemma PageBranchWins(caps: Capabilities, host: Host, st: State, req: Request)
    requires SlotTruthy(Get(st.pages, ToKey(req.page)))
    requires HasMember(caps.page, ToKey(req.command))
    ensures BranchOf(caps, st, req, ObjectTag) == OnPage
    ensures Handle(caps, host, st, req)
         == if Coercible(req.page) && Coercible(req.command)
            then Settle(st, host.invoke(ReceiverOf(Get(st.pages, ToKey(req.page))), ToKey(req.command),
                                        NormaliseArgs(req.args)))
            else Step(st, Rejected)
    ensures ToKey(req.page) in st.pages ==>
      ReceiverOf(Get(st.pages, ToKey(req.page))) == Remote(st.pages[ToKey(req.page)])
  {
  }

  /**
   The handler as written takes the response branch exactly when the page
   branch does not apply, the registry holds a truthy entry under the fixed
   key "[object Object]", and the command is a Result member; the member is
   then read, not called, unless converting `page` or `command` throws.
   */
  lemma ResponseBranchUsesFixedKey(caps: Capabilities, host: Host, st: State, req: Request)
    ensures BranchOf(caps, st, req, ObjectTag) == OnResponse <==>
      && !(SlotTruthy(Get(st.pages, ToKey(req.page))) && HasMember(caps.page, ToKey(req.command)))
      && ObjectTag in st.responses && IsTruthy(st.responses[ObjectTag])
      && HasMember(caps.result, ToKey(req.command))
    ensures BranchOf(caps, st, req, ObjectTag) == OnResponse ==>
      Handle(caps, host, st, req)
      == if Coercible(req.page) && Coercible(req.command)
         then Settle(st, host.read(Remote(st.responses[ObjectTag]), ToKey(req.command)))
         else Step(st, Rejected)
  {
  }

  /** The client's `result` parameter has no influence on the handler as written. */
  lemma ClientResultIgnored(caps: Capabilities, host: Host, st: State, req: Request, other: QueryValue)
    ensures Handle(caps, host, st, req.(result := other)) == Handle(caps, host, st, req)
  {
  }

  /**
   In the browser branch a returned value is the message, is filed under its
   guid in `pages` after `newPage` and in `responses` when it is a Response,
   and no other registry entry changes; if converting `page` or `command`
   throws, the request is rejected and nothing changes.
   */
  lemma BrowserBranchFilesResult(caps: Capabilities, host: Host, st: State, req: Request, res: Value)
    requires BranchOf(caps, st, req, ObjectTag) == OnBrowser
    requires !st.browser.Undefined? && !st.browser.Null?
    requires host.invoke(Remote(st.browser), ToKey(req.command), NormaliseArgs(req.args)) == Returned(res)
    requires !res.Undefined? && !res.Null?
    ensures !(Coercible(req.page) && Coercible(req.command)) ==> Handle(caps, host, st, req) == Step(st, Rejected)
    ensures Coercible(req.page) && Coercible(req.command) ==>
      Handle(caps, host, st, req).reply == Sent(Envelope(false, Data(res)))
    ensures Coercible(req.page) && Coercible(req.command) ==>
      var after := Handle(caps, host, st, req).state;
      && (ToKey(req.command) == "newPage" ==> after.pages == st.pages[GuidKey(res) := res])
      && (ToKey(req.command) != "newPage" ==> after.pages == st.pages)
      && (IsResponse(res) ==> after.responses == st.responses[GuidKey(res) := res])
      && (!IsResponse(res) ==> after.responses == st.responses)
  {
  }

  /**
   With no branch applicable the reply is the error envelope naming the
   command, and neither registry changes; a key conversion that throws
   rejects the request instead.
   */
  lemma UnmatchedReply(caps: Capabilities, host: Host, st: State, req: Request)
    requires BranchOf(caps, st, req, ObjectTag) == Unmatched
    ensures Handle(caps, host, st, req)
         == if Coercible(req.page) && Coercible(req.command)
            then Step(st, Sent(Envelope(true, Note(
              "No such page, or " + ToKey(req.command) + " is not a globally recognized command for puppeteer"))))
            else Step(st, Rejected)
  {
  }

  /**
   `?command[toString]=x` parses to an object whose own `toString` is a
   string; converting it to a key throws, so the request is rejected, whatever
   the registries hold.
   */
  lemma OwnToStringRejects(caps: Capabilities, host: Host, st: State, req: Request)
    requires req.command == Dict([("toString", Text("x"))])
    ensures !Coercible(req.command)
    ensures Handle(caps, host, st, req) == Step(st, Rejected)
    ensures HandleIntended(caps, host, st, req) == Step(st, Rejected)
  {
  }

  /** Every entry of `responses` is a Response object filed under its own guid. */
  ghost predicate ResponsesKeyedByGuid(st: State) {
    forall k :: k in st.responses ==> IsResponse(st.responses[k]) && GuidKey(st.responses[k]) == k
  }

  lemma DispatchKeepsResponsesKeyedByGuid(caps: Capabilities, host: Host, st: State, req: Request,
                                          resultRef: QueryValue, args: seq<QueryValue>)
    requires ResponsesKeyedByGuid(st)
    ensures ResponsesKeyedByGuid(Dispatch(caps, host, st, req, resultRef, args).state)
  {
  }

  /**
   Given that invariant, the handler as written reaches the response branch
   only if some Response's guid is literally "[object Object]".
   */
  lemma ResponseBranchNeedsTagGuid(caps: Capabilities, st: State, req: Request)
    requires ResponsesKeyedByGuid(st)
    requires BranchOf(caps, st, req, ObjectTag) == OnResponse
    ensures exists k :: k in st.responses && st.responses[k].Object? && st.responses[k].guid == Some(ObjectTag)
  {
  }

  /**
   Requests served one after another, each as one atomic step; request i is
   answered by the engine as it stands then, `hosts[i]`. No request removes a
   registry key and the browser is never replaced.
   */
  function Run(caps: Capabilities, hosts: seq<Host>, st: State, reqs: seq<Request>): (r: State)
    requires |hosts| == |reqs|
    ensures st.pages.Keys <= r.pages.Keys && st.responses.Keys <= r.responses.Keys
    ensures r.browser == st.browser
    decreases |reqs|
  {
    if |reqs| == 0 then st
    else Run(caps, hosts[1..], Handle(caps, hosts[0], st, reqs[0]).state, reqs[1..])
  }

  lemma {:induction false} RunKeepsResponsesKeyedByGuid(caps: Capabilities, hosts: seq<Host>, st: State,
                                                        reqs: seq<Request>)
    requires |hosts| == |reqs|
    requires ResponsesKeyedByGuid(st)
    ensures ResponsesKeyedByGuid(Run(caps, hosts, st, reqs))
    decreases |reqs|
  {
    if |reqs| > 0 {
      var next := Handle(caps, hosts[0], st, reqs[0]).state;
      DispatchKeepsResponsesKeyedByGuid(caps, hosts[0], st, reqs[0], EmptyObject, NormaliseArgs(reqs[0].args));
      RunKeepsResponsesKeyedByGuid(caps, hosts[1..], next, reqs[1..]);
    }
  }

  /**
   Starting from empty registries, the handler as written never takes the
   response branch unless a Response with guid "[object Object]" was filed.
   */
  lemma {:induction false} FreshSessionResponseBranch(caps: Capabilities, hosts: seq<Host>, browser: Value,
                                                      pages: map<string, Value>, reqs: seq<Request>, req: Request)
    requires |hosts| == |reqs|
    requires var st := Run(caps, hosts, State(browser, pages, map[]), reqs);
      BranchOf(caps, st, req, ObjectTag) == OnResponse
    ensures var st := Run(caps, hosts, State(browser, pages, map[]), reqs);
      exists k :: k in st.responses && st.responses[k].Object? && st.responses[k].guid == Some(ObjectTag)
  {
    var st := Run(caps, hosts, State(browser, pages, map[]), reqs);
    RunKeepsResponsesKeyedByGuid(caps, hosts, State(browser, pages, map[]), reqs);
    ResponseBranchNeedsTagGuid(caps, st, req);
  }
}
