/**
 Two places where the handler as written departs from what it evidently
 means: the client's `result` parameter is shadowed by `var result = {}`,
 and the array test `typeof args !== 'Array'` can never fail. Each is shown
 on a concrete request and paired with the corrected behaviour.
 */
module Findings {
  import opened Wrappers
  import opened JsKeys
  import opened Capability
  import opened Command

  const SampleResponse: Value := Object(Some("response@1"), Some("Response"), 1)

  const SampleState: State :=
    State(Object(Some("browser@1"), Some("Browser"), 0), map[], map["response@1" := SampleResponse])

  const SampleCaps: Capabilities := Capabilities({"goto"}, {"status"}, {"newPage"}, {"newPage"})

  /** `?result=response@1&command=status`: ask a filed Response for its status. */
  const StatusRequest: Request := Request(Missing, Text("response@1"), Text("status"), Missing)

  /**
   As written, a Response filed under "response@1" cannot be reached by naming
   it: the request falls through to the error envelope.
   */
  lemma ClientResultShadowed(host: Host)
    ensures BranchOf(SampleCaps, SampleState, StatusRequest, ObjectTag) == Unmatched
    ensures Handle(SampleCaps, host, SampleState, StatusRequest).reply.Sent?
    ensures Handle(SampleCaps, host, SampleState, StatusRequest).reply.envelope.error
    ensures HandleIntended(SampleCaps, host, SampleState, StatusRequest)
         == Settle(SampleState, host.read(Remote(SampleResponse), "status"))
  {
  }

  /**
   Corrected: when the page branch does not apply, a truthy Response filed under
   the client's `result` and a Result member select the response branch, which
   reads that very Response's member, unless converting `page`, `command` or
   `result` to a key throws.
   */
  lemma IntendedResponseLookup(caps: Capabilities, host: Host, st: State, req: Request)
    requires !(SlotTruthy(Get(st.pages, ToKey(req.page))) && HasMember(caps.page, ToKey(req.command)))
    requires ToKey(req.result) in st.responses && IsTruthy(st.responses[ToKey(req.result)])
    requires HasMember(caps.result, ToKey(req.command))
    ensures BranchOf(caps, st, req, ToKey(req.result)) == OnResponse
    ensures HandleIntended(caps, host, st, req)
         == if Coercible(req.page) && Coercible(req.command) && Coercible(req.result)
            then Settle(st, host.read(Remote(st.responses[ToKey(req.result)]), ToKey(req.command)))
            else Step(st, Rejected)
  {
  }

  /**
   As written, `?args=a&args=b` reaches the engine as ONE argument, the array
   ["a", "b"], where the intended normalisation passes two.
   */
  lemma ArrayArgsWrapped()
    ensures NormaliseArgs(List([Text("a"), Text("b")])) == [List([Text("a"), Text("b")])]
    ensures NormaliseArgsIntended(List([Text("a"), Text("b")])) == [Text("a"), Text("b")]
  {
  }

  /** The two normalisations agree on every value that is not an array or falsy. */
  lemma NormalisationsAgreeOffArrays(raw: QueryValue)
    requires Truthy(raw) && !raw.List?
    ensures NormaliseArgs(raw) == NormaliseArgsIntended(raw)
  {
  }
}
