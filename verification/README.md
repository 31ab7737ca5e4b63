# playwright-perl bridge: argument ordering and command routing

This project models two pieces of deterministic logic of the playwright-perl
bridge, a small Node.js server that lets a Perl client drive a Playwright
browser over HTTP.

1. **The argument-order pass** (`arg_order.js`). It walks the capability
   specification `api.json`: class → `members` → method → `args` → argument.
   It stamps every argument object with an `order` property, numbered
   0, 1, 2, … in key-enumeration order, and the count restarts for every
   method. JavaScript objects are modelled as ordered sequences of
   key/value entries (`OrderedMap.OMap`). The assignment `obj.k = v` is
   `OrderedMap.Put`: an existing key keeps its place and gets the new value;
   a new key is appended. The pass is a pure function (`ArgOrder.Normalise`).
   The loop as written is the method `ArgOrder.NormaliseLoop`, which is proved
   equal to it.

2. **The `/command` handler** (`bin/playwright.js`). The state is the launched
   browser and two registries, `pages` and `responses`, each mapping an
   engine guid to an engine object. The capability specification is read by
   member name only (`Capability.Capabilities`). A request carries the query
   parameters `page`, `result`, `command` and `args`. The handler:
   - normalises the args;
   - picks the first applicable branch of four (page, response, browser,
     none);
   - calls into the engine;
   - files browser-branch results away;
   - answers with the `{ error, message }` envelope.

   The engine is a parameter, `Command.Host`, made of two uninterpreted total
   functions. One models an awaited call `receiver[name](...args)`; the other
   models an awaited read `receiver[name]`. Each returns a value or a throw.

   The model keeps the JavaScript coercions the code depends on:
   - Query values become property keys as JavaScript converts them
     (`JsKeys.ToKey`): `undefined` becomes "undefined", an array is joined
     with commas, and an object becomes "[object Object]".
   - The query parser lets a client set an object's own `toString`
     (`command[toString]=x`). That entry is a string, not a function, so
     converting the object to a key throws a TypeError. `JsKeys.Coercible`
     says when the conversion succeeds; an array converts each element.
   - Looking up a name every object inherits (`toString`, `constructor`, …)
     is truthy (`JsKeys.InheritedKeys`).
   - `typeof args !== 'Array'` is always true, so args are always wrapped in
     a one-element list.
   - `result` is re-declared as `{}` at line 99. The response registry is
     therefore consulted under the fixed key "[object Object]", not under the
     client's value.
   - The response branch reads the member without calling it.

   The handler catches no exception. An exception inside the async handler
   rejects its promise, and no reply is written (`Command.Reply.Rejected`).
   This covers:
   - converting `page`, `command` or the looked-up `result` to a key when
     that throws (lines 104, 108, 111; `result` only when the page branch
     does not apply);
   - a throwing engine call;
   - `browser[command]` with no launched browser;
   - `res._guid` / `res._type` on an undefined or null result.

   Both registries are then unchanged.

   `Command.Handle` is the handler as written. `Command.HandleIntended` is the
   same body with the two defects below corrected. Both are built on
   `Command.Dispatch`, which takes the value used as the response key and the normalised
   arguments as parameters. The properties about the handler's behaviour are
   stated for `Handle`, the code that runs.

## Model

| member | source | states |
|---|---|---|
| ArgOrder.SetOrder | arg_order.js:15 | after `arg.order = n` the argument's `order` reads n, every other property reads as before, and the key sequence is unchanged or gains `order` at its end |
| OrderedMap.Put | arg_order.js:15 | `obj[k] = v`: afterwards `k` reads v and every other key reads as before; an existing key keeps its place, a new one is appended; distinct keys stay distinct |
| ArgOrder.StampArgs | arg_order.js:13-16 | one method's pass keeps the argument keys in order, numbers the argument at position i with i, and leaves every other property of each argument as it was |
| ArgOrder.Normalise | arg_order.js:11-18 | the pass over the whole specification changes nothing but `order` properties, and afterwards every method's arguments are numbered by position |
| ArgOrder.NormaliseLoop | arg_order.js:11-18 | the three nested loops, with the counter reset before each method, compute exactly the pure pass `Normalise` |
| ArgOrder.EveryArgNumbered | arg_order.js:11-16 | after the pass every argument of every method of every class has an `order`, equal to its position in that method's own key sequence, so numbering restarts at 0 for each method |
| ArgOrder.NumberedOrdersAreARange | arg_order.js:13-15 | within a method the orders are pairwise distinct, each is below the argument count n, and together they are exactly 0 .. n-1 |
| ArgOrder.ShapeUnchanged | arg_order.js:11-15 | class names, method names, argument names, and every property other than `order` at every level, are the same after the pass |
| ArgOrder.NormaliseIdempotent | arg_order.js:13-15 | running the pass on its own output changes nothing |
| ArgOrder.NormalisePreservesWellFormed | arg_order.js:11-15 | an input with distinct keys at every level yields an output with distinct keys at every level |
| Capability.CapabilitiesOf | bin/playwright.js:104-111 | the handler's view exists exactly when the Page, Result, Browser and BrowserContext classes exist, and each member set is that class's member-key set |
| Capability.NormalisePreservesCapabilities | arg_order.js:11-18 | the argument-order pass leaves the set of commands the handler recognises unchanged |
| JsKeys.ToKey | bin/playwright.js:104-124 | the property key (and concatenated string) a convertible query value stands for: a string is itself, a missing value is "undefined", a one-string array is that string, any object is "[object Object]" |
| JsKeys.JoinIsFrontJoin | bin/playwright.js:104-124 | an array's key is its elements' keys joined with commas in order, an undefined element giving the empty string: the first element's piece, a comma, then the key of the rest |
| Command.Get | bin/playwright.js:104-108 | `registry[key]` on a plain-object registry is the filed value exactly when the key is filed, the inherited built-in of that very name exactly when it is not filed but inherited, and nothing otherwise |
| Command.Settle | bin/playwright.js:106-110 | an awaited page or response call leaves the state unchanged; a throw rejects the request, and a returned value becomes the message of an `error: false` reply |
| Command.NormaliseArgs | bin/playwright.js:97-102 | args always become a one-element list: the raw value when it is truthy, and `[]` when it is missing or the empty string, so a missing `args` becomes `[[]]` |
| Command.SelectBranch | bin/playwright.js:104-125 | the branch taken applies, and no branch earlier in the fixed order page, response, browser, none applies |
| Command.Register | bin/playwright.js:114-120 | after `newPage` the result is filed in `pages` under its guid; a Response result is filed in `responses` under its guid; no other entry of either registry changes |
| Command.CallBrowser | bin/playwright.js:111-122 | a reply is sent exactly when a browser exists and the engine returned a value that is neither undefined nor null; the message is that value and the state is the registered one; a rejected call leaves the state unchanged |
| Command.Dispatch | bin/playwright.js:104-127 | a request whose `page`, `command`, or (when the page branch does not apply) response key cannot be converted to a key is rejected with the state unchanged; otherwise, per branch: the page and response branches reject exactly when the engine call throws and otherwise reply `error: false` with the returned value, the browser branch is CallBrowser, and when no branch applies the reply is the "No such page, or <command> …" error with the state unchanged; a rejected request leaves the state unchanged, only the browser branch changes it, and no registry key is removed |
| Command.Handle | bin/playwright.js:91-128 | the handler as written, with responses consulted under "[object Object]": a `page` or `command` that cannot be converted to a key rejects the request; a rejected request leaves the state unchanged, a reply is an error exactly when no branch applies, only the browser branch changes the state, and registries only grow |
| Command.HandleIntended | bin/playwright.js:91-128 | the corrected handler, with responses consulted under the client's `result`: a `page`, `command`, or (when the page branch does not apply) `result` that cannot be converted rejects the request; otherwise the same guarantees as Handle |
| Command.NormaliseArgsIntended | bin/playwright.js:97-102 | corrected normalisation: an array is passed on as the argument list, a falsy value as no arguments, anything else as one argument |
| CommandProperties.PageBranchWins | bin/playwright.js:104-107 | a truthy page entry plus a Page member selects the page branch, even when the command is also a Browser or BrowserContext member; the call goes to that page and the state is unchanged; a `page` or `command` that cannot be converted rejects instead |
| CommandProperties.ResponseBranchUsesFixedKey | bin/playwright.js:99-110 | the response branch is taken exactly when the page branch does not apply, "[object Object]" holds a truthy Response and the command is a Result member; the member is then read, not called, and the state is unchanged, unless a key conversion throws |
| CommandProperties.ClientResultIgnored | bin/playwright.js:95-99 | the handler's step is the same whatever the client passes as `result` |
| CommandProperties.BrowserBranchFilesResult | bin/playwright.js:111-122 | in the browser branch a returned value is the message (`error: false`); `pages` gains it under its guid after `newPage`, `responses` gains it when it is a Response, and otherwise neither changes; a `page` or `command` that cannot be converted rejects with the state unchanged |
| CommandProperties.UnmatchedReply | bin/playwright.js:123-124 | with no branch applicable the reply is `error: true` with "No such page, or <command> is not a globally recognized command for puppeteer", and the state is unchanged; a key conversion that throws rejects instead |
| CommandProperties.OwnToStringRejects | bin/playwright.js:104-111 | `command[toString]=x` cannot be converted to a key, so both the written and the corrected handler reject the request and change nothing |
| CommandProperties.DispatchKeepsResponsesKeyedByGuid | bin/playwright.js:118-120 | every entry of `responses` stays a Response object filed under its own guid |
| CommandProperties.ResponseBranchNeedsTagGuid | bin/playwright.js:108-120 | under that invariant the response branch is reachable only if some Response's guid is literally "[object Object]" |
| CommandProperties.Run | bin/playwright.js:91-128 | over any sequence of requests served one at a time, each answered by the engine as it stands at that request, no registry key is removed and the browser is never replaced |
| CommandProperties.RunKeepsResponsesKeyedByGuid | bin/playwright.js:91-128 | over any sequence of requests, each answered by its own engine state, the `responses` invariant holds throughout |
| CommandProperties.FreshSessionResponseBranch | bin/playwright.js:63-120 | starting from an empty `responses`, and whatever the engine answers at each request, the response branch is taken only after a Response with guid "[object Object]" was filed |
| Findings.ClientResultShadowed | bin/playwright.js:95-110 | a Response filed under "response@1" and the request `result=response@1&command=status` get the error envelope as written, but the response branch when corrected |
| Findings.IntendedResponseLookup | bin/playwright.js:95-110 | corrected handler: a truthy Response under the client's `result` plus a Result member selects the response branch and reads that Response's member; a `page`, `command` or `result` that cannot be converted rejects instead |
| Findings.ArrayArgsWrapped | bin/playwright.js:100-102 | `args=a&args=b` reaches the engine as one array argument as written, and as two arguments when corrected |
| Findings.NormalisationsAgreeOffArrays | bin/playwright.js:100-102 | for every truthy value that is not an array, the corrected normalisation gives the same result as the written one |

## Findings

| source | as written | input that shows it | evidently intended | confidence | as-written member | corrected member |
|---|---|---|---|---|---|---|
| bin/playwright.js:95-110 | `var result = {}` (line 99) re-declares the client's `result`, so line 108 looks up `responses["[object Object]"]` | a Response filed under "response@1"; request `result=response@1&command=status` with `status` a Result member | look the Response up under the client's `result` | high; not executed | Findings.ClientResultShadowed | Findings.IntendedResponseLookup |
| bin/playwright.js:100-102 | `typeof` never returns 'Array', so arrays are wrapped as well | request `args=a&args=b` | pass an array on as the argument list and wrap anything else | medium; not executed | Findings.ArrayArgsWrapped | Command.NormaliseArgsIntended |

The behaviour properties are stated for `Command.Handle`, the handler as
written. `Command.HandleIntended` applies both corrections and shares
`Command.Dispatch` with it.

## Left out

- JsKeys.ToKey: gives the key only for values `JsKeys.Coercible` accepts; for the rest JavaScript throws, and `Command.Dispatch` rejects the request before any key is used. Query values are strings, arrays and plain objects, as the query parser yields them, so an object's own `toString` entry is never callable.
- Express routing, `app.listen`, query-string parsing and JSON reply writing (bin/playwright.js:58-66, 140-144). These are transport I/O. The query arrives already parsed as `JsKeys.QueryValue`. The reply is the envelope value, not its JSON text.
- yargs command-line parsing (bin/playwright.js:17-56).
- Reading and writing `api.json` and `JSON.parse` / `JSON.stringify` (arg_order.js:8-9, 20; bin/playwright.js:13-14). The parsed specification is an input.
- The engine's `Object.keys` order (integer-like keys first). Each object's key sequence is taken as given.
- JSON numbers are integers (`ApiSpec.Json.JNumber`). Floating point, and the truthiness of NaN, are not modelled.
- A specification whose class lacks `members`, whose method lacks `args`, or whose argument is not an object makes arg_order.js throw. The typed shape (`ApiSpec.Class`, `ApiSpec.Method`, `ApiSpec.Arg`) rules these inputs out.
- The handler is given all four member sets, so the model demands that the Page, Result, Browser and BrowserContext classes all exist (`Capability.CapabilitiesOf` yields nothing otherwise). The code reads `spec.X.members` only when the preceding `&&` / `||` operand lets evaluation get that far (bin/playwright.js:104, 108, 111). A specification without `Result`, for instance, does not throw while `responses["[object Object]"]` is falsy. Requests against such a specification are not modelled.
- The `/session` and `/shutdown` handlers (bin/playwright.js:68-89, 130-136). They launch or close the real browser and call `process.exit`. The browser, and any `pages.default` entry, are part of the given starting state.
- The behaviour of the objects called: `pages[page][command](...)`, `responses[result][command]` and `browser[command](...)`. These are uninterpreted functions of `Command.Host`. This includes what calling an inherited built-in such as `toString` does.
- The process surviving a rejected request: `CommandProperties.Run` serves the next request with the unchanged state. Nothing catches the async route's rejection (bin/playwright.js:91). On Express 4 with Node.js 15 or later, the unhandled rejection ends the process; on Express 4 with older Node.js, or with `--unhandled-rejections=warn`, it is only reported; on Express 5 the route answers with status 500. The model matches the last two cases.
- Concurrency: the `async` / `await` interleaving and the race noted at bin/playwright.js:65. Each request is one atomic step (`CommandProperties.Run`).
- An assignment `pages["__proto__"] = res` would replace the registry's prototype in JavaScript. A guid equal to `__proto__` is modelled as an ordinary key.
