# Request dispatcher of portainer-stack-webhook

This project models the `fetch` callback that `startServer` hands to the HTTP
host (src/utils/server.ts). For each request the callback does four things in
order:

1. It rejects a request whose `X-API-Key` header is missing or empty.
2. It scans the registered routes in order for the first one whose regex
   matches the path and whose method is the request's method.
3. It creates the Portainer API client and calls that route's handler with
   the regex's capture groups. A handler that returns nothing yields an empty
   response.
4. When no route qualifies, it throws a 404 `ApiError` whose detail lists
   every route as `METHOD pattern`.

A `catch` around all four turns `ApiError` and `FetchError` into their
responses and rethrows anything else.

Files:

- `wrappers.dfy`: module `Wrappers`, the `Option` type. It stands for
  `null`/`undefined`, and its `GetOr` is JavaScript's `??`.
- `jstext.dfy`: module `JsText`, the two JavaScript built-ins the dispatcher
  uses. `Slice` is `slice(start, end)` with relative, clamped indices.
  `RemoveAll` is `replaceAll(c, "")` for a one-character pattern `c`.
- `server.dfy`: module `Server`, with the request, route, error and result
  types. It holds the reference definition `Serve`, the imperative `Fetch`
  method, the 404 listing, the catch, and the lemmas about them.

The regex engine (`regex.exec`), the client factory (`createPortainerApi`)
and the handlers are total functions carried by the route list and the `App`
record. Whatever they do is allowed, so every result holds for all of them.
A thrown value is an `Error`: `ApiError`, `FetchError`, or `OtherError` for
any other class. Each step that can throw yields an `Attempt`. `Fetch` returns a
real out-parameter `trace` that records, in order, every call it makes to
`exec`, to the factory and to a handler. This is how the model states which
of them were consulted. `Fetch`'s loop keeps two invariants: the trace is the
`exec` calls made so far, and no earlier route qualified. It is proved equal,
result and trace, to the reference definition `Serve`. `Serve` is a function
without a loop. It finds the route with the recursive `FirstQualifyingFrom`
and builds the `exec` calls with the recursive `Probes`. The properties are
lemmas about `Serve`.

The listing deletes every backslash from the pattern text, not only those
that escape `/`. `/^\/stacks\/(\d+)$/` is therefore
listed as `/stacks/(d+)`, as `StripExample` shows. `slice(2, -2)` also
assumes the text has the form `/^…$/` with no flags, and a text shorter than
four characters lists as the empty pattern.

## Model

| member | source | states |
|---|---|---|
| `Server.Fetch` | src/utils/server.ts:14-51 | The whole callback. Its result is the catch applied to `Serve`'s outcome, and the calls it makes are exactly `Serve`'s trace. The loop keeps "no earlier route qualified" and "the trace is `exec` of routes 0..i-1". |
| `Server.Serve` | src/utils/server.ts:15-42 | The reference definition of the `try` block. Without a key nothing is called. A normal (non-thrown) outcome needs a key and a qualifying route. The trace has at most `|routes| + 2` events. Each `exec` event sits at its route's position (the one at position k is route k's), so the `exec` events come in increasing route order. A handler call, if any, is the last event. The exact trace of each branch is given by `MissingKeyRejected`, `NoMatchIsNotFound`, `FactoryThrowSkipsHandler`, `HandlerCalledOnDispatch` and `DispatchIsFirstMatch`. |
| `Server.HasKey` | src/utils/server.ts:18 | The `!apiKey` test: `null` and the empty string fail, and any non-empty string passes. |
| `Server.Qualifies` | src/utils/server.ts:20-21 | A route qualifies iff its regex matches the path and its method equals the request's. A match with another method does not qualify, and neither does the method alone. |
| `Server.Captures` | src/utils/server.ts:26 | `matches.slice(1)`. The whole match followed by the arguments gives back the match array, and an empty array gives no arguments. |
| `Server.Strip` | src/utils/server.ts:33-36 | The listed pattern holds no backslash and is at most the text's length minus four (empty below four characters). |
| `Server.Render` | src/utils/server.ts:33 | A listing line is the route's method, one space, then the listed pattern. Each part can be read back from it. |
| `Server.NotFoundMessage` | src/utils/server.ts:40 | The message is a quote, the method, a space, the path, then `" did not match any endpoints`, each at its position. |
| `Server.NotFoundError` | src/utils/server.ts:38-42 | The no-match error is an `ApiError` with status 404, a handled kind, whose `routes` detail has one line per route. |
| `Server.Settle` | src/utils/server.ts:43-49 | A normal outcome is the response. A thrown outcome becomes a response iff it is a handled kind, and that response is the error's own `toResponse()`. A rethrow is always the thrown error itself, of an unhandled kind. |
| `Wrappers.Option.GetOr` | src/utils/server.ts:27 | `??`: a present value is kept and an absent one is replaced by the default. |
| `Server.MissingKeyRejected` | src/utils/server.ts:17-18 | A missing or empty key throws the required-API-key error. No route's `exec`, no factory and no handler is called (the trace is empty). The final result is the catch applied to that error. |
| `Server.FirstQualifyingFrom` | src/utils/server.ts:19-21 | The chosen index is the least one at or after the start whose pattern matches and whose method is equal. None is chosen iff no route from there qualifies. |
| `Server.FirstQualifyingIs` | src/utils/server.ts:19-21 | A qualifying route with no qualifying route before it is the one the search chooses. |
| `Server.DispatchIsFirstMatch` | src/utils/server.ts:19-26 | A handler call means a key was present. It goes to the least qualifying index, and every earlier route fails on path or method. Its arguments are the capture groups of that route's match. The trace is `exec` of routes 0..i, then one client creation, then that call. |
| `Server.WrongMethodIsSkipped` | src/utils/server.ts:19-21 | A route whose pattern matches but whose method differs is never dispatched. If a route qualifies, one is dispatched (the client is created) instead of the 404, at an index no greater than that route's. When nothing before it qualifies, the scan calls its `exec` and continues past it. |
| `Server.CapturesAreGroups` | src/utils/server.ts:26 | The handler's arguments are the match array without its first element (the whole match), in the original order. |
| `Server.ClientCreatedOnceIffDispatched` | src/utils/server.ts:22-25 | The client factory is called exactly once, with the request's key, when a key is present and some route qualifies. Otherwise it is never called. |
| `Server.FactoryThrowSkipsHandler` | src/utils/server.ts:22-25 | When the client factory throws, the trace ends with the client creation and no handler is called. The factory's error goes to the catch. |
| `Server.HandlerCalledOnDispatch` | src/utils/server.ts:22-27 | With a key, a qualifying route and a client that was created, that route's handler is called, as the last event, with the capture groups of its match. The trace is `exec` of routes 0..i, the client creation, then that call, and the outcome is the handler's result with `?? new Response()` applied. |
| `Server.HandlerResultPassedThrough` | src/utils/server.ts:26-27 | After a dispatch, a handler returning nothing gives the empty response and a returned response is passed through unchanged. A thrown error goes to the catch. |
| `Server.OrEmpty` | src/utils/server.ts:27 | `response ?? new Response()`. A present response is kept, an absent one becomes the empty response, and a thrown error stays thrown. |
| `Server.NoMatchIsNotFound` | src/utils/server.ts:31-42 | With a key and no qualifying route, every route's `exec` is called and no client is created. The outcome is `ApiError(404, "\"METHOD path\" did not match any endpoints", routes)` |
| `Server.NoMatchResponds` | src/utils/server.ts:38-46 | With a key and no qualifying route, the request is answered with the 404 error's own `toResponse()`. |
| `Server.Listing` | src/utils/server.ts:31-37 | The `routes` detail has one line per route, in registration order. Line k is route k's method, a space, and its stripped pattern text. |
| `Server.ListingHasNoBackslash` | src/utils/server.ts:31-37 | If no route method contains a backslash, no line of the listing does. |
| `Server.StripShape` | src/utils/server.ts:33-36 | The stripped pattern text has no backslash. It is the text without its first two and last two characters and with every backslash deleted, or empty when the text is shorter than four characters. |
| `Server.StripExample` | src/utils/server.ts:33-36 | `/^\/stacks\/(\d+)$/` is listed as `/stacks/(d+)`: the escape of `\d` is deleted as well. |
| `Server.Catch` | src/utils/server.ts:43-49 | An error becomes a response iff it is an `ApiError` or a `FetchError` (the `instanceof` test, predicate `Handled`), and that response is the error's own. Any other error is rethrown unchanged. |
| `Server.OnlyHandledKindsRespond` | src/utils/server.ts:43-49 | After any request, a thrown outcome becomes a response exactly when its kind is handled, and an unhandled error propagates unchanged. |
| `JsText.RelativeIndex` | src/utils/server.ts:35 | A relative index lies in `0..len`. A non-negative one within bounds is kept, and one past the end gives `len`. A negative one counts back from the end, and gives 0 when it reaches before the start. |
| `JsText.Slice` | src/utils/server.ts:26 | `slice` returns the contiguous run of the input from the clamped start index to the clamped end index. It is empty when the end is not after the start. |
| `JsText.SliceFromOne` | src/utils/server.ts:26 | `slice(1)` is everything but the first element, and empty for an empty array. |
| `JsText.SliceInner` | src/utils/server.ts:35 | `slice(2, -2)` drops two elements at each end, and gives the empty sequence below four elements. |
| `JsText.RemoveAll` | src/utils/server.ts:36 | `replaceAll(c, "")` leaves no `c`, never lengthens the text, and keeps the count of every other character. |
| `JsText.RemoveAllAppend` | src/utils/server.ts:36 | Deletion distributes over concatenation, so the kept characters stay in their order. |
| `JsText.RemoveAllAbsent` | src/utils/server.ts:36 | Text without `c` is unchanged. |
| `JsText.RemoveAllIdempotent` | src/utils/server.ts:36 | Deleting twice is the same as deleting once. |

## Left out

- `Bun.serve`, the port, `idleTimeout: 255` and the `Request`/`Response` objects are host plumbing (src/utils/server.ts:11-14). A request is its method, its path and its optional key. A response is a status and a body.
- `new URL(request.url, "http://localhost")` and the header lookup are library calls. The path and the key are given as inputs.
- The JavaScript regex engine is left out. `regex.exec` is an arbitrary function from the path to an optional match array, and `regex.toString()` is a given string.
- `async`/`await` and concurrency between requests are left out. `Fetch` handles one request, and no state is shared.
- `RequiredApiKeyError`, `ApiError.toResponse`, `FetchError.toResponse`, `Ctx` and `Route` are defined in src/utils/errors.ts, src/utils/context.ts and src/utils/routes.ts, which are not part of this model. The value `RequiredApiKeyError()` throws and the `toResponse` of each error are parameters of `App`. The client is represented only by the key it was created for. `toResponse` is a total function, so a `toResponse()` that throws inside the `catch` is not modelled.
- src/utils/portainer.ts (the Portainer API client) is not part of this model. It is a wrapper over `fetch`, `URL.searchParams`, JSON encoding and `process.env`, and it fails in four ways:
  - When `BASE_URL` is unset, it throws `RequiredEnvError` (src/utils/portainer.ts:4-5). This happens inside the factory call at src/utils/server.ts:24, so on every dispatched request.
  - When a response's status is not the expected one, it throws `FetchError` (src/utils/portainer.ts:7-9).
  - `fetch` itself can fail, for example on a network error.
  - `res.json()` can fail on a body that is not JSON.
  The last three happen when handlers call the client. `RequiredEnvError` is built in src/utils/errors.ts, which is not part of this model, so its class is not shown. The `fetch` and `res.json()` failures are of the runtime's own classes, not `FetchError`. The model allows any class for all of them: the factory and the handlers may throw any `Error`, and the catch treats each by its kind.
- Strings are Dafny strings, so a length and an index count Unicode scalar values. JavaScript's `slice(2, -2)` counts UTF-16 code units, so a pattern text with a character outside the Basic Multilingual Plane near either end is cut differently. An example is `/^😀/`: it lists as the empty pattern here, but as a lone surrogate in JavaScript.
- `exec` is a function of the path alone. A regex with the `g` or `y` flag keeps `lastIndex` between calls, and so between requests. This state is not represented.
- Every capture is a string. In JavaScript, a group that does not take part in the match is `undefined` in `matches`, and the handler receives `undefined` for it.
