/**
 * The request dispatcher of `startServer` (src/utils/server.ts): the API-key
 * check, the ordered first-match route search, the handler call with the
 * capture groups, the 404 listing of every route, and the two-tier catch that
 * turns the recognised error kinds into responses and rethrows the rest.
 *
 * The HTTP host is removed. A request is its method, its path and its
 * optional `X-API-Key` header. The regex engine, the client factory and the
 * route handlers are total functions supplied with the routes; every call the
 * dispatcher makes to one of them is recorded as an `Event`, so that what was
 * consulted, and in which order, can be stated.
 */
module Server {
  import opened Wrappers
  import JsText

  /** A response as far as the dispatcher handles it; `new Response()` is `EmptyResponse`. */
  datatype Response = Response(status: int, body: string)

  const EmptyResponse := Response(200, "")

  /** The structured detail an `ApiError` may carry. */
  datatype Detail = NoDetail | RoutesDetail(routes: seq<string>)

  /** A thrown value, by class: the two recognised kinds and everything else. */
  datatype Error =
    | ApiError(status: int, message: string, detail: Detail)
    | FetchError(upstream: Response)
    | OtherError(name: string)

  /** A step of the dispatch that either produced a value or threw. */
  datatype Attempt<T> = Done(value: T) | Threw(error: Error)

  /** What `fetch` does in the end: resolve with a response, or reject with the error. */
  datatype FetchResult = Respond(response: Response) | Rethrow(error: Error)

  /** The inbound request: method, `url.pathname` and the `X-API-Key` header. */
  datatype Request = Request(verb: string, path: string, apiKey: Option<string>)

  /** The Portainer API client, known here only by the key it was created for. */
  datatype Client = Client(apiKey: string)

  /** The per-request context handed to a handler. */
  datatype Ctx = Ctx(request: Request, portainer: Client)

  /**
   * A registered route. `source` is `regex.toString()`; `exec` stands for
   * `regex.exec` and yields the whole match followed by the capture groups;
   * `handler` yields a response, nothing, or a thrown error.
   */
  datatype Route = Route(
    verb: string,
    source: string,
    exec: string -> Option<seq<string>>,
    handler: (Ctx, seq<string>) -> Attempt<Option<Response>>)

  /**
   * The options `startServer` is given, with the two members of the error
   * module that are not part of this model: the value `RequiredApiKeyError()`
   * throws, and each error's own `toResponse()`.
   */
  datatype App = App(
    routes: seq<Route>,
    createPortainerApi: string -> Attempt<Client>,
    requiredApiKeyError: Error,
    toResponse: Error -> Response)

  /** A call the dispatcher makes: route `route`'s `exec`, the factory, or route `route`'s handler. */
  datatype Event =
    | Exec(route: nat)
    | CreateClient(apiKey: string)
    | CallHandler(route: nat, args: seq<string>)

  /** The outcome of the `try` block and the calls it made. */
  datatype Run = Run(outcome: Attempt<Response>, trace: seq<Event>)

  // ---------------------------------------------------------------------------
  // API-key check and route search

  /** `apiKey` is truthy: `null` and the empty string are not, any other string is. */
  function HasKey(req: Request): (b: bool)
    ensures req.apiKey.None? ==> !b
    ensures req.apiKey.Some? ==> (b <==> |req.apiKey.value| > 0)
  {
    req.apiKey.Some? && req.apiKey.value != ""
  }

  /**
   * The route's pattern matches the path and its method is the request's; a
   * match alone, or the method alone, does not qualify.
   */
  function Qualifies(route: Route, req: Request): (b: bool)
    ensures route.exec(req.path).None? ==> !b
    ensures route.verb != req.verb ==> !b
    ensures route.exec(req.path).Some? && route.verb == req.verb ==> b
  {
    route.exec(req.path).Some? && route.verb == req.verb
  }

  /** The least index at or after `from` whose route qualifies, if any. */
  function FirstQualifyingFrom(routes: seq<Route>, req: Request, from: nat): (r: Option<nat>)
    requires from <= |routes|
    ensures r.Some? ==> from <= r.value < |routes| && Qualifies(routes[r.value], req)
    ensures r.Some? ==> forall j :: from <= j < r.value ==> !Qualifies(routes[j], req)
    ensures r.None? <==> forall j :: from <= j < |routes| ==> !Qualifies(routes[j], req)
    decreases |routes| - from
  {
    if from == |routes| then None
    else if Qualifies(routes[from], req) then Some(from)
    else FirstQualifyingFrom(routes, req, from + 1)
  }

  /** The least index whose route qualifies, if any. */
  function FirstQualifying(routes: seq<Route>, req: Request): Option<nat>
  {
    FirstQualifyingFrom(routes, req, 0)
  }

  /** A qualifying route with no qualifying route before it is the one chosen. */
  lemma FirstQualifyingIs(routes: seq<Route>, req: Request, i: nat)
    requires i < |routes| && Qualifies(routes[i], req)
    requires forall j :: 0 <= j < i ==> !Qualifies(routes[j], req)
    ensures FirstQualifying(routes, req) == Some(i)
  {
  }

  /** The arguments a handler receives: `matches.slice(1)`. */
  function Captures(matches: seq<string>): (args: seq<string>)
    ensures matches != [] ==> [matches[0]] + args == matches
    ensures matches == [] ==> args == []
  {
    JsText.SliceFromOne(matches);
    JsText.Slice(matches, 1, |matches|)
  }

  /** The arguments are the capture groups, in order, without the whole match. */
  lemma CapturesAreGroups(matches: seq<string>)
    ensures |Captures(matches)| == if matches == [] then 0 else |matches| - 1
    ensures forall k :: 0 <= k < |Captures(matches)| ==> Captures(matches)[k] == matches[k + 1]
  {
  }

  /** The first `n` events of a scan: `exec` of routes `0 .. n-1`, in order. */
  function Probes(n: nat): (t: seq<Event>)
    ensures |t| == n
    ensures forall k :: 0 <= k < n ==> t[k] == Exec(k)
  {
    if n == 0 then [] else Probes(n - 1) + [Exec(n - 1)]
  }

  // ---------------------------------------------------------------------------
  // The 404 listing

  /** `regex.toString().slice(2, -2).replaceAll("\\", "")`. */
  function Strip(source: string): (r: string)
    ensures '\\' !in r
    ensures |r| <= if |source| >= 4 then |source| - 4 else 0
  {
    JsText.RemoveAll(JsText.Slice(source, 2, -2), '\\')
  }

  /** Strip drops two characters at each end, then every backslash. */
  lemma StripShape(source: string)
    ensures '\\' !in Strip(source)
    ensures |source| >= 4 ==> Strip(source) == JsText.RemoveAll(source[2..|source| - 2], '\\')
    ensures |source| < 4 ==> Strip(source) == ""
  {
  }

  /** Deleting `c` from three `c`-prefixed segments joins the segments. */
  lemma RemoveEscapes(p1: string, p2: string, p3: string, c: char)
    requires c !in p1 && c !in p2 && c !in p3
    ensures JsText.RemoveAll([c] + p1 + ([c] + p2 + ([c] + p3)), c) == p1 + (p2 + p3)
  {
    JsText.RemoveAllAppend([c] + p1, [c] + p2 + ([c] + p3), c);
    JsText.RemoveAllAppend([c] + p2, [c] + p3, c);
    JsText.RemoveAllLeading(p1, c);
    JsText.RemoveAllLeading(p2, c);
    JsText.RemoveAllLeading(p3, c);
    JsText.RemoveAllAbsent(p1, c);
    JsText.RemoveAllAbsent(p2, c);
    JsText.RemoveAllAbsent(p3, c);
  }

  /** The pattern text of the stack route without its `/^` and `$/`. */
  lemma ExampleInner(source: string)
    requires source == "/^\\/stacks\\/(\\d+)$/"
    ensures JsText.Slice(source, 2, -2) == ['\\'] + "/stacks" + (['\\'] + "/(" + (['\\'] + "d+)"))
  {
  }

  /** Strip removes every escape from a pattern source, the one of `\d` included. */
  lemma StripExample(source: string)
    requires source == "/^\\/stacks\\/(\\d+)$/"
    ensures Strip(source) == "/stacks/(d+)"
  {
    ExampleInner(source);
    RemoveEscapes("/stacks", "/(", "d+)", '\\');
  }

  /** The listing line of one route: `METHOD pattern`. */
  function Render(route: Route): (line: string)
    ensures |line| == |route.verb| + 1 + |Strip(route.source)|
    ensures line[..|route.verb|] == route.verb && line[|route.verb|] == ' '
    ensures line[|route.verb| + 1..] == Strip(route.source)
  {
    route.verb + " " + Strip(route.source)
  }

  /** `options.routes.map(...)`: one line per route, in registration order. */
  function Listing(routes: seq<Route>): (out: seq<string>)
    ensures |out| == |routes|
    ensures forall k :: 0 <= k < |routes| ==> out[k] == Render(routes[k])
  {
    if routes == [] then [] else [Render(routes[0])] + Listing(routes[1..])
  }

  /** No line of the listing holds a backslash when no method does. */
  lemma {:induction false} ListingHasNoBackslash(routes: seq<Route>)
    requires forall k :: 0 <= k < |routes| ==> '\\' !in routes[k].verb
    ensures forall k :: 0 <= k < |routes| ==> '\\' !in Listing(routes)[k]
  {
  }

  /** The message of the 404 error: `"METHOD path" did not match any endpoints`. */
  function NotFoundMessage(req: Request): (m: string)
    ensures var n := |req.verb| + |req.path|;
      |m| == n + 31 && m[0] == '"' && m[1..|req.verb| + 1] == req.verb
      && m[|req.verb| + 1] == ' ' && m[|req.verb| + 2..n + 2] == req.path
      && m[n + 2..] == "\" did not match any endpoints"
  {
    "\"" + req.verb + " " + req.path + "\" did not match any endpoints"
  }

  /** The error thrown when no route qualifies. */
  function NotFoundError(req: Request, routes: seq<Route>): (e: Error)
    ensures e.ApiError? && e.status == 404 && Handled(e)
    ensures e.detail.RoutesDetail? && |e.detail.routes| == |routes|
  {
    ApiError(404, NotFoundMessage(req), RoutesDetail(Listing(routes)))
  }

  // ---------------------------------------------------------------------------
  // The catch

  /** The kinds the catch turns into a response: `ApiError` and `FetchError`. */
  predicate Handled(e: Error)
  {
    e.ApiError? || e.FetchError?
  }

  /** The `catch` block: handled kinds answer with their response, others are rethrown. */
  function Catch(e: Error, toResponse: Error -> Response): (r: FetchResult)
    ensures r.Respond? <==> Handled(e)
    ensures r.Respond? ==> r.response == toResponse(e)
    ensures r.Rethrow? ==> r.error == e
  {
    if e.ApiError? then Respond(toResponse(e))
    else if e.FetchError? then Respond(toResponse(e))
    else Rethrow(e)
  }

  /** The outcome of the `try` block after the `catch`. */
  function Settle(outcome: Attempt<Response>, toResponse: Error -> Response): (r: FetchResult)
    ensures outcome.Done? ==> r == Respond(outcome.value)
    ensures outcome.Threw? ==> (r.Respond? <==> Handled(outcome.error))
    ensures outcome.Threw? && r.Respond? ==> r.response == toResponse(outcome.error)
    ensures r.Rethrow? ==> outcome == Threw(r.error) && !Handled(r.error)
  {
    match outcome
    case Done(response) => Respond(response)
    case Threw(e) => Catch(e, toResponse)
  }

  // ---------------------------------------------------------------------------
  // The dispatch

  /** The handler's result with `?? new Response()` applied. */
  function OrEmpty(result: Attempt<Option<Response>>): (r: Attempt<Response>)
    ensures result.Threw? ==> r == Threw(result.error)
    ensures result.Done? && result.value.None? ==> r == Done(EmptyResponse)
    ensures result.Done? && result.value.Some? ==> r == Done(result.value.value)
  {
    match result
    case Threw(e) => Threw(e)
    case Done(response) => Done(response.GetOr(EmptyResponse))
  }

  /**
   * Reference definition of the `try` block for one request: reject without a
   * key, else take the first qualifying route, create the client, call its
   * handler; with no qualifying route, throw the 404 error.
   */
  function Serve(app: App, req: Request): (run: Run)
    ensures !HasKey(req) ==> run.trace == []
    ensures run.outcome.Done? ==> HasKey(req) && FirstQualifying(app.routes, req).Some?
    ensures |run.trace| <= |app.routes| + 2
    ensures forall k :: 0 <= k < |run.trace| && run.trace[k].Exec? ==> run.trace[k] == Exec(k)
    ensures forall k :: 0 <= k < |run.trace| && run.trace[k].CallHandler? ==> k == |run.trace| - 1
  {
    if !HasKey(req) then Run(Threw(app.requiredApiKeyError), [])
    else
      var key := req.apiKey.value;
      match FirstQualifying(app.routes, req)
      case None => Run(Threw(NotFoundError(req, app.routes)), Probes(|app.routes|))
      case Some(i) =>
        var route := app.routes[i];
        var args := Captures(route.exec(req.path).value);
        var created := Probes(i + 1) + [CreateClient(key)];
        match app.createPortainerApi(key)
        case Threw(e) => Run(Threw(e), created)
        case Done(portainer) =>
          Run(OrEmpty(route.handler(Ctx(req, portainer), args)), created + [CallHandler(i, args)])
  }

  /**
   * The `fetch` callback: the key check, the `for` loop over the routes that
   * returns from the first qualifying one, and the `catch`. It returns the
   * result and the calls it made, and both are those of `Serve`.
   */
  method Fetch(app: App, req: Request) returns (result: FetchResult, trace: seq<Event>)
    ensures result == Settle(Serve(app, req).outcome, app.toResponse)
    ensures trace == Serve(app, req).trace
  {
    var outcome: Attempt<Response>;
    trace := [];
    if !HasKey(req) {
      outcome := Threw(app.requiredApiKeyError);
    } else {
      var key := req.apiKey.value;
      var i := 0;
      while i < |app.routes|
        invariant 0 <= i <= |app.routes|
        invariant trace == Probes(i)
        invariant forall j :: 0 <= j < i ==> !Qualifies(app.routes[j], req)
      {
        var route := app.routes[i];
        var matches := route.exec(req.path);
        trace := trace + [Exec(i)];
        if matches.Some? && route.verb == req.verb {
          FirstQualifyingIs(app.routes, req, i);
          trace := trace + [CreateClient(key)];
          var created := app.createPortainerApi(key);
          match created {
            case Threw(e) =>
              outcome := Threw(e);
            case Done(portainer) =>
              var args := Captures(matches.value);
              trace := trace + [CallHandler(i, args)];
              outcome := OrEmpty(route.handler(Ctx(req, portainer), args));
          }
          result := Settle(outcome, app.toResponse);
          return;
        }
        i := i + 1;
      }
      outcome := Threw(NotFoundError(req, app.routes));
    }
    result := Settle(outcome, app.toResponse);
  }

  // ---------------------------------------------------------------------------
  // Properties of the dispatch

  /** The number of client creations in a trace. */
  function ClientCreations(t: seq<Event>): nat
  {
    if t == [] then 0
    else (if t[0].CreateClient? then 1 else 0) + ClientCreations(t[1..])
  }

  lemma {:induction false} ClientCreationsAppend(a: seq<Event>, b: seq<Event>)
    ensures ClientCreations(a + b) == ClientCreations(a) + ClientCreations(b)
  {
    if a == [] {
      assert a + b == b;
    } else {
      assert (a + b)[1..] == a[1..] + b;
      ClientCreationsAppend(a[1..], b);
    }
  }

  /** Scanning routes never creates a client. */
  lemma {:induction false} ProbesCreateNoClient(n: nat)
    ensures ClientCreations(Probes(n)) == 0
  {
    if n > 0 {
      ProbesCreateNoClient(n - 1);
      ClientCreationsAppend(Probes(n - 1), [Exec(n - 1)]);
      assert ClientCreations([Exec(n - 1)]) == 0;
    }
  }

  /** Without a key the request is rejected and nothing is consulted. */
  lemma MissingKeyRejected(app: App, req: Request)
    requires !HasKey(req)
    ensures Serve(app, req).outcome == Threw(app.requiredApiKeyError)
    ensures Serve(app, req).trace == []
    ensures Settle(Serve(app, req).outcome, app.toResponse) == Catch(app.requiredApiKeyError, app.toResponse)
  {
  }

  /**
   * The client factory is called exactly once, with the request's key, when
   * some route qualifies, and never otherwise.
   */
  lemma ClientCreatedOnceIffDispatched(app: App, req: Request)
    ensures ClientCreations(Serve(app, req).trace) ==
      if HasKey(req) && exists j :: 0 <= j < |app.routes| && Qualifies(app.routes[j], req) then 1 else 0
    ensures HasKey(req) ==>
      (forall k :: 0 <= k < |Serve(app, req).trace| && Serve(app, req).trace[k].CreateClient? ==>
         Serve(app, req).trace[k] == CreateClient(req.apiKey.value))
  {
    if HasKey(req) {
      var key := req.apiKey.value;
      match FirstQualifying(app.routes, req)
      case None =>
        ProbesCreateNoClient(|app.routes|);
      case Some(i) =>
        var created := Probes(i + 1) + [CreateClient(key)];
        ProbesCreateNoClient(i + 1);
        ClientCreationsAppend(Probes(i + 1), [CreateClient(key)]);
        ClientCreationsAppend(created, [CallHandler(i, Captures(app.routes[i].exec(req.path).value))]);
        assert ClientCreations([CreateClient(key)]) == 1;
        assert ClientCreations([CallHandler(i, Captures(app.routes[i].exec(req.path).value))]) == 0;
    }
  }

  /**
   * A handler call is to the first qualifying route, after scanning exactly the
   * routes up to it and creating the client, with the capture groups of its
   * match as arguments.
   */
  lemma DispatchIsFirstMatch(app: App, req: Request, i: nat, args: seq<string>)
    requires CallHandler(i, args) in Serve(app, req).trace
    ensures HasKey(req)
    ensures i < |app.routes| && Qualifies(app.routes[i], req)
    ensures forall j :: 0 <= j < i ==> !Qualifies(app.routes[j], req)
    ensures args == Captures(app.routes[i].exec(req.path).value)
    ensures Serve(app, req).trace == Probes(i + 1) + [CreateClient(req.apiKey.value), CallHandler(i, args)]
  {
  }

  /**
   * A route whose pattern matches but whose method differs is never
   * dispatched: when some route qualifies, the first such one is dispatched
   * instead of the 404, and when no route before it qualifies the scan goes
   * on past it.
   */
  lemma WrongMethodIsSkipped(app: App, req: Request, k: nat, j: nat)
    requires HasKey(req)
    requires k < |app.routes| && j < |app.routes|
    requires app.routes[k].exec(req.path).Some? && app.routes[k].verb != req.verb
    requires Qualifies(app.routes[j], req)
    ensures FirstQualifying(app.routes, req).Some?
    ensures FirstQualifying(app.routes, req).value != k
    ensures FirstQualifying(app.routes, req).value <= j
    ensures CreateClient(req.apiKey.value) in Serve(app, req).trace
    ensures forall args :: CallHandler(k, args) !in Serve(app, req).trace
    ensures (forall m :: 0 <= m < k ==> !Qualifies(app.routes[m], req)) ==>
      k < FirstQualifying(app.routes, req).value && Exec(k) in Serve(app, req).trace
  {
  }

  /**
   * With no qualifying route the dispatcher scans every route, creates no
   * client, and throws the 404 error listing every route.
   */
  lemma NoMatchIsNotFound(app: App, req: Request)
    requires HasKey(req)
    requires forall j :: 0 <= j < |app.routes| ==> !Qualifies(app.routes[j], req)
    ensures Serve(app, req).outcome == Threw(ApiError(404, NotFoundMessage(req), RoutesDetail(Listing(app.routes))))
    ensures Serve(app, req).trace == Probes(|app.routes|)
    ensures ClientCreations(Serve(app, req).trace) == 0
  {
    ProbesCreateNoClient(|app.routes|);
  }

  /** With no qualifying route the request is answered with the 404 error's own response. */
  lemma NoMatchResponds(app: App, req: Request)
    requires HasKey(req)
    requires forall j :: 0 <= j < |app.routes| ==> !Qualifies(app.routes[j], req)
    ensures Settle(Serve(app, req).outcome, app.toResponse) == Respond(app.toResponse(NotFoundError(req, app.routes)))
  {
  }

  /**
   * When the client factory throws, the handler is not called and the
   * factory's error goes to the catch.
   */
  lemma FactoryThrowSkipsHandler(app: App, req: Request, i: nat, e: Error)
    requires HasKey(req) && FirstQualifying(app.routes, req) == Some(i)
    requires app.createPortainerApi(req.apiKey.value) == Threw(e)
    ensures Serve(app, req) == Run(Threw(e), Probes(i + 1) + [CreateClient(req.apiKey.value)])
    ensures Settle(Serve(app, req).outcome, app.toResponse) == Catch(e, app.toResponse)
  {
  }

  /**
   * When a route qualifies and the client is created, that route's handler is
   * called, last, with the capture groups of its match.
   */
  lemma HandlerCalledOnDispatch(app: App, req: Request, i: nat, portainer: Client)
    requires HasKey(req) && FirstQualifying(app.routes, req) == Some(i)
    requires app.createPortainerApi(req.apiKey.value) == Done(portainer)
    ensures Serve(app, req).trace ==
      Probes(i + 1) + [CreateClient(req.apiKey.value), CallHandler(i, Captures(app.routes[i].exec(req.path).value))]
    ensures Serve(app, req).outcome ==
      OrEmpty(app.routes[i].handler(Ctx(req, portainer), Captures(app.routes[i].exec(req.path).value)))
  {
  }

  /**
   * After a dispatch, a handler returning nothing yields the empty response and
   * a returned response is passed through; a thrown error goes to the catch.
   */
  lemma HandlerResultPassedThrough(app: App, req: Request, i: nat, portainer: Client)
    requires HasKey(req) && FirstQualifying(app.routes, req) == Some(i)
    requires app.createPortainerApi(req.apiKey.value) == Done(portainer)
    ensures var answer := app.routes[i].handler(Ctx(req, portainer), Captures(app.routes[i].exec(req.path).value));
      Settle(Serve(app, req).outcome, app.toResponse) ==
        match answer
        case Done(None) => Respond(EmptyResponse)
        case Done(Some(response)) => Respond(response)
        case Threw(e) => Catch(e, app.toResponse)
  {
  }

  /** Only `ApiError` and `FetchError` become responses; any other error is rethrown unchanged. */
  lemma OnlyHandledKindsRespond(app: App, req: Request)
    ensures Serve(app, req).outcome.Threw? ==>
      (Settle(Serve(app, req).outcome, app.toResponse).Respond? <==> Handled(Serve(app, req).outcome.error))
    ensures Serve(app, req).outcome.Threw? && !Handled(Serve(app, req).outcome.error) ==>
      Settle(Serve(app, req).outcome, app.toResponse) == Rethrow(Serve(app, req).outcome.error)
  {
  }
}
