/**
Chains of configuration calls, as a caller writes them between a factory and
`execute` (`post(url).header(..).basicAuth(..).body(..)`), and what any such
chain does to the builder: the request kind, shape, base URI and applied
timeouts never move, headers and query parameters accumulate in call order,
and the body is the one set by the last body-setting call.

`queryString(map)` is left out of the chain because its key order is chosen
by the map (see `WeakRest.QueryStringMap`).
*/
module Chain {
  import opened Http
  import opened WeakRest
  import opened Execute

  /** One chained configuration call; `J` is the type of the JSON nodes passed to `bodyAsJsonNode`. */
  datatype Step<J> =
    | SocketTimeout(socketMillis: Int32)
    | ConnectionTimeout(connectionMillis: Int32)
    | AddHeader(headerName: string, headerValue: string)
    | Auth(userId: string, password: string)
    | Query(queryName: string, queryValue: string)
    | SetBody(contents: string)
    | SetJsonBody(node: J)

  /** One chained call; an exception it throws ends the chain. */
  function Apply<J>(b: Builder, step: Step<J>, authenticate: (string, string) -> Option<string>,
                    serialize: J -> Option<string>): (r: Result<Builder>)
    ensures r.Ok? ==> r.value.verb == b.verb && r.value.shape == b.shape && r.value.uri == b.uri
    ensures r.Ok? ==> r.value.released == b.released
    ensures r.Ok? && Wf(b) ==> Wf(r.value)
    ensures r.Err? ==> step.Auth? || (step.SetJsonBody? && b.shape == EntityEnclosing)
  {
    match step
    case SocketTimeout(millis) => Ok(SetSocketTimeout(b, millis))
    case ConnectionTimeout(millis) => Ok(SetConnectionTimeout(b, millis))
    case AddHeader(name, value) => Ok(Header(b, name, value))
    case Auth(userId, password) => BasicAuth(b, userId, password, authenticate)
    case Query(name, value) => Ok(QueryString(b, name, value))
    case SetBody(contents) => Ok(Body(b, contents))
    case SetJsonBody(node) => BodyAsJsonNode(b, node, serialize)
  }

  /** A whole chain, left to right, stopping at the first exception. */
  function Run<J>(b: Builder, steps: seq<Step<J>>, authenticate: (string, string) -> Option<string>,
                  serialize: J -> Option<string>): (r: Result<Builder>)
    ensures r.Ok? ==> r.value.verb == b.verb && r.value.shape == b.shape && r.value.uri == b.uri
    ensures r.Ok? ==> r.value.released == b.released
    ensures r.Ok? ==> b.headers <= r.value.headers && b.query <= r.value.query
    ensures r.Ok? && Wf(b) ==> Wf(r.value)
    decreases |steps|
  {
    if steps == [] then Ok(b)
    else
      match Apply(b, steps[0], authenticate, serialize)
      case Err(e) => Err(e)
      case Ok(next) => Run(next, steps[1..], authenticate, serialize)
  }

  /** Running a chain one call longer is running the chain, then that call. */
  lemma {:induction false} RunSnoc<J>(b: Builder, steps: seq<Step<J>>, last: Step<J>,
                                      authenticate: (string, string) -> Option<string>,
                                      serialize: J -> Option<string>)
    ensures Run(b, steps + [last], authenticate, serialize)
            == match Run(b, steps, authenticate, serialize)
               case Err(e) => Err(e)
               case Ok(m) => Apply(m, last, authenticate, serialize)
    decreases |steps|
  {
    if steps == [] {
      assert [last][1..] == [];
    } else {
      assert (steps + [last])[0] == steps[0];
      assert (steps + [last])[1..] == steps[1..] + [last];
      match Apply(b, steps[0], authenticate, serialize)
      case Err(e) =>
      case Ok(next) => RunSnoc(next, steps[1..], last, authenticate, serialize);
    }
  }

  /** The query parameters a chain adds, in call order. */
  function QueriesOf<J>(steps: seq<Step<J>>): seq<NameValue> {
    if steps == [] then []
    else
      var last := steps[|steps| - 1];
      QueriesOf(steps[..|steps| - 1]) + (if last.Query? then [NameValue(last.queryName, last.queryValue)] else [])
  }

  /** The header lines a chain adds, in call order (`basicAuth` adds the `Authorization` line it computes). */
  function HeadersOf<J>(steps: seq<Step<J>>, authenticate: (string, string) -> Option<string>): seq<NameValue> {
    if steps == [] then []
    else
      var last := steps[|steps| - 1];
      HeadersOf(steps[..|steps| - 1], authenticate) +
      (match last
       case AddHeader(name, value) => [NameValue(name, value)]
       case Auth(userId, password) =>
         (match authenticate(userId, password)
          case Some(credentials) => [NameValue(AuthorizationHeader, credentials)]
          case None => [])
       case _ => [])
  }

  /** The body an entity-enclosing request ends with: that of the last body-setting call, or `initial` if none. */
  function LastBody<J>(initial: Option<string>, steps: seq<Step<J>>, serialize: J -> Option<string>): Option<string> {
    if steps == [] then initial
    else
      match steps[|steps| - 1]
      case SetBody(contents) => Some(contents)
      case SetJsonBody(node) => serialize(node)
      case _ => LastBody(initial, steps[..|steps| - 1], serialize)
  }

  /** Query parameters accumulate: a chain appends exactly its `queryString` pairs, in order, after the existing ones. */
  lemma {:induction false} RunAppendsQueries<J>(b: Builder, steps: seq<Step<J>>,
                                                authenticate: (string, string) -> Option<string>,
                                                serialize: J -> Option<string>)
    requires Run(b, steps, authenticate, serialize).Ok?
    ensures Run(b, steps, authenticate, serialize).value.query == b.query + QueriesOf(steps)
    decreases |steps|
  {
    if steps != [] {
      var init, last := steps[..|steps| - 1], steps[|steps| - 1];
      assert steps == init + [last];
      RunSnoc(b, init, last, authenticate, serialize);
      RunAppendsQueries(b, init, authenticate, serialize);
    }
  }

  /** Headers accumulate: a chain appends exactly its header lines, in order, after the existing ones, never merging any. */
  lemma {:induction false} RunAppendsHeaders<J>(b: Builder, steps: seq<Step<J>>,
                                                authenticate: (string, string) -> Option<string>,
                                                serialize: J -> Option<string>)
    requires Run(b, steps, authenticate, serialize).Ok?
    ensures Run(b, steps, authenticate, serialize).value.headers == b.headers + HeadersOf(steps, authenticate)
    decreases |steps|
  {
    if steps != [] {
      var init, last := steps[..|steps| - 1], steps[|steps| - 1];
      assert steps == init + [last];
      RunSnoc(b, init, last, authenticate, serialize);
      RunAppendsHeaders(b, init, authenticate, serialize);
    }
  }

  /**
  The body after a chain: on an entity-enclosing request, that of the last
  body-setting call (or the earlier body if there was none); on any other
  request, the body is never touched.
  */
  lemma {:induction false} RunLastBodyWins<J>(b: Builder, steps: seq<Step<J>>,
                                              authenticate: (string, string) -> Option<string>,
                                              serialize: J -> Option<string>)
    requires Run(b, steps, authenticate, serialize).Ok?
    ensures b.shape == EntityEnclosing ==>
              Run(b, steps, authenticate, serialize).value.body == LastBody(b.body, steps, serialize)
    ensures b.shape == NonEntityEnclosing ==>
              Run(b, steps, authenticate, serialize).value.body == b.body
    decreases |steps|
  {
    if steps != [] {
      var init, last := steps[..|steps| - 1], steps[|steps| - 1];
      assert steps == init + [last];
      RunSnoc(b, init, last, authenticate, serialize);
      RunLastBodyWins(b, init, authenticate, serialize);
    }
  }

  /**
  Whatever chain follows a factory, the builder keeps the factory's method and
  shape, and the transport keeps the default timeouts (connect 10000 ms,
  socket 30000 ms), whatever the timeout setters were given.
  */
  lemma FactoryFixesShapeAndTimeouts<J>(m: Method, url: string, validUri: string -> bool, steps: seq<Step<J>>,
                                        authenticate: (string, string) -> Option<string>,
                                        serialize: J -> Option<string>)
    requires New(m, url, validUri).Ok?
    requires Run(New(m, url, validUri).value, steps, authenticate, serialize).Ok?
    ensures var b := Run(New(m, url, validUri).value, steps, authenticate, serialize).value;
            && b.verb == m
            && (b.shape == EntityEnclosing <==> m in {PUT, POST})
            && b.params == TransportParams(DefaultConnectionTimeoutMillis, DefaultSocketTimeoutMillis)
  {
  }

  /** `get(url).queryString("a", "1").queryString("b", "2")` goes to `url?` followed by both pairs, formatted in that order. */
  lemma GetQueryOrderPreserved(url: string, validUri: string -> bool, format: seq<NameValue> -> string)
    requires validUri(url)
    requires validUri(url + "?" + format([NameValue("a", "1"), NameValue("b", "2")]))
    ensures var b := QueryString(QueryString(Get(url, validUri).value, "a", "1"), "b", "2");
            ResolveUri(b, validUri, format) == Ok(Uri(url + "?" + format([NameValue("a", "1"), NameValue("b", "2")])))
  {
    var b := QueryString(QueryString(Get(url, validUri).value, "a", "1"), "b", "2");
    assert b.query == [NameValue("a", "1"), NameValue("b", "2")];
  }

  /** `post(url).body("hello")` sends exactly `"hello"`; `get(url).body("hello")` sends no body and raises nothing. */
  lemma BodyReachesOnlyEntityRequests(url: string, validUri: string -> bool, format: seq<NameValue> -> string)
    requires validUri(url)
    ensures var b := Body(Post(url, validUri).value, "hello");
            Outbound(b, ResolveUri(b, validUri, format).value).body == Some("hello")
    ensures var b := Body(Get(url, validUri).value, "hello");
            b == Get(url, validUri).value && Outbound(b, ResolveUri(b, validUri, format).value).body == None
  {
  }

  /** On a builder with no `Authorization` line in any spelling, `basicAuth` leaves exactly one. */
  lemma BasicAuthSingleHeader(b: Builder, userId: string, password: string,
                              authenticate: (string, string) -> Option<string>)
    requires authenticate(userId, password).Some?
    requires CountNamed(b.headers, AuthorizationHeader) == 0
    ensures CountNamed(BasicAuth(b, userId, password, authenticate).value.headers, AuthorizationHeader) == 1
  {
    BasicAuthAddsOneAuthorization(b, userId, password, authenticate);
  }
}
