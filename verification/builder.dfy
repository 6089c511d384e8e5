/**
The WeakRest request builder: the state a `WeakRestClient` accumulates between
its factory call and `execute`, and every chained configuration call as a pure
transition from one state to the next.

The Java class is a mutable object whose chained calls return `this`; here each
call returns the next state (or the exception it throws, as `Err`). The class
keeps two request objects of which exactly one is in use; the model keeps the
one header list and the one optional body of the request in use.
*/
module WeakRest {
  import opened Http

  /** The initial values of the class's two timeout fields, in milliseconds. */
  const DefaultConnectionTimeoutMillis: Int32 := 10000
  const DefaultSocketTimeoutMillis: Int32 := 30000

  /** The header name `BasicScheme.authenticate` produces for a (non-proxy) request. */
  const AuthorizationHeader: string := "Authorization"

  /**
  One builder.
  - `verb`, `shape`: the request kind and its shape, fixed by the factory;
  - `uri`: the base URI parsed at construction;
  - `connectionTimeoutMillis`, `socketTimeoutMillis`: the class's timeout fields;
  - `params`: the timeouts as applied to the transport client's parameters;
  - `headers`, `body`: the request in use (headers in the order added);
  - `query`: the accumulated query parameters, in append order;
  - `released`: how many times the transport's connection manager was shut down.
  */
  datatype Builder = Builder(
    verb: Method,
    shape: Shape,
    uri: Uri,
    connectionTimeoutMillis: Int32,
    socketTimeoutMillis: Int32,
    params: TransportParams,
    headers: seq<NameValue>,
    query: seq<NameValue>,
    body: Option<string>,
    released: nat)

  /**
  The invariant every builder reachable from a factory keeps: its shape is its
  method's, both timeout fields hold their defaults and are what the transport
  has applied, and a request without an entity has no body.
  */
  predicate Wf(b: Builder) {
    && b.shape == ShapeOf(b.verb)
    && b.connectionTimeoutMillis == DefaultConnectionTimeoutMillis
    && b.socketTimeoutMillis == DefaultSocketTimeoutMillis
    && b.params == TransportParams(b.connectionTimeoutMillis, b.socketTimeoutMillis)
    && (b.shape == NonEntityEnclosing ==> b.body == None)
  }

  /** A builder on which no configuration call has been made yet. */
  predicate Pristine(b: Builder) {
    b.headers == [] && b.query == [] && b.body == None && b.released == 0
  }

  /**
  The private constructor followed by the factory's assignments: the transport
  gets the default timeouts, then `url` is parsed (`validUri` stands for
  `java.net.URI`'s parser), then the shape is fixed from the method.
  */
  function New(m: Method, url: string, validUri: string -> bool): (r: Result<Builder>)
    ensures r.Ok? <==> validUri(url)
    ensures r.Err? ==> r.error == UriSyntax
    ensures r.Ok? ==> Wf(r.value) && Pristine(r.value)
    ensures r.Ok? ==> r.value.verb == m && r.value.uri.text == url
    ensures r.Ok? ==> r.value.params == TransportParams(DefaultConnectionTimeoutMillis, DefaultSocketTimeoutMillis)
  {
    if validUri(url) then
      Ok(Builder(m, ShapeOf(m), Uri(url),
                 DefaultConnectionTimeoutMillis, DefaultSocketTimeoutMillis,
                 TransportParams(DefaultConnectionTimeoutMillis, DefaultSocketTimeoutMillis),
                 [], [], None, 0))
    else
      Err(UriSyntax)
  }

  function Get(url: string, validUri: string -> bool): (r: Result<Builder>)
    ensures r.Ok? <==> validUri(url)
    ensures r.Ok? ==> r.value.verb == GET && r.value.shape == NonEntityEnclosing
    ensures r.Ok? ==> Wf(r.value) && Pristine(r.value) && r.value.uri.text == url
  {
    New(GET, url, validUri)
  }

  function Put(url: string, validUri: string -> bool): (r: Result<Builder>)
    ensures r.Ok? <==> validUri(url)
    ensures r.Ok? ==> r.value.verb == PUT && r.value.shape == EntityEnclosing
    ensures r.Ok? ==> Wf(r.value) && Pristine(r.value) && r.value.uri.text == url
  {
    New(PUT, url, validUri)
  }

  function Post(url: string, validUri: string -> bool): (r: Result<Builder>)
    ensures r.Ok? <==> validUri(url)
    ensures r.Ok? ==> r.value.verb == POST && r.value.shape == EntityEnclosing
    ensures r.Ok? ==> Wf(r.value) && Pristine(r.value) && r.value.uri.text == url
  {
    New(POST, url, validUri)
  }

  function Delete(url: string, validUri: string -> bool): (r: Result<Builder>)
    ensures r.Ok? <==> validUri(url)
    ensures r.Ok? ==> r.value.verb == DELETE && r.value.shape == NonEntityEnclosing
    ensures r.Ok? ==> Wf(r.value) && Pristine(r.value) && r.value.uri.text == url
  {
    New(DELETE, url, validUri)
  }

  /**
  `setSocketTimeout`: re-applies the socket-timeout FIELD to the transport;
  the argument is never read. On a well-formed builder it changes nothing.
  */
  function SetSocketTimeout(b: Builder, socketTimeoutMillis: Int32): (r: Builder)
    ensures r.params.soTimeout == b.socketTimeoutMillis
    ensures r.params.connectionTimeout == b.params.connectionTimeout
    ensures r == b.(params := r.params)
    ensures Wf(b) ==> r == b
  {
    b.(params := b.params.(soTimeout := b.socketTimeoutMillis))
  }

  /**
  `setConnectionTimeout`: re-applies the connection-timeout FIELD to the
  transport; the argument is never read. On a well-formed builder it changes nothing.
  */
  function SetConnectionTimeout(b: Builder, connectionTimeoutMillis: Int32): (r: Builder)
    ensures r.params.connectionTimeout == b.connectionTimeoutMillis
    ensures r.params.soTimeout == b.params.soTimeout
    ensures r == b.(params := r.params)
    ensures Wf(b) ==> r == b
  {
    b.(params := b.params.(connectionTimeout := b.connectionTimeoutMillis))
  }

  /** `setSocketTimeout` as its name and the class's usage example promise: the argument is stored and applied. */
  function SetSocketTimeoutAsIntended(b: Builder, socketTimeoutMillis: Int32): (r: Builder)
    ensures r.socketTimeoutMillis == socketTimeoutMillis && r.params.soTimeout == socketTimeoutMillis
    ensures r.params.connectionTimeout == b.params.connectionTimeout
    ensures r == b.(socketTimeoutMillis := r.socketTimeoutMillis, params := r.params)
  {
    b.(socketTimeoutMillis := socketTimeoutMillis, params := b.params.(soTimeout := socketTimeoutMillis))
  }

  /** `setConnectionTimeout` as its name and the class's usage example promise: the argument is stored and applied. */
  function SetConnectionTimeoutAsIntended(b: Builder, connectionTimeoutMillis: Int32): (r: Builder)
    ensures r.connectionTimeoutMillis == connectionTimeoutMillis && r.params.connectionTimeout == connectionTimeoutMillis
    ensures r.params.soTimeout == b.params.soTimeout
    ensures r == b.(connectionTimeoutMillis := r.connectionTimeoutMillis, params := r.params)
  {
    b.(connectionTimeoutMillis := connectionTimeoutMillis,
       params := b.params.(connectionTimeout := connectionTimeoutMillis))
  }

  /**
  On a fresh builder of any method, the setter as written cannot apply any
  socket timeout but the default; the intended one applies the argument.
  */
  lemma SocketTimeoutArgumentIgnored(m: Method, url: string, validUri: string -> bool, millis: Int32)
    requires validUri(url) && millis != DefaultSocketTimeoutMillis
    ensures SetSocketTimeout(New(m, url, validUri).value, millis).params.soTimeout == DefaultSocketTimeoutMillis != millis
    ensures SetSocketTimeoutAsIntended(New(m, url, validUri).value, millis).params.soTimeout == millis
  {
  }

  /**
  On a fresh builder of any method, the setter as written cannot apply any
  connection timeout but the default; the intended one applies the argument.
  */
  lemma ConnectionTimeoutArgumentIgnored(m: Method, url: string, validUri: string -> bool, millis: Int32)
    requires validUri(url) && millis != DefaultConnectionTimeoutMillis
    ensures SetConnectionTimeout(New(m, url, validUri).value, millis).params.connectionTimeout
            == DefaultConnectionTimeoutMillis != millis
    ensures SetConnectionTimeoutAsIntended(New(m, url, validUri).value, millis).params.connectionTimeout == millis
  {
  }

  /**
  `header(name, value)`: adds one header line at the end of the request in use.
  Earlier lines are kept and lines with the same name are not merged.
  */
  function Header(b: Builder, name: string, value: string): (r: Builder)
    ensures |r.headers| == |b.headers| + 1
    ensures r.headers[..|b.headers|] == b.headers && r.headers[|b.headers|] == NameValue(name, value)
    ensures r == b.(headers := r.headers)
    ensures Wf(b) ==> Wf(r)
  {
    b.(headers := b.headers + [NameValue(name, value)])
  }

  /**
  One more line named `name` (in any case) after `header(name, value)`,
  whatever was there before; the count of no other name moves.
  */
  lemma HeaderNeverDeduplicates(b: Builder, name: string, value: string, other: string)
    requires !SameHeaderName(other, name)
    ensures CountNamed(Header(b, name, value).headers, name) == CountNamed(b.headers, name) + 1
    ensures CountNamed(Header(b, name, value).headers, other) == CountNamed(b.headers, other)
  {
    CountNamedAppend(b.headers, NameValue(name, value), name);
    CountNamedAppend(b.headers, NameValue(name, value), other);
  }

  /**
  `basicAuth(userId, password)`, header part: `authenticate` stands for
  `BasicScheme.authenticate` (None when it throws). One `Authorization` line
  carrying its value is added to the request in use; nothing else changes.
  */
  function BasicAuth(b: Builder, userId: string, password: string,
                     authenticate: (string, string) -> Option<string>): (r: Result<Builder>)
    ensures r.Ok? <==> authenticate(userId, password).Some?
    ensures r.Err? ==> r.error == Authentication
    ensures r.Ok? ==> r.value.headers == b.headers + [NameValue(AuthorizationHeader, authenticate(userId, password).value)]
    ensures r.Ok? ==> r.value == b.(headers := r.value.headers)
    ensures r.Ok? && Wf(b) ==> Wf(r.value)
  {
    match authenticate(userId, password)
    case None => Err(Authentication)
    case Some(credentials) => Ok(Header(b, AuthorizationHeader, credentials))
  }

  /**
  `basicAuth` adds exactly one `Authorization` line even when one is already
  there, so a request can end up with two.
  */
  lemma BasicAuthAddsOneAuthorization(b: Builder, userId: string, password: string,
                                      authenticate: (string, string) -> Option<string>)
    requires authenticate(userId, password).Some?
    ensures CountNamed(BasicAuth(b, userId, password, authenticate).value.headers, AuthorizationHeader)
            == CountNamed(b.headers, AuthorizationHeader) + 1
    ensures CountNamed(b.headers, AuthorizationHeader) > 0 ==>
            CountNamed(BasicAuth(b, userId, password, authenticate).value.headers, AuthorizationHeader) >= 2
  {
    CountNamedAppend(b.headers, NameValue(AuthorizationHeader, authenticate(userId, password).value), AuthorizationHeader);
  }

  /**
  A request that already carries an `authorization` line, in any spelling,
  goes out with two after `basicAuth`.
  */
  lemma BasicAuthDuplicatesAnySpelling(b: Builder, value: string, userId: string, password: string,
                                       authenticate: (string, string) -> Option<string>)
    requires b.headers == [NameValue("authorization", value)]
    requires authenticate(userId, password).Some?
    ensures CountNamed(BasicAuth(b, userId, password, authenticate).value.headers, AuthorizationHeader) == 2
  {
    assert SameHeaderName("authorization", AuthorizationHeader);
    CountNamedAppend([], b.headers[0], AuthorizationHeader);
    assert [] + [b.headers[0]] == b.headers;
    BasicAuthAddsOneAuthorization(b, userId, password, authenticate);
  }

  /** `queryString(name, value)`: one more query parameter, at the end; the earlier ones and the rest of the state are kept. */
  function QueryString(b: Builder, name: string, value: string): (r: Builder)
    ensures |r.query| == |b.query| + 1
    ensures r.query[..|b.query|] == b.query && r.query[|b.query|] == NameValue(name, value)
    ensures r == b.(query := r.query)
    ensures Wf(b) ==> Wf(r)
  {
    b.(query := b.query + [NameValue(name, value)])
  }

  /** `pairs` names each key of `keys` exactly once, each with its value in `m`, and names nothing else. */
  ghost predicate ListsKeysOnce(pairs: seq<NameValue>, keys: set<string>, m: map<string, string>) {
    && |pairs| == |keys|
    && (forall i :: 0 <= i < |pairs| ==>
          pairs[i].name in keys && pairs[i].name in m && pairs[i].value == m[pairs[i].name])
    && (forall key :: key in keys ==> exists i :: 0 <= i < |pairs| && pairs[i].name == key)
    && (forall i, j :: 0 <= i < j < |pairs| ==> pairs[i].name != pairs[j].name)
  }

  /** Appending the pair of a key not listed yet lists one key more. */
  lemma ListsKeysOnceExtend(pairs: seq<NameValue>, keys: set<string>, m: map<string, string>, key: string)
    requires ListsKeysOnce(pairs, keys, m) && key in m && key !in keys
    ensures ListsKeysOnce(pairs + [NameValue(key, m[key])], keys + {key}, m)
  {
    var next := pairs + [NameValue(key, m[key])];
    assert forall i :: 0 <= i < |pairs| ==> next[i] == pairs[i];
    forall k | k in keys + {key}
      ensures exists i :: 0 <= i < |next| && next[i].name == k
    {
      if k == key {
        assert next[|pairs|].name == k;
      } else {
        var i :| 0 <= i < |pairs| && pairs[i].name == k;
        assert next[i].name == k;
      }
    }
  }

  /**
  `queryString(map)`: one query parameter per key of `parameters`, each with
  that key's value, appended after the existing ones. The map's key-set
  iteration order is unspecified, so the key to append next is chosen
  arbitrarily among those not yet appended.
  */
  method QueryStringMap(b: Builder, parameters: map<string, string>) returns (r: Builder)
    ensures r == b.(query := r.query)
    ensures |r.query| == |b.query| + |parameters|
    ensures r.query[..|b.query|] == b.query
    ensures ListsKeysOnce(r.query[|b.query|..], parameters.Keys, parameters)
    ensures Wf(b) ==> Wf(r)
  {
    var added: seq<NameValue> := [];
    var remaining := parameters.Keys;
    ghost var visited: set<string> := {};
    while remaining != {}
      invariant remaining !! visited && remaining + visited == parameters.Keys
      invariant ListsKeysOnce(added, visited, parameters)
      decreases remaining
    {
      var key :| key in remaining;
      ListsKeysOnceExtend(added, visited, parameters, key);
      added := added + [NameValue(key, parameters[key])];
      remaining := remaining - {key};
      visited := visited + {key};
    }
    r := b.(query := b.query + added);
    assert r.query[..|b.query|] == b.query;
    assert r.query[|b.query|..] == added;
  }

  /**
  `body(contents)`: on an entity-enclosing request the body becomes `contents`
  (replacing any earlier body); on any other request nothing changes and no
  error is raised.
  */
  function Body(b: Builder, contents: string): (r: Builder)
    ensures b.shape == EntityEnclosing ==> r.body == Some(contents)
    ensures r == b.(body := r.body)
    ensures b.shape == NonEntityEnclosing ==> r == b
    ensures Wf(b) ==> Wf(r)
  {
    match b.shape
    case EntityEnclosing => b.(body := Some(contents))
    case NonEntityEnclosing => b
  }

  /**
  `bodyAsJsonNode(node)`: on an entity-enclosing request `node` is serialised
  (`serialize` stands for Jackson; None when it throws) and becomes the body.
  On any other request nothing changes, no error is raised, and the node is
  not even serialised.
  */
  function BodyAsJsonNode<J>(b: Builder, node: J, serialize: J -> Option<string>): (r: Result<Builder>)
    ensures b.shape == NonEntityEnclosing ==> r == Ok(b)
    ensures b.shape == EntityEnclosing ==> (r.Ok? <==> serialize(node).Some?)
    ensures r.Err? ==> r.error == JsonProcessing
    ensures b.shape == EntityEnclosing && r.Ok? ==> r.value.body == Some(serialize(node).value)
    ensures r.Ok? ==> r.value == b.(body := r.value.body)
    ensures r.Ok? && Wf(b) ==> Wf(r.value)
  {
    match b.shape
    case NonEntityEnclosing => Ok(b)
    case EntityEnclosing =>
      match serialize(node)
      case None => Err(JsonProcessing)
      case Some(contents) => Ok(b.(body := Some(contents)))
  }

  /** Of two body-setting calls the last wins, in any combination of `body` and `bodyAsJsonNode`. */
  lemma LastBodyWins<J>(b: Builder, first: string, second: string, node: J, serialize: J -> Option<string>)
    ensures Body(Body(b, first), second) == Body(b, second)
    ensures BodyAsJsonNode(b, node, serialize).Ok? ==>
              Body(BodyAsJsonNode(b, node, serialize).value, second) == Body(b, second)
    ensures BodyAsJsonNode(Body(b, first), node, serialize) == BodyAsJsonNode(b, node, serialize)
  {
  }
}
