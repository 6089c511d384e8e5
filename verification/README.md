# WeakRest request builder, modelled in Dafny

`WeakRestClient` is a small fluent HTTP client. A factory (`get`, `put`,
`post`, `delete`) parses the target URL and fixes the request shape for the
builder's whole life. GET and DELETE are non-entity-enclosing. PUT and POST are
entity-enclosing. Chained calls then add headers, a Basic `Authorization`
header, query parameters and a body, and set timeouts. `execute` resolves the
URI, hands one request to the Apache HttpClient transport, and shuts the
transport's connection manager down in a `finally` block.

This project models that builder as an immutable record (`WeakRest.Builder`).
Every chained call is a pure transition from one record to the next, and
`execute` is a method over an arbitrary transport outcome. The record holds:

- the method and the shape;
- the base URI;
- the class's two timeout fields and the timeouts applied to the transport;
- the header list and the optional body;
- the query pairs;
- a `released` counter that counts connection-manager shutdowns.

Files:

- `http.dfy` (module `Http`): methods, shapes, name/value pairs, the outbound
  request, `RestResponse`, the error outcomes, and a count of header lines by name.
- `builder.dfy` (module `WeakRest`): the builder, the well-formedness invariant
  `Wf`, the factories and every configuration call.
- `execute.dfy` (module `Execute`): URI resolution, the outbound request and
  `execute`.
- `chain.dfy` (module `Chain`): arbitrary chains of configuration calls and what
  any chain preserves or accumulates.

Foreign library calls are function-valued parameters with no constraint on them:

- `validUri` stands for `java.net.URI` parsing;
- `format` stands for `URLEncodedUtils.format(pairs, "UTF-8")`;
- `authenticate` stands for `BasicScheme.authenticate`, and `None` means it threw;
- `serialize` stands for Jackson's serialisation of a `JsonNode`, and `None` means it threw.

The transport's result is the `outcome` parameter of `Execute`, so it may be
any reply (a status, with or without an entity) or any failure.

The model follows the code as written. Five points of it are easy to miss:

- The timeout setters never read their argument. `setSocketTimeout(n)`
  re-applies the field `socketTimeoutMillis`, which is always 30000, and
  `setConnectionTimeout(n)` re-applies the field holding 10000. The applied
  timeouts therefore stay at 10000/30000 whatever is passed. The class's own
  usage example (WeakRestClient.java:48-61) calls `.setSocketTimeout(10000)`
  and `.setConnectionTimeout(10000)` expecting the argument to be applied.
  See "## Findings".
- In `execute`, the `new URI(base + "?" + query)` at WeakRestClient.java:197
  comes before the `try` at line 209, so the `finally` at lines 218-220 does
  not cover it. If that parse fails, no request is made, the error propagates,
  and the connection manager is NOT shut down. Every path that reaches the
  transport releases exactly once.
- `bodyAsJsonNode` on a GET or DELETE builder does not serialise its argument.
  So it cannot fail there, even for a node that would not serialise.
- A reply without an entity (204 No Content, 205, 304) makes
  `EntityUtils.toString(null, "UTF-8")` at WeakRestClient.java:215-216 throw
  `IllegalArgumentException` after the request was sent. `execute` then
  releases once and fails with `NoEntity`, so `delete(url).execute()` fails
  when the server answers 204.
- Calling `execute` a second time hands the request to the transport again and
  shuts the manager down again. `released` becomes 2. The transport's own
  behaviour after a shutdown (an `IllegalStateException`) is part of the
  arbitrary `outcome`, as a `Failed` one.

## Model

| member | source | states |
|---|---|---|
| WeakRest.New | src/main/java/com/owlab/commons/weakrest/WeakRestClient.java:74-85 | construction succeeds exactly when the URL parses (otherwise `URISyntaxException`); the new builder has no headers, query pairs or body, has never been released, and the transport has connect 10000 ms and socket 30000 ms applied |
| WeakRest.Get | src/main/java/com/owlab/commons/weakrest/WeakRestClient.java:117-122 | `get` fails only on an unparsable URL and gives a pristine, well-formed GET builder of non-entity-enclosing shape on that URL |
| WeakRest.Put | src/main/java/com/owlab/commons/weakrest/WeakRestClient.java:124-129 | `put` fails only on an unparsable URL and gives a pristine, well-formed PUT builder of entity-enclosing shape on that URL |
| WeakRest.Post | src/main/java/com/owlab/commons/weakrest/WeakRestClient.java:131-136 | `post` fails only on an unparsable URL and gives a pristine, well-formed POST builder of entity-enclosing shape on that URL |
| WeakRest.Delete | src/main/java/com/owlab/commons/weakrest/WeakRestClient.java:138-143 | `delete` fails only on an unparsable URL and gives a pristine, well-formed DELETE builder of non-entity-enclosing shape on that URL |
| WeakRest.SetSocketTimeout | src/main/java/com/owlab/commons/weakrest/WeakRestClient.java:103-108 | the applied socket timeout becomes the stored field's value, not the argument; nothing else changes, and on a well-formed builder the call changes nothing at all |
| WeakRest.SetConnectionTimeout | src/main/java/com/owlab/commons/weakrest/WeakRestClient.java:110-115 | the applied connection timeout becomes the stored field's value, not the argument; nothing else changes, and on a well-formed builder the call changes nothing at all |
| WeakRest.SetSocketTimeoutAsIntended | src/main/java/com/owlab/commons/weakrest/WeakRestClient.java:103-108 | corrected setter: both the stored and the applied socket timeout become the argument, and nothing else changes |
| WeakRest.SetConnectionTimeoutAsIntended | src/main/java/com/owlab/commons/weakrest/WeakRestClient.java:110-115 | corrected setter: both the stored and the applied connection timeout become the argument, and nothing else changes |
| WeakRest.SocketTimeoutArgumentIgnored | src/main/java/com/owlab/commons/weakrest/WeakRestClient.java:103-108 | on a fresh builder of any method, `setSocketTimeout(n)` for any n other than 30000 leaves 30000 applied, while the corrected setter applies n |
| WeakRest.ConnectionTimeoutArgumentIgnored | src/main/java/com/owlab/commons/weakrest/WeakRestClient.java:110-115 | on a fresh builder of any method, `setConnectionTimeout(n)` for any n other than 10000 leaves 10000 applied, while the corrected setter applies n |
| WeakRest.Header | src/main/java/com/owlab/commons/weakrest/WeakRestClient.java:145-152 | the header list grows by exactly one line, `(name, value)`, at the end; earlier lines and all other state are unchanged and well-formedness is kept |
| WeakRest.HeaderNeverDeduplicates | src/main/java/com/owlab/commons/weakrest/WeakRestClient.java:145-152 | after `header(name, value)` there is one more line named `name` than before, whatever was already there, and every name that differs from it in more than letter case keeps its count; names are compared ignoring ASCII case, as HTTP header names are |
| WeakRest.BasicAuth | src/main/java/com/owlab/commons/weakrest/WeakRestClient.java:154-165 | fails (`AuthenticationException`) exactly when the Basic scheme cannot encode the credentials; otherwise exactly one `Authorization` line with the encoded value is appended, and shape, body and query pairs are unchanged |
| WeakRest.BasicAuthAddsOneAuthorization | src/main/java/com/owlab/commons/weakrest/WeakRestClient.java:154-165 | `basicAuth` raises the number of `Authorization` lines, in any spelling, by exactly one, so a request that already had one ends up with at least two |
| WeakRest.BasicAuthDuplicatesAnySpelling | src/main/java/com/owlab/commons/weakrest/WeakRestClient.java:145-165 | a request that already carries a lower-case `authorization` line goes out with two such lines after `basicAuth` |
| WeakRest.QueryString | src/main/java/com/owlab/commons/weakrest/WeakRestClient.java:167-170 | the query pairs grow by exactly one, with `(name, value)` last and the earlier pairs as they were; nothing else changes |
| WeakRest.QueryStringMap | src/main/java/com/owlab/commons/weakrest/WeakRestClient.java:172-179 | the query pairs keep their old prefix and gain exactly one pair per key of the map, each with that key's value and no key twice, in an unspecified order; nothing else changes |
| WeakRest.Body | src/main/java/com/owlab/commons/weakrest/WeakRestClient.java:181-187 | on an entity-enclosing builder the body becomes the argument and nothing else changes; on a non-entity-enclosing builder the whole state is unchanged and no error is raised |
| WeakRest.BodyAsJsonNode | src/main/java/com/owlab/commons/weakrest/WeakRestClient.java:225-236 | on a non-entity-enclosing builder: unchanged state and no error, whatever the node; on an entity-enclosing builder: fails (`JsonProcessingException`) exactly when serialisation fails, otherwise the body becomes the serialised node |
| WeakRest.LastBodyWins | src/main/java/com/owlab/commons/weakrest/WeakRestClient.java:181-187 | of two body-setting calls, `body` or `bodyAsJsonNode` in any order, the second determines the body |
| Execute.ResolveUri | src/main/java/com/owlab/commons/weakrest/WeakRestClient.java:194-204 | an entity-enclosing request, or one without query pairs, goes to the base URI; otherwise it goes to `base + "?" + format(pairs)`, which fails exactly when that text does not parse; a resolved URI always extends the base |
| Execute.QueryReachesUriIffNonEntity | src/main/java/com/owlab/commons/weakrest/WeakRestClient.java:194-204 | the resolved URI differs from the base exactly when the request is non-entity-enclosing and has at least one query pair |
| Execute.EntityEnclosingIgnoresQuery | src/main/java/com/owlab/commons/weakrest/WeakRestClient.java:202-204 | for an entity-enclosing request the resolved URI is the base whatever the query pairs are |
| Execute.Execute | src/main/java/com/owlab/commons/weakrest/WeakRestClient.java:192-223 | at most one request reaches the transport, and none exactly when the resolved URI does not parse (then `URISyntaxException` and no release); a request that is sent carries the builder's method, the resolved URI and the headers in order, and on any builder reachable from a factory it carries exactly the builder's body (none for GET and DELETE); it is followed by exactly one release; there is a `RestResponse` exactly when the reply has an entity, and it then carries the reply's status (whatever it is) and drained body; a reply without an entity fails with `NoEntity` and a transport failure propagates, both with no response |
| Chain.Apply | src/main/java/com/owlab/commons/weakrest/WeakRestClient.java:103-187 | any single chained call keeps method, shape, base URI and release count and preserves well-formedness; only `basicAuth` and `bodyAsJsonNode` on an entity-enclosing builder can fail |
| Chain.Run | src/main/java/com/owlab/commons/weakrest/WeakRestClient.java:103-187 | any chain keeps method, shape, base URI and release count, preserves well-formedness, and only extends the header list and the query pairs |
| Chain.RunAppendsQueries | src/main/java/com/owlab/commons/weakrest/WeakRestClient.java:167-170 | after any chain the query pairs are the old ones followed by exactly the chain's `queryString` pairs, in call order |
| Chain.RunAppendsHeaders | src/main/java/com/owlab/commons/weakrest/WeakRestClient.java:145-165 | after any chain the headers are the old ones followed by exactly the chain's `header` lines and `Authorization` lines, in call order |
| Chain.RunLastBodyWins | src/main/java/com/owlab/commons/weakrest/WeakRestClient.java:181-187 | after any chain an entity-enclosing builder's body is that of its last body-setting call (or the earlier body if there was none), and a non-entity-enclosing builder's body is untouched |
| Chain.FactoryFixesShapeAndTimeouts | src/main/java/com/owlab/commons/weakrest/WeakRestClient.java:117-143 | after any factory and any chain, the builder keeps the factory's method, is entity-enclosing exactly for PUT and POST, and has connect 10000 ms and socket 30000 ms applied |
| Chain.GetQueryOrderPreserved | src/main/java/com/owlab/commons/weakrest/WeakRestClient.java:194-201 | `get(url).queryString("a","1").queryString("b","2")` resolves to `url?` followed by both pairs formatted in that order |
| Chain.BodyReachesOnlyEntityRequests | src/main/java/com/owlab/commons/weakrest/WeakRestClient.java:181-187 | `post(url).body("hello")` sends exactly `"hello"`; `get(url).body("hello")` leaves the builder as it was and sends no body |
| Chain.BasicAuthSingleHeader | src/main/java/com/owlab/commons/weakrest/WeakRestClient.java:154-165 | on a request with no `Authorization` line in any spelling, `basicAuth` leaves exactly one |

## Left out

- Apache HttpClient's execution of the request, its connection pool and its error taxonomy are left out because they are foreign network I/O. They are reduced to the arbitrary `outcome` of `Execute`, and the shutdown is reduced to the `released` counter.
- Registering the credentials with the credentials provider under an `AuthScope` of the URI's host and port (lines 155-158) is left out because it is transport-internal state. Only the header that `basicAuth` attaches is modelled.
- `URLEncodedUtils.format` and its UTF-8 percent-encoding are left out as library code. `format` is an unconstrained function of the pair sequence.
- `java.net.URI` parsing and validation are left out as library code. `validUri` is an unconstrained predicate on text, and `Uri.text` is what the URI's `toString` returns.
- The Base64 encoding of `user:password` in `BasicScheme.authenticate` (section 2 of RFC 7617) is left out as library code. `authenticate` gives the header value, or `None` when it throws.
- Jackson's `treeToValue` and `writeValueAsString` in `bodyAsJsonNode` are left out as library code. `serialize` gives the serialised text, or `None` on `JsonProcessingException`.
- `RestResponse.asJsonNode` is left out because it is only a Jackson `readTree` of the stored body.
- `StringEntity`'s ISO-8859-1 encoding of the body is left out as library code. The body is kept as the string passed. Its `UnsupportedEncodingException` can never be raised for that fixed charset.
- `EntityUtils.toString(entity, "UTF-8")` decoding (the reply's charset, or UTF-8 if it names none) is left out as library code. Its failures are part of the transport's `Failed` outcome.
- SLF4J debug logging and the `System.out` messages are left out because they are side effects only.
- Thread safety is left out because the class has no synchronisation and is used from one thread.
- Chain.Run: does not include `queryString(map)`, because that call's key order is chosen by the map. It is modelled on its own as `WeakRest.QueryStringMap`.

## Findings

| source | as written | input that shows it | evidently intended | confidence | as-written member | corrected member |
|---|---|---|---|---|---|---|
| src/main/java/com/owlab/commons/weakrest/WeakRestClient.java:103-108 | `setSocketTimeout` applies the field `this.socketTimeoutMillis` (always 30000) and never reads its parameter | `get(url).setSocketTimeout(10000)` still has a 30000 ms socket timeout applied | the argument is stored and applied, as the class's usage example assumes | high; not executed | WeakRest.SocketTimeoutArgumentIgnored | WeakRest.SetSocketTimeoutAsIntended |
| src/main/java/com/owlab/commons/weakrest/WeakRestClient.java:110-115 | `setConnectionTimeout` applies the field `this.connectionTimeoutMillis` (always 10000) and never reads its parameter | `get(url).setConnectionTimeout(5000)` still has a 10000 ms connection timeout applied | the argument is stored and applied, as the class's usage example assumes | high; not executed | WeakRest.ConnectionTimeoutArgumentIgnored | WeakRest.SetConnectionTimeoutAsIntended |

The builder model (`WeakRest.Builder`, `Chain.Run` and `Chain.FactoryFixesShapeAndTimeouts`) keeps the as-written setters, because it describes what the client actually does. The corrected setters are proved to apply their argument. They are kept beside the as-written setters for comparison.
