/**
`execute`: resolving the URI the request goes to, handing the request to the
transport once, and shutting the transport's connection manager down in a
`finally` block.

Foreign collaborators are parameters: `validUri` stands for `java.net.URI`'s
parser, `format` for `URLEncodedUtils.format(pairs, "UTF-8")`, and `outcome`
for whatever the transport does with the request (any value may be passed, so
the transport's behaviour is unconstrained).
*/
module Execute {
  import opened Http
  import opened WeakRest

  /**
  The URI the request is sent to. Only a request without an entity that has
  accumulated query parameters gets `?` and the formatted pairs appended to
  the base URI's text, and that text is parsed again (which may fail); every
  other request goes to the base URI itself.
  */
  function ResolveUri(b: Builder, validUri: string -> bool, format: seq<NameValue> -> string): (r: Result<Uri>)
    ensures b.shape == EntityEnclosing || b.query == [] ==> r == Ok(b.uri)
    ensures b.shape == NonEntityEnclosing && b.query != [] ==>
              && (r.Ok? <==> validUri(b.uri.text + "?" + format(b.query)))
              && (r.Ok? ==> r.value.text == b.uri.text + "?" + format(b.query))
    ensures r.Err? ==> r.error == UriSyntax
    ensures r.Ok? ==> b.uri.text <= r.value.text
  {
    match b.shape
    case EntityEnclosing => Ok(b.uri)
    case NonEntityEnclosing =>
      if |b.query| > 0 then
        var text := b.uri.text + "?" + format(b.query);
        if validUri(text) then Ok(Uri(text)) else Err(UriSyntax)
      else
        Ok(b.uri)
  }

  /** The query parameters reach the URI exactly when the request has no entity and at least one was added. */
  lemma QueryReachesUriIffNonEntity(b: Builder, validUri: string -> bool, format: seq<NameValue> -> string)
    requires ResolveUri(b, validUri, format).Ok?
    ensures ResolveUri(b, validUri, format).value != b.uri <==> b.shape == NonEntityEnclosing && b.query != []
  {
    if b.shape == NonEntityEnclosing && b.query != [] {
      assert |ResolveUri(b, validUri, format).value.text| > |b.uri.text|;
    }
  }

  /** An entity-enclosing request's URI does not depend on the query parameters at all. */
  lemma EntityEnclosingIgnoresQuery(b: Builder, query: seq<NameValue>,
                                    validUri: string -> bool, format: seq<NameValue> -> string)
    requires b.shape == EntityEnclosing
    ensures ResolveUri(b.(query := query), validUri, format) == ResolveUri(b, validUri, format) == Ok(b.uri)
  {
  }

  /**
  The request handed to the transport: the builder's method, the resolved URI,
  the headers of the request in use in the order added, and a body only if the
  request encloses an entity.
  */
  function Outbound(b: Builder, uri: Uri): Request {
    Request(b.verb, uri, b.headers, if b.shape == EntityEnclosing then b.body else None)
  }

  /**
  `execute()`. A failure to parse the resolved URI is raised before the
  `try` block is entered: no call is made and nothing is released. Otherwise
  exactly one request goes to the transport and the connection manager is
  shut down exactly once, whatever happens next. A reply with an entity gives
  a response with its status and drained body, whatever the status. A reply
  without an entity makes the drain throw after the call was made, so there is
  no response. A transport failure propagates with no response.
  */
  method Execute(b: Builder, validUri: string -> bool, format: seq<NameValue> -> string,
                 outcome: TransportOutcome)
    returns (response: Result<RestResponse>, calls: seq<Request>, after: Builder)
    ensures after == b.(released := after.released)
    ensures after.released == b.released + |calls|
    ensures |calls| <= 1
    ensures calls == [] <==> ResolveUri(b, validUri, format).Err?
    ensures calls == [] ==> response == Err(UriSyntax)
    ensures calls != [] ==> calls[0] == Outbound(b, ResolveUri(b, validUri, format).value)
    ensures calls != [] ==> calls[0].verb == b.verb && calls[0].headers == b.headers
    ensures calls != [] && Wf(b) ==> calls[0].body == b.body
    ensures response.Ok? <==> calls != [] && outcome.Completed? && outcome.entity.Some?
    ensures calls != [] && outcome.Completed? && outcome.entity.Some? ==>
              response == Ok(RestResponse(outcome.status, outcome.entity.value))
    ensures calls != [] && outcome.Completed? && outcome.entity.None? ==> response == Err(NoEntity)
    ensures calls != [] && outcome.Failed? ==> response == Err(Io(outcome.detail))
  {
    var resolved := ResolveUri(b, validUri, format);
    if resolved.Err? {
      return Err(resolved.error), [], b;
    }
    var request := Outbound(b, resolved.value);
    calls := [request];
    // try
    match outcome {
      case Completed(status, Some(body)) =>
        response := Ok(RestResponse(status, body));
      case Completed(_, None) =>
        // EntityUtils.toString rejects a null entity
        response := Err(NoEntity);
      case Failed(detail) =>
        response := Err(Io(detail));
    }
    // finally: the connection manager's shutdown()
    after := b.(released := b.released + 1);
  }
}
