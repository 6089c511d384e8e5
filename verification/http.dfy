/**
The values exchanged between the WeakRest request builder and the HTTP
transport it drives: methods and request shapes, name/value pairs (used both
for headers and for query parameters), the outbound request, the response
value, and the error outcomes the builder can surface.

The transport itself, URI parsing, form-encoding, Basic-scheme encoding and
JSON handling are foreign library code; the builder only sees them through
function-valued parameters (see the WeakRest and Execute modules).
*/
module Http {

  /** Java's `int`: the width of timeouts and status codes in the client. */
  type Int32 = x: int | -0x8000_0000 <= x < 0x8000_0000

  /** The four request kinds the client can build, one per factory. */
  datatype Method = GET | PUT | POST | DELETE

  /** Whether a request may carry a body (an entity) or not. */
  datatype Shape = EntityEnclosing | NonEntityEnclosing

  /** POST and PUT enclose an entity; GET and DELETE do not. */
  function ShapeOf(m: Method): (s: Shape)
    ensures s == EntityEnclosing <==> m in {PUT, POST}
  {
    match m
    case GET => NonEntityEnclosing
    case DELETE => NonEntityEnclosing
    case PUT => EntityEnclosing
    case POST => EntityEnclosing
  }

  /** A header line or a query parameter: an ordered (name, value) pair. */
  datatype NameValue = NameValue(name: string, value: string)

  /** A parsed URI; `text` is what its `toString` gives back. */
  datatype Uri = Uri(text: string)

  /** The connection and socket timeouts as applied to the transport's parameters. */
  datatype TransportParams = TransportParams(connectionTimeout: Int32, soTimeout: Int32)

  datatype Option<+T> = None | Some(value: T)

  /** The request handed to the transport by one `execute`. */
  datatype Request = Request(verb: Method, uri: Uri, headers: seq<NameValue>, body: Option<string>)

  /** Status code and drained body of a completed call. */
  datatype RestResponse = RestResponse(statusCode: Int32, responseBody: string)

  /**
  What the transport did with a request. `Completed` is a reply with its
  status and, if the reply has an entity, the entity decoded with the reply's
  charset, or UTF-8 if it names none; replies without an entity (204, 205,
  304) have `entity == None`. `Failed` is an exception from the transport or
  from draining the entity: an `IOException` (including `ClientProtocolException`),
  or the `IllegalStateException` a connection manager that was already shut
  down raises.
  */
  datatype TransportOutcome = Completed(status: Int32, entity: Option<string>) | Failed(detail: string)

  /**
  The exceptions the client lets escape: `URISyntaxException`,
  `AuthenticationException`, `JsonProcessingException`, every failure of the
  transport (`Io`), and the `IllegalArgumentException` that draining a reply
  without an entity raises (`NoEntity`).
  */
  datatype Error = UriSyntax | Authentication | JsonProcessing | Io(detail: string) | NoEntity

  datatype Result<+T> = Ok(value: T) | Err(error: Error)

  /** ASCII lower case of one character; header names are ASCII tokens. */
  function LowerChar(c: char): char {
    if 'A' <= c <= 'Z' then (c as int + 32) as char else c
  }

  /** ASCII lower case of a string. */
  function Lower(s: string): (r: string)
    ensures |r| == |s|
  {
    seq(|s|, i requires 0 <= i < |s| => LowerChar(s[i]))
  }

  /** Header names are compared without regard to case: `authorization` and `Authorization` name one header. */
  predicate SameHeaderName(a: string, b: string) {
    Lower(a) == Lower(b)
  }

  /** Number of pairs in `pairs` whose name is `name`, ignoring case. */
  function CountNamed(pairs: seq<NameValue>, name: string): (n: nat)
    ensures n <= |pairs|
  {
    if pairs == [] then 0
    else CountNamed(pairs[..|pairs| - 1], name) + (if SameHeaderName(pairs[|pairs| - 1].name, name) then 1 else 0)
  }

  /** Appending one pair adds one to its name's count and leaves every other name's count alone. */
  lemma {:induction false} CountNamedAppend(pairs: seq<NameValue>, pair: NameValue, name: string)
    ensures CountNamed(pairs + [pair], name)
            == CountNamed(pairs, name) + (if SameHeaderName(pair.name, name) then 1 else 0)
  {
    assert (pairs + [pair])[..|pairs + [pair]| - 1] == pairs;
  }
}
