/**
 * The pieces of the HTTP exchange the wrappers touch: the request URL (an endpoint plus an
 * ordered list of query pairs, as `reqwest::Url` keeps them), the request that is sent, and
 * the reply that comes back. Sending itself is outside the model: a reply is handed in.
 */
module Http {
  import opened Wrappers
  import opened Json

  /** One `key=value` query pair, before form-urlencoding. */
  type Pair = (string, string)

  /** `reqwest::Url`, reduced to its endpoint and its query pairs. */
  class Url {
    const endpoint: string
    var query: seq<Pair>

    /** `Url::parse` of an endpoint that carries no query. */
    constructor Parse(endpoint: string)
      ensures this.endpoint == endpoint && query == []
    {
      this.endpoint := endpoint;
      query := [];
    }

    /** `url.query_pairs_mut().append_pair(name, value)`: adds one pair at the end. */
    method AppendPair(name: string, value: string)
      modifies this
      ensures query == old(query) + [(name, value)]
    {
      query := query + [(name, value)];
    }
  }

  datatype Verb = GET | POST

  /** What the client puts on the wire: verb, URL, query and the Authorization header value. */
  datatype Request = Request(verb: Verb, endpoint: string, query: seq<Pair>, authorization: string)

  /** The `Authorization` header value, `format!("Bearer {}", token)`. */
  function Bearer(token: string): string {
    "Bearer " + token
  }

  /** An HTTP status code as `http::StatusCode` admits it. */
  type StatusCode = x: int | 100 <= x <= 999 witness 200

  /** `Response::error_for_status` fails exactly for client errors (4xx) and server errors (5xx). */
  predicate IsErrorStatus(status: StatusCode) {
    400 <= status <= 599
  }

  /**
   * The outcome of `send().await`: the request never got an answer, or a status with a body;
   * the body is None when it is not JSON (or cannot be read).
   */
  datatype HttpReply =
    | Unanswered
    | Reply(status: StatusCode, body: Option<Json>)
}
