/**
 * The HTTP client (axios) at its boundary: a request is a GET or a POST of a
 * JSON body to a URL, and a response is either a parsed JSON payload or a
 * thrown error carrying a message. Status codes, timeouts and retries are not
 * modelled; any failure is a thrown error.
 */
module Transport {

  /** A parsed JSON value as the client sees `response.data`. */
  datatype Json =
    | JNull
    | JBool(b: bool)
    | JNumber(n: real)
    | JString(s: string)
    | JArray(elems: seq<Json>)
    | JObject(fields: map<string, Json>)

  /** `Array.isArray(data)`. */
  predicate IsArray(data: Json) {
    data.JArray?
  }

  datatype Request = Get(url: string) | Post(url: string, body: Json)

  /** What an awaited axios call yields: a payload, or the error it throws. */
  datatype Response = Data(payload: Json) | Thrown(message: string)

  /**
   * The network as the client sees it: a log of every request sent, in order,
   * and a server whose answer may depend on everything sent before (so a POST
   * can change what later GETs return).
   */
  class Network {
    var log: seq<Request>
    const server: (seq<Request>, Request) -> Response

    constructor (server: (seq<Request>, Request) -> Response)
      ensures log == [] && this.server == server
    {
      log := [];
      this.server := server;
    }

    method Send(req: Request) returns (resp: Response)
      modifies this
      ensures log == old(log) + [req]
      ensures resp == server(old(log), req)
    {
      resp := server(log, req);
      log := log + [req];
    }
  }
}
