/** The network as the clients see it: a request goes out, and either a
    decoded body or an error comes back. Transport, timeouts and JSON
    decoding are folded into the server's answer; what the model keeps is
    which requests were sent. */
module Http {
  import opened Base

  datatype Request = Request(url: string, headers: seq<(string, string)>)

  /** A remote endpoint answering each request with a decoded body of type
      T, or with the error that the request, the transport or the decoder
      reported. `requests` lists what was sent, oldest first. */
  class Remote<T> {
    const serve: Request -> Result<T>
    var requests: seq<Request>

    constructor (serve: Request -> Result<T>)
      ensures this.serve == serve && requests == []
    {
      this.serve := serve;
      requests := [];
    }

    /** client.Do followed by json.NewDecoder(rs.Body).Decode. */
    method Do(rq: Request) returns (r: Result<T>)
      modifies this`requests
      ensures r == serve(rq)
      ensures requests == old(requests) + [rq]
    {
      r := serve(rq);
      requests := requests + [rq];
    }
  }
}
