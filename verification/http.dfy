/**
 The parts of a request, a response and a raised exception that the metrics
 middleware looks at.  The web framework, the routing table and the handlers
 behind the middleware are not modelled; their combined effect on one request
 is an `Outcome` supplied from outside.
 */
module Http {
  import opened Optional

  /**
   The route object the router leaves under the request scope's `"route"`
   key.  `path` is the object's `path` attribute, the declared template such
   as `/groups/{id}`; `None` is a route object that has no such attribute.
   */
  datatype Route = Route(path: Option<string>)

  /** An inbound request: its HTTP method (`verb`), the raw URL path, and the matched route if any. */
  datatype Request = Request(verb: string, urlPath: string, route: Option<Route>)

  /** A response produced downstream; `body` stands for everything except the status. */
  datatype Response = Response(statusCode: int, body: string)

  /**
   A raised exception.  `isException` tells whether its class derives from
   `Exception`; when it is false it is a bare `BaseException` such as a task
   cancellation, which an `except Exception` clause does not catch.
   */
  datatype Raisable = Raisable(name: string, isException: bool)

  /** How a call into the rest of the application ends: it returns or it raises. */
  datatype Outcome = Returned(response: Response) | Raised(error: Raisable)

}
