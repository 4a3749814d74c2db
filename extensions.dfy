/** `HTTPURLResponse.isHttpResponseValid`. */
module Extensions {
  /** The part of an HTTP response the app can see: its status code, and the header fields
      standing for everything else about it. */
  datatype HTTPURLResponse = HTTPURLResponse(statusCode: int, headerFields: map<string, string>)

  /** A response is valid when its status code is in the closed range 200...299, that is,
      exactly when it is a 2xx status: the status code's hundreds digit is 2. */
  predicate IsHttpResponseValid(response: HTTPURLResponse)
    ensures IsHttpResponseValid(response) <==> response.statusCode / 100 == 2
  {
    200 <= response.statusCode <= 299
  }

  /** Both ends of the range are included, and the codes just outside it are not. */
  lemma RangeBounds(headers: map<string, string>)
    ensures IsHttpResponseValid(HTTPURLResponse(200, headers))
    ensures IsHttpResponseValid(HTTPURLResponse(299, headers))
    ensures !IsHttpResponseValid(HTTPURLResponse(199, headers))
    ensures !IsHttpResponseValid(HTTPURLResponse(300, headers))
    ensures !IsHttpResponseValid(HTTPURLResponse(404, headers))
  {
  }

  /** Nothing but the status code is consulted. */
  lemma DependsOnStatusOnly(a: HTTPURLResponse, b: HTTPURLResponse)
    requires a.statusCode == b.statusCode
    ensures IsHttpResponseValid(a) == IsHttpResponseValid(b)
  {
  }
}
