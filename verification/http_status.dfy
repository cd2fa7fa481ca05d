/** The HTTP status codes the push handler can answer with, as registered in
    section 6 of RFC 7231 (and section 3.1 of RFC 7235 for 401), together
    with the status classes of section 6 of RFC 7231. */
module HttpStatus {

  /** A three-digit status code (RFC 7231 section 6: the first digit is the class). */
  type StatusCode = c: int | 100 <= c <= 599 witness 200

  const NoContent: StatusCode := 204        // RFC 7231 section 6.3.5
  const BadRequest: StatusCode := 400       // RFC 7231 section 6.5.1
  const Unauthorized: StatusCode := 401     // RFC 7235 section 3.1
  const NotFound: StatusCode := 404         // RFC 7231 section 6.5.4
  const Gone: StatusCode := 410             // RFC 7231 section 6.5.9
  const PayloadTooLarge: StatusCode := 413  // RFC 7231 section 6.5.11
  const NotImplemented: StatusCode := 501   // RFC 7231 section 6.6.2
  const BadGateway: StatusCode := 502       // RFC 7231 section 6.6.3
  const GatewayTimeout: StatusCode := 504   // RFC 7231 section 6.6.5

  /** 2xx: the request was received, understood and accepted. */
  predicate IsSuccessful(c: StatusCode) {
    200 <= c <= 299
  }

  /** 4xx: the client seems to have erred. */
  predicate IsClientError(c: StatusCode) {
    400 <= c <= 499
  }

  /** 5xx: the server is aware that it has erred or cannot perform the request. */
  predicate IsServerError(c: StatusCode) {
    500 <= c <= 599
  }
}
