/** The error record built from a failure envelope (`Error` in Error.php):
    five fields, set together by the constructor and one at a time by the
    setters. The envelope's values are kept as decoded, whatever their
    JSON kind. */
module Errors {
  import opened PhpValues
  import opened Requests

  class Error {
    var code: Json
    var detail: Json
    var message: Json
    var request: Request
    var errorType: Json

    /** Every argument is optional: an empty request, "" for message, type
        and detail, and 0 for the code. */
    constructor (request: Request := EmptyRequest, message: Json := Str(""), errorType: Json := Str(""),
                 code: Json := Num(0), detail: Json := Str(""))
      ensures this.request == request && this.message == message && this.errorType == errorType
      ensures this.code == code && this.detail == detail
    {
      this.code := code;
      this.detail := detail;
      this.message := message;
      this.request := request;
      this.errorType := errorType;
    }

    method GetCode() returns (c: Json)
      ensures c == code
    {
      c := code;
    }

    method SetCode(code: Json)
      modifies this
      ensures this.code == code
      ensures detail == old(detail) && message == old(message) && request == old(request) && errorType == old(errorType)
    {
      this.code := code;
    }

    method GetDetail() returns (d: Json)
      ensures d == detail
    {
      d := detail;
    }

    method SetDetail(detail: Json)
      modifies this
      ensures this.detail == detail
      ensures code == old(code) && message == old(message) && request == old(request) && errorType == old(errorType)
    {
      this.detail := detail;
    }

    method GetMessage() returns (m: Json)
      ensures m == message
    {
      m := message;
    }

    method SetMessage(message: Json)
      modifies this
      ensures this.message == message
      ensures code == old(code) && detail == old(detail) && request == old(request) && errorType == old(errorType)
    {
      this.message := message;
    }

    method GetRequest() returns (r: Request)
      ensures r == request
    {
      r := request;
    }

    method SetRequest(request: Request)
      modifies this
      ensures this.request == request
      ensures code == old(code) && detail == old(detail) && message == old(message) && errorType == old(errorType)
    {
      this.request := request;
    }

    method GetType() returns (t: Json)
      ensures t == errorType
    {
      t := errorType;
    }

    method SetType(errorType: Json)
      modifies this
      ensures this.errorType == errorType
      ensures code == old(code) && detail == old(detail) && message == old(message) && request == old(request)
    {
      this.errorType := errorType;
    }
  }
}
