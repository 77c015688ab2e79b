/** The two Express objects the authentication guard acts on: the response it
    may write a status and a JSON body to, and the `next` continuation it may
    call. Both are modelled as recorders of what was done to them. */
module Express {
  import opened JsValues

  /** A JSON body of the form `{message: string}`. */
  datatype Body = Body(message: string)

  class Response {
    /** The status last written with `status(..)`, if any. */
    var statusCode: Option<int>
    /** The JSON body last written with `json(..)`, if any. */
    var jsonBody: Option<Body>
    /** The status in effect when the last JSON body was sent, if any. */
    var sentStatus: Option<int>
    /** How many times a JSON body was sent. */
    var sent: nat

    constructor ()
      ensures statusCode == None && jsonBody == None && sentStatus == None && sent == 0
    {
      statusCode := None;
      jsonBody := None;
      sentStatus := None;
      sent := 0;
    }

    /** `res.status(code)`: records the status and returns the response itself for chaining. */
    method Status(code: int) returns (r: Response)
      modifies this
      ensures r == this
      ensures statusCode == Some(code)
      ensures jsonBody == old(jsonBody) && sentStatus == old(sentStatus) && sent == old(sent)
    {
      statusCode := Some(code);
      r := this;
    }

    /** `res.json(body)`: sends the body with the status set so far and
        returns the response itself. */
    method Json(body: Body) returns (r: Response)
      modifies this
      ensures r == this
      ensures jsonBody == Some(body) && sentStatus == old(statusCode) && sent == old(sent) + 1
      ensures statusCode == old(statusCode)
    {
      jsonBody := Some(body);
      sentStatus := statusCode;
      sent := sent + 1;
      r := this;
    }
  }

  /** The `next` continuation; it only counts how often it is invoked (always with no arguments). */
  class NextFunction {
    var calls: nat

    constructor ()
      ensures calls == 0
    {
      calls := 0;
    }

    method Call()
      modifies this
      ensures calls == old(calls) + 1
    {
      calls := calls + 1;
    }
  }
}
