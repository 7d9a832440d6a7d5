/**
 * The part of an HTTP response object the controllers use: a status code and a
 * JSON body, each unset until a controller writes it.
 */
module Http {
  import opened Wrappers

  class Response<B> {
    var statusCode: Option<int>
    var body: Option<B>

    /** A response nothing has been written to yet. */
    constructor ()
      ensures statusCode == None && body == None
    {
      statusCode := None;
      body := None;
    }

    /** `res.status(code)`: sets the status code and leaves the body as it is. */
    method Status(code: int)
      modifies this
      ensures statusCode == Some(code) && body == old(body)
    {
      statusCode := Some(code);
    }

    /** `res.json(payload)`: sends the body and leaves the status code as it is. */
    method Json(payload: B)
      modifies this
      ensures body == Some(payload) && statusCode == old(statusCode)
    {
      body := Some(payload);
    }
  }
}
