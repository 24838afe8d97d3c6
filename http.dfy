/** One HTTP round trip to the chat-completions endpoint, as the gateway and
    the planner see it: `requests.post` either raises or yields a response
    whose status, text and JSON body (when the body parses) are all that the
    callers read. The endpoint itself is not part of this model. */
module Http {
  import opened Common
  import opened PyValue

  datatype HttpExchange =
    | NetworkError(message: string)
    | Response(status: int, text: string, body: Option<Value>)
  {
    /** `response.json()`: a body that does not parse raises `JSONDecodeError`,
        which is a `RequestException`. */
    function Json(): (r: Outcome<Value>)
      requires Response?
      ensures r.Returned? <==> body.Some?
      ensures r.Raised? ==> r.exc.cls == RequestException
    {
      if body.Some? then Returned(body.value) else Raised(Exc(RequestException, "Invalid JSON in response body"))
    }
  }
}
