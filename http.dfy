/** The HTTP responses the webhook sends back to its caller. */
module Http {

  /** A response body: plain text, nothing at all (`res.send(undefined)`),
      or the JSON object of the error middleware. */
  datatype Body = Text(text: string) | Empty | ErrorJson(error: string, message: string)

  datatype Response = Response(status: int, body: Body)

  /** The JavaScript runtime's TypeError for reading a property of `undefined`. */
  datatype TypeError = ReadOfUndefined(property: string)

  /** `error.message` of such a TypeError, in the V8 wording. */
  function ErrorMessage(e: TypeError): string
  {
    ErrorPrefix + e.property + ErrorSuffix
  }

  const ErrorPrefix: string := "Cannot read properties of undefined (reading '"
  const ErrorSuffix: string := "')"

  /** The message names the property whose read failed, so different failing
      reads give different messages. */
  lemma {:induction false} ErrorMessageIdentifiesRead(a: TypeError, b: TypeError)
    ensures ErrorMessage(a) == ErrorMessage(b) <==> a == b
  {
    if ErrorMessage(a) == ErrorMessage(b) {
      var m := ErrorMessage(a);
      assert |a.property| == |b.property|;
      assert a.property == m[|ErrorPrefix|..|m| - |ErrorSuffix|];
      assert b.property == m[|ErrorPrefix|..|m| - |ErrorSuffix|];
    }
  }

  /** The error-handling middleware: every uncaught error of a route becomes
      a 500 whose JSON body carries a fixed label and the error's message. */
  function InternalError(e: TypeError): (r: Response)
    ensures r.status == 500
    ensures r.body.ErrorJson? && r.body.error == "Internal server error"
    ensures r.body.message == ErrorMessage(e)
  {
    Response(500, ErrorJson("Internal server error", ErrorMessage(e)))
  }
}
