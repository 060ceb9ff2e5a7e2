/**
 * The JavaScript errors that reach the chat screen: `Error` objects thrown by
 * the application and the DOMExceptions with which `getUserMedia` rejects.
 * Both print through Error.prototype.toString (section 20.5.3.4 of ECMA-262).
 */
module JsErrors {

  /** A thrown error: its `name` and its `message`. */
  datatype JsError = JsError(name: string, message: string)

  /** Error.prototype.toString: `name: message`, or whichever of the two is non-empty. */
  function ToString(e: JsError): (r: string)
    ensures r == "" <==> e.name == "" && e.message == ""
    ensures e.name == "" ==> r == e.message
    ensures e.name != "" && e.message != "" ==> r == e.name + ": " + e.message
    ensures e.name != "" && e.message == "" ==> r == e.name
  {
    if e.name == "" then e.message
    else if e.message == "" then e.name
    else e.name + ": " + e.message
  }

  /** What `new Error(message)` throws. */
  function Error(message: string): JsError
  {
    JsError("Error", message)
  }

  /** The error `connect` throws when the page has no `navigator.mediaDevices.getUserMedia`. */
  const MediaDevicesMissing: JsError :=
    Error("navigator.mediaDevices.getUserMedia is not defined. Ensure you are using HTTPS or localhost.")

  /** The error the chat screen throws when no API key is configured. */
  const ApiKeyMissing: JsError := Error("API Key Missing")
}
