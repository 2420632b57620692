/**
 * The boundary of the HTTP transport (`Util.openUrl`), whose code is not part of
 * this model: the call it is given and the ways it can end.
 */
module Transport {

  /** One call to the transport: the joined URL, the verb and the parameters sent. */
  datatype HttpCall = HttpCall(url: string, httpMethod: string, params: map<string, string>)

  /**
   * The exception classes of the request path. `FileNotFoundException` and
   * `MalformedURLException` are both subclasses of `IOException`.
   */
  datatype ExceptionClass = FileNotFoundException | MalformedURLException | IOException

  /** `thrown instanceof caught` for the three classes above. */
  predicate InstanceOf(thrown: ExceptionClass, caught: ExceptionClass)
  {
    thrown == caught || caught == IOException
  }

  /** A thrown exception: its dynamic class and its message. */
  datatype IOError = IOError(cls: ExceptionClass, message: string)

  /** The transport either returns the response body or throws. */
  datatype TransportOutcome = Returned(response: string) | Threw(error: IOError)
}
