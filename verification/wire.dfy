/** Values that cross the relay's HTTP boundary: request bodies, connection handles and
    the responses the relay writes on them. */
module Wire {

  datatype Option<+T> = None | Some(value: T)

  /** A request body as handed to the protocol layer. A GET carries none (JavaScript's
      `undefined`); a POST carries a parsed JSON value, kept opaque as its text. */
  datatype Body = Undefined | Json(text: string)

  /** An open HTTP response object, known to the model only by an identity. */
  type ConnId = nat

  /** The body of an `ok200()` reply with no argument: `JSON.stringify({})`. */
  const EmptyObject: string := "{}"

  /** The plain-text body of the fallback 404 reply. */
  const NotFoundText: string := "NOT FOUND"

  /** How the relay completes a connection. */
  datatype Response =
    | Delivered(msg: Body)        // 200, application/json, the queued message
    | EndedEmpty                  // `client.end()` with no body: a cancelled long poll
    | Json200(json: string)       // `ok200()`: 200, application/json
    | Text404(text: string)       // 404, text/plain
    | Collaborator                // answered by the UI/file services, outside this model

  datatype Completion = Completion(conn: ConnId, response: Response)

  /** An exception that escapes the request handler (and so ends the process). */
  datatype Fault =
    | UserAgentUndefined          // `clientUa.replace` on a missing User-Agent header
    | DispatcherUndefined         // a method called on an undefined dispatcher

  /** Bodies of the `Delivered` completions in `sent`, in order. */
  function DeliveredBodies(sent: seq<Completion>): (r: seq<Body>)
    ensures |r| <= |sent|
  {
    if sent == [] then []
    else
      (if sent[0].response.Delivered? then [sent[0].response.msg] else [])
      + DeliveredBodies(sent[1..])
  }

  lemma {:induction false} DeliveredBodiesAppend(a: seq<Completion>, b: seq<Completion>)
    ensures DeliveredBodies(a + b) == DeliveredBodies(a) + DeliveredBodies(b)
  {
    if a == [] {
      assert a + b == b;
    } else {
      var head := if a[0].response.Delivered? then [a[0].response.msg] else [];
      assert (a + b)[0] == a[0] && (a + b)[1..] == a[1..] + b;
      assert DeliveredBodies(a + b) == head + DeliveredBodies(a[1..] + b);
      DeliveredBodiesAppend(a[1..], b);
      assert DeliveredBodies(a) == head + DeliveredBodies(a[1..]);
    }
  }
}
