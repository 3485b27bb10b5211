/** The writing side of output.go: `send`, which writes one payload to the
    transport, `buildAndSend`, which builds a payload and sends it, and `Send`,
    which validates and completes a caller-built payload before sending it.
    JSON encoding is a parameter (`marshal`); so are the clock (`now`) and
    `http.StatusText` (`statusText`). */
module Output {
  import opened Wrappers
  import opened Clock
  import opened Envelope
  import opened Transport
  import opened Text

  const ContentTypeHeader := "Content-Type"
  const JsonContentType := "application/json; charset=UTF-8"

  /** What `json.Marshal` gives for a payload: the encoding, or an error
      (with a nil byte slice). */
  datatype Marshaled = Json(bytes: seq<byte>) | MarshalError(text: string)

  /** The bytes `send` writes: the encoding, or nothing when encoding failed. */
  function BodyOf(m: Marshaled): seq<byte> {
    if m.Json? then m.bytes else []
  }

  /** The error `send` returns: the encoding error, if any. */
  function ErrorOf(m: Marshaled): (err: Option<SendError>)
    ensures err.None? <==> m.Json?
    ensures m.MarshalError? ==> err == Some(MarshalFailure(m.text))
  {
    if m.Json? then None else Some(MarshalFailure(m.text))
  }

  /** The writes of one `send`, in order: the status code, then the content
      type, then the body. */
  function SendTrace(code: int, m: Marshaled): seq<Event> {
    [StatusWritten(code), HeaderSet(ContentTypeHeader, JsonContentType), BodyWritten(BodyOf(m))]
  }

  /** `send`: writes the status, the content type and the encoded payload, and
      returns the encoding error afterwards, so a failed encoding still leaves
      a status, a header and an empty body behind. */
  method SendPayload(p: Payload, w: ResponseWriter, code: int, marshal: Payload -> Marshaled)
    returns (err: Option<SendError>)
    modifies w
    ensures w.events == old(w.events) + SendTrace(code, marshal(p))
    ensures err == ErrorOf(marshal(p))
  {
    w.WriteHeader(code);
    w.SetHeader(ContentTypeHeader, JsonContentType);
    var m := marshal(p);
    w.Write(BodyOf(m));
    err := ErrorOf(m);
  }

  /** `buildAndSend`: sends the payload `Build` makes from the fields, stamped
      with the instant `now`. The shorthand replies of the Envelope module are
      the payloads and codes it is called with. */
  method BuildAndSend(ok: bool, msgType: string, msgData: Data, errData: ErrorPayload,
                      w: ResponseWriter, code: int, now: Instant, marshal: Payload -> Marshaled)
    returns (err: Option<SendError>)
    modifies w
    ensures var p := Build(ok, msgType, msgData, errData, now);
      w.events == old(w.events) + SendTrace(code, marshal(p)) && err == ErrorOf(marshal(p))
  {
    var p := Build(ok, msgType, msgData, errData, now);
    err := SendPayload(p, w, code, marshal);
  }

  /** `Send`: completes a caller-built payload step by step (timestamp, OK,
      topic), rejecting a code below 100 before anything is written, and then
      sends what the payload has become. */
  method Send(p: Payload, w: ResponseWriter, code: int, now: Instant,
              statusText: int -> string, marshal: Payload -> Marshaled)
    returns (err: Option<SendError>)
    modifies w
    ensures code < StatusContinue ==> err == Some(InvalidResponseCode) && w.events == old(w.events)
    ensures code >= StatusContinue ==>
      var q := Normalize(p, code, now, statusText).value;
      w.events == old(w.events) + SendTrace(code, marshal(q)) && err == ErrorOf(marshal(q))
  {
    var q := p;
    if IsBlank(q.datetime) {
      q := q.(datetime := Timestamp(now));
    }
    if HasErrorData(q) {
      q := q.(ok := false);
    }
    if code < StatusContinue {
      err := Some(InvalidResponseCode);
      return;
    }
    if IsBlank(q.msgType) {
      q := q.(msgType := TypeFromCode(code, statusText));
    }
    err := SendPayload(q, w, code, marshal);
  }
}
