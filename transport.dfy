/** The part of `http.ResponseWriter` the package uses, reduced to an
    append-only record of what was written, in order. What the transport does
    with the writes (the status line, header semantics, the connection) is not
    modelled. */
module Transport {

  newtype byte = b: int | 0 <= b < 256

  datatype Event =
    | StatusWritten(code: int)
    | HeaderSet(name: string, value: string)
    | BodyWritten(body: seq<byte>)

  class ResponseWriter {
    /** Every write made so far, oldest first. */
    var events: seq<Event>

    constructor ()
      ensures events == []
    {
      events := [];
    }

    /** `w.WriteHeader(code)`. */
    method WriteHeader(code: int)
      modifies this
      ensures events == old(events) + [StatusWritten(code)]
    {
      events := events + [StatusWritten(code)];
    }

    /** `w.Header().Set(name, value)`. */
    method SetHeader(name: string, value: string)
      modifies this
      ensures events == old(events) + [HeaderSet(name, value)]
    {
      events := events + [HeaderSet(name, value)];
    }

    /** `w.Write(body)`; the count and error it returns are ignored by the package. */
    method Write(body: seq<byte>)
      modifies this
      ensures events == old(events) + [BodyWritten(body)]
    {
      events := events + [BodyWritten(body)];
    }
  }
}
