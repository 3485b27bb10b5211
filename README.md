# output: the response envelope of an HTTP API, in Dafny

The Go package `output` gives every HTTP API response the same shape. The shape is a
`Payload` envelope holding a success flag (`OK`), a topic string (`Type`), opaque
application data (`Data`), error details (`ErrorData`: a lower-level error text and a
human-readable message) and a UTC timestamp (`Datetime`). There are two ways to send one:

- Shorthand entry points (`Success`, `Error` and their wrappers) build the whole
  envelope themselves and always send it with status 200 or 500.
- `Send` takes an envelope the caller built, with any status code. It fills the gaps in
  four fixed steps:
  1. It stamps a blank timestamp.
  2. It forces `OK` to false when error details are present.
  3. It rejects a code below 100 before anything is written.
  4. It makes up a topic `"<code>-<reason phrase>"` when `Type` is blank.

The model has five modules:

- `Text` (`text.dfy`): Go's white-space test `strings.TrimSpace(s) == ""`, written with
  `unicode.IsSpace`. Also the decimal rendering used by `%d` and by the zero-padded fields
  of a time layout, with a parser beside it so that round trips can be stated.
- `Clock` (`clock.dfy`): the timestamp `time.Format("2006-01-02T15:04:05.000") + "Z"` of a
  UTC instant. Proved: its fixed 24-character shape for years up to 9999, and that reading
  it back gives the instant's fields to the millisecond.
- `Envelope` (`envelope.dfy`): the `Payload` and `ErrorPayload` records, and the payload
  `buildAndSend` builds. Also `Send`'s four steps, each as a function, and `Normalize`,
  the whole validation pass, as their specification. Then the replies (payload and status
  code) of `Success`, `InsertOK`, `InsertOKWithData`, `UpdateOK`, `UpdateOKWithData`,
  `DataFound`, `Error`, `ErrorInputInvalid`, `ErrorAlreadyExists`, `ErrorWithID` and
  `ErrorInputInvalidWithID`.
- `Transport` (`transport.dfy`): the response writer, reduced to an append-only trace of
  events: status written, header set, body written.
- `Output` (`output.dfy`): `send`, `buildAndSend` and `Send` as methods. Each extends the
  writer's trace. `Send` changes its copy of the payload step by step, as the Go code
  does, and is proved against `Normalize`.

These are parameters, not part of the model:

- The clock. Callers pass the instant `now`.
- `http.StatusText`. It is a function parameter `statusText`.
- `json.Marshal`. It is a function parameter `marshal` that gives bytes or an error.

Points where the package's own comments and its code differ. The model follows the code:

- `send` writes the status code before it sets the content type (output.go:139-142). In
  Go, a header set after `WriteHeader` is not sent, so the content type is lost.
- The comment in `Send` treats `Type` as required (output.go:176-177), but only `Send`
  fills a blank one. `Success` sends the topic it is given, so `Success("", …)` goes out
  with a blank `Type`. The lemma `SuccessAgreesWithSend` states this.
- The comment on `Datetime` (output.go:96-98) says `YYYY-MM-DD HH:MM:SS.sss`. The code
  writes `YYYY-MM-DDTHH:MM:SS.sssZ` (output.go:117, 157).
- The comment on `ErrInvalidResponseCode` (output.go:61-62) speaks of codes that do not
  exist. The code only rejects codes below 100 (output.go:166), so 600 or 1000 are
  accepted.
- The comment on `msgTypeDeleteOK` (output.go:48) names a `DeleteOK` function, but the
  package has none. The model has the constant `Envelope.MsgTypeDeleteOK` and nothing
  that uses it.

## Model

| member | source | states |
|---|---|---|
| `Text.IsSpace` | output.go:156 | Go's `unicode.IsSpace` table; no white-space character is a digit or a minus sign |
| `Text.IsBlank` | output.go:156 | `strings.TrimSpace(s) == ""` holds exactly when every character of `s` is Unicode white space |
| `Text.TrimSpace` | output.go:182 | the result is a contiguous piece of the input; everything before it and everything after it is white space, and its own first and last characters are not |
| `Text.Decimal` | output.go:183 | `%d` gives at least one character, starting with a digit or a minus sign; for a non-negative code it gives the plain digits |
| `Text.PadRoundTrip` | output.go:117 | a zero-padded numeric field of the time layout reads back as the number it shows |
| `Clock.Timestamp` | output.go:117 | the timestamp is at least 24 characters long, starts with a digit and ends in `'Z'` |
| `Clock.TimestampNotBlank` | output.go:157 | a freshly made timestamp is never blank |
| `Clock.TimestampShape` | output.go:117 | for a valid instant before the year 10000 the timestamp is exactly `YYYY-MM-DDTHH:MM:SS.sssZ`: 24 characters, digits and separators in place, `'Z'` last |
| `Clock.TimestampRoundTrip` | output.go:117 | reading the timestamp back gives the instant's year, month, day, hour, minute, second and millisecond (the fraction is cut off, not rounded) |
| `Clock.WideYearTimestamp` | output.go:117 | from the year 10000 on, the year field grows and the text no longer has the 24-character shape |
| `Envelope.Build` | output.go:117-129 | the built payload has exactly the given OK, Type, Data and ErrorData, and a timestamp that is not blank and reads back as `now` |
| `Envelope.DefaultDatetime` | output.go:156-158 | a blank Datetime becomes the timestamp of `now`; a Datetime with any non-space character is kept as it is; no other field changes and the result is never blank |
| `Envelope.HasErrorData` | output.go:162 | `p.ErrorData != (ErrorPayload{})` holds exactly when the error text or the message is non-empty (white space counts) |
| `Envelope.EnforceFailure` | output.go:162-164 | OK stays true only when it was true and ErrorData equals `ErrorPayload{}`; no other field changes |
| `Envelope.TypeFromCode` | output.go:183 | the made-up topic is the code's decimal digits, `"-"`, then the status text, and it is never blank, whatever the status text is |
| `Envelope.DefaultType` | output.go:182-184 | a blank Type becomes the topic made from the code; a Type that is not blank is kept; no other field changes and the result's Type is never blank |
| `Envelope.Normalize` | output.go:154-188 | a code below 100 is rejected. A code of 100 or more gives a payload: Data and ErrorData are unchanged, OK is input OK and no error details, Datetime and Type are filled only when blank, and the result is well formed (Type and Datetime not blank, no OK next to error details) |
| `Envelope.NormalizeFixedPoint` | output.go:156-188 | for a valid code, the validation leaves a payload unchanged exactly when that payload is well formed |
| `Envelope.NormalizeIdempotent` | output.go:156-188 | validating an already validated payload again, with any valid code, clock and status table, changes nothing |
| `Envelope.NotFoundTopic` | output.go:183 | with a status table that gives "Not Found" for 404, the topic made up for 404 is `"404-Not Found"` (by `Normalize`, what a blank Type becomes at 404) |
| `Envelope.Success` | output.go:213-216 | status 200, OK true, the given Type and Data, empty ErrorData, and the timestamp of `now` |
| `Envelope.InsertOK` | output.go:220-223 | status 200, OK true, Type `"insertOK"`, Data the id, empty ErrorData, and the timestamp of `now` |
| `Envelope.InsertOKWithData` | output.go:229-232 | status 200, OK true, Type `"insertOK"`, the given Data, empty ErrorData, and the timestamp of `now` |
| `Envelope.UpdateOK` | output.go:236-239 | status 200, OK true, Type `"updateOK"`, Data nil, empty ErrorData, and the timestamp of `now` |
| `Envelope.UpdateOKWithData` | output.go:243-246 | status 200, OK true, Type `"updateOK"`, the given Data, empty ErrorData, and the timestamp of `now` |
| `Envelope.DataFound` | output.go:250-253 | status 200, OK true, Type `"dataFound"`, the given Data, empty ErrorData, and the timestamp of `now` |
| `Envelope.Error` | output.go:259-273 | status 500, OK false, Type `"error"`, Data nil, ErrorData holding the error's text and the message, the timestamp of `now` |
| `Envelope.ErrorInputInvalid` | output.go:276-279 | an error reply whose error text is `"input validation error"`, stamped with the timestamp of `now` |
| `Envelope.ErrorAlreadyExists` | output.go:283-286 | an error reply whose error text is `"already exists"`, stamped with the timestamp of `now` |
| `Envelope.ErrorWithID` | output.go:292-304 | status 500, OK false, Type `"error"`, Data the id, ErrorData holding the error's text and the message |
| `Envelope.ErrorInputInvalidWithID` | output.go:310-313 | an error reply with an id whose error text is `"input validation error"`, stamped with the timestamp of `now` |
| `Envelope.SendError.Error` | output.go:63 | the text of `ErrInvalidResponseCode` is `"output: invalid HTTP response code"`; an encoding failure keeps the encoder's text |
| `Envelope.ErrorWithIDOnlyAddsId` | output.go:259-304 | `ErrorWithID` sends exactly what `Error` sends, except that Data holds the id |
| `Envelope.SuccessAgreesWithSend` | output.go:213-216 | a Success reply is what `Send` would write for the same payload at 200 exactly when its topic is not blank |
| `Envelope.ErrorAgreesWithSend` | output.go:259-304 | an error reply, with or without an id, is always what `Send` would write for the same payload at 500 |
| `Output.ErrorOf` | output.go:145-147 | `send` returns no error exactly when encoding succeeded, and otherwise returns the encoder's own error |
| `Output.SendPayload` | output.go:137-148 | `send` adds to the trace the status code, then the JSON content type, then the encoded bytes (no bytes when encoding fails), and returns the encoding error |
| `Output.BuildAndSend` | output.go:114-134 | `buildAndSend` writes exactly the trace of `send` for the payload `Build` makes |
| `Output.Send` | output.go:154-198 | a code below 100 returns `ErrInvalidResponseCode` and writes nothing; any other code writes exactly the trace of `send` for the payload `Normalize` gives |
| `Transport.ResponseWriter.WriteHeader` | output.go:139 | writing the status code appends exactly that event to the trace |
| `Transport.ResponseWriter.SetHeader` | output.go:142 | setting the content type appends exactly that event to the trace |
| `Transport.ResponseWriter.Write` | output.go:146 | writing the body appends exactly that event to the trace |

## Left out

- `Envelope.Error`: the error value is modelled by its text, the result of `errType.Error()`. So a nil error cannot be passed. In Go, a nil error makes `Error` and `ErrorWithID` panic before anything is written.
- The HTTP transport: status line, header semantics, connections. It is reduced to the event trace. In Go, a header set after `WriteHeader` has no effect, and `net/http` refuses codes above 999. Both belong to the transport and are not modelled.
- JSON encoding. It is a parameter. So are the omit-if-empty rules. Note that `encoding/json` ignores `omitempty` on a field of struct type, so `ErrorData` is on the wire even when empty. The model says nothing about the bytes.
- The clock (`time.Now().UTC()`). Callers pass the instant. In the formatting, years before 0 are not representable, because the year is a `nat`.
- `http.StatusText`. It is an opaque library table, passed in as a function.
- The `debug` flag, the `Debug` setter and every `log.Println` call (output.go:168-170, 185-187, 200-206, 267-269, 298-300). They are a side channel and never change a payload or a write.
- The `EnforceStrictMessageTypes` behaviour named in the package comment (output.go:26-28). No such code exists.
- Strings are sequences of Unicode characters. Go strings are bytes, decoded by `TrimSpace` as UTF-8, and the model does not represent invalid UTF-8.
- The response code is Go's `int` and is modelled as an unbounded integer. Nothing in the package does arithmetic on it.
