/** The response envelope of output.go: the `Payload` record, the payload that
    `buildAndSend` builds, the four gap-filling steps that `Send` applies to a
    payload its caller assembled, and the replies the shorthand entry points
    (`Success`, `Error` and their wrappers) build. */
module Envelope {
  import opened Text
  import opened Clock
  import opened Wrappers

  /** Go's `int64`, the type of record identifiers. */
  newtype int64 = x: int | -0x8000_0000_0000_0000 <= x < 0x8000_0000_0000_0000

  /** The `Data interface{}` field: nil, a record identifier, or any other
      application value, known here only by an opaque tag. */
  datatype Data = Nil | Id(id: int64) | Value(tag: string)

  /** `ErrorPayload`: the lower-level error text and the human-readable message. */
  datatype ErrorPayload = ErrorPayload(error: string, message: string)

  /** `ErrorPayload{}`, the zero value that stands for "no error". */
  const NoError := ErrorPayload("", "")

  /** `Payload`, the envelope every response carries. */
  datatype Payload = Payload(
    ok: bool,
    msgType: string,
    data: Data,
    errorData: ErrorPayload,
    datetime: string)

  /** The test `p.ErrorData != (ErrorPayload{})`: Go compares the two fields,
      so error details are present when either text is non-empty, even if it
      is only white space. */
  predicate HasErrorData(p: Payload)
    ensures HasErrorData(p) <==> p.errorData.error != "" || p.errorData.message != ""
  {
    p.errorData != NoError
  }

  // The predefined message types.
  const MsgTypeError := "error"
  const MsgTypeInsertOK := "insertOK"
  const MsgTypeUpdateOK := "updateOK"
  const MsgTypeDeleteOK := "deleteOK"
  const MsgTypeDataFound := "dataFound"

  // The text of the predefined errors errInputInvalid and errAlreadyExists.
  const ErrInputInvalid := "input validation error"
  const ErrAlreadyExists := "already exists"

  // The status codes of net/http the package uses.
  const StatusContinue := 100
  const StatusOK := 200
  const StatusInternalServerError := 500

  /** The errors that stop or spoil a response. */
  datatype SendError = InvalidResponseCode | MarshalFailure(text: string) {
    /** The error's text, as its `Error()` method gives it. */
    function Error(): (s: string)
      ensures InvalidResponseCode? ==> s == "output: invalid HTTP response code"
      ensures MarshalFailure? ==> s == text
    {
      match this
      case InvalidResponseCode => "output: invalid HTTP response code"
      case MarshalFailure(text) => text
    }
  }

  /** The payload `buildAndSend` builds: the fields as given, stamped with the
      timestamp of the instant `now`. */
  function Build(ok: bool, msgType: string, data: Data, errData: ErrorPayload, now: Instant): (p: Payload)
    ensures p.ok == ok && p.msgType == msgType && p.data == data && p.errorData == errData
    ensures !IsBlank(p.datetime)
    ensures ValidInstant(now) && now.year < 10000 ==>
      && IsTimestampText(p.datetime)
      && ParseTimestamp(p.datetime) == Some(Reading(
           now.year, now.month, now.day, now.hour, now.minute, now.second, Millisecond(now)))
  {
    TimestampNotBlank(now);
    TimestampReadable(now);
    Payload(ok, msgType, data, errData, Timestamp(now))
  }

  /** The envelope invariants that Send establishes: a topic and a timestamp
      that are not blank, and no success flag next to error details. */
  predicate WellFormed(p: Payload) {
    && !IsBlank(p.msgType)
    && !IsBlank(p.datetime)
    && (HasErrorData(p) ==> !p.ok)
  }

  /** Step 1 of Send: a blank Datetime is stamped with the current time; any
      other Datetime is kept. Nothing else changes. */
  function DefaultDatetime(p: Payload, now: Instant): (q: Payload)
    ensures q == p.(datetime := q.datetime)
    ensures q.datetime == if IsBlank(p.datetime) then Timestamp(now) else p.datetime
    ensures !IsBlank(q.datetime)
  {
    TimestampNotBlank(now);
    if IsBlank(p.datetime) then p.(datetime := Timestamp(now)) else p
  }

  /** Step 2 of Send: error details force OK to false; without them OK is kept.
      Nothing else changes. */
  function EnforceFailure(p: Payload): (q: Payload)
    ensures q == p.(ok := q.ok)
    ensures q.ok <==> p.ok && !HasErrorData(p)
  {
    if HasErrorData(p) then p.(ok := false) else p
  }

  /** The topic Send synthesises from the status code: `fmt.Sprintf("%d-%s",
      code, http.StatusText(code))`. */
  function TypeFromCode(code: int, statusText: int -> string): (t: string)
    ensures t == Decimal(code) + "-" + statusText(code)
    ensures !IsBlank(t)
  {
    var t := Decimal(code) + "-" + statusText(code);
    NotBlankAt(t, |Decimal(code)|);
    t
  }

  /** Step 4 of Send: a blank Type becomes the topic synthesised from the code;
      any other Type is kept. Nothing else changes. */
  function DefaultType(p: Payload, code: int, statusText: int -> string): (q: Payload)
    ensures q == p.(msgType := q.msgType)
    ensures q.msgType == if IsBlank(p.msgType) then TypeFromCode(code, statusText) else p.msgType
    ensures !IsBlank(q.msgType)
  {
    if IsBlank(p.msgType) then p.(msgType := TypeFromCode(code, statusText)) else p
  }

  /** The payload Send writes for `p` at `code` (steps 1 to 4), or None when
      step 3 rejects the code. It fills gaps only: Data and ErrorData are never
      touched, OK is only ever switched off, and what it returns is well formed. */
  function Normalize(p: Payload, code: int, now: Instant, statusText: int -> string): (r: Option<Payload>)
    ensures r.None? <==> code < StatusContinue
    ensures r.Some? ==> r.value.data == p.data && r.value.errorData == p.errorData
    ensures r.Some? ==> (r.value.ok <==> p.ok && !HasErrorData(p))
    ensures r.Some? ==> r.value.datetime == if IsBlank(p.datetime) then Timestamp(now) else p.datetime
    ensures r.Some? ==> r.value.msgType == if IsBlank(p.msgType) then TypeFromCode(code, statusText) else p.msgType
    ensures r.Some? ==> WellFormed(r.value)
  {
    var q := EnforceFailure(DefaultDatetime(p, now));
    if code < StatusContinue then None else Some(DefaultType(q, code, statusText))
  }

  /** A payload passes through Send's validation unchanged exactly when it is
      well formed, whatever the (valid) code, the clock and the status table. */
  lemma NormalizeFixedPoint(p: Payload, code: int, now: Instant, statusText: int -> string)
    requires code >= StatusContinue
    ensures Normalize(p, code, now, statusText) == Some(p) <==> WellFormed(p)
  {

  }

  /** Send's validation is idempotent: validating its output again, at any
      valid code and any later instant, changes nothing. */
  lemma NormalizeIdempotent(p: Payload, code: int, now: Instant, statusText: int -> string,
                            code': int, now': Instant, statusText': int -> string)
    requires code >= StatusContinue && code' >= StatusContinue
    ensures var q := Normalize(p, code, now, statusText).value;
      Normalize(q, code', now', statusText') == Some(q)
  {

  }

  /** With a status table that gives "Not Found" for 404, the topic made up
      for 404 is "404-Not Found"; by `Normalize`, that is the Type a blank Type
      becomes when sent with 404. */
  lemma NotFoundTopic(statusText: int -> string)
    requires statusText(404) == "Not Found"
    ensures TypeFromCode(404, statusText) == "404-Not Found"
  {
    DecimalOf404();
    var d, n := Decimal(404), statusText(404);
    assert d + "-" + n == "404-Not Found" by {
      assert d + "-" == "404-";
    }
  }

  lemma DecimalOf404()
    ensures Decimal(404) == "404"
  {
    assert DigitChar(4) == '4' && DigitChar(0) == '0';
    assert Digits(4) == "4";
    assert Digits(40) == "40";
    assert Digits(404) == "404";
  }

  /** What a shorthand entry point writes: a payload and a status code. */
  datatype Reply = Reply(payload: Payload, code: int)

  /** `Success`: OK, the given topic and data, no error details, status 200. */
  function Success(msgType: string, data: Data, now: Instant): (r: Reply)
    ensures r.code == StatusOK
    ensures r.payload.ok && r.payload.msgType == msgType && r.payload.data == data
    ensures r.payload.errorData == NoError && !IsBlank(r.payload.datetime)
    ensures r.payload.datetime == Timestamp(now)
  {
    Reply(Build(true, msgType, data, NoError, now), StatusOK)
  }

  /** `InsertOK`: a success with topic "insertOK" carrying the new record's id. */
  function InsertOK(id: int64, now: Instant): (r: Reply)
    ensures r.code == StatusOK && r.payload.ok && r.payload.errorData == NoError
    ensures r.payload.msgType == "insertOK" && r.payload.data == Id(id)
    ensures r.payload.datetime == Timestamp(now)
  {
    Success(MsgTypeInsertOK, Id(id), now)
  }

  /** `InsertOKWithData`: a success with topic "insertOK" carrying any data. */
  function InsertOKWithData(data: Data, now: Instant): (r: Reply)
    ensures r.code == StatusOK && r.payload.ok && r.payload.errorData == NoError
    ensures r.payload.msgType == "insertOK" && r.payload.data == data
    ensures r.payload.datetime == Timestamp(now)
  {
    Success(MsgTypeInsertOK, data, now)
  }

  /** `UpdateOK`: a success with topic "updateOK" and no data. */
  function UpdateOK(now: Instant): (r: Reply)
    ensures r.code == StatusOK && r.payload.ok && r.payload.errorData == NoError
    ensures r.payload.msgType == "updateOK" && r.payload.data == Nil
    ensures r.payload.datetime == Timestamp(now)
  {
    Success(MsgTypeUpdateOK, Nil, now)
  }

  /** `UpdateOKWithData`: a success with topic "updateOK" carrying any data. */
  function UpdateOKWithData(data: Data, now: Instant): (r: Reply)
    ensures r.code == StatusOK && r.payload.ok && r.payload.errorData == NoError
    ensures r.payload.msgType == "updateOK" && r.payload.data == data
    ensures r.payload.datetime == Timestamp(now)
  {
    Success(MsgTypeUpdateOK, data, now)
  }

  /** `DataFound`: a success with topic "dataFound" carrying the data found. */
  function DataFound(data: Data, now: Instant): (r: Reply)
    ensures r.code == StatusOK && r.payload.ok && r.payload.errorData == NoError
    ensures r.payload.msgType == "dataFound" && r.payload.data == data
    ensures r.payload.datetime == Timestamp(now)
  {
    Success(MsgTypeDataFound, data, now)
  }

  /** `Error`: not OK, topic "error", no data, the error's text and the message
      as error details, status 500. `errText` is what `errType.Error()` returns. */
  function Error(errText: string, errMsg: string, now: Instant): (r: Reply)
    ensures r.code == StatusInternalServerError
    ensures !r.payload.ok && r.payload.msgType == "error" && r.payload.data == Nil
    ensures r.payload.errorData == ErrorPayload(errText, errMsg)
    ensures r.payload.datetime == Timestamp(now)
  {
    Reply(Build(false, MsgTypeError, Nil, ErrorPayload(errText, errMsg), now), StatusInternalServerError)
  }

  /** `ErrorInputInvalid`: an error whose text is "input validation error". */
  function ErrorInputInvalid(msg: string, now: Instant): (r: Reply)
    ensures r.code == StatusInternalServerError && !r.payload.ok && r.payload.data == Nil
    ensures r.payload.msgType == "error"
    ensures r.payload.errorData == ErrorPayload("input validation error", msg)
    ensures r.payload.datetime == Timestamp(now)
  {
    Error(ErrInputInvalid, msg, now)
  }

  /** `ErrorAlreadyExists`: an error whose text is "already exists". */
  function ErrorAlreadyExists(msg: string, now: Instant): (r: Reply)
    ensures r.code == StatusInternalServerError && !r.payload.ok && r.payload.data == Nil
    ensures r.payload.msgType == "error"
    ensures r.payload.errorData == ErrorPayload("already exists", msg)
    ensures r.payload.datetime == Timestamp(now)
  {
    Error(ErrAlreadyExists, msg, now)
  }

  /** `ErrorWithID`: an error that also hands the client the id of a record
      already saved, so that a retry can reuse it. */
  function ErrorWithID(errText: string, errMsg: string, id: int64, now: Instant): (r: Reply)
    ensures r.code == StatusInternalServerError
    ensures !r.payload.ok && r.payload.msgType == "error" && r.payload.data == Id(id)
    ensures r.payload.errorData == ErrorPayload(errText, errMsg)
    ensures r.payload.datetime == Timestamp(now)
  {
    Reply(Build(false, MsgTypeError, Id(id), ErrorPayload(errText, errMsg), now), StatusInternalServerError)
  }

  /** `ErrorInputInvalidWithID`: an input-validation error carrying an id. */
  function ErrorInputInvalidWithID(msg: string, id: int64, now: Instant): (r: Reply)
    ensures r.code == StatusInternalServerError && !r.payload.ok && r.payload.data == Id(id)
    ensures r.payload.msgType == "error"
    ensures r.payload.errorData == ErrorPayload("input validation error", msg)
    ensures r.payload.datetime == Timestamp(now)
  {
    ErrorWithID(ErrInputInvalid, msg, id, now)
  }

  /** `ErrorWithID` writes what `Error` writes, except that Data holds the id. */
  lemma ErrorWithIDOnlyAddsId(errText: string, errMsg: string, id: int64, now: Instant)
    ensures var e := Error(errText, errMsg, now);
      ErrorWithID(errText, errMsg, id, now) == e.(payload := e.payload.(data := Id(id)))
  {

  }

  /** A success reply is exactly what Send would write for the same payload at
      200 precisely when its topic is not blank: Success skips Send's
      defaulting, so `Success("", …)` goes out with a blank Type. */
  lemma SuccessAgreesWithSend(msgType: string, data: Data, now: Instant, now': Instant,
                              statusText: int -> string)
    ensures var r := Success(msgType, data, now);
      Normalize(r.payload, r.code, now', statusText) == Some(r.payload) <==> !IsBlank(msgType)
  {

  }

  /** An error reply is always exactly what Send would write for the same
      payload at 500: it is well formed by construction. */
  lemma ErrorAgreesWithSend(errText: string, errMsg: string, id: int64, now: Instant,
                            now': Instant, statusText: int -> string)
    ensures var r := Error(errText, errMsg, now);
      Normalize(r.payload, r.code, now', statusText) == Some(r.payload)
    ensures var r := ErrorWithID(errText, errMsg, id, now);
      Normalize(r.payload, r.code, now', statusText) == Some(r.payload)
  {
    NotBlankAt(MsgTypeError, 0);
    NormalizeFixedPoint(Error(errText, errMsg, now).payload, StatusInternalServerError, now', statusText);
    NormalizeFixedPoint(ErrorWithID(errText, errMsg, id, now).payload, StatusInternalServerError, now', statusText);
  }
}
