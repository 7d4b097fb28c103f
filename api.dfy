/**
  What every REST call of the client has in common once the transport and the
  JSON decoder are taken as given: the status codes it tests, the error values
  it returns, and the response envelope `{result, errors, nextPageToken}`.
 */
module Api {
  import opened Wrappers

  const StatusOK := 200
  const StatusNotFound := 404

  /** The operation name an HTTP-status error is labelled with. */
  datatype Operation =
    | CreateImport          // "create bulk import"
    | GetImport             // "get import status"
    | GetImportFailures     // "get import failures"
    | DescribeCustomObject  // "describe custom object"
    | FilterLeads           // the filter label; its text is defined outside this model

  /** The label text of the operations whose constant is part of this model. */
  function Label(op: Operation): Option<string>
  {
    match op
    case CreateImport => Some("create bulk import")
    case GetImport => Some("get import status")
    case GetImportFailures => Some("get import failures")
    case DescribeCustomObject => Some("describe custom object")
    case FilterLeads => None
  }

  /** The labels agree with the operation-name constants of the client. */
  lemma OperationLabels()
    ensures Label(CreateImport) == Some("create bulk import")
    ensures Label(GetImport) == Some("get import status")
    ensures Label(GetImportFailures) == Some("get import failures")
    ensures Label(DescribeCustomObject) == Some("describe custom object")
  {
  }

  /** One application-level error entry of an envelope. */
  datatype Reason = Reason(code: string, message: string)

  datatype Error =
    | HttpStatus(op: Operation, code: int)   // a non-200 answer, built by handleError
    | Api(code: int, reasons: seq<Reason>)   // a 200 envelope that lists errors, built by ErrorForReasons
    | NotFound                               // the `errors.New("not found")` value
    | Propagated(message: string)            // an error returned unchanged from a collaborator
    | FieldDecode(keys: seq<string>)         // a dynamic record whose promoted fields have the wrong type

  /**
    What json.Unmarshal leaves behind: the value as far as it was filled, and the
    error it reported, if any. Most callers discard the value on an error; one
    (Describe) does not.
   */
  datatype Unmarshalled<T> = Unmarshalled(value: T, err: Option<string>)

  /** The decoded envelope, with its `result` payload unmarshalled into T. */
  datatype Envelope<T> = Envelope(errors: seq<Reason>, result: Unmarshalled<T>, nextPageToken: string)

  /** An HTTP answer: its status code and the outcome of decoding its body as an envelope. */
  datatype Response<T> = Response(code: int, body: Result<Envelope<T>, string>)

  /** The answer got through the status check and the envelope decoder. */
  predicate Decoded<T>(resp: Response<T>)
  {
    resp.code == StatusOK && resp.body.Ok?
  }

  /** The answer got through the status check, the decoder and the envelope's error list. */
  predicate Accepted<T>(resp: Response<T>)
  {
    Decoded(resp) && resp.body.value.errors == []
  }

  /**
    The early returns shared by the bulk create and status calls: a non-200
    status, an undecodable body, a non-empty error list, then an undecodable
    payload, in that order.
   */
  function Payload<T>(op: Operation, resp: Response<T>): (r: Result<T, Error>)
    ensures resp.code != StatusOK ==> r == Err(HttpStatus(op, resp.code))
    ensures resp.code == StatusOK && resp.body.Err? ==> r == Err(Propagated(resp.body.error))
    ensures Decoded(resp) && resp.body.value.errors != [] ==> r == Err(Api(StatusOK, resp.body.value.errors))
    ensures Accepted(resp) && resp.body.value.result.err.Some?
            ==> r == Err(Propagated(resp.body.value.result.err.value))
    ensures r.Ok? <==> Accepted(resp) && resp.body.value.result.err.None?
    ensures r.Ok? ==> r.value == resp.body.value.result.value
  {
    if resp.code != StatusOK then Err(HttpStatus(op, resp.code))
    else match resp.body
      case Err(e) => Err(Propagated(e))
      case Ok(envelope) =>
        if |envelope.errors| > 0 then Err(Api(resp.code, envelope.errors))
        else match envelope.result.err
          case Some(e) => Err(Propagated(e))
          case None => Ok(envelope.result.value)
  }
}
