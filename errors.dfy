/**
 * The TAXII error envelope of internal/handlers/errors.go: six senders, each
 * setting the TAXII 2.1 media type, writing one fixed HTTP status and encoding
 * one error message resource (section 3.6 of OASIS TAXII Version 2.1).
 */
module Errors {
  import opened Wrappers

  /** The six failures a handler reports. */
  datatype ErrorKind = Unauthenticated | NotAcceptable | UnsupportedMediaType | GetObjects | ParseObjects | NotFound

  /** The body of a TAXII error message. */
  datatype Envelope = Envelope(title: string, description: string, errorCode: string, httpStatus: string)

  /** `defs.MEDIA_TYPE_TAXII21`. */
  const MediaTypeTaxii21 := "application/taxii+json;version=2.1"

  const ContentType := "Content-Type"

  /** The HTTP status each sender writes: a client error, with a standard reason phrase. */
  function Status(kind: ErrorKind): (status: int)
    ensures 400 <= status < 500
    ensures ReasonPhrase(status) != ""
  {
    match kind
    case Unauthenticated => 401
    case NotAcceptable => 406
    case UnsupportedMediaType => 415
    case GetObjects => 404
    case ParseObjects => 400
    case NotFound => 404
  }

  /** The body each sender encodes; its `error_code` is the decimal string of the status written. */
  function Body(kind: ErrorKind): (e: Envelope)
    ensures e.errorCode == Decimal(Status(kind))
  {
    match kind
    case Unauthenticated =>
      assert Decimal(401) == "401";
      Envelope("Authentication Required", "The requested resources requires authentication.", "401", "401 Unauthorized")
    case NotAcceptable =>
      assert Decimal(406) == "406";
      Envelope("Wrong Media Type", "The requested media type in the accept header is not supported.", "406", "406 Not Acceptable")
    case UnsupportedMediaType =>
      assert Decimal(415) == "415";
      Envelope("Wrong Media Type", "The requested media type in the content-type header is not supported.", "415", "415 Unsupported Media Type")
    case GetObjects =>
      assert Decimal(404) == "404";
      Envelope("Get Objects Error", "The request for objects caused an error.", "404", "404 Not Found")
    case ParseObjects =>
      assert Decimal(400) == "400";
      Envelope("Post Objects Error", "The request to post objects caused an error.", "400", "400 Bad Request")
    case NotFound =>
      assert Decimal(404) == "404";
      Envelope("No Objects Found", "There were no objects returned matching the request.", "404", "404 Not Found")
  }

  /** The standard reason phrase of an HTTP status (Go's `http.StatusText`), for the statuses used here. */
  function ReasonPhrase(status: int): string {
    if status == 400 then "Bad Request"
    else if status == 401 then "Unauthorized"
    else if status == 404 then "Not Found"
    else if status == 406 then "Not Acceptable"
    else if status == 415 then "Unsupported Media Type"
    else ""
  }

  /** The decimal digit for `d`. */
  function Digit(d: nat): char
    requires d < 10
  {
    "0123456789"[d]
  }

  /** The decimal representation of `n`, without leading zeros. */
  function Decimal(n: nat): string
    decreases n
  {
    if n < 10 then [Digit(n)] else Decimal(n / 10) + [Digit(n % 10)]
  }

  /** The value of a string of decimal digits, or None when some character is not a digit. */
  function ParseDecimal(s: string): Option<nat>
    decreases |s|
  {
    if |s| == 0 then Some(0)
    else match ParseDecimal(s[..|s| - 1])
      case None => None
      case Some(high) =>
        var c := s[|s| - 1];
        if '0' <= c <= '9' then Some(10 * high + (c as int - '0' as int)) else None
  }

  /** Reading back the decimal representation of a number gives the number. */
  lemma {:induction false} ParseDecimalOfDecimal(n: nat)
    ensures ParseDecimal(Decimal(n)) == Some(n)
    decreases n
  {
    var s := Decimal(n);
    if n < 10 {
      assert s[..0] == [];
    } else {
      ParseDecimalOfDecimal(n / 10);
      assert s[..|s| - 1] == Decimal(n / 10);
    }
  }

  /** The table's `http_status` is the `error_code`, one space and the status's standard reason phrase. */
  lemma HttpStatusIsStatusLine(kind: ErrorKind)
    ensures Body(kind).httpStatus == Body(kind).errorCode + " " + ReasonPhrase(Status(kind))
  {
    if kind == Unauthenticated || kind == NotAcceptable {
      StatusLineOfAuthOrAccept(kind);
    } else if kind == UnsupportedMediaType || kind == ParseObjects {
      StatusLineOfContent(kind);
    } else {
      assert "404 Not Found" == "404" + " " + "Not Found";
    }
  }

  /** The status lines of the 401 and 406 senders. */
  lemma StatusLineOfAuthOrAccept(kind: ErrorKind)
    requires kind == Unauthenticated || kind == NotAcceptable
    ensures Body(kind).httpStatus == Body(kind).errorCode + " " + ReasonPhrase(Status(kind))
  {
    if kind == Unauthenticated {
      assert "401 Unauthorized" == "401" + " " + "Unauthorized";
    } else {
      assert "406 Not Acceptable" == "406" + " " + "Not Acceptable";
    }
  }

  /** The status lines of the 415 and 400 senders, which judge the request body. */
  lemma StatusLineOfContent(kind: ErrorKind)
    requires kind == UnsupportedMediaType || kind == ParseObjects
    ensures Body(kind).httpStatus == Body(kind).errorCode + " " + ReasonPhrase(Status(kind))
  {
    if kind == UnsupportedMediaType {
      assert "415 Unsupported Media Type" == "415" + " " + "Unsupported Media Type";
    } else {
      assert "400 Bad Request" == "400" + " " + "Bad Request";
    }
  }

  /** Reading the `error_code` back as a number gives the status written. */
  lemma ErrorCodeParsesToStatus(kind: ErrorKind)
    ensures ParseDecimal(Body(kind).errorCode) == Some(Status(kind))
  {
    ParseDecimalOfDecimal(Status(kind));
  }

  /** The two kinds that answer 404: a failed fetch and an empty result. */
  predicate BothNotFound(a: ErrorKind, b: ErrorKind) {
    (a == GetObjects && b == NotFound) || (a == NotFound && b == GetObjects)
  }

  /** Distinct kinds share a status only when both answer 404; those two differ in title and description. */
  lemma StatusShared(a: ErrorKind, b: ErrorKind)
    requires a != b
    ensures Status(a) == Status(b) <==> BothNotFound(a, b)
    ensures BothNotFound(a, b) ==> Body(a).title != Body(b).title && Body(a).description != Body(b).description
  {
    if BothNotFound(a, b) {
      assert Body(GetObjects).title[0] != Body(NotFound).title[0];
      assert |Body(GetObjects).description| != |Body(NotFound).description|;
    }
  }

  /**
   * The kind a response reports, read back from its status and title: the
   * status alone decides except for 404, where the title tells a failed fetch
   * from an empty result.
   */
  function KindOf(status: int, body: Envelope): Option<ErrorKind> {
    if status == 401 then Some(Unauthenticated)
    else if status == 406 then Some(NotAcceptable)
    else if status == 415 then Some(UnsupportedMediaType)
    else if status == 400 then Some(ParseObjects)
    else if status == 404 && body.title == "Get Objects Error" then Some(GetObjects)
    else if status == 404 && body.title == "No Objects Found" then Some(NotFound)
    else None
  }

  /** Every response identifies the kind that produced it, so no two kinds answer alike. */
  lemma KindOfResponse(kind: ErrorKind)
    ensures KindOf(Status(kind), Body(kind)) == Some(kind)
  {
    match kind
    case GetObjects => assert "Get Objects Error" != "No Objects Found";
    case NotFound => assert "No Objects Found" != "Get Objects Error";
    case _ =>
  }

  /** The two media-type errors share their title; the description names the header at fault. */
  lemma MediaTypeErrorsShareTitle()
    ensures Body(NotAcceptable).title == Body(UnsupportedMediaType).title
    ensures Body(NotAcceptable).description != Body(UnsupportedMediaType).description
  {
    assert |Body(NotAcceptable).description| != |Body(UnsupportedMediaType).description|;
  }

  /** What the client sees of a response: the status line with the headers sent, and the body bytes as documents. */
  class ResponseWriter {
    var header: map<string, string>
    var sent: Option<(int, map<string, string>)>
    var body: seq<Envelope>

    /** A writer on which nothing was done yet. */
    constructor ()
      ensures header == map[] && sent == None && body == []
    {
      header, sent, body := map[], None, [];
    }

    /** `Header().Set(key, value)`: changes the header map; once the status is sent it no longer reaches the client. */
    method SetHeader(key: string, value: string)
      modifies this
      ensures header == old(header)[key := value]
      ensures sent == old(sent) && body == old(body)
    {
      header := header[key := value];
    }

    /** `WriteHeader(code)`: sends the status line with the current headers; a later call is ignored. */
    method WriteHeader(code: int)
      modifies this
      ensures sent == if old(sent).None? then Some((code, old(header))) else old(sent)
      ensures header == old(header) && body == old(body)
    {
      if sent.None? {
        sent := Some((code, header));
      }
    }

    /** `Encode(e)`: writes one document, sending status 200 first if no status was sent. */
    method Encode(e: Envelope)
      modifies this
      ensures sent == if old(sent).None? then Some((200, old(header))) else old(sent)
      ensures header == old(header) && body == old(body) + [e]
    {
      if sent.None? {
        sent := Some((200, header));
      }
      body := body + [e];
    }
  }

  /**
   * The common body of the six senders: set the media type, write the status,
   * encode one envelope.  On a writer whose status was not sent yet, the
   * client receives the table's status with the TAXII media type.
   */
  method SendError(w: ResponseWriter, kind: ErrorKind)
    modifies w
    ensures w.header == old(w.header)[ContentType := MediaTypeTaxii21]
    ensures w.body == old(w.body) + [Body(kind)]
    ensures old(w.sent).None? ==> w.sent == Some((Status(kind), w.header))
    ensures old(w.sent).Some? ==> w.sent == old(w.sent)
  {
    w.SetHeader(ContentType, MediaTypeTaxii21);
    w.WriteHeader(Status(kind));
    w.Encode(Body(kind));
  }

  /** `sendUnauthenticatedError`. */
  method SendUnauthenticatedError(w: ResponseWriter)
    modifies w
    ensures w.header == old(w.header)[ContentType := MediaTypeTaxii21]
    ensures w.body == old(w.body) + [Body(Unauthenticated)]
    ensures old(w.sent).None? ==> w.sent == Some((401, w.header))
    ensures old(w.sent).Some? ==> w.sent == old(w.sent)
  {
    SendError(w, Unauthenticated);
  }

  /** `sendNotAcceptableError`. */
  method SendNotAcceptableError(w: ResponseWriter)
    modifies w
    ensures w.header == old(w.header)[ContentType := MediaTypeTaxii21]
    ensures w.body == old(w.body) + [Body(NotAcceptable)]
    ensures old(w.sent).None? ==> w.sent == Some((406, w.header))
    ensures old(w.sent).Some? ==> w.sent == old(w.sent)
  {
    SendError(w, NotAcceptable);
  }

  /** `sendUnsupportedMediaTypeError`. */
  method SendUnsupportedMediaTypeError(w: ResponseWriter)
    modifies w
    ensures w.header == old(w.header)[ContentType := MediaTypeTaxii21]
    ensures w.body == old(w.body) + [Body(UnsupportedMediaType)]
    ensures old(w.sent).None? ==> w.sent == Some((415, w.header))
    ensures old(w.sent).Some? ==> w.sent == old(w.sent)
  {
    SendError(w, UnsupportedMediaType);
  }

  /** `sendGetObjectsError`. */
  method SendGetObjectsError(w: ResponseWriter)
    modifies w
    ensures w.header == old(w.header)[ContentType := MediaTypeTaxii21]
    ensures w.body == old(w.body) + [Body(GetObjects)]
    ensures old(w.sent).None? ==> w.sent == Some((404, w.header))
    ensures old(w.sent).Some? ==> w.sent == old(w.sent)
  {
    SendError(w, GetObjects);
  }

  /** `sendParseObjectsError`. */
  method SendParseObjectsError(w: ResponseWriter)
    modifies w
    ensures w.header == old(w.header)[ContentType := MediaTypeTaxii21]
    ensures w.body == old(w.body) + [Body(ParseObjects)]
    ensures old(w.sent).None? ==> w.sent == Some((400, w.header))
    ensures old(w.sent).Some? ==> w.sent == old(w.sent)
  {
    SendError(w, ParseObjects);
  }

  /** `sendStatusNotFound`. */
  method SendStatusNotFound(w: ResponseWriter)
    modifies w
    ensures w.header == old(w.header)[ContentType := MediaTypeTaxii21]
    ensures w.body == old(w.body) + [Body(NotFound)]
    ensures old(w.sent).None? ==> w.sent == Some((404, w.header))
    ensures old(w.sent).Some? ==> w.sent == old(w.sent)
  {
    SendError(w, NotFound);
  }

  /**
   * A response built by a sender on a fresh writer: exactly one document, and
   * a status line that carries the media type and agrees with the body's
   * `error_code`.
   */
  method Respond(kind: ErrorKind) returns (status: int, headers: map<string, string>, documents: seq<Envelope>)
    ensures ContentType in headers && headers[ContentType] == MediaTypeTaxii21
    ensures |documents| == 1 && ParseDecimal(documents[0].errorCode) == Some(status)
    ensures documents[0].httpStatus == documents[0].errorCode + " " + ReasonPhrase(status)
    ensures status == Status(kind) && documents[0] == Body(kind)
  {
    var w := new ResponseWriter();
    SendError(w, kind);
    status, headers, documents := w.sent.value.0, w.sent.value.1, w.body;
    ErrorCodeParsesToStatus(kind);
    HttpStatusIsStatusLine(kind);
  }
}
