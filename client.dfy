/** The HTTP client core (alist/__init__.py): the base URL, the URL
    builders, the request-options builder and the response-envelope decoder.
    The network, the JSON parser and urllib's URL parser are parameters. */
module Client {
  import opened Values

  /** An AlistClient: its base URL and what urlparse reports for it. */
  datatype Client = Client(baseUrl: string, hostname: Value, scheme: string)

  /** `AlistClient(base_url)`: the base URL loses every trailing '/'.
      `hostname` and `scheme` are what urlparse reports for the stripped URL. */
  function NewClient(baseUrl: string, hostname: Value, scheme: string): (c: Client)
    ensures |c.baseUrl| <= |baseUrl| && c.baseUrl == baseUrl[..|c.baseUrl|]
    ensures c.baseUrl == "" || c.baseUrl[|c.baseUrl| - 1] != '/'
    ensures forall i :: |c.baseUrl| <= i < |baseUrl| ==> baseUrl[i] == '/'
    ensures c.hostname == hostname && c.scheme == scheme
  {
    Client(RStrip(baseUrl, '/'), hostname, scheme)
  }

  /** `get_api_url`: the endpoint under the API root. */
  function ApiUrl(endpoint: string): (u: string)
    ensures |u| == 4 + |endpoint| && u[..4] == "/api" && u[4..] == endpoint
  {
    "/api" + endpoint
  }

  /** `get_endpoint_url`: the base URL followed by the API path. */
  function EndpointUrl(c: Client, endpoint: string): (u: string)
    ensures |u| == |c.baseUrl| + 4 + |endpoint|
    ensures u[..|c.baseUrl|] == c.baseUrl && u[|c.baseUrl|..] == ApiUrl(endpoint)
  {
    c.baseUrl + ApiUrl(endpoint)
  }

  /** With a base URL built by NewClient, the join between base and API path
      is a single '/': the base never ends in '/' and the path starts with one. */
  lemma EndpointUrlSingleSlash(baseUrl: string, hostname: Value, scheme: string, endpoint: string)
    ensures var c := NewClient(baseUrl, hostname, scheme);
            var u := EndpointUrl(c, endpoint);
            var n := |c.baseUrl|;
            n < |u| && u[n] == '/' && (n == 0 || u[n - 1] != '/')
  {
    var c := NewClient(baseUrl, hostname, scheme);
    var u := EndpointUrl(c, endpoint);
    assert u[|c.baseUrl|..][0] == ApiUrl(endpoint)[0];
  }

  // ---------------------------------------------------------------------
  // get_request_dict

  /** A Python dict of headers, shared by reference with the caller. */
  class HeaderDict {
    var items: map<string, Value>

    constructor (items: map<string, Value>)
      ensures this.items == items
    {
      this.items := items;
    }
  }

  /** The keyword arguments of a request: the caller's `headers` dict, if
      any, and every other keyword argument. */
  datatype RequestOptions = RequestOptions(headers: Option<HeaderDict>, others: map<string, Value>)
  {
    function HeaderObjects(): set<HeaderDict> {
      if headers.Some? then {headers.value} else {}
    }
  }

  /** The seven headers computed for every request. */
  function ComputedHeaders(c: Client, verb: string, endpoint: string): (h: map<string, Value>)
    ensures h.Keys == {"Method", "Path", "Authority", "Scheme", "Accept", "Origin", "Content-Type"}
    ensures h["Method"] == Str(verb) && h["Authority"] == c.hostname && h["Scheme"] == Str(c.scheme)
    ensures h["Path"] == Str(ApiUrl(endpoint)) && h["Origin"] == Str(c.baseUrl)
    ensures h["Accept"] == Str("application/json, text/plain, */*")
    ensures h["Content-Type"] == Str("application/json;charset=UTF-8")
  {
    map[
      "Method" := Str(verb),
      "Path" := Str(ApiUrl(endpoint)),
      "Authority" := c.hostname,
      "Scheme" := Str(c.scheme),
      "Accept" := Str("application/json, text/plain, */*"),
      "Origin" := Str(c.baseUrl),
      "Content-Type" := Str("application/json;charset=UTF-8")
    ]
  }

  /** `dict.update`: the caller's headers overridden by the computed ones. */
  function MergeHeaders(caller: map<string, Value>, computed: map<string, Value>): (m: map<string, Value>)
    ensures m.Keys == caller.Keys + computed.Keys
    ensures forall k :: k in computed ==> m[k] == computed[k]
    ensures forall k :: k in caller && k !in computed ==> m[k] == caller[k]
  {
    caller + computed
  }

  /** `get_request_dict`: the caller's headers dict is updated in place with
      the computed headers (which win on a clash); without one, the computed
      headers become the headers. Other keyword arguments pass through. */
  method GetRequestDict(c: Client, verb: string, endpoint: string, kwargs: RequestOptions)
    returns (r: RequestOptions)
    modifies kwargs.HeaderObjects()
    ensures r.others == kwargs.others
    ensures r.headers.Some?
    ensures kwargs.headers.Some? ==> r.headers == kwargs.headers
    ensures kwargs.headers.None? ==> fresh(r.headers.value)
    ensures kwargs.headers.Some? ==>
              r.headers.value.items == MergeHeaders(old(kwargs.headers.value.items), ComputedHeaders(c, verb, endpoint))
    ensures kwargs.headers.None? ==> r.headers.value.items == ComputedHeaders(c, verb, endpoint)
  {
    var headers := ComputedHeaders(c, verb, endpoint);
    match kwargs.headers {
      case Some(h) =>
        h.items := MergeHeaders(h.items, headers);
        r := kwargs;
      case None =>
        var h := new HeaderDict(headers);
        r := RequestOptions(Some(h), kwargs.others);
    }
  }

  // ---------------------------------------------------------------------
  // decode_response

  /** An HTTP response: its content-type header (if sent), its body text
      and its status code, which the decoder may overwrite. */
  class Response {
    const contentType: Option<string>
    const text: string
    var statusCode: Value

    constructor (contentType: Option<string>, text: string, statusCode: Value)
      ensures this.contentType == contentType && this.text == text && this.statusCode == statusCode
    {
      this.contentType := contentType;
      this.text := text;
      this.statusCode := statusCode;
    }
  }

  /** The text of a content-type header before its first ';'. */
  function PrimaryType(contentType: string): (t: string)
    ensures |t| <= |contentType| && contentType[..|t|] == t && ';' !in t
    ensures |t| == |contentType| || contentType[|t|] == ';'
  {
    FirstPiece(contentType, ';');
    Split(contentType, ';')[0]
  }

  const JsonType: string := "application/json"

  /** How far the decoder gets before looking inside the document. */
  datatype Stage = Passthrough(text: string) | Malformed(text: string) | Parsed(doc: Value)

  /** The first three steps of `decode_response`: strip the body; an empty
      body is returned as is; a non-JSON content type returns the text;
      otherwise the text is parsed. A missing header counts as "". */
  function Classify(contentType: Option<string>, body: string, parse: string -> Option<Value>): (st: Stage)
    ensures Strip(body) == "" ==> st == Passthrough("")
    ensures st.Passthrough? ==> st.text == Strip(body)
    ensures st.Passthrough? <==>
              Strip(body) == "" || PrimaryType(if contentType.Some? then contentType.value else "") != JsonType
    ensures st.Malformed? ==> st.text == Strip(body) && parse(Strip(body)).None?
    ensures st.Parsed? ==> parse(Strip(body)) == Some(st.doc)
  {
    var content := Strip(body);
    var ct := if contentType.Some? then contentType.value else "";
    if content == "" then Passthrough(content)
    else if PrimaryType(ct) != JsonType then Passthrough(content)
    else match parse(content)
      case None => Malformed(content)
      case Some(doc) => Parsed(doc)
  }

  /** The envelope step: `code` must be 200, and then `data` is returned
      verbatim (None included). Subscripting a non-dict is a TypeError and a
      missing member a KeyError. */
  function Unwrap(doc: Value): (r: Result<Value>)
    ensures r.Success? <==>
              doc.Obj? && "code" in doc.fields && PyEq(doc.fields["code"], Int(200)) && "data" in doc.fields
    ensures r.Success? ==> r.value == doc.fields["data"]
    ensures r.Failure? && r.error.HttpError? ==>
              doc.Obj? && "code" in doc.fields && "message" in doc.fields &&
              r.error.code == doc.fields["code"] && r.error.message == doc.fields["message"] &&
              !PyEq(r.error.code, Int(200))
    ensures doc.Obj? && "code" in doc.fields && !PyEq(doc.fields["code"], Int(200)) ==>
              r == Failure(if "message" in doc.fields then HttpError(doc.fields["code"], doc.fields["message"])
                           else KeyError(Str("message")))
    ensures doc.Obj? && "code" !in doc.fields ==> r == Failure(KeyError(Str("code")))
    ensures doc.Obj? && "code" in doc.fields && PyEq(doc.fields["code"], Int(200)) && "data" !in doc.fields ==>
              r == Failure(KeyError(Str("data")))
    ensures !doc.Obj? ==> r == Failure(TypeError)
  {
    if !doc.Obj? then Failure(TypeError)
    else if "code" !in doc.fields then Failure(KeyError(Str("code")))
    else if !PyEq(doc.fields["code"], Int(200)) then
      if "message" !in doc.fields then Failure(KeyError(Str("message")))
      else Failure(HttpError(doc.fields["code"], doc.fields["message"]))
    else if "data" !in doc.fields then Failure(KeyError(Str("data")))
    else Success(doc.fields["data"])
  }

  /** The status code the decoder writes into the response: the envelope's
      code, whenever the code is present and is not 200. */
  function RejectedCode(doc: Value): (code: Option<Value>)
    ensures code.Some? ==> Unwrap(doc).Failure? && doc.Obj? && "code" in doc.fields && code.value == doc.fields["code"]
    ensures Unwrap(doc).Failure? && Unwrap(doc).error.HttpError? ==> code == Some(Unwrap(doc).error.code)
    ensures Unwrap(doc).Success? ==> code.None?
    ensures code.Some? <==>
              Unwrap(doc).Failure? && (Unwrap(doc).error.HttpError? || Unwrap(doc).error == KeyError(Str("message")))
  {
    if doc.Obj? && "code" in doc.fields && !PyEq(doc.fields["code"], Int(200))
    then Some(doc.fields["code"]) else None
  }

  /** The whole cascade of `decode_response`. */
  function Decode(contentType: Option<string>, body: string, parse: string -> Option<Value>): (r: Result<Value>)
    ensures var ct := if contentType.Some? then contentType.value else "";
            Strip(body) == "" || PrimaryType(ct) != JsonType ==> r == Success(Str(Strip(body)))
    ensures var ct := if contentType.Some? then contentType.value else "";
            Strip(body) != "" && PrimaryType(ct) == JsonType ==>
              r == match parse(Strip(body))
                   case None => Failure(InvalidJson(Strip(body)))
                   case Some(doc) => Unwrap(doc)
  {
    match Classify(contentType, body, parse)
    case Passthrough(text) => Success(Str(text))
    case Malformed(text) => Failure(InvalidJson(text))
    case Parsed(doc) => Unwrap(doc)
  }

  /** `decode_response`: returns what Decode says and, when the envelope code
      is rejected, first stores that code as the response's status code. */
  method DecodeResponse(resp: Response, parse: string -> Option<Value>) returns (r: Result<Value>)
    modifies resp
    ensures r == Decode(resp.contentType, resp.text, parse)
    ensures match Classify(resp.contentType, resp.text, parse)
            case Parsed(doc) =>
              resp.statusCode == (if RejectedCode(doc).Some? then RejectedCode(doc).value else old(resp.statusCode))
            case _ => resp.statusCode == old(resp.statusCode)
  {
    var st := Classify(resp.contentType, resp.text, parse);
    match st {
      case Passthrough(text) =>
        r := Success(Str(text));
      case Malformed(text) =>
        r := Failure(InvalidJson(text));
      case Parsed(doc) =>
        var code := RejectedCode(doc);
        if code.Some? {
          resp.statusCode := code.value;
        }
        r := Unwrap(doc);
    }
  }

  /** The parser is consulted only for a non-empty body declared as JSON: two
      parsers give the same result whenever that is not the case. */
  lemma ParserUnusedUnlessJson(contentType: Option<string>, body: string, p1: string -> Option<Value>, p2: string -> Option<Value>)
    requires Strip(body) == "" || PrimaryType(if contentType.Some? then contentType.value else "") != JsonType
    ensures Decode(contentType, body, p1) == Decode(contentType, body, p2)
    ensures Decode(contentType, body, p1) == Success(Str(Strip(body)))
  {
  }

  /** Decoding succeeds with a non-text payload only through an envelope whose
      code is 200, and then the payload is that envelope's `data`. */
  lemma DecodeDataComesFromEnvelope(contentType: Option<string>, body: string, parse: string -> Option<Value>)
    requires Classify(contentType, body, parse).Parsed?
    ensures var doc := Classify(contentType, body, parse).doc;
            var r := Decode(contentType, body, parse);
            r.Success? <==> (doc.Obj? && "code" in doc.fields && PyEq(doc.fields["code"], Int(200)) && "data" in doc.fields)
  {
  }

  lemma JsonTypeIsPrimary(params: string)
    ensures PrimaryType(JsonType) == JsonType
    ensures PrimaryType(JsonType + [';'] + params) == JsonType
  {
    SplitNoSep(JsonType, ';');
    SplitAtSep(JsonType, ';', params);
  }
}
