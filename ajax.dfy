/**
 * The request transport of the page scripts (class `AJAXUtils`): how a call
 * becomes the arguments of `fetch`, and how the answer settles the call.
 *
 * `fetch`, `XMLHttpRequest`, `JSON.stringify`, `JSON.parse` and
 * `URLSearchParams` are not modelled: the network's answer is a parameter of
 * each call, and the three encoders are uninterpreted functions (`Codec`).
 */
module Ajax {
  import opened Optional
  import opened JsString
  import opened JsValues

  /** A header object: name to value. */
  type Headers = map<string, string>

  const ContentType := "Content-Type"

  /** The default headers of a new client. */
  const InitialHeaders: Headers :=
    map["Content-Type" := "application/json", "X-Requested-With" := "XMLHttpRequest"]

  /** The methods for which `request` attaches a body. */
  const BodyMethods := ["POST", "PUT", "PATCH"]

  /** An entry of a FormData object; a file is known only by an opaque handle. */
  datatype FormValue = File(handle: nat) | Field(text: string)
  datatype FormData = FormData(entries: seq<(string, FormValue)>)

  /** The `data` argument of `request`: a FormData object, or any other value. */
  datatype Payload = Form(form: FormData) | Plain(value: Value)

  /** What `get` and `delete` pass as `data`. */
  const NoData := Plain(Null)

  /** `data` is truthy: a FormData object always is. */
  predicate IsTruthy(data: Payload) {
    data.Form? || Truthy(data.value)
  }

  /** The library functions the transport hands values to, left uninterpreted. */
  datatype Codec = Codec(
    stringify: Value -> string,          // JSON.stringify
    searchParams: Payload -> string,     // new URLSearchParams(data).toString()
    parseJson: string -> Option<Value>)  // JSON.parse, None when it throws

  /** A request body: a FormData object passed through, or text. */
  datatype Body = FormBody(form: FormData) | TextBody(text: string)

  /** The properties of an `options` argument that `request` reads or copies into the config. */
  datatype Options = Options(
    httpMethod: Option<string>,
    headers: Option<Headers>,
    body: Option<Body>,
    params: Option<Value>)

  const NoOptions := Options(None, None, None, None)

  /** The `config` object handed to `fetch`. */
  datatype Config = Config(httpMethod: string, headers: Headers, body: Option<Body>, params: Option<Value>)

  /** A call of `fetch(url, config)`. */
  datatype Fetch = Fetch(url: string, config: Config)

  /** What `fetch` resolves to: its status, its `content-type` header and its body text. */
  datatype Response = Response(status: nat, contentType: Option<string>, text: string)

  /** What the network does with a `fetch`: it fails, or it answers. */
  datatype Reply = NetworkDown | Received(response: Response)

  /** What an `XMLHttpRequest` upload ends with. */
  datatype XhrEvent = Load(status: nat, responseText: string) | TransportError | Abort | Timeout

  /** An upload: `xhr.open('POST', url)`, the headers set on it, and the FormData sent. */
  datatype Upload = Upload(url: string, headers: Headers, form: FormData)

  datatype Resolution = ParsedJson(json: Value) | RawText(text: string)
  datatype Failure = Thrown(message: string) | NetworkFailure | InvalidJson

  /** How the promise a call returns settles; `Pending` when it never does. */
  datatype Outcome = Resolved(result: Resolution) | Rejected(failure: Failure) | Pending

  /** `response.ok`. */
  predicate IsOk(status: nat) {
    200 <= status <= 299
  }

  const StatusPrefix := "HTTP error! status: "
  const UploadPrefix := "Upload failed: "

  /** The message of the error `request` throws for a non-ok response. */
  function StatusMessage(status: nat): string {
    StatusPrefix + NatToString(status)
  }

  /** The message of the error an upload rejects with when the status is not 2xx. */
  function UploadStatusMessage(status: nat): string {
    UploadPrefix + NatToString(status)
  }

  /** The content type is present, non-empty and includes `application/json`. */
  predicate DeclaresJson(contentType: Option<string>) {
    contentType.Some? && contentType.value != [] && Includes(contentType.value, "application/json")
  }

  /** The body `request` attaches for `data`: a FormData object as it is, anything else stringified. */
  function Encode(data: Payload, stringify: Value -> string): Body {
    match data
    case Form(f) => FormBody(f)
    case Plain(v) => TextBody(stringify(v))
  }

  /** How `request` settles once `fetch` has answered. */
  function Settle(reply: Reply, parseJson: string -> Option<Value>): (o: Outcome)
    ensures o != Pending
    ensures reply.NetworkDown? ==> o == Rejected(NetworkFailure)
    // a response that is not ok rejects, with its status in the message
    ensures reply.Received? && !IsOk(reply.response.status) ==>
              o == Rejected(Thrown(StatusMessage(reply.response.status)))
    // only an ok response resolves; JSON exactly when the content type says so
    ensures o.Resolved? ==> reply.Received? && IsOk(reply.response.status)
    ensures o.Resolved? ==> (o.result.ParsedJson? <==> DeclaresJson(reply.response.contentType))
    ensures o.Resolved? && o.result.ParsedJson? ==> parseJson(reply.response.text) == Some(o.result.json)
    ensures o.Resolved? && o.result.RawText? ==> o.result.text == reply.response.text
    // an ok response fails only when it claims JSON and its body does not parse
    ensures reply.Received? && IsOk(reply.response.status) && !o.Resolved? ==>
              DeclaresJson(reply.response.contentType) && parseJson(reply.response.text).None?
  {
    match reply
    case NetworkDown => Rejected(NetworkFailure)
    case Received(r) =>
      if !IsOk(r.status) then Rejected(Thrown(StatusMessage(r.status)))
      else if DeclaresJson(r.contentType) then
        match parseJson(r.text)
        case Some(v) => Resolved(ParsedJson(v))
        case None => Rejected(InvalidJson)
      else Resolved(RawText(r.text))
  }

  /** How `uploadFile` settles once the XMLHttpRequest has ended. */
  function SettleUpload(event: XhrEvent, parseJson: string -> Option<Value>): (o: Outcome)
    // it resolves exactly for a 2xx status, whatever the body
    ensures o.Resolved? <==> event.Load? && 200 <= event.status < 300
    ensures o.Resolved? ==>
              o.result == match parseJson(event.responseText)
                          case Some(v) => ParsedJson(v)
                          case None => RawText(event.responseText)
    ensures event.Load? && !(200 <= event.status < 300) ==>
              o == Rejected(Thrown(UploadStatusMessage(event.status)))
    ensures event.TransportError? ==> o == Rejected(Thrown("Upload failed"))
    // no listener handles abort or timeout, so the promise never settles
    ensures o == Pending <==> event.Abort? || event.Timeout?
  {
    match event
    case Load(status, text) =>
      if 200 <= status < 300 then
        match parseJson(text)
        case Some(v) => Resolved(ParsedJson(v))
        case None => Resolved(RawText(text))
      else Rejected(Thrown(UploadStatusMessage(status)))
    case TransportError => Rejected(Thrown("Upload failed"))
    case Abort => Pending
    case Timeout => Pending
  }

  /** The status a rejection message of `request` carries can be read back from its digits. */
  lemma StatusMessageCarriesStatus(status: nat)
    ensures StatusMessage(status)[..|StatusPrefix|] == StatusPrefix
    ensures ParseInt(StatusMessage(status)[|StatusPrefix|..]) == Some(status)
  {
    assert StatusMessage(status)[|StatusPrefix|..] == NatToString(status);
    ParseIntNatToString(status);
  }

  /** Two different statuses never give the same rejection message. */
  lemma StatusMessageInjective(a: nat, b: nat)
    requires StatusMessage(a) == StatusMessage(b)
    ensures a == b
  {
    StatusMessageCarriesStatus(a);
    StatusMessageCarriesStatus(b);
  }

  /**
   * Where `request` and `uploadFile` part ways on a 2xx answer: the upload
   * ignores the content type, tries JSON first and falls back to the raw text,
   * while `request` trusts the content type and fails on a body that does not parse.
   */
  lemma UploadAndRequestDiffer(status: nat, contentType: Option<string>, text: string, parseJson: string -> Option<Value>)
    requires 200 <= status < 300
    ensures parseJson(text).None? && DeclaresJson(contentType) ==>
              Settle(Received(Response(status, contentType, text)), parseJson) == Rejected(InvalidJson)
              && SettleUpload(Load(status, text), parseJson) == Resolved(RawText(text))
    ensures parseJson(text).Some? && !DeclaresJson(contentType) ==>
              Settle(Received(Response(status, contentType, text)), parseJson) == Resolved(RawText(text))
              && SettleUpload(Load(status, text), parseJson) == Resolved(ParsedJson(parseJson(text).value))
  {
  }

  /** The transport: a base URL and default headers that callers may change between calls. */
  class AjaxClient {
    var baseUrl: string
    var defaultHeaders: Headers
    const codec: Codec

    /** `new AJAXUtils()`; `origin` stands for `window.location.origin`. */
    constructor (origin: string, codec: Codec)
      ensures baseUrl == origin && defaultHeaders == InitialHeaders
      ensures this.codec.stringify == codec.stringify
      ensures this.codec.searchParams == codec.searchParams
      ensures this.codec.parseJson == codec.parseJson
    {
      baseUrl := origin;
      defaultHeaders := InitialHeaders;
      this.codec := codec;
    }

    method SetBaseUrl(url: string)
      modifies this
      ensures baseUrl == url && defaultHeaders == old(defaultHeaders)
    {
      baseUrl := url;
    }

    /** `setHeaders`: the given headers are merged over the defaults, which are otherwise kept. */
    method SetHeaders(headers: Headers)
      modifies this
      ensures defaultHeaders.Keys == old(defaultHeaders).Keys + headers.Keys
      ensures forall name :: name in headers ==> defaultHeaders[name] == headers[name]
      ensures forall name :: name in old(defaultHeaders) && name !in headers ==>
                defaultHeaders[name] == old(defaultHeaders)[name]
      ensures baseUrl == old(baseUrl)
    {
      defaultHeaders := defaultHeaders + headers;
    }

    /**
     * `request(method, url, data, options)`: builds the config step by step,
     * calls `fetch` with it and settles on `reply`, the network's answer.
     */
    method Request(verb: string, url: string, data: Payload, options: Options, reply: Reply)
      returns (call: Fetch, outcome: Outcome)
      // `...options` comes last, so a caller's method and headers win over the built ones
      ensures call.config.httpMethod == options.httpMethod.GetOr(ToUpperCase(verb))
      ensures call.config.params == options.params
      // a body only for a truthy payload and POST, PUT or PATCH; a FormData body drops Content-Type
      ensures IsTruthy(data) && call.config.httpMethod in BodyMethods ==>
                call.config.body == Some(Encode(data, codec.stringify))
                && call.config.headers ==
                     if data.Form? then options.headers.GetOr(defaultHeaders) - {ContentType}
                     else options.headers.GetOr(defaultHeaders)
      ensures !(IsTruthy(data) && call.config.httpMethod in BodyMethods) ==>
                call.config.body == options.body && call.config.headers == options.headers.GetOr(defaultHeaders)
      // a truthy payload of a GET goes into the query string, after `?` or `&`
      ensures IsTruthy(data) && call.config.httpMethod == "GET" ==>
                call.url == baseUrl + url + (if Includes(url, "?") then "&" else "?") + codec.searchParams(data)
      ensures !(IsTruthy(data) && call.config.httpMethod == "GET") ==> call.url == baseUrl + url
      ensures outcome == Settle(reply, codec.parseJson)
    {
      var merged := defaultHeaders + options.headers.GetOr(map[]);
      var config := Config(ToUpperCase(verb), merged, None, None);
      // the spread of `options`: every property the caller gave replaces the built one
      if options.httpMethod.Some? {
        config := config.(httpMethod := options.httpMethod.value);
      }
      if options.headers.Some? {
        config := config.(headers := options.headers.value);
      } else {
        assert merged == defaultHeaders;
      }
      config := config.(body := options.body, params := options.params);

      if IsTruthy(data) && config.httpMethod in BodyMethods {
        if data.Form? {
          config := config.(headers := config.headers - {ContentType}, body := Some(FormBody(data.form)));
        } else {
          config := config.(body := Some(TextBody(codec.stringify(data.value))));
        }
      }

      var target := url;
      if IsTruthy(data) && config.httpMethod == "GET" {
        target := target + (if Includes(target, "?") then "&" else "?") + codec.searchParams(data);
      }

      call := Fetch(baseUrl + target, config);
      outcome := Settle(reply, codec.parseJson);
    }

    /** `get(url, options)`: `data` is always null, so the URL is never given a query string. */
    method Get(url: string, options: Options, reply: Reply) returns (call: Fetch, outcome: Outcome)
      ensures call.url == baseUrl + url
      ensures call.config.httpMethod == options.httpMethod.GetOr("GET")
      ensures call.config.headers == options.headers.GetOr(defaultHeaders)
      ensures call.config.body == options.body && call.config.params == options.params
      ensures outcome == Settle(reply, codec.parseJson)
    {
      call, outcome := Request("GET", url, NoData, options, reply);
    }

    /** `delete(url, options)`: no data, so neither a body nor a query string. */
    method Delete(url: string, options: Options, reply: Reply) returns (call: Fetch, outcome: Outcome)
      ensures call.url == baseUrl + url
      ensures call.config.httpMethod == options.httpMethod.GetOr("DELETE")
      ensures call.config.headers == options.headers.GetOr(defaultHeaders)
      ensures call.config.body == options.body && call.config.params == options.params
      ensures outcome == Settle(reply, codec.parseJson)
    {
      call, outcome := Request("DELETE", url, NoData, options, reply);
    }

    /** `post(url, data, options)`. */
    method Post(url: string, data: Payload, options: Options, reply: Reply) returns (call: Fetch, outcome: Outcome)
      ensures options.httpMethod.None? ==> call.url == baseUrl + url && call.config.httpMethod == "POST"
      ensures options.httpMethod.None? ==>
                call.config.headers ==
                  if IsTruthy(data) && data.Form? then options.headers.GetOr(defaultHeaders) - {ContentType}
                  else options.headers.GetOr(defaultHeaders)
      ensures call.config.params == options.params
      ensures options.httpMethod.None? && IsTruthy(data) ==> call.config.body == Some(Encode(data, codec.stringify))
      ensures options.httpMethod.None? && !IsTruthy(data) ==> call.config.body == options.body
      ensures outcome == Settle(reply, codec.parseJson)
    {
      call, outcome := Request("POST", url, data, options, reply);
    }

    /** `put(url, data, options)`. */
    method Put(url: string, data: Payload, options: Options, reply: Reply) returns (call: Fetch, outcome: Outcome)
      ensures options.httpMethod.None? ==> call.url == baseUrl + url && call.config.httpMethod == "PUT"
      ensures options.httpMethod.None? ==>
                call.config.headers ==
                  if IsTruthy(data) && data.Form? then options.headers.GetOr(defaultHeaders) - {ContentType}
                  else options.headers.GetOr(defaultHeaders)
      ensures call.config.params == options.params
      ensures options.httpMethod.None? && IsTruthy(data) ==> call.config.body == Some(Encode(data, codec.stringify))
      ensures options.httpMethod.None? && !IsTruthy(data) ==> call.config.body == options.body
      ensures outcome == Settle(reply, codec.parseJson)
    {
      call, outcome := Request("PUT", url, data, options, reply);
    }

    /** `patch(url, data, options)`. */
    method Patch(url: string, data: Payload, options: Options, reply: Reply) returns (call: Fetch, outcome: Outcome)
      ensures options.httpMethod.None? ==> call.url == baseUrl + url && call.config.httpMethod == "PATCH"
      ensures options.httpMethod.None? ==>
                call.config.headers ==
                  if IsTruthy(data) && data.Form? then options.headers.GetOr(defaultHeaders) - {ContentType}
                  else options.headers.GetOr(defaultHeaders)
      ensures call.config.params == options.params
      ensures options.httpMethod.None? && IsTruthy(data) ==> call.config.body == Some(Encode(data, codec.stringify))
      ensures options.httpMethod.None? && !IsTruthy(data) ==> call.config.body == options.body
      ensures outcome == Settle(reply, codec.parseJson)
    {
      call, outcome := Request("PATCH", url, data, options, reply);
    }

    /**
     * `uploadFile(url, file, options)`: a FormData with the file under `file`,
     * POSTed with the caller's headers only (the default headers are not sent).
     */
    method UploadFile(url: string, file: nat, headers: Option<Headers>, event: XhrEvent)
      returns (upload: Upload, outcome: Outcome)
      ensures upload.url == baseUrl + url
      ensures upload.headers == headers.GetOr(map[])
      ensures upload.form == FormData([("file", File(file))])
      ensures outcome == SettleUpload(event, codec.parseJson)
    {
      var form := FormData([("file", File(file))]);
      upload := Upload(baseUrl + url, headers.GetOr(map[]), form);
      outcome := SettleUpload(event, codec.parseJson);
    }
  }
}
