/**
 * The RingCaptcha API client: credentials, the security flag, the three
 * remote operations, the sanitizing of form data and the translation of a
 * transport outcome into a response record or an error.
 *
 * The network exchange itself is an input: each operation is handed the
 * Transport outcome that the POST would produce, and it returns the Request
 * it would have sent.
 */
module Client {
  import opened Wrappers
  import opened Responses

  /** AVAILABLE_SERVICES: the delivery channels a PIN code can be sent over. */
  const AvailableServices: seq<string> := ["sms", "voice"]

  /** The fixed API host. */
  const RcServer: string := "api.ringcaptcha.com"

  /** The message of the RingCaptchaRequestError raised for a non-2xx/3xx reply, spelled as the library spells it. */
  const RequestErrorMessage: string := "ERROR_PROCESING_REQUEST"

  predicate ServiceAvailable(service: string)
    ensures ServiceAvailable(service) <==> service == "sms" || service == "voice"
  {
    service in AvailableServices
  }

  /** The ArgumentError message for a service outside AVAILABLE_SERVICES. */
  function UndefinedServiceMessage(service: string): (m: string)
    ensures |m| > 19 + |service| && m[..19] == "undefined service `"
    ensures m[19..19 + |service|] == service
  {
    "undefined service `" + service + "', availables are: [:sms, :voice]"
  }

  // ---------------------------------------------------------------------------
  // Form data and its sanitizing
  // ---------------------------------------------------------------------------

  /**
   * A form value as a term: a string the caller gave, or the result of
   * applying URI::encode or String#strip to one. The two library functions
   * stay uninterpreted: the term records which ones were applied, in which order.
   */
  datatype Text = Plain(s: string) | UriEncode(arg: Text) | Strip(arg: Text)

  /** Request data: form field name (the symbol's name) to value. */
  type FormData = map<string, Text>

  /** What sanitizing makes of one entry: the message is kept verbatim, any other value becomes strip(encode(v)). */
  function SanitizedValue(key: string, v: Text): Text {
    if key == "message" then v else Strip(UriEncode(v))
  }

  /** sanitize_data, as a function of the data before the call. */
  function Sanitized(data: FormData): (r: FormData)
    ensures r.Keys == data.Keys
    ensures "message" in data ==> r["message"] == data["message"]
    ensures forall key :: key in data && key != "message" ==> r[key] == Strip(UriEncode(data[key]))
  {
    map key | key in data :: SanitizedValue(key, data[key])
  }

  /** A Ruby Hash of form data; sanitize_data rewrites its values in place. */
  class FormHash {
    var entries: FormData

    constructor (entries: FormData)
      ensures this.entries == entries
    {
      this.entries := entries;
    }
  }

  /** The form data of each operation, before sanitizing. */
  function CodeData(secretKey: string, phone: string): (d: FormData)
    ensures d.Keys == {"secret_key", "phone"}
    ensures d["secret_key"] == Plain(secretKey) && d["phone"] == Plain(phone)
  {
    map["secret_key" := Plain(secretKey), "phone" := Plain(phone)]
  }

  function VerifyData(secretKey: string, token: string, pinCode: string): (d: FormData)
    ensures d.Keys == {"secret_key", "token", "code"}
    ensures d["secret_key"] == Plain(secretKey) && d["token"] == Plain(token) && d["code"] == Plain(pinCode)
  {
    map["secret_key" := Plain(secretKey), "token" := Plain(token), "code" := Plain(pinCode)]
  }

  function SmsData(secretKey: string, phone: string, message: string): (d: FormData)
    ensures d.Keys == {"secret_key", "phone", "message"}
    ensures d["secret_key"] == Plain(secretKey) && d["phone"] == Plain(phone) && d["message"] == Plain(message)
  {
    map["secret_key" := Plain(secretKey), "phone" := Plain(phone), "message" := Plain(message)]
  }

  /**
   * Once sanitized, the data of every operation carries the encoded and
   * stripped secret key and operation fields, and the message verbatim.
   */
  lemma SanitizedRequestData(secretKey: string, phone: string, token: string, pinCode: string, message: string)
    ensures Sanitized(CodeData(secretKey, phone)) ==
      map["secret_key" := Strip(UriEncode(Plain(secretKey))), "phone" := Strip(UriEncode(Plain(phone)))]
    ensures Sanitized(VerifyData(secretKey, token, pinCode)) ==
      map["secret_key" := Strip(UriEncode(Plain(secretKey))), "token" := Strip(UriEncode(Plain(token))),
          "code" := Strip(UriEncode(Plain(pinCode)))]
    ensures Sanitized(SmsData(secretKey, phone, message)) ==
      map["secret_key" := Strip(UriEncode(Plain(secretKey))), "phone" := Strip(UriEncode(Plain(phone))),
          "message" := Plain(message)]
  {
  }

  // ---------------------------------------------------------------------------
  // Resource paths
  // ---------------------------------------------------------------------------

  /** The three remote endpoints below the application key. */
  datatype Endpoint = Code(service: string) | Verify | Sms

  function EndpointSuffix(e: Endpoint): string {
    match e
    case Code(service) => "/code/" + service
    case Verify => "/verify"
    case Sms => "/sms"
  }

  /** The resource an operation posts to: the application key, then the endpoint. */
  function Resource(appKey: string, e: Endpoint): (r: string)
    ensures |r| > |appKey| && r[..|appKey| + 1] == appKey + "/"
  {
    appKey + EndpointSuffix(e)
  }

  /** Under one application key, the resource tells the endpoint (and the service) apart. */
  lemma ResourceDeterminesEndpoint(appKey: string, e1: Endpoint, e2: Endpoint)
    requires Resource(appKey, e1) == Resource(appKey, e2)
    ensures e1 == e2
  {
    var s1, s2 := EndpointSuffix(e1), EndpointSuffix(e2);
    assert s1 == Resource(appKey, e1)[|appKey|..];
    assert s2 == Resource(appKey, e2)[|appKey|..];
    assert s1[1] == s2[1];
    if e1.Code? && e2.Code? {
      assert e1.service == s1[6..] && e2.service == s2[6..];
    }
  }

  // ---------------------------------------------------------------------------
  // Scheme, port and the request URI
  // ---------------------------------------------------------------------------

  /**
   * A value stored by `secure=`. The setter takes any Ruby object: the
   * protocol test uses its truthiness, the port test compares it with `true`.
   */
  datatype SecureValue = TrueValue | FalseValue | NilValue | OtherValue

  /** Ruby truthiness: everything but false and nil. */
  predicate Truthy(v: SecureValue) {
    v != FalseValue && v != NilValue
  }

  function Protocol(secure: SecureValue): (p: string)
    ensures p == "https://" || p == "http://"
    ensures p == "https://" <==> Truthy(secure)
  {
    if Truthy(secure) then "https://" else "http://"
  }

  function EffectivePort(secure: SecureValue, port: nat): (p: nat)
    ensures secure == TrueValue ==> p == 443
    ensures secure != TrueValue ==> p == port
  {
    if secure == TrueValue then 443 else port
  }

  /** With a boolean flag and the default port, TLS and port 443 go together. */
  lemma BooleanFlagAgrees(secure: SecureValue)
    requires secure == TrueValue || secure == FalseValue
    ensures Protocol(secure) == "https://" <==> EffectivePort(secure, 80) == 443
    ensures secure == FalseValue ==> Protocol(secure) == "http://" && EffectivePort(secure, 80) == 80
  {
  }

  /** A truthy value other than `true` selects https but keeps port 80. */
  lemma TruthyOtherValueMixesSchemeAndPort()
    ensures Protocol(OtherValue) == "https://" && EffectivePort(OtherValue, 80) == 80
  {
  }

  /** The decimal digits of n, as Ruby's Integer#to_s writes them inside the URI. */
  function DecimalString(n: nat): (s: string)
    ensures |s| >= 1
    ensures forall i :: 0 <= i < |s| ==> '0' <= s[i] <= '9'
    ensures |s| > 1 ==> s[0] != '0'
  {
    if n < 10 then [DigitChar(n)] else DecimalString(n / 10) + [DigitChar(n % 10)]
  }

  function DigitChar(d: nat): (c: char)
    requires d < 10
    ensures '0' <= c <= '9'
  {
    "0123456789"[d]
  }

  predicate IsDigits(s: string) {
    forall i :: 0 <= i < |s| ==> '0' <= s[i] <= '9'
  }

  /** The number a string of decimal digits denotes. */
  function DecimalValue(s: string): nat
    requires IsDigits(s)
  {
    if s == [] then 0 else DecimalValue(s[..|s| - 1]) * 10 + (s[|s| - 1] as int - '0' as int)
  }

  /** The digits written for a port read back as that port. */
  lemma {:induction false} DecimalRoundTrip(n: nat)
    ensures DecimalValue(DecimalString(n)) == n
  {
    var s := DecimalString(n);
    if n >= 10 {
      DecimalRoundTrip(n / 10);
      assert s[..|s| - 1] == DecimalString(n / 10);
    }
  }

  /** The non-network part of a POST: where it goes and what form data it carries. */
  datatype Request = Request(protocol: string, host: string, port: nat, resource: string, form: FormData)

  /** The URI string "<protocol><host>:<port>/<resource>". */
  function Uri(req: Request): (u: string)
    ensures |u| > |req.protocol| + |req.host| + 1 + |req.resource|
    ensures u[..|req.protocol| + |req.host| + 1] == req.protocol + req.host + ":"
    ensures u[|u| - |req.resource| - 1..] == "/" + req.resource
  {
    req.protocol + req.host + ":" + DecimalString(req.port) + "/" + req.resource
  }

  /** The URI is laid out as protocol, host, a colon, the port digits, a slash and the resource, and its digits read back as the port. */
  lemma UriLayout(req: Request)
    ensures var start := |req.protocol| + |req.host| + 1;
            var end := start + |DecimalString(req.port)|;
            && end < |Uri(req)|
            && Uri(req)[..start] == req.protocol + req.host + ":"
            && IsDigits(Uri(req)[start..end])
            && DecimalValue(Uri(req)[start..end]) == req.port
            && Uri(req)[end..] == "/" + req.resource
  {
    var start := |req.protocol| + |req.host| + 1;
    var digits := DecimalString(req.port);
    var end := start + |digits|;
    var u := Uri(req);
    assert u == (req.protocol + req.host + ":") + digits + ("/" + req.resource);
    assert u[start..end] == digits;
    DecimalRoundTrip(req.port);
  }

  /** What api_rest_call sends, as a function of the flag, the resource, the data before sanitizing and the port argument. */
  function BuildRequest(secure: SecureValue, resource: string, data: FormData, port: nat): (req: Request)
    ensures req.host == RcServer && req.resource == resource
    ensures req.protocol == "https://" <==> Truthy(secure)
    ensures !Truthy(secure) ==> req.protocol == "http://"
    ensures req.port == if secure == TrueValue then 443 else port
    ensures req.form == Sanitized(data)
  {
    Request(Protocol(secure), RcServer, EffectivePort(secure, port), resource, Sanitized(data))
  }

  /**
   * The URI a call posts to: https on 443 for `true`, http on the port
   * argument for false or nil, and https on the port argument for any other
   * truthy value; the host is always api.ringcaptcha.com.
   */
  lemma RequestUri(secure: SecureValue, resource: string, data: FormData, port: nat)
    ensures secure == TrueValue ==>
      Uri(BuildRequest(secure, resource, data, port)) == "https://api.ringcaptcha.com:443/" + resource
    ensures !Truthy(secure) ==>
      Uri(BuildRequest(secure, resource, data, port)) == "http://api.ringcaptcha.com:" + DecimalString(port) + "/" + resource
    ensures secure == OtherValue ==>
      Uri(BuildRequest(secure, resource, data, port)) == "https://api.ringcaptcha.com:" + DecimalString(port) + "/" + resource
  {
    if secure == TrueValue {
      SecureUri(resource, data, port);
    } else {
      OtherUri(secure, resource, data, port);
    }
  }

  // Proof step for `RequestUri`: any flag other than `true` keeps the port
  // argument, with the flag's protocol.
  lemma OtherUri(secure: SecureValue, resource: string, data: FormData, port: nat)
    requires secure != TrueValue
    ensures !Truthy(secure) ==>
      Uri(BuildRequest(secure, resource, data, port)) == "http://api.ringcaptcha.com:" + DecimalString(port) + "/" + resource
    ensures Truthy(secure) ==>
      Uri(BuildRequest(secure, resource, data, port)) == "https://api.ringcaptcha.com:" + DecimalString(port) + "/" + resource
  {
    var req := BuildRequest(secure, resource, data, port);
    assert req.host == RcServer && req.port == port;
    if Truthy(secure) {
      assert req.protocol == "https://";
      assert "https://" + RcServer + ":" == "https://api.ringcaptcha.com:";
    } else {
      assert req.protocol == "http://";
      assert "http://" + RcServer + ":" == "http://api.ringcaptcha.com:";
    }
  }

  lemma SecureUri(resource: string, data: FormData, port: nat)
    ensures Uri(BuildRequest(TrueValue, resource, data, port)) == "https://api.ringcaptcha.com:443/" + resource
  {
    var req := BuildRequest(TrueValue, resource, data, port);
    assert req.protocol == "https://" && req.host == RcServer && req.port == 443;
    assert DecimalString(443) == "443" by {
      assert DecimalString(4) == "4";
      assert DecimalString(44) == "44";
    }
    assert "https://" + "api.ringcaptcha.com" + ":" + "443" + "/" == "https://api.ringcaptcha.com:443/";
  }

  /** With the default port, a `false` flag posts to http on port 80. */
  lemma DefaultPortUri(resource: string, data: FormData)
    ensures Uri(BuildRequest(FalseValue, resource, data, 80)) == "http://api.ringcaptcha.com:80/" + resource
  {
    RequestUri(FalseValue, resource, data, 80);
    assert DecimalString(80) == "80" by {
      assert DecimalString(8) == "8";
    }
  }

  // ---------------------------------------------------------------------------
  // Outcomes
  // ---------------------------------------------------------------------------

  /** What the transport step produced: a reply, or an exception with its message. */
  datatype Transport = Reply(response: HttpResponse) | Raised(message: string)

  /** The case on the reply: Net::HTTPSuccess (2xx) and Net::HTTPRedirection (3xx) return it, anything else raises. */
  function HandleResponse(res: HttpResponse): (r: Result<HttpResponse, string>)
    ensures r.Success? <==> 200 <= res.code < 400
    ensures r.Success? ==> r.value == res
    ensures r.Failure? ==> r.error == RequestErrorMessage
  {
    if 200 <= res.code < 400 then Success(res) else Failure(RequestErrorMessage)
  }

  /** The result of api_rest_call: the reply, or the message of the exception it raises. */
  function CallOutcome(t: Transport): (r: Result<HttpResponse, string>)
    ensures r.Success? <==> t.Reply? && 200 <= t.response.code < 400
    ensures r.Success? ==> r.value == t.response
    ensures t.Raised? ==> r == Failure(t.message)
    ensures t.Reply? && r.Failure? ==> r.error == RequestErrorMessage
  {
    match t
    case Raised(m) => Failure(m)
    case Reply(res) => HandleResponse(res)
  }

  /**
   * What an operation raises. ArgumentError comes from the service check;
   * NilResponseBody is the NoMethodError of building the record from the nil
   * response left by a rescued request error.
   */
  datatype OpError = ArgumentError(message: string) | NilResponseBody

  /** Building the record of the given kind from what api_rest_call left in `response`. */
  function Finish(kind: Kind, outcome: Result<HttpResponse, string>): (r: Result<Response, OpError>)
    ensures r.Success? <==> outcome.Success?
    ensures r.Success? ==> WellFormed(r.value) && r.value.kind == kind && r.value.response == outcome.value
    ensures r.Failure? ==> r.error == NilResponseBody
  {
    match outcome
    case Success(res) => Success(NewResponse(kind, res))
    case Failure(_) => Failure(NilResponseBody)
  }

  /** The `message` attribute after a call: the rescued error's text, or what it held before. */
  function MessageAfter(outcome: Result<HttpResponse, string>, previous: Option<string>): (m: Option<string>)
    ensures outcome.Failure? ==> m == Some(outcome.error)
    ensures outcome.Success? ==> m == previous
  {
    match outcome
    case Success(_) => previous
    case Failure(m) => Some(m)
  }

  /**
   * An operation returns a record exactly when the transport gave a 2xx or
   * 3xx reply; the record is then of the operation's kind, built from that
   * reply, and valid exactly when the reply's status member is "SUCCESS".
   * Otherwise it fails and `message` holds the error text.
   */
  lemma OutcomeOfCall(kind: Kind, t: Transport, previous: Option<string>)
    ensures Finish(kind, CallOutcome(t)).Success? <==> t.Reply? && 200 <= t.response.code < 400
    ensures Finish(kind, CallOutcome(t)).Success? ==>
      var r := Finish(kind, CallOutcome(t)).value;
      && WellFormed(r) && r.kind == kind && r.response == t.response
      && (IsValid(r) <==> "status" in t.response.body && t.response.body["status"] == Str("SUCCESS"))
    ensures t.Raised? ==> MessageAfter(CallOutcome(t), previous) == Some(t.message)
    ensures t.Reply? && !(200 <= t.response.code < 400) ==>
      MessageAfter(CallOutcome(t), previous) == Some(RequestErrorMessage)
    ensures Finish(kind, CallOutcome(t)).Success? ==> MessageAfter(CallOutcome(t), previous) == previous
  {
  }

  // ---------------------------------------------------------------------------
  // The client
  // ---------------------------------------------------------------------------

  class RingCaptcha {
    const appKey: string
    const secretKey: string
    /** The security flag; reading the field is the `secure` and `secure?` readers. */
    var secure: SecureValue
    /** The text of the last rescued request error; nil until a call fails. */
    var message: Option<string>

    constructor (appKey: string, secretKey: string)
      ensures this.appKey == appKey && this.secretKey == secretKey
      ensures secure == TrueValue && message == None
    {
      this.appKey := appKey;
      this.secretKey := secretKey;
      secure := TrueValue;
      message := None;
    }

    /** `secure=`. */
    method SetSecure(newValue: SecureValue)
      modifies this
      ensures secure == newValue && message == old(message)
    {
      secure := newValue;
    }

    /** sanitize_data: rewrites every entry of the hash except the message, in place. */
    method SanitizeData(data: FormHash)
      modifies data
      ensures data.entries == Sanitized(old(data.entries))
    {
      var pending := data.entries.Keys;
      while pending != {}
        invariant data.entries.Keys == old(data.entries).Keys
        invariant pending <= data.entries.Keys
        invariant forall key :: key in data.entries ==>
          data.entries[key] == if key in pending then old(data.entries)[key]
                               else SanitizedValue(key, old(data.entries)[key])
        decreases pending
      {
        var key :| key in pending;
        if key != "message" {
          data.entries := data.entries[key := Strip(UriEncode(data.entries[key]))];
        }
        pending := pending - {key};
      }
    }

    /**
     * api_rest_call without the network: picks protocol and port, sanitizes
     * the data, and returns the request it sends together with the outcome
     * of the transport step.
     */
    method ApiRestCall(resource: string, data: FormHash, transport: Transport, port: nat := 80)
      returns (sent: Request, result: Result<HttpResponse, string>)
      modifies data
      ensures data.entries == Sanitized(old(data.entries))
      ensures sent == BuildRequest(secure, resource, old(data.entries), port)
      ensures secure == TrueValue ==> Uri(sent) == "https://api.ringcaptcha.com:443/" + resource
      ensures !Truthy(secure) ==> Uri(sent) == "http://api.ringcaptcha.com:" + DecimalString(port) + "/" + resource
      ensures result == CallOutcome(transport)
    {
      var protocol := if Truthy(secure) then "https://" else "http://";
      var host := RcServer;
      var effectivePort := if secure == TrueValue then 443 else port;
      SanitizeData(data);
      sent := Request(protocol, host, effectivePort, resource, data.entries);
      RequestUri(secure, resource, old(data.entries), port);
      match transport
      case Raised(m) =>
        result := Failure(m);
      case Reply(res) =>
        if 200 <= res.code < 400 {
          result := Success(res);
        } else {
          result := Failure(RequestErrorMessage);
        }
    }

    /** send_pin_code: checks the service, then asks for a code to be sent to the phone. */
    method SendPinCode(phoneNumber: string, service: string := "sms", transport: Transport)
      returns (sent: Option<Request>, result: Result<Response, OpError>)
      modifies this
      ensures secure == old(secure)
      ensures !ServiceAvailable(service) ==>
        && sent == None
        && result == Failure(ArgumentError(UndefinedServiceMessage(service)))
        && message == old(message)
      ensures ServiceAvailable(service) ==>
        && sent == Some(BuildRequest(secure, Resource(appKey, Code(service)), CodeData(secretKey, phoneNumber), 80))
        && result == Finish(Validation, CallOutcome(transport))
        && message == MessageAfter(CallOutcome(transport), old(message))
    {
      if !ServiceAvailable(service) {
        sent := None;
        result := Failure(ArgumentError(UndefinedServiceMessage(service)));
        return;
      }
      var data := new FormHash(CodeData(secretKey, phoneNumber));
      var resource := appKey + "/code/" + service;
      assert resource == Resource(appKey, Code(service));
      var request, response := ApiRestCall(resource, data, transport);
      sent := Some(request);
      Rescue(response);
      result := Finish(Validation, response);
    }

    /** validate_pin_code: checks a code the user typed against the token of an earlier request. */
    method ValidatePinCode(pinCode: string, token: string, transport: Transport)
      returns (sent: Request, result: Result<Response, OpError>)
      modifies this
      ensures secure == old(secure)
      ensures sent == BuildRequest(secure, Resource(appKey, Verify), VerifyData(secretKey, token, pinCode), 80)
      ensures result == Finish(Verification, CallOutcome(transport))
      ensures message == MessageAfter(CallOutcome(transport), old(message))
    {
      var data := new FormHash(VerifyData(secretKey, token, pinCode));
      var response;
      sent, response := ApiRestCall(appKey + "/verify", data, transport);
      Rescue(response);
      result := Finish(Verification, response);
    }

    /** send_message: sends a free-text SMS to the phone. */
    method SendMessage(phoneNumber: string, message: string, transport: Transport)
      returns (sent: Request, result: Result<Response, OpError>)
      modifies this
      ensures secure == old(secure)
      ensures sent == BuildRequest(secure, Resource(appKey, Sms), SmsData(secretKey, phoneNumber, message), 80)
      ensures result == Finish(Message, CallOutcome(transport))
      ensures this.message == MessageAfter(CallOutcome(transport), old(this.message))
    {
      var data := new FormHash(SmsData(secretKey, phoneNumber, message));
      var response;
      sent, response := ApiRestCall(appKey + "/sms", data, transport);
      Rescue(response);
      result := Finish(Message, response);
    }

    /** The rescue clause of each operation: a raised error's text goes to `message`. */
    method Rescue(outcome: Result<HttpResponse, string>)
      modifies this
      ensures secure == old(secure)
      ensures message == MessageAfter(outcome, old(message))
    {
      if outcome.Failure? {
        message := Some(outcome.error);
      }
    }
  }
}
