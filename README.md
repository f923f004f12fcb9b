# ringcaptcha-ruby, modelled in Dafny

A model of the deterministic layer of the RingCaptcha Ruby client
(`lib/ringcaptcha.rb`): the response records that narrow a parsed JSON body to
each class's `PUBLIC_METHODS`, the `valid?` test, and the request the
`RingCaptcha` client builds for `send_pin_code`, `validate_pin_code` and
`send_message`. That covers the service check, the resource path, the form
data, the sanitizing of that data, the protocol and port, and what the client
does with a reply or a raised error.

Files:

- `wrappers.dfy`: `Option` (Ruby's nil) and `Result` (a value or a raised error).
- `responses.dfy`: module `Responses`. It holds the JSON `Value`, the three
  response kinds and their allow-lists, `AsJson`, the record built from a
  response, the field accessors `Field`, and `IsValid` (`valid?`).
- `client.dfy`: module `Client`. It holds form data as terms over the
  uninterpreted `URI::encode` and `strip`, the endpoints and resources,
  protocol and port selection, the URI string, and reply handling. Its class
  `RingCaptcha` has fields `secure` and `message` and the imperative
  operations. `FormHash` is the mutable Ruby Hash that `sanitize_data`
  rewrites in place.

The transport is an input. Each operation receives a `Transport` value: either
a `Reply` with a status code and an already parsed body, or `Raised` with the
message of an exception the HTTP layer raised. Each operation returns the
`Request` it would send.

Places where the code's behaviour is easy to misread, which the model reproduces as written:

- A failed request does not surface as an error of its own
  (lib/ringcaptcha.rb:74-80). The operation rescues the error and stores its
  text in `message`. It then builds the record from the nil `response`, which
  raises NoMethodError. The model returns `Failure(NilResponseBody)` and sets
  `message`. A caller therefore gets the same failure for every request
  error, and finds the error text only in `message`.
- The port argument of `api_rest_call` is used whenever `@secure` is not
  exactly `true` (lib/ringcaptcha.rb:117-120). Callers never pass it, so the
  port is 80 in that case.
- `@secure` can hold any Ruby object, because `secure=` stores whatever it is
  given (lib/ringcaptcha.rb:65-67). The protocol is chosen by truthiness,
  but port 443 only by `== true` (lib/ringcaptcha.rb:118-120). So a truthy
  value other than `true` gives `https://` on port 80
  (`Client.TruthyOtherValueMixesSchemeAndPort`, `Client.RequestUri`).
- The misspelled literal `ERROR_PROCESING_REQUEST` is kept (lib/ringcaptcha.rb:134).
- A JSON `null` member reads as nil, the same as a missing member
  (lib/ringcaptcha.rb:15-21). `Responses.Field` gives `None` for both.

## Model

| member | source | states |
|---|---|---|
| `Responses.PublicMethods` | lib/ringcaptcha.rb:34-42 | the Validation, Verification and Message allow-lists have 12, 9 and 6 distinct names, and each includes status, message, id and phone |
| `Responses.AsJson` | lib/ringcaptcha.rb:28-30 | a key survives exactly when it is in the parsed body and on the kind's allow-list; surviving values are the body's values |
| `Responses.AsJsonIdempotent` | lib/ringcaptcha.rb:28-30 | filtering an already filtered body changes nothing |
| `Responses.AsJsonKeepsAllowed` | lib/ringcaptcha.rb:28-30 | a body whose names are all allow-listed passes unchanged |
| `Responses.AsJsonSize` | lib/ringcaptcha.rb:28-42 | a record never holds more fields than its class's allow-list names |
| `Responses.NewResponse` | lib/ringcaptcha.rb:14-17 | the record keeps the parsed body, the raw response, and the allow-list view of the body that the accessors read (what callers see of it is stated by `Field` and `IsValid`) |
| `Responses.Field` | lib/ringcaptcha.rb:15-21 | an allow-listed accessor gives nil exactly when the raw body lacks that member or holds JSON null there, and otherwise the body's value |
| `Responses.IsValid` | lib/ringcaptcha.rb:24-26 | `valid?` holds exactly when the body's status member is the string "SUCCESS"; an absent, null or different status gives false |
| `Client.ServiceAvailable` | lib/ringcaptcha.rb:46 | a service is available exactly when it is "sms" or "voice" |
| `Client.UndefinedServiceMessage` | lib/ringcaptcha.rb:70 | the ArgumentError text starts "undefined service `" followed by the rejected service |
| `Client.CodeData` | lib/ringcaptcha.rb:72 | the code request carries exactly secret_key and phone, with the caller's values |
| `Client.VerifyData` | lib/ringcaptcha.rb:85 | the verification carries exactly secret_key, token and code, with the caller's values |
| `Client.SmsData` | lib/ringcaptcha.rb:98 | the SMS request carries exactly secret_key, phone and message, with the caller's values |
| `Client.FormHash.constructor` | lib/ringcaptcha.rb:72-115 | the mutable hash starts with the data given to it |
| `Client.Sanitized` | lib/ringcaptcha.rb:111-115 | sanitizing keeps the key set and the message value, and turns every other value v into strip(encode(v)) |
| `Client.RingCaptcha.SanitizeData` | lib/ringcaptcha.rb:111-115 | the in-place loop leaves the hash equal to `Sanitized` of its old contents |
| `Client.SanitizedRequestData` | lib/ringcaptcha.rb:72-115 | after sanitizing, each operation's data holds the encoded, stripped secret key and fields, and the message verbatim |
| `Client.Resource` | lib/ringcaptcha.rb:75-101 | every resource begins with the application key and a slash |
| `Client.ResourceDeterminesEndpoint` | lib/ringcaptcha.rb:75-101 | under one application key, equal resources mean the same endpoint and, for code requests, the same service |
| `Client.Protocol` | lib/ringcaptcha.rb:118 | the protocol is "https://" exactly when the flag is truthy, otherwise "http://" (used by `BooleanFlagAgrees` and `RequestUri`) |
| `Client.EffectivePort` | lib/ringcaptcha.rb:117-120 | the port is 443 when the flag is `true`, otherwise the port argument (used by `BooleanFlagAgrees` and `RequestUri`) |
| `Client.BooleanFlagAgrees` | lib/ringcaptcha.rb:117-120 | for a boolean flag with the default port, https goes with 443 and http with 80 |
| `Client.TruthyOtherValueMixesSchemeAndPort` | lib/ringcaptcha.rb:118-120 | a truthy flag other than `true` selects https on port 80 |
| `Client.DecimalString` | lib/ringcaptcha.rb:123 | the port is written as a nonempty string of decimal digits with no leading zero |
| `Client.DecimalRoundTrip` | lib/ringcaptcha.rb:123 | the written port digits read back as the port |
| `Client.Uri` | lib/ringcaptcha.rb:123 | the URI starts with protocol, host and ':' and ends with '/' and the resource |
| `Client.UriLayout` | lib/ringcaptcha.rb:123 | the URI is protocol, host, ':', port digits that read back as the port, '/', resource |
| `Client.BuildRequest` | lib/ringcaptcha.rb:117-123 | the request goes to api.ringcaptcha.com; https exactly for a truthy flag, http otherwise; port 443 for `true`, otherwise the port argument; the data sanitized (what `ApiRestCall` sends) |
| `Client.RequestUri` | lib/ringcaptcha.rb:117-123 | the URI posted to is "https://api.ringcaptcha.com:443/" plus the resource for `true`, "http://api.ringcaptcha.com:<port>/" plus the resource for false or nil, and https on the port argument for another truthy value |
| `Client.SecureUri` | lib/ringcaptcha.rb:117-123 | with the flag `true` the URI is "https://api.ringcaptcha.com:443/" plus the resource, whatever the port argument |
| `Client.DefaultPortUri` | lib/ringcaptcha.rb:117-123 | with the flag `false` and the default port the URI is "http://api.ringcaptcha.com:80/" plus the resource |
| `Client.HandleResponse` | lib/ringcaptcha.rb:130-135 | a reply is returned exactly when its code is 2xx or 3xx; otherwise the error is 'ERROR_PROCESING_REQUEST' (combined with the rescue in `OutcomeOfCall`) |
| `Client.CallOutcome` | lib/ringcaptcha.rb:128-135 | `api_rest_call` returns the reply exactly for a 2xx/3xx reply; a raised transport error gives its own text, any other reply 'ERROR_PROCESING_REQUEST' |
| `Client.Finish` | lib/ringcaptcha.rb:80 | building the record succeeds exactly when a response was returned, giving a well-formed record of the operation's kind over that response; otherwise it fails on the nil response |
| `Client.MessageAfter` | lib/ringcaptcha.rb:76-78 | after a call `message` holds the raised error's text, or its previous value on success |
| `Client.OutcomeOfCall` | lib/ringcaptcha.rb:74-80 | an operation yields a record exactly for a 2xx/3xx reply, and that record is valid exactly when the reply's status is "SUCCESS"; on failure `message` holds the raised text, and on success it is unchanged |
| `Client.RingCaptcha.constructor` | lib/ringcaptcha.rb:54-59 | keeps both keys, `secure` starts as `true` and `message` as nil |
| `Client.RingCaptcha.SetSecure` | lib/ringcaptcha.rb:65-67 | `secure=` stores the given value and leaves `message` alone |
| `Client.RingCaptcha.ApiRestCall` | lib/ringcaptcha.rb:117-137 | sanitizes the hash in place, sends `BuildRequest` of the old data to "https://api.ringcaptcha.com:443/<resource>" for `true` and "http://api.ringcaptcha.com:<port>/<resource>" for false or nil, and returns the reply or the raised error text |
| `Client.RingCaptcha.SendPinCode` | lib/ringcaptcha.rb:69-81 | an unavailable service raises ArgumentError with its message before any request and changes nothing. Otherwise it posts `{secret_key, phone}` to `<app_key>/code/<service>` and returns a Validation record or the nil-response failure. The default service is "sms" |
| `Client.RingCaptcha.ValidatePinCode` | lib/ringcaptcha.rb:83-94 | posts `{secret_key, token, code}` to `<app_key>/verify`; returns a Verification record or the nil-response failure, with `message` set on failure |
| `Client.RingCaptcha.SendMessage` | lib/ringcaptcha.rb:96-107 | posts `{secret_key, phone, message}` to `<app_key>/sms`; returns a Message record or the nil-response failure, with `message` set on failure |
| `Client.RingCaptcha.Rescue` | lib/ringcaptcha.rb:76-78 | a raised error's text is stored in `message`; a success leaves it unchanged |

## Left out

- The HTTP/TLS exchange (`Net::HTTP.new`, `use_ssl`, the POST, `set_form_data`, the `User-Agent` header): out of scope for a model. The reply or raised exception is an input (`Transport`).
- `URI.parse`: not modelled. The URI string itself is modelled (`Client.Uri`, `Client.UriLayout`), and `Client.RequestUri` and `Client.RingCaptcha.ApiRestCall` state it for each value of the flag; how `URI.parse` splits it again is not. The path the POST uses is taken to be "/" plus the resource.
- `JSON.parse`: the body arrives parsed as a map. A body that is not valid JSON, or is not a JSON object, is not modelled.
- `URI::encode` and `String#strip`: uninterpreted. They are terms (`UriEncode`, `Strip`) that record where and in which order they are applied.
- Insertion order of the Ruby Hash: form data is a `map`, so the field order in the POST body and the order in which `sanitize_data` visits keys are not modelled. The result does not depend on that order.
- Metaprogramming (OpenStruct, Forwardable): replaced by `Field`, a lookup limited to the allow-list. Calling a name outside the allow-list would be a NoMethodError in Ruby; `Field`'s precondition excludes it.
- The `User-Agent` constant and `@retry_attempts`: constant or unused state.
- Form values that are not strings (for example a numeric phone number) and nil values: encoding them would raise inside `api_rest_call`. The operations take strings.
- Service names given as symbols: a symbol and a string with the same name behave the same (`to_sym`, interpolation), so services are strings.
