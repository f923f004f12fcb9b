/**
 * The response records of the RingCaptcha client: a parsed JSON body is
 * narrowed to the fields that one response kind publishes, and the fields
 * are read through accessors that give an absent value for a missing key.
 */
module Responses {
  import opened Wrappers

  /** A parsed JSON value. Numbers keep their literal text; nothing here computes with them. */
  datatype Value =
    | Str(s: string)
    | Number(literal: string)
    | Bool(b: bool)
    | Null
    | Obj(members: map<string, Value>)
    | Arr(items: seq<Value>)

  /** A parsed JSON object: member name to value. */
  type Json = map<string, Value>

  /** The three response classes: RingCaptchaValidation, RingCaptchaVerification, RingCaptchaMessage. */
  datatype Kind = Validation | Verification | Message

  /** The PUBLIC_METHODS allow-list of each response class, as the JSON member names it matches. */
  function PublicMethods(kind: Kind): (names: seq<string>)
    ensures |names| == match kind case Validation => 12 case Verification => 9 case Message => 6
    ensures forall i, j :: 0 <= i < j < |names| ==> names[i] != names[j]
    ensures "status" in names && "message" in names && "id" in names && "phone" in names
  {
    match kind
    case Validation =>
      ["status", "message", "id", "phone", "token", "country", "service",
       "attempt", "pcp", "retry_in", "expires_in", "reason"]
    case Verification =>
      ["status", "message", "id", "phone", "dialog_code", "country", "service",
       "geolocation", "referer"]
    case Message =>
      ["status", "message", "id", "phone", "message_count", "reason"]
  }

  /** `as_json`: the members of the parsed body whose name is on the kind's allow-list. */
  function AsJson(kind: Kind, json: Json): (r: Json)
    ensures forall key :: key in r <==> key in json && key in PublicMethods(kind)
    ensures forall key :: key in r ==> r[key] == json[key]
  {
    map key | key in json && key in PublicMethods(kind) :: json[key]
  }

  /** What the transport handed back: the HTTP status code and the body, already parsed. */
  datatype HttpResponse = HttpResponse(code: int, body: Json)

  /**
   * A response object: its class, the parsed body (@json), the allow-listed
   * view the accessors delegate to (@datas) and the raw response (@response).
   */
  datatype Response = Response(kind: Kind, json: Json, datas: Json, response: HttpResponse)

  /** The response record's constructor, applied to a completed HTTP response. */
  function NewResponse(kind: Kind, response: HttpResponse): (r: Response)
    ensures r.kind == kind && r.response == response && r.json == response.body
    ensures r.datas == AsJson(kind, response.body)
  {
    Response(kind, response.body, AsJson(kind, response.body), response)
  }

  /** A record built by NewResponse; every record the client returns is one. */
  predicate WellFormed(r: Response) {
    r == NewResponse(r.kind, r.response)
  }

  /**
   * The accessor of an allow-listed field. It reads the raw body's member of
   * that name, and gives None (nil) when the body lacks it or holds JSON null
   * there: JSON.parse and OpenStruct both keep null as nil.
   */
  function Field(r: Response, name: string): (v: Option<Value>)
    requires WellFormed(r)
    requires name in PublicMethods(r.kind)
    ensures v.None? <==> name !in r.response.body || r.response.body[name] == Null
    ensures v.Some? ==> v.value == r.response.body[name]
  {
    if name in r.datas && r.datas[name] != Null then Some(r.datas[name]) else None
  }

  /** `valid?`: the status field is the string "SUCCESS"; an absent, null or different status is not. */
  predicate IsValid(r: Response)
    requires WellFormed(r)
    ensures IsValid(r) <==> "status" in r.response.body && r.response.body["status"] == Str("SUCCESS")
  {
    Field(r, "status") == Some(Str("SUCCESS"))
  }

  /** Filtering twice keeps what filtering once kept. */
  lemma AsJsonIdempotent(kind: Kind, json: Json)
    ensures AsJson(kind, AsJson(kind, json)) == AsJson(kind, json)
  {
  }

  /** A body using only allow-listed names passes the filter unchanged. */
  lemma AsJsonKeepsAllowed(kind: Kind, json: Json)
    requires forall key :: key in json ==> key in PublicMethods(kind)
    ensures AsJson(kind, json) == json
  {
  }

  /** The filter never leaves more members than the allow-list names. */
  lemma AsJsonSize(kind: Kind, json: Json)
    ensures |AsJson(kind, json)| <= |PublicMethods(kind)|
  {
    var names := set name | name in PublicMethods(kind);
    SubsetCardinality(AsJson(kind, json).Keys, names);
    SeqToSetSize(PublicMethods(kind));
  }

  lemma SubsetCardinality<T>(a: set<T>, b: set<T>)
    requires a <= b
    ensures |a| <= |b|
  {
    assert b == a + (b - a);
  }

  lemma {:induction false} SeqToSetSize<T>(s: seq<T>)
    ensures |set x | x in s| <= |s|
  {
    if s != [] {
      var init := s[..|s| - 1];
      SeqToSetSize(init);
      assert s == init + [s[|s| - 1]];
      assert (set x | x in s) == (set x | x in init) + {s[|s| - 1]};
    }
  }
}
