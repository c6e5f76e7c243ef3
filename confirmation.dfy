/** The queued confirmation record (`UserConfirmation`), its derived values
    (expiry instant and confirmation link), and its JSON binding. */
module Confirmation {
  import opened Wrappers
  import opened Ascii
  import opened Json

  type Int32 = x: int | -0x8000_0000 <= x < 0x8000_0000
  type Int64 = x: int | -0x8000_0000_0000_0000 <= x < 0x8000_0000_0000_0000

  predicate InInt64(x: int) { -0x8000_0000_0000_0000 <= x < 0x8000_0000_0000_0000 }

  /** An open string type: any string is a confirmation type; two values are
      named. */
  type ConfirmationType = string

  const NewUser: ConfirmationType := "NewUser"
  const ResetPassword: ConfirmationType := "ResetPassword"

  /** One confirmation event. `lang` is not declared on the Go struct but is
      read by its callers and carried by the wire format under "lang". */
  datatype UserConfirmation = UserConfirmation(
    confirmationType: ConfirmationType,
    baseUrl: string,
    userLoginId: Int32,
    email: string,
    lang: string,
    token: string,
    expiresAtMillis: Int64)

  /** The record whose every field holds Go's zero value. */
  const ZeroConfirmation := UserConfirmation("", "", 0, "", "", "", 0)

  // ----- ExpiresAt -----

  /** `int64(time.Millisecond)`: nanoseconds per millisecond. */
  const NanosPerMilli := 1_000_000

  /** Go's int64 arithmetic: the two's-complement wrap-around of `x`. */
  function WrapInt64(x: int): (r: Int64)
    ensures InInt64(x) ==> r == x
    ensures (x - r) % 0x1_0000_0000_0000_0000 == 0
  {
    (x + 0x8000_0000_0000_0000) % 0x1_0000_0000_0000_0000 - 0x8000_0000_0000_0000
  }

  /** The expiry instant as nanoseconds since the Unix epoch: the int64
      product `ExpiresAtMillis * time.Millisecond`. */
  function ExpiresAt(uc: UserConfirmation): (nanos: Int64)
    ensures InInt64(uc.expiresAtMillis * NanosPerMilli) ==> nanos == uc.expiresAtMillis * NanosPerMilli
    ensures (uc.expiresAtMillis * NanosPerMilli - nanos) % 0x1_0000_0000_0000_0000 == 0
  {
    WrapInt64(uc.expiresAtMillis * NanosPerMilli)
  }

  /** Every expiry up to about the year 2262 converts exactly. */
  lemma ExpiresAtExactInRange(uc: UserConfirmation)
    requires -9_223_372_036_854 <= uc.expiresAtMillis <= 9_223_372_036_854
    ensures ExpiresAt(uc) == uc.expiresAtMillis * 1_000_000
  {
  }

  /** One millisecond past that range the int64 product wraps around and the
      expiry lands before the epoch. */
  lemma ExpiresAtWrapsPastRange(uc: UserConfirmation)
    requires uc.expiresAtMillis == 9_223_372_036_855
    ensures ExpiresAt(uc) < 0
    ensures ExpiresAt(uc) == uc.expiresAtMillis * 1_000_000 - 0x1_0000_0000_0000_0000
  {
  }

  // ----- ConfirmUrL -----

  /** The lower-cased type segment of the link. */
  function KindSegment(t: ConfirmationType): (k: string)
    ensures |k| == |t| && NoUpper(k)
  {
    LowerIsLowerAndIdempotent(t);
    Lower(t)
  }

  /** `BaseUrl/confirm/<lower-case type>/<decimal id>/Token`, with no escaping. */
  function ConfirmUrl(uc: UserConfirmation): (url: string)
    ensures uc.baseUrl <= url
    ensures |url| >= |uc.token| && url[|url| - |uc.token|..] == uc.token
    ensures |url| == |uc.baseUrl| + |"/confirm/"| + |uc.confirmationType| + 1
                     + |IntToDecimal(uc.userLoginId)| + 1 + |uc.token|
  {
    var url := uc.baseUrl + "/confirm/" + KindSegment(uc.confirmationType) + "/"
               + IntToDecimal(uc.userLoginId) + "/" + uc.token;
    assert url == (uc.baseUrl + "/confirm/" + KindSegment(uc.confirmationType) + "/"
                   + IntToDecimal(uc.userLoginId) + "/") + uc.token;
    url
  }

  /** The type segment of `NewUser`. */
  lemma NewUserSegment(t: ConfirmationType)
    requires t == NewUser
    ensures KindSegment(t) == "newuser"
  {
    LowerByChars(t, "newuser");
  }

  /** The type segment of `ResetPassword`. */
  lemma ResetPasswordSegment(t: ConfirmationType)
    requires t == ResetPassword
    ensures KindSegment(t) == "resetpassword"
  {
    LowerByChars(t, "resetpassword");
  }

  /** The link with its type segment named. */
  lemma ConfirmUrlWithSegment(uc: UserConfirmation, kind: string)
    requires KindSegment(uc.confirmationType) == kind
    ensures ConfirmUrl(uc) == uc.baseUrl + "/confirm/" + kind + "/" + IntToDecimal(uc.userLoginId) + "/" + uc.token
  {
  }

  /** The link with the text between the base URL and the id written out. */
  lemma ConfirmUrlWithHead(uc: UserConfirmation, kind: string, head: string)
    requires KindSegment(uc.confirmationType) == kind && head == "/confirm/" + kind + "/"
    ensures ConfirmUrl(uc) == uc.baseUrl + head + IntToDecimal(uc.userLoginId) + "/" + uc.token
  {
    ConfirmUrlWithSegment(uc, kind);
    assert uc.baseUrl + "/confirm/" + kind + "/" == uc.baseUrl + head;
  }

  /** A `NewUser` record gets a `newuser` link. */
  lemma ConfirmUrlNewUser(uc: UserConfirmation)
    requires uc.confirmationType == NewUser
    ensures ConfirmUrl(uc) == uc.baseUrl + "/confirm/newuser/" + IntToDecimal(uc.userLoginId) + "/" + uc.token
  {
    NewUserSegment(uc.confirmationType);
    ConfirmUrlWithHead(uc, "newuser", "/confirm/newuser/");
  }

  /** A `ResetPassword` record gets a `resetpassword` link. */
  lemma ConfirmUrlResetPassword(uc: UserConfirmation)
    requires uc.confirmationType == ResetPassword
    ensures ConfirmUrl(uc) == uc.baseUrl + "/confirm/resetpassword/" + IntToDecimal(uc.userLoginId) + "/" + uc.token
  {
    ResetPasswordSegment(uc.confirmationType);
    ConfirmUrlWithHead(uc, "resetpassword", "/confirm/resetpassword/");
  }

  /** The segments a reader recovers from a confirmation link. */
  datatype UrlParts = UrlParts(kind: string, userId: int, token: string)

  /** Splits at the first '/': the text before it and the text after it. */
  function SplitAtSlash(s: string): (r: Option<(string, string)>)
    ensures r.Some? ==> '/' !in r.value.0 && s == r.value.0 + "/" + r.value.1
    ensures r.None? <==> '/' !in s
  {
    if s == [] then None
    else if s[0] == '/' then Some(([], s[1..]))
    else match SplitAtSlash(s[1..])
      case None => None
      case Some(p) => Some(([s[0]] + p.0, p.1))
  }

  /** A reader for confirmation links rooted at `baseUrl`: the inverse of
      `ConfirmUrl` for types without a '/'. */
  function ParseConfirmUrl(url: string, baseUrl: string): Option<UrlParts> {
    var head := baseUrl + "/confirm/";
    if !(head <= url) then None
    else match SplitAtSlash(url[|head|..])
      case None => None
      case Some(kindAndRest) =>
        match SplitAtSlash(kindAndRest.1)
        case None => None
        case Some(idAndToken) =>
          match ParseDecimal(idAndToken.0)
          case None => None
          case Some(id) => Some(UrlParts(kindAndRest.0, id, idAndToken.1))
  }

  lemma {:induction false} SplitAtSlashOfJoin(a: string, b: string)
    requires '/' !in a
    ensures SplitAtSlash(a + "/" + b) == Some((a, b))
  {
    if a != [] {
      var s := a + "/" + b;
      assert s[0] == a[0] && s[0] != '/';
      assert s[1..] == a[1..] + "/" + b;
      SplitAtSlashOfJoin(a[1..], b);
      assert [a[0]] + a[1..] == a;
    }
  }

  /** The link can be read back: the reader recovers the type segment, the
      numeric user id and the whole token. */
  lemma ConfirmUrlRoundTrip(uc: UserConfirmation)
    requires '/' !in uc.confirmationType
    ensures ParseConfirmUrl(ConfirmUrl(uc), uc.baseUrl)
            == Some(UrlParts(Lower(uc.confirmationType), uc.userLoginId, uc.token))
  {
    var head := uc.baseUrl + "/confirm/";
    var kind := KindSegment(uc.confirmationType);
    var id := IntToDecimal(uc.userLoginId);
    var url := ConfirmUrl(uc);
    assert url == head + (kind + "/" + (id + "/" + uc.token));
    assert url[|head|..] == kind + "/" + (id + "/" + uc.token);
    LowerKeepsSlashes(uc.confirmationType);
    SplitAtSlashOfJoin(kind, id + "/" + uc.token);
    IntToDecimalHasNoSlash(uc.userLoginId);
    SplitAtSlashOfJoin(id, uc.token);
    IntToDecimalRoundTrip(uc.userLoginId);
  }

  /** Two records with the same base URL and a '/'-free type that differ in
      user id or token give different links. */
  lemma ConfirmUrlDistinguishesUsers(a: UserConfirmation, b: UserConfirmation)
    requires a.baseUrl == b.baseUrl
    requires '/' !in a.confirmationType && '/' !in b.confirmationType
    requires ConfirmUrl(a) == ConfirmUrl(b)
    ensures a.userLoginId == b.userLoginId && a.token == b.token
    ensures Lower(a.confirmationType) == Lower(b.confirmationType)
  {
    ConfirmUrlRoundTrip(a);
    ConfirmUrlRoundTrip(b);
  }

  // ----- JSON binding (UserConfirmationFromJson and JSON) -----

  datatype DecodeError =
    | SyntaxError      // the body is not well-formed JSON
    | TypeError        // a value's JSON type does not fit the Go field or struct

  const ConfirmationTypeKey := "confirmation_type"
  const BaseUrlKey := "base_url"
  const UserLoginIdKey := "user_login_id"
  const EmailKey := "email"
  const LangKey := "lang"
  const TokenKey := "token"
  const ExpiresAtMillisKey := "expires_at_millis"

  /** The member bound to a field; an absent key behaves like `null`. */
  function Member(members: map<string, Json>, key: string): Json {
    if key in members then members[key] else JNull
  }

  /** A value `encoding/json` accepts for a string field. */
  predicate FitsString(j: Json) { j.JNull? || j.JString? }

  /** A value `encoding/json` accepts for an integer field of range [lo, hi). */
  predicate FitsInt(j: Json, lo: int, hi: int) { j.JNull? || (j.JInt? && lo <= j.i < hi) }

  /** The field value a fitting JSON value leaves behind (`null` leaves the
      zero value). */
  function StringOf(j: Json): string { if j.JString? then j.s else "" }
  function IntOf(j: Json): int { if j.JInt? then j.i else 0 }

  predicate BindsCleanly(members: map<string, Json>) {
    && FitsString(Member(members, ConfirmationTypeKey))
    && FitsString(Member(members, BaseUrlKey))
    && FitsInt(Member(members, UserLoginIdKey), -0x8000_0000, 0x8000_0000)
    && FitsString(Member(members, EmailKey))
    && FitsString(Member(members, LangKey))
    && FitsString(Member(members, TokenKey))
    && FitsInt(Member(members, ExpiresAtMillisKey), -0x8000_0000_0000_0000, 0x8000_0000_0000_0000)
  }

  /** Binding one member to a string field. */
  function BindString(j: Json): (r: Result<string, DecodeError>)
    ensures r.Success? <==> FitsString(j)
    ensures r.Success? ==> r.value == StringOf(j)
    ensures r.Failure? ==> r.error == TypeError
  {
    match j
    case JNull => Success("")
    case JString(s) => Success(s)
    case _ => Failure(TypeError)
  }

  /** Binding one member to an integer field of range [lo, hi). */
  function BindInt(j: Json, lo: int, hi: int): (r: Result<int, DecodeError>)
    requires lo <= 0 < hi
    ensures r.Success? <==> FitsInt(j, lo, hi)
    ensures r.Success? ==> lo <= r.value < hi && r.value == IntOf(j)
    ensures r.Failure? ==> r.error == TypeError
  {
    match j
    case JNull => Success(0)
    case JInt(i) => if lo <= i < hi then Success(i) else Failure(TypeError)
    case _ => Failure(TypeError)
  }

  /** Binding an object's members to the record's tagged fields, one field
      after the other. */
  function BindObject(members: map<string, Json>): (r: Result<UserConfirmation, DecodeError>)
    ensures r.Success? <==> BindsCleanly(members)
    ensures r.Failure? ==> r.error == TypeError
    ensures r.Success? ==>
      && r.value.confirmationType == StringOf(Member(members, ConfirmationTypeKey))
      && r.value.baseUrl == StringOf(Member(members, BaseUrlKey))
      && r.value.userLoginId == IntOf(Member(members, UserLoginIdKey))
      && r.value.email == StringOf(Member(members, EmailKey))
      && r.value.lang == StringOf(Member(members, LangKey))
      && r.value.token == StringOf(Member(members, TokenKey))
      && r.value.expiresAtMillis == IntOf(Member(members, ExpiresAtMillisKey))
  {
    var t :- BindString(Member(members, ConfirmationTypeKey));
    var base :- BindString(Member(members, BaseUrlKey));
    var id :- BindInt(Member(members, UserLoginIdKey), -0x8000_0000, 0x8000_0000);
    var email :- BindString(Member(members, EmailKey));
    var lang :- BindString(Member(members, LangKey));
    var token :- BindString(Member(members, TokenKey));
    var millis :- BindInt(Member(members, ExpiresAtMillisKey), -0x8000_0000_0000_0000, 0x8000_0000_0000_0000);
    Success(UserConfirmation(t, base, id, email, lang, token, millis))
  }

  /** `UserConfirmationFromJson`: a record and no error, or an error and no
      record. Unknown keys are ignored, absent or null keys keep the zero
      value, and a top-level `null` yields the zero record. */
  function UserConfirmationFromJson(doc: Document): (r: Result<UserConfirmation, DecodeError>)
    ensures doc.Malformed? ==> r == Failure(SyntaxError)
    ensures r.Success? <==>
      doc.Parsed? && (doc.value.JNull? || (doc.value.JObject? && BindsCleanly(doc.value.members)))
    ensures doc == Parsed(JNull) ==> r == Success(ZeroConfirmation)
    ensures r.Success? && doc.value.JObject? ==>
      var m := doc.value.members;
      && r.value.confirmationType == StringOf(Member(m, ConfirmationTypeKey))
      && r.value.baseUrl == StringOf(Member(m, BaseUrlKey))
      && r.value.userLoginId == IntOf(Member(m, UserLoginIdKey))
      && r.value.email == StringOf(Member(m, EmailKey))
      && r.value.lang == StringOf(Member(m, LangKey))
      && r.value.token == StringOf(Member(m, TokenKey))
      && r.value.expiresAtMillis == IntOf(Member(m, ExpiresAtMillisKey))
  {
    match doc
    case Malformed => Failure(SyntaxError)
    case Parsed(JNull) => Success(ZeroConfirmation)
    case Parsed(JObject(members)) => BindObject(members)
    case Parsed(_) => Failure(TypeError)
  }

  /** The JSON keys of the record's tagged fields. */
  const TaggedKeys: set<string> :=
    {ConfirmationTypeKey, BaseUrlKey, UserLoginIdKey, EmailKey, LangKey, TokenKey, ExpiresAtMillisKey}

  /** `JSON()`: the object `json.Marshal` produces for a record, one member
      per tagged field. */
  function ToJson(uc: UserConfirmation): (j: Json)
    ensures j.JObject? && j.members.Keys == TaggedKeys
    ensures Member(j.members, ConfirmationTypeKey) == JString(uc.confirmationType)
    ensures Member(j.members, BaseUrlKey) == JString(uc.baseUrl)
    ensures Member(j.members, UserLoginIdKey) == JInt(uc.userLoginId)
    ensures Member(j.members, EmailKey) == JString(uc.email)
    ensures Member(j.members, LangKey) == JString(uc.lang)
    ensures Member(j.members, TokenKey) == JString(uc.token)
    ensures Member(j.members, ExpiresAtMillisKey) == JInt(uc.expiresAtMillis)
  {
    JObject(map[
      ConfirmationTypeKey := JString(uc.confirmationType),
      BaseUrlKey := JString(uc.baseUrl),
      UserLoginIdKey := JInt(uc.userLoginId),
      EmailKey := JString(uc.email),
      LangKey := JString(uc.lang),
      TokenKey := JString(uc.token),
      ExpiresAtMillisKey := JInt(uc.expiresAtMillis)])
  }

  /** Encoding a record and decoding it again gives the same record. */
  lemma EncodeDecodeRoundTrip(uc: UserConfirmation)
    ensures UserConfirmationFromJson(Parsed(ToJson(uc))) == Success(uc)
  {
  }

  /** Decode, re-encode, decode: the second decode agrees with the first. */
  lemma DecodeEncodeDecode(doc: Document)
    requires UserConfirmationFromJson(doc).Success?
    ensures UserConfirmationFromJson(Parsed(ToJson(UserConfirmationFromJson(doc).value)))
            == UserConfirmationFromJson(doc)
  {
    EncodeDecodeRoundTrip(UserConfirmationFromJson(doc).value);
  }

  /** A `user_login_id` that is not an in-range integer (nor null) makes the
      whole decode fail, whatever the other members hold. */
  lemma MistypedUserLoginIdFails(members: map<string, Json>)
    requires UserLoginIdKey in members
    requires !FitsInt(members[UserLoginIdKey], -0x8000_0000, 0x8000_0000)
    ensures UserConfirmationFromJson(Parsed(JObject(members))).Failure?
  {
  }

  /** The payload of the decoder's success test. */
  function SamplePayload(): Json {
    JObject(map[
      "confirmation_type" := JString("NewUser"),
      "base_url" := JString("http://localhost:3211"),
      "user_login_id" := JInt(123),
      "email" := JString("tst123@example.com"),
      "lang" := JString("en"),
      "token" := JString("abc123"),
      "expires_at_millis" := JInt(1672531200000)])
  }

  lemma SamplePayloadDecodes()
    ensures UserConfirmationFromJson(Parsed(SamplePayload())) == Success(UserConfirmation(
      NewUser, "http://localhost:3211", 123, "tst123@example.com", "en", "abc123", 1672531200000))
    ensures ExpiresAt(UserConfirmationFromJson(Parsed(SamplePayload())).value) == 1672531200000 * 1_000_000
  {
    var m := SamplePayload().members;
    assert Member(m, ConfirmationTypeKey) == JString("NewUser");
    assert Member(m, BaseUrlKey) == JString("http://localhost:3211");
    assert Member(m, UserLoginIdKey) == JInt(123);
    assert Member(m, EmailKey) == JString("tst123@example.com");
    assert Member(m, LangKey) == JString("en");
    assert Member(m, TokenKey) == JString("abc123");
    assert Member(m, ExpiresAtMillisKey) == JInt(1672531200000);
  }

  /** The payload of the decoder's failure test: `user_login_id` is a string. */
  lemma MistypedSamplePayloadFails()
    ensures UserConfirmationFromJson(Parsed(JObject(map[
      "confirmation_type" := JString("NewUser"),
      "user_login_id" := JString("shouldafaildueToIncorrectType"),
      "email" := JString("example@example.com"),
      "token" := JString("abc123"),
      "expires_at_millis" := JInt(1672531200000)]))) == Failure(TypeError)
  {
  }

  /** The link example: a new user with id 123. */
  lemma ConfirmUrlExample(uc: UserConfirmation)
    requires uc.confirmationType == NewUser && uc.userLoginId == 123
    ensures ConfirmUrl(uc) == uc.baseUrl + "/confirm/newuser/123/" + uc.token
  {
    ConfirmUrlNewUser(uc);
    var id: nat := uc.userLoginId;
    assert NatToDecimal(id / 10 / 10) == "1";
    assert NatToDecimal(id / 10) == "12";
    assert IntToDecimal(id) == "123";
    assert uc.baseUrl + "/confirm/newuser/" + "123" + "/" == uc.baseUrl + "/confirm/newuser/123/";
  }
}
