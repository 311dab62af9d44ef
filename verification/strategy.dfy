/** The Wrike strategy of lib/strategy.js: endpoint configuration, the extra
    authorization parameter, and the classification of the profile fetch.
    The OAuth2 base strategy, its HTTP client and `JSON.parse` are outside the
    model; the GET and the parser are parameters. */
module Strategy {
  import opened Wrappers
  import opened Js
  import opened Profile
  import opened ProfileObject

  const ProviderName := "wrike"
  const DefaultAuthorizationURL := "https://www.wrike.com/oauth2/authorize"
  const DefaultTokenURL := "https://www.wrike.com/oauth2/token"
  const DefaultProfileURL := "https://www.wrike.com/api/v3/contacts?me"
  const FetchFailedMessage := "Failed to fetch user profile"
  const ParseFailedMessage := "Failed to parse user profile"

  /** A constructed strategy. `oauth2Options` is the options object after the
      constructor has written the endpoint defaults into it; the same object
      is handed to the OAuth2 base strategy, and when the caller supplied one
      it is the caller's object that changes. */
  datatype WrikeStrategy = WrikeStrategy(
    name: string,
    oauth2Options: seq<Property>,
    profileURL: Value,
    authorizationHeaderForGet: bool)

  /** The options a caller may pass: an object, or nothing at all (any falsy
      value stands for "no options"). */
  predicate ValidOptions(options: Value) {
    options.Object? || !Truthy(options)
  }

  /** `options.key` once `options = options || {}` has run. */
  function Supplied(options: Value, key: string): Value
    requires ValidOptions(options)
  {
    if options.Object? then Lookup(options.props, key) else Undefined
  }

  /** The `Strategy` constructor. Each endpoint is the supplied value when it
      is truthy and Wrike's own endpoint otherwise (an empty string falls back
      too); the authorization and token endpoints are written into the
      options, the profile endpoint is not; nothing else in the options
      changes. */
  function New(options: Value): (s: WrikeStrategy)
    requires ValidOptions(options)
    ensures s.name == "wrike"
    ensures s.authorizationHeaderForGet
    ensures Truthy(Supplied(options, "authorizationURL")) ==>
      Lookup(s.oauth2Options, "authorizationURL") == Supplied(options, "authorizationURL")
    ensures !Truthy(Supplied(options, "authorizationURL")) ==>
      Lookup(s.oauth2Options, "authorizationURL") == Str("https://www.wrike.com/oauth2/authorize")
    ensures Truthy(Supplied(options, "tokenURL")) ==>
      Lookup(s.oauth2Options, "tokenURL") == Supplied(options, "tokenURL")
    ensures !Truthy(Supplied(options, "tokenURL")) ==>
      Lookup(s.oauth2Options, "tokenURL") == Str("https://www.wrike.com/oauth2/token")
    ensures Truthy(Supplied(options, "profileURL")) ==> s.profileURL == Supplied(options, "profileURL")
    ensures !Truthy(Supplied(options, "profileURL")) ==>
      s.profileURL == Str("https://www.wrike.com/api/v3/contacts?me")
    ensures forall k :: k != "authorizationURL" && k != "tokenURL" ==>
      Lookup(s.oauth2Options, k) == Supplied(options, k)
  {
    var o := Or(options, Object([]));
    var props := Set(o.props, "authorizationURL", Or(Lookup(o.props, "authorizationURL"), Str(DefaultAuthorizationURL)));
    var props := Set(props, "tokenURL", Or(Lookup(props, "tokenURL"), Str(DefaultTokenURL)));
    WrikeStrategy(ProviderName, props, Or(Lookup(props, "profileURL"), Str(DefaultProfileURL)), true)
  }

  /** `authorizationParams`: `{ response_type: "code" }` whatever it is given. */
  function AuthorizationParams(options: Value): (params: seq<Property>)
    ensures Keys(params) == ["response_type"]
    ensures Lookup(params, "response_type") == Str("code")
  {
    [Property("response_type", Str("code"))]
  }

  /** The authenticated GET `userProfile` asks the OAuth2 client to make. */
  datatype ProfileRequest = ProfileRequest(url: Value, accessToken: string, tokenInHeader: bool)

  /** `this._oauth2.get(this._profileURL, accessToken, ...)`. */
  function Request(s: WrikeStrategy, accessToken: string): ProfileRequest {
    ProfileRequest(s.profileURL, accessToken, s.authorizationHeaderForGet)
  }

  /** What the OAuth2 client's `get` hands its callback: `err` is falsy on
      success; `body` is the response text. */
  datatype Response = Response(err: Value, body: string)

  /** The errors `userProfile` passes to `done`. */
  datatype ProfileError =
    | InternalOAuthError(message: string, cause: Value)
    | Error(message: string)

  /** The profile passed to `done`: the normalised fields stamped with
      `provider`, `_raw` and `_json`. */
  datatype UserProfile = UserProfile(fields: NormalizedProfile, provider: string, raw: string, json: Value)

  /** How the `get` callback ends: `done(error)`, `done(null, profile)`, or an
      exception thrown out of the callback, in which case `done` is never
      called. */
  datatype Outcome =
    | Failed(error: ProfileError)
    | Fetched(profile: UserProfile)
    | Threw(exception: Exception)

  /** `Profile.parse(json.data[0])`. */
  function FirstContact(json: Value, parseJson: string -> Option<Value>): (r: Result<NormalizedProfile, Exception>)
    ensures r.Success? ==> json.Object?
    ensures r.Success? ==>
      var data := Lookup(json.props, "data");
      First(data).Success? && Parse(First(data).value, parseJson) == r
    // a readable `data[0]` is handed to `parse`; any other body throws TypeError
    ensures r == if json.Object? && First(Lookup(json.props, "data")).Success?
                 then Parse(First(Lookup(json.props, "data")).value, parseJson)
                 else Failure(TypeError)
  {
    var data :- Get(json, "data");
    var contact :- First(data);
    Parse(contact, parseJson)
  }

  /** The callback `userProfile` gives to `get`. */
  function Complete(response: Response, parseJson: string -> Option<Value>): (o: Outcome)
    // a transport error is wrapped with its cause; the body is not looked at
    ensures Truthy(response.err) ==> o == Failed(InternalOAuthError("Failed to fetch user profile", response.err))
    // a body that is not JSON is a parse error, with no profile
    ensures !Truthy(response.err) && parseJson(response.body).None? ==>
      o == Failed(Error("Failed to parse user profile"))
    ensures o.Failed? ==> Truthy(response.err) || parseJson(response.body).None?
    // a profile is the normalised first contact, stamped
    ensures o.Fetched? ==>
      && !Truthy(response.err)
      && parseJson(response.body).Some?
      && FirstContact(parseJson(response.body).value, parseJson) == Success(o.profile.fields)
      && o.profile.provider == "wrike"
      && o.profile.raw == response.body
      && o.profile.json == parseJson(response.body).value
    ensures o.Threw? ==>
      && !Truthy(response.err)
      && parseJson(response.body).Some?
      && FirstContact(parseJson(response.body).value, parseJson) == Failure(o.exception)
  {
    if Truthy(response.err) then
      Failed(InternalOAuthError(FetchFailedMessage, response.err))
    else
      match parseJson(response.body)
      case None => Failed(Error(ParseFailedMessage))
      case Some(json) =>
        match FirstContact(json, parseJson)
        case Failure(e) => Threw(e)
        case Success(fields) => Fetched(UserProfile(fields, ProviderName, response.body, json))
  }

  /** `userProfile(accessToken, done)`: one GET of the profile endpoint, whose
      result `Complete` classifies. */
  function UserProfileOutcome(
    s: WrikeStrategy, accessToken: string,
    get: ProfileRequest -> Response, parseJson: string -> Option<Value>): (o: Outcome)
    ensures o.Failed? && o.error.InternalOAuthError? <==> Truthy(get(Request(s, accessToken)).err)
    ensures o.Fetched? ==> o.profile.raw == get(Request(s, accessToken)).body
  {
    Complete(get(Request(s, accessToken)), parseJson)
  }

  /** `userProfile` makes one GET, of the configured request: two HTTP clients
      that answer that request alike give the same outcome, whatever they
      would answer to any other request. */
  lemma UserProfileUsesOneGet(
    s: WrikeStrategy, accessToken: string,
    getA: ProfileRequest -> Response, getB: ProfileRequest -> Response, parseJson: string -> Option<Value>)
    requires getA(Request(s, accessToken)) == getB(Request(s, accessToken))
    ensures UserProfileOutcome(s, accessToken, getA, parseJson) == UserProfileOutcome(s, accessToken, getB, parseJson)
  {
  }

  /** The authorization parameters do not depend on what they are given. */
  lemma AuthorizationParamsIgnoreInput(a: Value, b: Value)
    ensures AuthorizationParams(a) == AuthorizationParams(b) == [Property("response_type", Str("code"))]
  {
  }

  /** The profile GET goes to the configured profile endpoint, carries the
      access token unchanged, and sends it in the Authorization header. */
  lemma RequestTargetsProfileEndpoint(options: Value, accessToken: string)
    requires ValidOptions(options)
    ensures Request(New(options), accessToken).url ==
      if Truthy(Supplied(options, "profileURL")) then Supplied(options, "profileURL")
      else Str("https://www.wrike.com/api/v3/contacts?me")
    ensures Request(New(options), accessToken).accessToken == accessToken
    ensures Request(New(options), accessToken).tokenInHeader
  {
  }

  /** On a transport error the JSON parser is never consulted: any two
      parsers give the same outcome. */
  lemma FetchErrorIgnoresParser(response: Response, parseA: string -> Option<Value>, parseB: string -> Option<Value>)
    requires Truthy(response.err)
    ensures Complete(response, parseA) == Complete(response, parseB)
  {
  }

  /** Only `data[0]` is consumed: two bodies whose `data` lists start with the
      same contact give the same normalised fields, whatever follows. */
  lemma OnlyFirstContactMatters(
    err: Value, bodyA: string, bodyB: string, parseJson: string -> Option<Value>,
    propsA: seq<Property>, propsB: seq<Property>, dataA: seq<Value>, dataB: seq<Value>)
    requires !Truthy(err)
    requires parseJson(bodyA) == Some(Object(propsA)) && parseJson(bodyB) == Some(Object(propsB))
    requires Lookup(propsA, "data") == Array(dataA) && Lookup(propsB, "data") == Array(dataB)
    requires |dataA| > 0 && |dataB| > 0 && dataA[0] == dataB[0]
    ensures Complete(Response(err, bodyA), parseJson).Fetched? <==> Complete(Response(err, bodyB), parseJson).Fetched?
    ensures Complete(Response(err, bodyA), parseJson).Fetched? ==>
      Complete(Response(err, bodyA), parseJson).profile.fields == Complete(Response(err, bodyB), parseJson).profile.fields
  {
  }

  /** A body in the shape the code expects, `{ data: [ contact, ... ] }` with a
      contact whose `profiles` list starts with an object, always yields a
      profile, whose `username` is that object's `email`. */
  lemma WellShapedBodyIsFetched(
    response: Response, parseJson: string -> Option<Value>,
    props: seq<Property>, data: seq<Value>, contact: seq<Property>, profiles: seq<Value>)
    requires !Truthy(response.err)
    requires parseJson(response.body) == Some(Object(props))
    requires Lookup(props, "data") == Array(data) && |data| > 0 && data[0] == Object(contact)
    requires Lookup(contact, "profiles") == Array(profiles) && |profiles| > 0 && profiles[0].Object?
    ensures Complete(response, parseJson).Fetched?
    ensures Complete(response, parseJson).profile.fields.username == Lookup(profiles[0].props, "email")
  {
    ParseNeedsFirstProfile(contact, profiles, parseJson);
  }

  /** A body whose `data` list is empty makes `json.data[0]` undefined, so
      `Profile.parse` throws and `done` is never called. */
  lemma EmptyDataThrows(response: Response, parseJson: string -> Option<Value>, props: seq<Property>)
    requires !Truthy(response.err)
    requires parseJson(response.body) == Some(Object(props))
    requires Lookup(props, "data") == Array([])
    ensures Complete(response, parseJson) == Threw(TypeError)
    ensures DoneCalls(Complete(response, parseJson)) == []
  {
  }

  /** `Profile.parse` re-parses a string `data[0]`, so text that is not JSON
      there throws SyntaxError out of the callback, not TypeError. */
  lemma MalformedContactTextThrows(
    response: Response, parseJson: string -> Option<Value>, props: seq<Property>, data: seq<Value>, text: string)
    requires !Truthy(response.err)
    requires parseJson(response.body) == Some(Object(props))
    requires Lookup(props, "data") == Array(data) && |data| > 0 && data[0] == Str(text)
    requires parseJson(text).None?
    ensures Complete(response, parseJson) == Threw(SyntaxError)
    ensures DoneCalls(Complete(response, parseJson)) == []
  {
  }

  /** The arguments of one call of `done`. */
  datatype DoneArgs = DoneArgs(err: Option<ProfileError>, profile: Option<UserProfile>)

  /** The calls of `done` an outcome makes: `done(error)`, `done(null, profile)`,
      or none at all when an exception escapes the callback. */
  function DoneCalls(o: Outcome): (calls: seq<DoneArgs>)
    ensures |calls| <= 1
    ensures |calls| == 0 <==> o.Threw?
    ensures forall c :: c in calls ==> (c.err.Some? <==> c.profile.None?)
    ensures o.Failed? ==> calls[0].err == Some(o.error)
    ensures o.Fetched? ==> calls[0].profile == Some(o.profile)
  {
    match o
    case Failed(e) => [DoneArgs(Some(e), None)]
    case Fetched(p) => [DoneArgs(None, Some(p))]
    case Threw(_) => []
  }

  /** Unless an exception escapes, `done` is called exactly once per
      transport result, with either an error or a profile and never both.
      "At most once" comes from `Outcome` being a sum type (see `DoneCalls`);
      what is particular to the callback is when no call happens: only on a
      transport success whose body is JSON but whose `data[0]` cannot be
      normalised. */
  lemma CompletesOnce(response: Response, parseJson: string -> Option<Value>)
    ensures var calls := DoneCalls(Complete(response, parseJson));
      && (|calls| == 0 <==>
            && !Truthy(response.err)
            && parseJson(response.body).Some?
            && FirstContact(parseJson(response.body).value, parseJson).Failure?)
      && |calls| <= 1
      && forall c :: c in calls ==> (c.err.Some? <==> c.profile.None?)
  {
  }

  /** `profile.provider = ...; profile._raw = ...; profile._json = ...`. */
  function Stamp(ps: seq<Property>, provider: string, raw: string, json: Value): (r: seq<Property>)
    ensures Lookup(r, "provider") == Str(provider)
    ensures Lookup(r, "_raw") == Str(raw)
    ensures Lookup(r, "_json") == json
    ensures forall k :: k != "provider" && k != "_raw" && k != "_json" ==> Lookup(r, k) == Lookup(ps, k)
  {
    var o := Set(ps, "provider", Str(provider));
    var o := Set(o, "_raw", Str(raw));
    Set(o, "_json", json)
  }

  /** On an object without these three keys, stamping appends them in order. */
  lemma {:induction false} StampFresh(ps: seq<Property>, provider: string, raw: string, json: Value)
    requires "provider" !in Keys(ps) && "_raw" !in Keys(ps) && "_json" !in Keys(ps)
    ensures Stamp(ps, provider, raw, json) ==
      ps + [Property("provider", Str(provider)), Property("_raw", Str(raw)), Property("_json", json)]
  {
    SetFresh(ps, "provider", Str(provider));
    var o1 := ps + [Property("provider", Str(provider))];
    SetFresh(o1, "_raw", Str(raw));
    var o2 := o1 + [Property("_raw", Str(raw))];
    SetFresh(o2, "_json", json);
  }

  /** The object `done` receives: the normalised profile object with
      `provider`, `_raw` and `_json` assigned after it. */
  function UserProfileObject(u: UserProfile): seq<Property> {
    Stamp(ToObject(u.fields), u.provider, u.raw, u.json)
  }

  /** Stamping adds three new properties after the normalised ones and leaves
      those untouched. */
  lemma StampAppends(u: UserProfile)
    ensures UserProfileObject(u) ==
      Properties(u.fields) + [Property("provider", Str(u.provider)), Property("_raw", Str(u.raw)), Property("_json", u.json)]
  {
    var p := ToObject(u.fields);
    assert "provider" !in Keys(p) && "_raw" !in Keys(p) && "_json" !in Keys(p) by {
      ToObjectKeys(u.fields);
    }
    StampFresh(p, u.provider, u.raw, u.json);
    ToObjectProperties(u.fields);
  }
}
