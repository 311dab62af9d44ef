# passport-wrike, modelled in Dafny

passport-wrike is a Passport strategy that signs users in with Wrike over
OAuth 2.0. Almost all of the protocol work belongs to the generic
`passport-oauth2` base strategy. The Wrike-specific part has two pieces, and
this project models both:

- **the strategy** (`lib/strategy.js`). The constructor fills in Wrike's
  authorization, token and profile endpoints when the caller gives none.
  `authorizationParams` adds `response_type=code`. The `userProfile` callback
  turns the result of the profile GET into `done(error)`,
  `done(null, profile)`, or an exception;
- **the profile normaliser** (`lib/profile.js`, `exports.parse`). It maps
  Wrike's "current contact" record onto Passport's canonical profile:
  `id`, `displayName`, `username`, `name.{familyName,givenName}`, and
  optionally `emails` and `photos`.

Files:

- `wrappers.dfy`: `Option` and `Result`.
- `js.dfy` (module `Js`): the JavaScript semantics the code relies on.
  This covers plain data values as `JSON.parse` produces them, truthiness,
  `||`, property reads (`v.key`, `v[0]`) and property assignment on an
  object. An object is a list of properties in insertion order.
- `profile.dfy`: module `Profile` models `exports.parse` and its error
  paths. Module `ProfileObject` models the JavaScript object `parse` builds:
  which properties it has, in which order, and what each one reads as.
- `strategy.dfy` (module `Strategy`): the constructor, `authorizationParams`,
  and the `userProfile` callback with its outcomes.
- `scenarios.dfy` (module `Scenarios`): worked examples. Its lemmas state
  what `parse` and a full profile fetch give for an example contact, Ann Lee.

Inputs that are not part of this code become parameters:

- the HTTP GET is `get: ProfileRequest -> Response`;
- `JSON.parse` is `parseJson: string -> Option<Value>`, where `None` means
  `SyntaxError`;
- callbacks are return values.

`Strategy.Outcome` has three cases: `Failed` is `done(error)`, `Fetched` is
`done(null, profile)`, and `Threw` means an exception escaped the callback.

Where the documentation and the code disagree, the model follows the code:

- The doc comment at lib/strategy.js:80 says `provider` is `github`. The code
  (lib/strategy.js:106) sets `wrike`.
- The doc comment at lib/strategy.js:83 calls `displayName` the full name.
  The code sets it to `firstName` alone (lib/profile.js:15).
- The doc comment at lib/strategy.js:82 calls `username` the user's Wrike
  username. The code stores the first profile's email (lib/profile.js:16).
- The doc comment at lib/strategy.js:84 lists a `profileUrl` property. The
  code never sets it (`ProfileObject.ToObjectKeys`).
- `emails` and `photos` are never set to an empty list. When their source is
  falsy the property is absent. In the model that is `None`, and the
  property reads as `undefined`.
- A contact whose email is missing still gets a `username` property. Its
  value is `undefined`.
- `json.data[0]` and `Profile.parse` run outside the `try` block
  (lib/strategy.js:105). When reading `json.data[0]` or `Profile.parse`
  throws, the exception escapes the callback and `done` is never called. It
  is a `TypeError` for a nullish read (`Strategy.EmptyDataThrows`), or a
  `SyntaxError` when `data[0]` is a string that is not JSON
  (`Strategy.MalformedContactTextThrows`). Other bodies outside the shape
  `{ data: [ { profiles: [ {...} ] } ] }` are still fetched: a `data[0]` that
  is JSON text of a contact, a `data` object with key `"0"`, or a first
  profile that is not an object (then `username` is `undefined`).
  `Strategy.FirstContact` states exactly when the read succeeds. "done is
  called exactly once" holds for every other transport result
  (`Strategy.CompletesOnce`).
- A string argument to `parse` is decoded only once. JSON text that decodes
  to another string leaves a string record, and reading `profiles[0]` on it
  throws (`Profile.ParseDecodesOnce`).

## Model

| member | source | states |
|---|---|---|
| Profile.Record | lib/profile.js:9-11 | A string argument is handed to `JSON.parse` once. The record is the parsed value, and unparsable text is a SyntaxError. Any other argument is used as it is. |
| Profile.Parse | lib/profile.js:8-29 | `parse` throws exactly when the text does not parse (SyntaxError), or when the record is not an object or `profiles[0]` is missing, undefined or null (TypeError). On success: `id` is copied; `displayName` and `name.familyName` are the first name; `name.givenName` is the last name; `username` is the first profile's email. `emails` is `[{value: email}]` iff the email is truthy, and `photos` is `[{value: avatarUrl}]` iff the avatar URL is truthy. |
| Profile.ParseStringInput | lib/profile.js:9-11 | A string argument that parses to a non-string record gives the same result as passing that record. |
| Profile.ParseDecodesOnce | lib/profile.js:9-16 | A string whose JSON is itself a string is not decoded again, so `parse` throws TypeError. |
| Profile.ParseRejectsMalformedText | lib/profile.js:9-11 | A string argument that is not JSON makes `parse` throw the parser's SyntaxError. |
| Profile.ParseNeedsFirstProfile | lib/profile.js:16-22 | For a record whose `profiles` is a list, `parse` succeeds iff the list is non-empty and its first entry is not undefined/null; every failure is a TypeError; `username` is the first entry's `email`. |
| Profile.ParseNeedsProfiles | lib/profile.js:16 | A record without `profiles` makes `parse` throw TypeError. |
| Profile.ParseNeedsRecord | lib/profile.js:14 | `parse(undefined)` and `parse(null)` throw TypeError. |
| ProfileObject.AssignedProperties | lib/profile.js:13-18 | The four unconditional assignments on `{}` each create a new property, giving `id, displayName, username, name` in that order. |
| ProfileObject.ToObjectProperties | lib/profile.js:13-28 | The object built by the assignment sequence is exactly the four fields, then `emails` if present, then `photos` if present. |
| ProfileObject.ToObjectKeys | lib/profile.js:13-28 | The result has no property other than `id`, `displayName`, `username`, `name` and the optional `emails`/`photos`. |
| ProfileObject.ToObject | lib/profile.js:13-28 | Reading any key of the object the assignment sequence builds gives the normalised field (`Read`). A property that was never assigned reads as `undefined`. |
| ProfileObject.PropertiesReads | lib/profile.js:13-28 | The independent property list reads, key by key, as the field-by-field `Read`. |
| ProfileObject.ToObjectReads | lib/profile.js:13-28 | Reading any property of the result gives the normalised field. An unset `emails`/`photos` reads as `undefined`. |
| Strategy.New | lib/strategy.js:45-54 | The name is `wrike` and the token goes in the Authorization header. Each of the authorization, token and profile URLs is the supplied value when truthy, else Wrike's fixed URL (an empty string falls back). Only the first two are written into the options, and no other option changes. |
| Strategy.AuthorizationParams | lib/strategy.js:69-73 | The parameters are exactly `{response_type: "code"}`. |
| Strategy.AuthorizationParamsIgnoreInput | lib/strategy.js:69-73 | The parameters are the same for every input, `undefined` included. |
| Strategy.RequestTargetsProfileEndpoint | lib/strategy.js:91-92 | The profile GET goes to the configured profile URL (set at lib/strategy.js:52), carries the access token unchanged, and sends it in the Authorization header (lib/strategy.js:53). |
| Strategy.UserProfileUsesOneGet | lib/strategy.js:91-92 | `userProfile` makes one GET, of the configured request: two HTTP clients that answer that request alike give the same outcome. |
| Strategy.FirstContact | lib/strategy.js:105 | For an object body whose `data[0]` can be read, the result is `Profile.parse(data[0])`. Any other body throws TypeError (a `json` that is nullish or not an object, or a nullish `json.data`). |
| Strategy.Complete | lib/strategy.js:92-111 | A truthy `err` gives `InternalOAuthError("Failed to fetch user profile", err)`. A body that is not JSON gives `Error("Failed to parse user profile")`. Otherwise the result is either the normalised `data[0]` stamped with `provider "wrike"`, `_raw` = the body and `_json` = the parsed body, or the exception that escaped. |
| Strategy.UserProfileOutcome | lib/strategy.js:91-112 | The outcome is a fetch error exactly when the GET of the configured request fails. A fetched profile's `_raw` is the body that GET returned. |
| Strategy.FetchErrorIgnoresParser | lib/strategy.js:95-97 | On a transport error the body is never parsed: every parser gives the same outcome. |
| Strategy.OnlyFirstContactMatters | lib/strategy.js:105 | Two bodies whose `data` lists share their first entry give the same normalised fields, whatever follows. |
| Strategy.WellShapedBodyIsFetched | lib/strategy.js:99-110 | A body shaped `{data: [{profiles: [{...}, ...]}, ...]}` always yields a profile, whose `username` is the first profile's `email`. |
| Strategy.EmptyDataThrows | lib/strategy.js:105 | An empty `data` list throws TypeError out of the callback, and `done` is not called. |
| Strategy.MalformedContactTextThrows | lib/strategy.js:105 | A `data[0]` that is a string but not JSON makes `parse` (which re-parses strings, lib/profile.js:9-11) throw SyntaxError out of the callback, and `done` is not called. |
| Strategy.DoneCalls | lib/strategy.js:95-110 | An outcome makes at most one call of `done`, and none exactly when an exception escaped. Each call carries an error or a profile, never both, and passes on the outcome's error or profile. |
| Strategy.CompletesOnce | lib/strategy.js:92-111 | `done` is called at most once per transport result. It is not called exactly when the transport succeeds, the body is JSON, and reading `data[0]` or normalising it throws. Each call carries an error or a profile, never both. |
| Strategy.Stamp | lib/strategy.js:106-108 | After the three assignments, `provider`, `_raw` and `_json` read as the given values and every other key reads as before. |
| Strategy.StampFresh | lib/strategy.js:106-108 | On an object without those keys, assigning `provider`, `_raw` and `_json` appends them in that order. |
| Strategy.StampAppends | lib/strategy.js:105-108 | The object given to `done` is the normalised properties followed by `provider`, `_raw`, `_json`. |
| Scenarios.AnnIsNormalised | lib/profile.js:13-28 | The example contact Ann Lee normalises to `id "42"`, `displayName "Ann"`, `username "ann@x.com"`, `familyName "Ann"`, `givenName "Lee"`, and one-entry `emails` and `photos`. |
| Scenarios.AnnWithoutEmailHasNoLists | lib/profile.js:16-26 | With `profiles: [{}]` and no avatar, neither `emails` nor `photos` is set, and `username` is `undefined`. |
| Scenarios.AnnIsFetched | lib/strategy.js:99-110 | `{data: [Ann]}` fetched without error yields Ann's profile with `provider "wrike"`, the body as `_raw` and the parsed body as `_json`. |

## Left out

- The `passport-oauth2` base strategy and `util.inherits` (lib/strategy.js:50, 59) are not part of this model. That includes its own option checks (a missing `clientID` is its error), the code-for-token exchange, `state` handling and redirects.
- The HTTP client behind `this._oauth2.get` is a parameter. `useAuthorizationHeaderforGET(true)` is recorded as the `authorizationHeaderForGet` flag. The unused `res` argument of the GET callback is dropped.
- `JSON.parse` is a parameter, so its grammar is not modelled. How it resolves duplicate keys is the parser's business. `Js.Lookup` reads the first property with a key.
- `InternalOAuthError` and `Error` are modelled by their message and cause only, without stack traces or class behaviour.
- Callbacks are modelled as return values. What Node does with an exception that escapes the GET callback is outside the model.
- Property reads model own properties only. This is exact for every key the code reads from parsed JSON (`id`, `firstName`, `lastName`, `profiles`, `email`, `avatarUrl`, `data`, index `0`), since no built-in prototype defines them. The constructor's options are the exception, as the `Strategy.New` line below says. Inherited properties such as `length` are not modelled.
- Numbers are reals, so NaN and floating-point rounding are not modelled. Strings are sequences of characters rather than UTF-16 code units, which matters only for `"..."[0]`.
- Strategy.New: requires the options to be an object or falsy (the JSDoc type of the parameter is `{Object}`). Options are read by own property only, so option values that are inherited (as with `Object.create({profileURL: u})`) or defined by getters are not modelled. What a truthy non-object option value would do is not modelled.
- `profile.js` reads `json.firstName` twice (lib/profile.js:15, 17) and `json.profiles[0].email` three times (lib/profile.js:16, 20, 21). The model reads each once. Plain data values have no getters, so both reads give the same value.
