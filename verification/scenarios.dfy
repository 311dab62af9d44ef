/** Worked examples: what `parse` and the whole profile fetch give for
    example contact records. */
module Scenarios {
  import opened Wrappers
  import opened Js
  import opened Profile
  import opened Strategy

  /** `{ id: "42", firstName: "Ann", lastName: "Lee",
        profiles: [{ email: "ann@x.com" }], avatarUrl: "http://x/a.png" }` */
  function Ann(): Value {
    Object([
      Property("id", Str("42")),
      Property("firstName", Str("Ann")),
      Property("lastName", Str("Lee")),
      Property("profiles", Array([Object([Property("email", Str("ann@x.com"))])])),
      Property("avatarUrl", Str("http://x/a.png"))])
  }

  /** The same contact with `profiles: [{}]` and no `avatarUrl`. */
  function AnnWithoutEmail(): Value {
    Object([
      Property("id", Str("42")),
      Property("firstName", Str("Ann")),
      Property("lastName", Str("Lee")),
      Property("profiles", Array([Object([])]))])
  }

  /** Every field is mapped, with the first and last name swapped into
      `familyName` and `givenName`. */
  lemma AnnIsNormalised(parseJson: string -> Option<Value>)
    ensures Parse(Ann(), parseJson) == Success(NormalizedProfile(
      id := Str("42"),
      displayName := Str("Ann"),
      username := Str("ann@x.com"),
      name := Name(familyName := Str("Ann"), givenName := Str("Lee")),
      emails := Some([Entry(Str("ann@x.com"))]),
      photos := Some([Entry(Str("http://x/a.png"))])))
  {
  }

  /** Without an email and an avatar neither `emails` nor `photos` is set,
      and `username` is `undefined`. */
  lemma AnnWithoutEmailHasNoLists(parseJson: string -> Option<Value>)
    ensures Parse(AnnWithoutEmail(), parseJson) == Success(NormalizedProfile(
      id := Str("42"),
      displayName := Str("Ann"),
      username := Undefined,
      name := Name(familyName := Str("Ann"), givenName := Str("Lee")),
      emails := None,
      photos := None))
  {
  }

  /** The body `{ data: [ Ann ] }` fetched without error yields Ann's profile
      stamped with provider "wrike". */
  lemma AnnIsFetched(body: string, parseJson: string -> Option<Value>)
    requires parseJson(body) == Some(Object([Property("data", Array([Ann()]))]))
    ensures Complete(Response(Null, body), parseJson) == Fetched(UserProfile(
      Parse(Ann(), parseJson).value, "wrike", body, Object([Property("data", Array([Ann()]))])))
  {
    AnnIsNormalised(parseJson);
  }
}
