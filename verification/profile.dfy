/** The profile normaliser of lib/profile.js: maps Wrike's "current contact"
    record onto Passport's canonical profile shape. */
module Profile {
  import opened Wrappers
  import opened Js

  /** `{ value: ... }`, one entry of `emails` or `photos`. */
  datatype Entry = Entry(value: Value)

  /** `{ familyName, givenName }`. */
  datatype Name = Name(familyName: Value, givenName: Value)

  /** The object `parse` returns. The four fields `id`, `displayName`,
      `username` and `name` are always assigned (possibly to `undefined`);
      `emails` and `photos` are `None` when the property is never assigned,
      which is not the same as an empty list. */
  datatype NormalizedProfile = NormalizedProfile(
    id: Value,
    displayName: Value,
    username: Value,
    name: Name,
    emails: Option<seq<Entry>>,
    photos: Option<seq<Entry>>)

  /** The record `parse` reads its fields from: a string argument is handed
      to `JSON.parse` once, anything else is used as it is. */
  function Record(input: Value, parseJson: string -> Option<Value>): (r: Result<Value, Exception>)
    ensures !input.Str? ==> r == Success(input)
    ensures input.Str? ==> (r.Failure? <==> parseJson(input.s).None?)
    ensures r.Failure? ==> r.error == SyntaxError
    ensures input.Str? && r.Success? ==> r.value == parseJson(input.s).value
  {
    if input.Str? then
      match parseJson(input.s)
      case None => Failure(SyntaxError)
      case Some(json) => Success(json)
    else Success(input)
  }

  /** A one-entry list holding `v` when `v` is truthy; no list otherwise. */
  function Optional(v: Value): (r: Option<seq<Entry>>)
    ensures r.Some? <==> Truthy(v)
    ensures r.Some? ==> r.value == [Entry(v)]
  {
    if Truthy(v) then Some([Entry(v)]) else None
  }

  /** `exports.parse`. Reads `json.id`, `json.firstName`,
      `json.profiles[0].email`, `json.lastName` and `json.avatarUrl`, throwing
      as JavaScript does when a read meets `undefined` or `null`. */
  function Parse(input: Value, parseJson: string -> Option<Value>): (r: Result<NormalizedProfile, Exception>)
    // it throws exactly when the text does not parse, the record is not an
    // object, or `profiles[0]` is missing, undefined or null
    ensures r.Success? <==>
      && Record(input, parseJson).Success?
      && Record(input, parseJson).value.Object?
      && var contact := First(Lookup(Record(input, parseJson).value.props, "profiles"));
         contact.Success? && !Nullish(contact.value)
    ensures r.Failure? ==> (r.error == SyntaxError <==> input.Str? && parseJson(input.s).None?)
    // fields are copied verbatim; the deliberate swap puts the first name in
    // familyName and the last name in givenName
    ensures r.Success? ==>
      var json := Record(input, parseJson).value.props;
      var contact := First(Lookup(json, "profiles")).value;
      && r.value.id == Lookup(json, "id")
      && r.value.displayName == Lookup(json, "firstName")
      && r.value.username == (if contact.Object? then Lookup(contact.props, "email") else Undefined)
      && r.value.name == Name(familyName := Lookup(json, "firstName"), givenName := Lookup(json, "lastName"))
    ensures r.Success? ==> r.value.name.familyName == r.value.displayName
    // `emails` and `photos` exist exactly when their source is truthy
    ensures r.Success? ==> (r.value.emails.Some? <==> Truthy(r.value.username))
    ensures r.Success? && r.value.emails.Some? ==> r.value.emails.value == [Entry(r.value.username)]
    ensures r.Success? ==>
      var avatar := Lookup(Record(input, parseJson).value.props, "avatarUrl");
      (r.value.photos.Some? <==> Truthy(avatar)) && (Truthy(avatar) ==> r.value.photos.value == [Entry(avatar)])
  {
    var json :- Record(input, parseJson);
    var id :- Get(json, "id");
    // once `json.id` has been read, json is neither undefined nor null, so
    // the other reads of json cannot throw
    var firstName := Get(json, "firstName").value;
    var contact :- First(Get(json, "profiles").value);
    var email :- Get(contact, "email");
    var lastName := Get(json, "lastName").value;
    var avatarUrl := Get(json, "avatarUrl").value;
    Success(NormalizedProfile(
      id := id,
      displayName := firstName,
      username := email,
      name := Name(familyName := firstName, givenName := lastName),
      emails := Optional(email),
      photos := Optional(avatarUrl)))
  }

  /** A string argument is parsed first: when it parses to a value that is
      not itself a string, the result is the same as passing that value. */
  lemma ParseStringInput(text: string, record: Value, parseJson: string -> Option<Value>)
    requires parseJson(text) == Some(record)
    requires !record.Str?
    ensures Parse(Str(text), parseJson) == Parse(record, parseJson)
  {
  }

  /** The argument is parsed only once: JSON text that decodes to another
      string leaves a string, whose `profiles` is `undefined`, so reading
      `profiles[0]` throws. */
  lemma ParseDecodesOnce(text: string, inner: string, parseJson: string -> Option<Value>)
    requires parseJson(text) == Some(Str(inner))
    ensures Parse(Str(text), parseJson) == Failure(TypeError)
  {
  }

  /** Text that is not JSON makes `parse` throw the parser's SyntaxError. */
  lemma ParseRejectsMalformedText(text: string, parseJson: string -> Option<Value>)
    requires parseJson(text).None?
    ensures Parse(Str(text), parseJson) == Failure(SyntaxError)
  {
  }

  /** For a contact object whose `profiles` is a list, `parse` succeeds
      exactly when the list is non-empty and its first entry is neither
      `undefined` nor `null`; otherwise reading index 0 or `.email` throws. */
  lemma ParseNeedsFirstProfile(props: seq<Property>, profiles: seq<Value>, parseJson: string -> Option<Value>)
    requires Lookup(props, "profiles") == Array(profiles)
    ensures Parse(Object(props), parseJson).Success? <==> |profiles| > 0 && !Nullish(profiles[0])
    ensures Parse(Object(props), parseJson).Failure? ==> Parse(Object(props), parseJson).error == TypeError
    ensures |profiles| > 0 && profiles[0].Object? ==>
      Parse(Object(props), parseJson).value.username == Lookup(profiles[0].props, "email")
  {
  }

  /** A contact without a `profiles` field makes `parse` throw. */
  lemma {:induction false} ParseNeedsProfiles(props: seq<Property>, parseJson: string -> Option<Value>)
    requires "profiles" !in Keys(props)
    ensures Parse(Object(props), parseJson) == Failure(TypeError)
  {
    LookupAbsent(props, "profiles");
  }

  /** `undefined` and `null` have no fields to read. */
  lemma ParseNeedsRecord(input: Value, parseJson: string -> Option<Value>)
    requires Nullish(input)
    ensures Parse(input, parseJson) == Failure(TypeError)
  {
  }
}

/** The JavaScript object behind a normalised profile: which properties it
    has, in which order, and what reading each of them gives. */
module ProfileObject {
  import opened Wrappers
  import opened Js
  import opened Profile

  function EntryObject(e: Entry): Value {
    Object([Property("value", e.value)])
  }

  /** `[{ value: ... }, ...]`. */
  function EntriesArray(es: seq<Entry>): (r: Value)
    ensures r.Array? && |r.elems| == |es|
    ensures forall i :: 0 <= i < |es| ==> r.elems[i] == EntryObject(es[i])
  {
    Array(seq(|es|, i requires 0 <= i < |es| => EntryObject(es[i])))
  }

  /** `{ familyName: ..., givenName: ... }`. */
  function NameObject(n: Name): Value {
    Object([Property("familyName", n.familyName), Property("givenName", n.givenName)])
  }

  /** The four properties `parse` always creates, in creation order. */
  function Assigned(p: NormalizedProfile): seq<Property> {
    [ Property("id", p.id),
      Property("displayName", p.displayName),
      Property("username", p.username),
      Property("name", NameObject(p.name)) ]
  }

  /** The property `key: [{ value: ... }, ...]` when the list is present; no
      property otherwise. */
  function OptionalProperty(key: string, es: Option<seq<Entry>>): seq<Property> {
    if es.Some? then [Property(key, EntriesArray(es.value))] else []
  }

  /** The properties of the profile object in the order they are created:
      the four unconditional ones, then `emails` and `photos` when present. */
  function Properties(p: NormalizedProfile): seq<Property> {
    Assigned(p) + OptionalProperty("emails", p.emails) + OptionalProperty("photos", p.photos)
  }

  /** The object `parse` builds: `{}` followed by the property assignments
      of lib/profile.js, in their order. */
  function ToObject(p: NormalizedProfile): (r: seq<Property>)
    ensures forall k :: Lookup(r, k) == Read(p, k)
  {
    var o := Set([], "id", p.id);
    var o := Set(o, "displayName", p.displayName);
    var o := Set(o, "username", p.username);
    var o := Set(o, "name", NameObject(p.name));
    var o := if p.emails.Some? then Set(o, "emails", EntriesArray(p.emails.value)) else o;
    if p.photos.Some? then Set(o, "photos", EntriesArray(p.photos.value)) else o
  }

  /** The four unconditional assignments each create a new property. */
  lemma {:induction false} AssignedProperties(p: NormalizedProfile)
    ensures Set(Set(Set(Set([], "id", p.id), "displayName", p.displayName), "username", p.username), "name", NameObject(p.name))
            == Assigned(p)
    ensures Keys(Assigned(p)) == ["id", "displayName", "username", "name"]
  {
    var o1 := Set([], "id", p.id);
    SetFresh([], "id", p.id);
    assert Keys(o1) == ["id"];
    var o2 := Set(o1, "displayName", p.displayName);
    SetFresh(o1, "displayName", p.displayName);
    var o3 := Set(o2, "username", p.username);
    SetFresh(o2, "username", p.username);
    SetFresh(o3, "name", NameObject(p.name));
  }

  /** Every assignment in `parse` creates a new property, so the object it
      builds holds exactly `Properties(p)`, in that order. */
  lemma {:induction false} ToObjectProperties(p: NormalizedProfile)
    ensures ToObject(p) == Properties(p)
  {
    var a := Assigned(p);
    var e := OptionalProperty("emails", p.emails);
    AssignedProperties(p);
    var o := if p.emails.Some? then Set(a, "emails", EntriesArray(p.emails.value)) else a;
    if p.emails.Some? {
      SetFresh(a, "emails", EntriesArray(p.emails.value));
    }
    assert o == a + e;
    KeysConcat(a, e);
    if p.photos.Some? {
      SetFresh(a + e, "photos", EntriesArray(p.photos.value));
    }
    assert ToObject(p) == if p.photos.Some? then Set(o, "photos", EntriesArray(p.photos.value)) else o;
  }

  /** What reading property `k` of the profile object gives, field by field:
      a property that was never assigned, `emails` and `photos` included,
      reads as `undefined`. */
  function Read(p: NormalizedProfile, k: string): Value {
    if k == "id" then p.id
    else if k == "displayName" then p.displayName
    else if k == "username" then p.username
    else if k == "name" then NameObject(p.name)
    else if k == "emails" && p.emails.Some? then EntriesArray(p.emails.value)
    else if k == "photos" && p.photos.Some? then EntriesArray(p.photos.value)
    else Undefined
  }

  /** The profile object has no properties other than `id`, `displayName`,
      `username`, `name` and, when present, `emails` and `photos`. */
  lemma ToObjectKeys(p: NormalizedProfile)
    ensures Keys(ToObject(p)) ==
      ["id", "displayName", "username", "name"]
      + (if p.emails.Some? then ["emails"] else [])
      + (if p.photos.Some? then ["photos"] else [])
  {
    ToObjectProperties(p);
    AssignedProperties(p);
    KeysConcat(Assigned(p), OptionalProperty("emails", p.emails));
    KeysConcat(Assigned(p) + OptionalProperty("emails", p.emails), OptionalProperty("photos", p.photos));
  }

  /** The property list reads, key by key, as the field-by-field `Read`. */
  lemma {:induction false} PropertiesReads(p: NormalizedProfile, k: string)
    ensures Lookup(Properties(p), k) == Read(p, k)
  {
    var a := Assigned(p);
    var e := OptionalProperty("emails", p.emails);
    var f := OptionalProperty("photos", p.photos);
    AssignedProperties(p);
    KeysConcat(a, e);
    LookupConcat(a + e, f, k);
    LookupConcat(a, e, k);
  }

  /** Reading any property of the profile object gives the normalised field. */
  lemma {:induction false} ToObjectReads(p: NormalizedProfile, k: string)
    ensures Lookup(ToObject(p), k) == Read(p, k)
  {
    ToObjectProperties(p);
    PropertiesReads(p, k);
  }
}
