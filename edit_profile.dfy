/**
 * The edit-profile page: normalising the fetched profile into the form's
 * state, single-field form updates, the body of the update request, and the
 * "venueManager" storage write after a successful update.
 */
module EditProfile {
  import opened Wrappers
  import opened JsValue
  import opened BrowserStorage

  const DefaultAvatarUrl := "https://images.unsplash.com/photo-1579547945413-497e1b99dac0?crop=entropy&cs=tinysrgb&fit=crop&fm=jpg&q=80&h=400&w=400"
  const DefaultBannerUrl := "https://images.unsplash.com/photo-1579547945413-497e1b99dac0?crop=entropy&cs=tinysrgb&fit=crop&fm=jpg&q=80&h=500&w=1500"

  /** An image object of a profile; its `url` may be missing. */
  datatype ProfileMedia = ProfileMedia(url: Option<string>)

  /**
   * The `data` of the fetched profile. Text fields are strings or missing;
   * `venueManager` is whatever value the API sent.
   */
  datatype Profile = Profile(
    bio: Option<string>, name: Option<string>, email: Option<string>,
    avatar: Option<ProfileMedia>, banner: Option<ProfileMedia>, venueManager: Value)

  /** The form's state (`formData`). */
  datatype FormData = FormData(
    bio: string, name: string, email: string,
    avatarUrl: string, bannerUrl: string, venueManager: bool)

  /** `s || fallback` on a string that may be missing: missing and "" both give the fallback. */
  function OrElse(s: Option<string>, fallback: string): (r: string)
    ensures s.Some? && s.value != "" ==> r == s.value
    ensures s.None? || s.value == "" ==> r == fallback
  {
    if s.Some? && s.value != "" then s.value else fallback
  }

  /** `media?.url`: missing when the object itself is missing. */
  function UrlOf(media: Option<ProfileMedia>): Option<string> {
    if media.Some? then media.value.url else None
  }

  /**
   * The form state built from a fetched profile: missing text becomes "",
   * a missing or empty image URL becomes its default, and `venueManager` is
   * coerced to a boolean with `!!`.
   */
  function Normalise(profile: Profile): (form: FormData)
    ensures form.bio == (if profile.bio.Some? then profile.bio.value else "")
    ensures form.name == (if profile.name.Some? then profile.name.value else "")
    ensures form.email == (if profile.email.Some? then profile.email.value else "")
    ensures UrlOf(profile.avatar).Some? && UrlOf(profile.avatar).value != "" ==> form.avatarUrl == UrlOf(profile.avatar).value
    ensures UrlOf(profile.avatar).None? || UrlOf(profile.avatar).value == "" ==> form.avatarUrl == DefaultAvatarUrl
    ensures UrlOf(profile.banner).Some? && UrlOf(profile.banner).value != "" ==> form.bannerUrl == UrlOf(profile.banner).value
    ensures UrlOf(profile.banner).None? || UrlOf(profile.banner).value == "" ==> form.bannerUrl == DefaultBannerUrl
    ensures form.avatarUrl != "" && form.bannerUrl != ""
    ensures form.venueManager == Truthy(profile.venueManager)
  {
    FormData(
      OrElse(profile.bio, ""), OrElse(profile.name, ""), OrElse(profile.email, ""),
      OrElse(UrlOf(profile.avatar), DefaultAvatarUrl), OrElse(UrlOf(profile.banner), DefaultBannerUrl),
      Truthy(profile.venueManager))
  }

  /** The form fields, by their `name` attribute. */
  datatype Field = Bio | Name | Email | AvatarUrl | BannerUrl | VenueManager

  /** The value a field holds, as a JavaScript value. */
  function FieldValue(form: FormData, field: Field): Value {
    match field
    case Bio => Str(form.bio)
    case Name => Str(form.name)
    case Email => Str(form.email)
    case AvatarUrl => Str(form.avatarUrl)
    case BannerUrl => Str(form.bannerUrl)
    case VenueManager => Bool(form.venueManager)
  }

  /**
   * handleChange's form update for an input named `field` carrying `value`:
   * a text field takes the string; `venueManager` takes `value === "true"`,
   * so any other string makes it false. Every other field keeps its value.
   */
  function Change(form: FormData, field: Field, value: string): (r: FormData)
    ensures field != VenueManager ==> FieldValue(r, field) == Str(value)
    ensures field == VenueManager ==> FieldValue(r, field) == Bool(value == "true")
    ensures forall g :: g != field ==> FieldValue(r, g) == FieldValue(form, g)
  {
    match field
    case Bio => form.(bio := value)
    case Name => form.(name := value)
    case Email => form.(email := value)
    case AvatarUrl => form.(avatarUrl := value)
    case BannerUrl => form.(bannerUrl := value)
    case VenueManager => form.(venueManager := value == "true")
  }

  /** handleChange's notice "You cannot edit or create venues as a user". */
  predicate ShowsManagerNotice(form: FormData, field: Field, value: string): (shown: bool)
    ensures shown ==> form.venueManager && !Change(form, field, value).venueManager
  {
    field == VenueManager && value == "false" && form.venueManager
  }

  /**
   * For the two values the radio buttons send, the notice fires whenever the
   * manager flag goes from true to false (the converse of the predicate's
   * own contract).
   */
  lemma ManagerNoticeOnDemotion(form: FormData, field: Field, value: string)
    ensures (value == "true" || value == "false") && field == VenueManager && form.venueManager && !Change(form, field, value).venueManager
            ==> ShowsManagerNotice(form, field, value)
  {
  }

  /** The JSON body of the update request. */
  datatype UpdateBody = UpdateBody(bio: string, avatarUrl: string, bannerUrl: string, venueManager: bool)

  /** The update body: bio, avatar.url, banner.url and venueManager, taken from the form. */
  function BuildBody(form: FormData): (body: UpdateBody)
    ensures body.bio == form.bio && body.avatarUrl == form.avatarUrl && body.bannerUrl == form.bannerUrl
    ensures body.venueManager == form.venueManager
  {
    UpdateBody(form.bio, form.avatarUrl, form.bannerUrl, form.venueManager)
  }

  /** Name and email are never sent: forms that differ only there build the same body. */
  lemma BodyOmitsIdentity(a: FormData, b: FormData)
    requires a.(name := b.name, email := b.email) == b
    ensures BuildBody(a) == BuildBody(b)
  {
  }

  /**
   * The profile a server that stored the body would send back, with its own
   * name and email. Normalising it gives the form back, provided the form's
   * image URLs are not empty.
   */
  function StoredProfile(body: UpdateBody, name: string, email: string): Profile {
    Profile(Some(body.bio), Some(name), Some(email),
            Some(ProfileMedia(Some(body.avatarUrl))), Some(ProfileMedia(Some(body.bannerUrl))),
            Bool(body.venueManager))
  }

  lemma UpdateRoundTrip(form: FormData)
    requires form.avatarUrl != "" && form.bannerUrl != ""
    ensures Normalise(StoredProfile(BuildBody(form), form.name, form.email)) == form
  {
  }

  /** `b.toString()` on a boolean. */
  function BoolString(b: bool): (s: string)
    ensures s == "true" || s == "false"
    ensures s == "true" <==> b
  {
    if b then "true" else "false"
  }

  /** The stored flag read back the way handleChange reads a radio value gives the flag. */
  lemma BoolStringRoundTrip(form: FormData, b: bool)
    ensures Change(form, VenueManager, BoolString(b)).venueManager == b
  {
  }

  /** The outcome of handleSubmit. */
  datatype SubmitOutcome = Updated | UpdateFailed

  /**
   * handleSubmit, given whether the PUT was answered `ok`: it sends the body
   * built from the form; on success it stores "venueManager" as "true" or
   * "false" matching the form, and otherwise storage is untouched.
   */
  method Submit(storage: LocalStorage, form: FormData, ok: bool) returns (sent: UpdateBody, outcome: SubmitOutcome)
    modifies storage
    ensures sent == BuildBody(form)
    ensures ok ==> outcome == Updated && storage.items == old(storage.items)["venueManager" := BoolString(form.venueManager)]
    ensures !ok ==> outcome == UpdateFailed && storage.items == old(storage.items)
  {
    sent := BuildBody(form);
    if !ok {
      outcome := UpdateFailed;
      return;
    }
    storage.SetItem("venueManager", BoolString(form.venueManager));
    outcome := Updated;
  }
}
