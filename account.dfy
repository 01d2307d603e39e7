/**
 * The account page (`Account.tsx`): it fetches the signed-in user once and
 * renders a spinner, an error, "User not found" or the profile with its
 * avatar, "about me" text and social links.
 */
module Account {
  import opened Js
  import Display

  const FetchFailed := "Failed to fetch user data"
  const GenericError := "An error occurred"

  /**
   * `fetchUser`: a non-ok status throws 'Failed to fetch user data' without
   * reading the body; otherwise the user is `data.user`. The catch keeps an
   * Error's message and replaces anything else by 'An error occurred'.
   */
  function FetchUser(outcome: FetchOutcome): (r: Result<Json>)
    ensures outcome.Response? && !outcome.ok ==> r == Err(FetchFailed)
    ensures outcome == Rejected(OtherThrown) ==> r == Err(GenericError)
    ensures r.Ok? <==> outcome.Response? && outcome.ok && outcome.body.Parsed? && !outcome.body.value.Nullish()
    ensures r.Ok? ==> Member(outcome.body.value, "user") == Ok(r.value)
    ensures outcome.Rejected? ==> r == Err(CatchMessage(outcome.thrown, GenericError))
    ensures outcome.Response? && outcome.ok && outcome.body.Malformed? ==> r == Err(outcome.body.message)
    ensures outcome.Response? && outcome.ok && outcome.body.Parsed? && outcome.body.value.Nullish() ==>
      r == Err(NullAccessMessage(outcome.body.value, "user"))
  {
    match outcome
    case Rejected(t) => Err(CatchMessage(t, GenericError))
    case Response(ok, _, body) =>
      if !ok then Err(FetchFailed)
      else match body
        case Malformed(m) => Err(m)
        case Parsed(data) => Member(data, "user")
  }

  /** A payload without a `user` field leaves no user, so the page shows "User not found". */
  lemma MissingUserNotFound(fields: map<string, Json>, status: nat)
    requires "user" !in fields
    ensures FetchUser(Response(true, status, Parsed(Obj(fields)))) == Ok(Undefined)
  {
  }

  /** What the profile shows of a user object. */
  datatype Profile = Profile(avatar: Display.Avatar, stars: Option<seq<bool>>, aboutMe: Json, socials: Option<seq<Display.SocialLink>>)

  function Field(user: map<string, Json>, key: string): Json
  {
    if key in user then user[key] else Undefined
  }

  /**
   * The profile of a user object, or None where the markup itself throws: a
   * falsy `image` with a `name` that is not a string (`name.charAt`), or a
   * truthy `socials` that is not a string (`socials.split`).
   */
  function ProfileOf(user: map<string, Json>): (p: Option<Profile>)
    ensures p.Some? <==>
      && Display.AvatarReadable(Field(user, "image"), Field(user, "name"))
      && (!Truthy(Field(user, "socials")) || Field(user, "socials").Str?)
    ensures p.Some? ==> p.value.aboutMe == Display.AboutMe(Field(user, "about_me"))
    ensures p.Some? ==> p.value.stars == Display.RatingStars(Field(user, "rating"))
    ensures p.Some? ==> p.value.socials == Display.SocialLinks(Field(user, "socials"))
    ensures p.Some? ==> (p.value.socials.Some? <==> Truthy(Field(user, "socials")))
    ensures p.Some? && Truthy(Field(user, "image")) ==> p.value.avatar == Display.Picture(Field(user, "image"))
    ensures p.Some? && !Truthy(Field(user, "image")) ==>
      p.value.avatar == Display.AvatarFor(Field(user, "image"), Field(user, "name").s)
  {
    var image := Field(user, "image");
    var name := Field(user, "name");
    var socials := Field(user, "socials");
    if !Display.AvatarReadable(image, name) || !(!Truthy(socials) || socials.Str?) then None
    else
      var avatar := Display.AvatarFor(image, if name.Str? then name.s else "");
      Some(Profile(avatar, Display.RatingStars(Field(user, "rating")), Display.AboutMe(Field(user, "about_me")), Display.SocialLinks(socials)))
  }

  /** The branches of the page, by precedence; `Crashed` is a render that throws. */
  datatype Screen = Spinner | ErrorBanner(message: string) | UserNotFound | ProfilePage(profile: Profile) | Crashed

  class AccountView {
    var user: Json
    var loading: bool
    var error: Option<string>

    /** First render: no user (null), loading, no error. */
    constructor ()
      ensures user == Null && loading && error == None
      ensures Render() == Spinner
    {
      user := Null;
      loading := true;
      error := None;
    }

    /** The mount effect, run to completion: store the user or the error, then stop loading. */
    method Load(outcome: FetchOutcome)
      modifies this
      ensures !loading
      ensures match FetchUser(outcome)
        case Ok(u) => user == u && error == old(error)
        case Err(m) => user == old(user) && error == Some(m)
    {
      match FetchUser(outcome) {
        case Ok(u) =>
          user := u;
        case Err(m) =>
          error := Some(m);
      }
      loading := false;
    }

    /** Spinner, then a truthy error, then "User not found" for a falsy user, then the profile. */
    function Render(): (s: Screen)
      reads this
      ensures s == Spinner <==> loading
      ensures s.ErrorBanner? <==> !loading && error.Some? && error.value != ""
      ensures s.ErrorBanner? ==> s.message == error.value
      ensures s == UserNotFound <==> !loading && !(error.Some? && error.value != "") && !Truthy(user)
      ensures s.ProfilePage? ==> user.Obj? && ProfileOf(user.fields) == Some(s.profile)
      ensures !loading && !(error.Some? && error.value != "") && Truthy(user) ==>
        (s.ProfilePage? <==> user.Obj? && ProfileOf(user.fields).Some?) && (!s.ProfilePage? ==> s == Crashed)
    {
      if loading then Spinner
      else if error.Some? && error.value != "" then ErrorBanner(error.value)
      else if !Truthy(user) then UserNotFound
      else if !user.Obj? then Crashed
      else match ProfileOf(user.fields)
        case Some(p) => ProfilePage(p)
        case None => Crashed
    }
  }

  /** A first load that fails leaves the page on the error, never on "User not found". */
  method FailedLoadShowsError(outcome: FetchOutcome) returns (screen: Screen)
    requires FetchUser(outcome).Err? && FetchUser(outcome).message != ""
    ensures screen == ErrorBanner(FetchUser(outcome).message)
  {
    var view := new AccountView();
    view.Load(outcome);
    screen := view.Render();
  }
}
