/**
 * The back end's account creation (`apps/users/managers.py`) and the user
 * model's save hook (`apps/users/models.py`): the e-mail requirement, the
 * `setdefault` defaults for `username` and the superuser flags, the check that
 * those flags are exactly `True`, and the username <- e-mail fallback on save.
 * `normalize_email` and the password hasher are parameters.
 */
module Users {

  /** The Python values keyword arguments carry here. */
  datatype PyValue = PyNone | PyBool(b: bool) | PyInt(i: int) | PyStr(s: string)

  /** Python truthiness (`if not x`). */
  predicate PyTruthy(v: PyValue) {
    match v
    case PyNone => false
    case PyBool(b) => b
    case PyInt(i) => i != 0
    case PyStr(s) => s != ""
  }

  /** `x is True`: only the boolean `True` itself, not `1` or `"True"`. */
  predicate IsTrue(v: PyValue) {
    v == PyBool(true)
  }

  /** The result of `create_user` and `create_superuser`: the created value, or the `ValueError` raised. */
  datatype Outcome<T> = Created(value: T) | ValueError(message: string)

  /**
   * `email` and `password` are named parameters of both managers, so Python
   * never lets them reach `**extra_fields`.
   */
  predicate ExtraFields(extra: map<string, PyValue>) {
    "email" !in extra && "password" !in extra
  }

  const EmailRequired := "The Email must be set"
  const StaffRequired := "Superuser must have is_staff=True."
  const SuperuserRequired := "Superuser must have is_superuser=True."

  /** `d.setdefault(key, value)` for its effect on `d`: a missing key gets the value, a present one is kept. */
  function SetDefault(d: map<string, PyValue>, key: string, value: PyValue): (r: map<string, PyValue>)
    ensures r.Keys == d.Keys + {key}
    ensures r[key] == if key in d then d[key] else value
    ensures forall k :: k in d ==> r[k] == d[k]
  {
    if key in d then d else d[key := value]
  }

  /**
   * The keyword arguments `create_user` passes to the model: a falsy e-mail is
   * refused first; otherwise the normalised e-mail, and `username` defaulting to
   * it, next to the caller's other fields.
   */
  function UserFields(email: PyValue, extra: map<string, PyValue>, normalize: string -> string): (r: Outcome<map<string, PyValue>>)
    requires email.PyStr? || email.PyNone?
    requires ExtraFields(extra)
    ensures !PyTruthy(email) ==> r == ValueError(EmailRequired)
    ensures r.Created? <==> PyTruthy(email)
    ensures r.Created? ==>
      && r.value.Keys == extra.Keys + {"email", "username"}
      && r.value["email"] == PyStr(normalize(email.s))
      && r.value["username"] == (if "username" in extra then extra["username"] else PyStr(normalize(email.s)))
      && (forall k :: k in extra ==> r.value[k] == extra[k])
  {
    if !PyTruthy(email) then ValueError(EmailRequired)
    else
      var normalized := normalize(email.s);
      var fields := SetDefault(extra, "username", PyStr(normalized));
      Created(fields["email" := PyStr(normalized)])
  }

  /**
   * The first half of `create_superuser`: the three flags default to `True`
   * without overwriting the caller's values, then `is_staff` and after it
   * `is_superuser` must be exactly `True`.
   */
  function SuperuserFields(extra: map<string, PyValue>): (r: Outcome<map<string, PyValue>>)
    requires ExtraFields(extra)
    ensures "is_staff" in extra && !IsTrue(extra["is_staff"]) ==> r == ValueError(StaffRequired)
    ensures ("is_staff" !in extra || IsTrue(extra["is_staff"])) && "is_superuser" in extra && !IsTrue(extra["is_superuser"]) ==>
      r == ValueError(SuperuserRequired)
    ensures r.Created? <==>
      ("is_staff" !in extra || IsTrue(extra["is_staff"])) && ("is_superuser" !in extra || IsTrue(extra["is_superuser"]))
    ensures r.Created? ==>
      && r.value.Keys == extra.Keys + {"is_staff", "is_superuser", "is_active"}
      && IsTrue(r.value["is_staff"]) && IsTrue(r.value["is_superuser"])
      && r.value["is_active"] == (if "is_active" in extra then extra["is_active"] else PyBool(true))
      && (forall k :: k in extra ==> r.value[k] == extra[k])
      && ExtraFields(r.value)
  {
    var fields := SetDefault(SetDefault(SetDefault(extra, "is_staff", PyBool(true)), "is_superuser", PyBool(true)), "is_active", PyBool(true));
    if !IsTrue(fields["is_staff"]) then ValueError(StaffRequired)
    else if !IsTrue(fields["is_superuser"]) then ValueError(SuperuserRequired)
    else Created(fields)
  }

  /** `create_superuser` as a whole on the keyword arguments: the flag checks, then `create_user`'s. */
  function SuperuserUserFields(email: PyValue, extra: map<string, PyValue>, normalize: string -> string): (r: Outcome<map<string, PyValue>>)
    requires email.PyStr? || email.PyNone?
    requires ExtraFields(extra)
  {
    match SuperuserFields(extra)
    case ValueError(m) => ValueError(m)
    case Created(fields) => UserFields(email, fields, normalize)
  }

  /** The flag checks come first: a bad flag is reported even when the e-mail is missing too. */
  lemma FlagsCheckedBeforeEmail(email: PyValue, extra: map<string, PyValue>, normalize: string -> string)
    requires email.PyStr? || email.PyNone?
    requires ExtraFields(extra) && SuperuserFields(extra).ValueError?
    ensures SuperuserUserFields(email, extra, normalize) == SuperuserFields(extra)
  {
  }

  /** With acceptable flags, the e-mail requirement of `create_user` still applies to superusers. */
  lemma SuperuserNeedsEmail(email: PyValue, extra: map<string, PyValue>, normalize: string -> string)
    requires email.PyStr? || email.PyNone?
    requires ExtraFields(extra) && SuperuserFields(extra).Created? && !PyTruthy(email)
    ensures SuperuserUserFields(email, extra, normalize) == ValueError(EmailRequired)
  {
  }

  /**
   * A created superuser's fields hold `is_staff` and `is_superuser` as `True`,
   * the normalised e-mail and a username.
   */
  lemma SuperuserCreatedFields(email: PyValue, extra: map<string, PyValue>, normalize: string -> string)
    requires email.PyStr? || email.PyNone?
    requires ExtraFields(extra) && SuperuserUserFields(email, extra, normalize).Created?
    ensures var fields := SuperuserUserFields(email, extra, normalize).value;
      && IsTrue(fields["is_staff"]) && IsTrue(fields["is_superuser"])
      && "username" in fields && fields["email"] == PyStr(normalize(email.s))
  {
    var flags := SuperuserFields(extra).value;
    assert SuperuserUserFields(email, extra, normalize) == UserFields(email, flags, normalize);
  }

  /** The username after `save`: a falsy username is replaced by the e-mail. */
  function UsernameAfterSave(username: PyValue, email: string): (r: PyValue)
  {
    if PyTruthy(username) then username else PyStr(email)
  }

  /** The fallback fires exactly for an empty or missing username, and then takes the e-mail. */
  lemma UsernameFallback(username: PyValue, email: string)
    ensures PyTruthy(username) ==> UsernameAfterSave(username, email) == username
    ensures !PyTruthy(username) ==> UsernameAfterSave(username, email) == PyStr(email)
  {
  }

  /** Saving again does not change the username any further. */
  lemma SaveIdempotent(username: PyValue, email: string)
    ensures UsernameAfterSave(UsernameAfterSave(username, email), email) == UsernameAfterSave(username, email)
  {
  }

  /** After a save the username is truthy whenever the e-mail is non-empty. */
  lemma SavedUsernamePresent(username: PyValue, email: string)
    requires email != ""
    ensures PyTruthy(UsernameAfterSave(username, email))
  {
  }

  /** A user row: the columns this model touches, and the rest of the keyword arguments. */
  class User {
    var email: string
    var username: PyValue
    /** The stored password: the hasher's output for the raw value once `set_password` has run. */
    var password: string
    var otherFields: map<string, PyValue>
    /** How many times the row has been written. */
    ghost var saves: nat

    /** `self.model(**kwargs)`: unsaved, username `None` unless given, password unset (''). */
    constructor (kwargs: map<string, PyValue>)
      requires "email" in kwargs && kwargs["email"].PyStr?
      ensures email == kwargs["email"].s
      ensures username == if "username" in kwargs then kwargs["username"] else PyNone
      ensures password == "" && saves == 0
      ensures otherFields == kwargs - {"email", "username"}
    {
      email := kwargs["email"].s;
      username := if "username" in kwargs then kwargs["username"] else PyNone;
      password := "";
      otherFields := kwargs - {"email", "username"};
      saves := 0;
    }

    /** `set_password(raw)`: stores the hasher's output for the raw value. */
    method SetPassword(raw: PyValue, hash: PyValue -> string)
      modifies this`password
      ensures password == hash(raw)
    {
      password := hash(raw);
    }

    /** `save`: the username fallback, then the write. */
    method Save()
      modifies this`username, this`saves
      ensures username == UsernameAfterSave(old(username), email)
      ensures saves == old(saves) + 1
    {
      if !PyTruthy(username) {
        username := PyStr(email);
      }
      saves := saves + 1;
    }
  }

  /**
   * `create_user`: the e-mail check, normalisation and username default, then
   * a new row with the hashed password, saved once.
   */
  method CreateUser(email: PyValue, password: PyValue, extra: map<string, PyValue>,
                    normalize: string -> string, hash: PyValue -> string)
    returns (r: Outcome<User>)
    requires email.PyStr? || email.PyNone?
    requires ExtraFields(extra)
    ensures match UserFields(email, extra, normalize)
      case ValueError(m) => r == ValueError(m)
      case Created(kwargs) =>
        && r.Created? && fresh(r.value)
        && r.value.email == kwargs["email"].s
        && r.value.username == UsernameAfterSave(kwargs["username"], r.value.email)
        && r.value.password == hash(password)
        && r.value.otherFields == kwargs - {"email", "username"}
        && r.value.saves == 1
  {
    if !PyTruthy(email) {
      return ValueError(EmailRequired);
    }
    var normalized := normalize(email.s);
    var fields := SetDefault(extra, "username", PyStr(normalized));
    var user := new User(fields["email" := PyStr(normalized)]);
    user.SetPassword(password, hash);
    user.Save();
    return Created(user);
  }

  /** `create_superuser`: the flag defaults and checks, then `create_user`. */
  method CreateSuperuser(email: PyValue, password: PyValue, extra: map<string, PyValue>,
                         normalize: string -> string, hash: PyValue -> string)
    returns (r: Outcome<User>)
    requires email.PyStr? || email.PyNone?
    requires ExtraFields(extra)
    ensures match SuperuserUserFields(email, extra, normalize)
      case ValueError(m) => r == ValueError(m)
      case Created(kwargs) =>
        && r.Created? && fresh(r.value)
        && r.value.email == kwargs["email"].s
        && r.value.username == UsernameAfterSave(kwargs["username"], r.value.email)
        && r.value.password == hash(password)
        && r.value.otherFields == kwargs - {"email", "username"}
        && r.value.saves == 1
  {
    var fields := SetDefault(SetDefault(SetDefault(extra, "is_staff", PyBool(true)), "is_superuser", PyBool(true)), "is_active", PyBool(true));
    if !IsTrue(fields["is_staff"]) {
      return ValueError(StaffRequired);
    }
    if !IsTrue(fields["is_superuser"]) {
      return ValueError(SuperuserRequired);
    }
    r := CreateUser(email, password, fields, normalize, hash);
  }
}
