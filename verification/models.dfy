/**
  The account records: users, their profiles and password-reset records, and the
  user manager that builds new users with their defaults.

  Passwords are opaque secrets compared for equality; the hash is abstracted away.
  A user whose password is `None` has an unusable password, which no raw
  password matches.
*/
module Models {
  import opened Results

  /** Primary key of a user; the generated UUID is an opaque fresh value. */
  type UserId = nat

  /** A raw password. Hashing is left out, so the stored form is the secret itself. */
  type Secret = string

  const RestaurantRole: string := "restaurant"
  const ProviderRole: string := "provider"

  /** The declared choices of the `role` column. */
  const RoleChoices: set<string> := {RestaurantRole, ProviderRole}

  /** The profile row attached one-to-one to a user. */
  datatype Profile = Profile(
    picture: Option<string>,
    address: Option<string>,
    city: Option<string>,
    state: Option<string>,
    country: Option<string>,
    zipCode: Option<string>)

  /** A profile as first created: every column null. */
  const EmptyProfile: Profile := Profile(None, None, None, None, None, None)

  /**
    A user row. `profile` is `None` when no profile row exists for the user,
    which is the case for users made by the manager alone (a superuser, say).
  */
  datatype User = User(
    id: UserId,
    email: string,
    password: Option<Secret>,
    firstName: string,
    lastName: string,
    role: string,
    phone: Option<string>,
    isStaff: bool,
    isSuperuser: bool,
    isEmailVerified: bool,
    verificationToken: Option<string>,
    profile: Option<Profile>)

  /** A password-reset record; `expiresAt` is a time in seconds. */
  datatype ResetRecord = ResetRecord(user: UserId, token: string, isUsed: bool, expiresAt: int)

  /** A reset record as created: not yet used. */
  function NewReset(user: UserId, token: string, expiresAt: int): (r: ResetRecord)
    ensures !r.isUsed
    ensures r.user == user && r.token == token && r.expiresAt == expiresAt
  {
    ResetRecord(user, token, false, expiresAt)
  }

  /** Whether `raw` is the user's password; an unusable password matches nothing. */
  predicate CheckPassword(u: User, raw: Secret) {
    u.password == Some(raw)
  }

  /** Replaces the password; `None` makes it unusable. */
  function SetPassword(u: User, raw: Option<Secret>): (r: User)
    ensures forall s :: CheckPassword(r, s) <==> raw == Some(s)
    ensures r == u.(password := r.password)
  {
    u.(password := raw)
  }

  /** The keyword arguments a caller may pass to the manager besides email and password. */
  datatype ExtraFields = ExtraFields(
    isStaff: Option<bool>,
    isSuperuser: Option<bool>,
    firstName: Option<string>,
    lastName: Option<string>,
    role: Option<string>,
    phone: Option<Option<string>>)

  /** Python's `dict.setdefault` on a flag: a value already present wins. */
  function SetDefault(flag: Option<bool>, default: bool): (r: Option<bool>)
    ensures r.Some?
    ensures flag.Some? ==> r == flag
    ensures flag.None? ==> r == Some(default)
  {
    if flag.Some? then flag else Some(default)
  }

  /**
    The private builder shared by both public constructors: refuses an empty
    email, otherwise fills every column not given from its declared default.
    Email normalisation is left out (identity).
  */
  function BuildUser(id: UserId, email: string, password: Option<Secret>, extra: ExtraFields): (r: Result<User, string>)
    ensures r.Err? <==> email == ""
    ensures r.Err? ==> r.error == "The given email must be set"
    ensures r.Ok? ==> r.value.id == id && r.value.email == email
    ensures r.Ok? ==> forall s :: CheckPassword(r.value, s) <==> password == Some(s)
    ensures r.Ok? ==> r.value.firstName == extra.firstName.GetOr("") && r.value.lastName == extra.lastName.GetOr("")
    ensures r.Ok? ==> r.value.phone == extra.phone.GetOr(None)
    ensures r.Ok? ==> r.value.role == extra.role.GetOr(RestaurantRole)
    ensures r.Ok? ==> !r.value.isEmailVerified && r.value.verificationToken.None?
    ensures r.Ok? ==> r.value.profile.None?
    ensures r.Ok? ==> r.value.isStaff == extra.isStaff.GetOr(false)
    ensures r.Ok? ==> r.value.isSuperuser == extra.isSuperuser.GetOr(false)
  {
    if email == "" then
      Err("The given email must be set")
    else
      var u := User(
        id, email, None,
        extra.firstName.GetOr(""), extra.lastName.GetOr(""),
        extra.role.GetOr(RestaurantRole), extra.phone.GetOr(None),
        extra.isStaff.GetOr(false), extra.isSuperuser.GetOr(false),
        false, None, None);
      Ok(SetPassword(u, password))
  }

  /** A regular user: both staff flags default to false, but values given by the caller win. */
  function CreateUser(id: UserId, email: string, password: Option<Secret>, extra: ExtraFields): (r: Result<User, string>)
    ensures r.Err? <==> email == ""
    ensures r.Ok? ==> r.value.id == id && r.value.email == email
    ensures r.Ok? ==> forall s :: CheckPassword(r.value, s) <==> password == Some(s)
    ensures r.Ok? ==> r.value.isStaff == (extra.isStaff == Some(true))
    ensures r.Ok? ==> r.value.isSuperuser == (extra.isSuperuser == Some(true))
    ensures r.Ok? ==> r.value.firstName == extra.firstName.GetOr("") && r.value.lastName == extra.lastName.GetOr("")
    ensures r.Ok? ==> r.value.phone == extra.phone.GetOr(None)
    ensures r.Ok? ==> r.value.role == extra.role.GetOr(RestaurantRole)
    ensures r.Ok? ==> !r.value.isEmailVerified && r.value.verificationToken.None? && r.value.profile.None?
  {
    var extra' := extra.(isStaff := SetDefault(extra.isStaff, false),
                         isSuperuser := SetDefault(extra.isSuperuser, false));
    BuildUser(id, email, password, extra')
  }

  /**
    A superuser: both flags default to true, and a caller who sets either to
    anything but true is refused before the email is looked at.
  */
  function CreateSuperuser(id: UserId, email: string, password: Option<Secret>, extra: ExtraFields): (r: Result<User, string>)
    ensures r.Err? <==> extra.isStaff == Some(false) || extra.isSuperuser == Some(false) || email == ""
    ensures extra.isStaff == Some(false) ==> r == Err("Superuser must have is_staff=True.")
    ensures extra.isStaff != Some(false) && extra.isSuperuser == Some(false) ==>
              r == Err("Superuser must have is_superuser=True.")
    ensures r.Ok? ==> r.value.isStaff && r.value.isSuperuser
    ensures r.Ok? ==> r.value.id == id && r.value.email == email
    ensures r.Ok? ==> forall s :: CheckPassword(r.value, s) <==> password == Some(s)
    ensures r.Ok? ==> r.value.firstName == extra.firstName.GetOr("") && r.value.lastName == extra.lastName.GetOr("")
    ensures r.Ok? ==> r.value.phone == extra.phone.GetOr(None)
    ensures r.Ok? ==> r.value.role == extra.role.GetOr(RestaurantRole)
    ensures r.Ok? ==> !r.value.isEmailVerified && r.value.verificationToken.None? && r.value.profile.None?
  {
    var staff := SetDefault(extra.isStaff, true);
    var superuser := SetDefault(extra.isSuperuser, true);
    if staff != Some(true) then
      assert extra.isStaff.Some? && !extra.isStaff.value;
      Err("Superuser must have is_staff=True.")
    else if superuser != Some(true) then
      assert extra.isSuperuser.Some? && !extra.isSuperuser.value;
      Err("Superuser must have is_superuser=True.")
    else
      BuildUser(id, email, password, extra.(isStaff := staff, isSuperuser := superuser))
  }
}
