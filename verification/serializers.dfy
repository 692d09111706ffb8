/**
  The request validators and record builders of the account API: the
  password-match checks of registration, password change and reset
  confirmation, the creation of a registered user with its profile, the
  partial update of a user and its profile, and the login token contents.
*/
module Serializers {
  import opened Results
  import opened Models

  /** A validation error attached to one input field. */
  datatype FieldError = FieldError(field: string, message: string)

  const MismatchMessage: string := "Password fields didn't match."

  /** Fails on `field` unless the two entries are identical. */
  function RequireMatch(field: string, entered: Secret, confirmation: Secret): (r: Result<(), FieldError>)
    ensures r.Ok? <==> entered == confirmation
    ensures r.Err? ==> r.error == FieldError(field, MismatchMessage)
  {
    if entered != confirmation then Err(FieldError(field, MismatchMessage)) else Ok(())
  }

  /** The fields of a registration request. */
  datatype RegisterData = RegisterData(
    email: string,
    password: Secret,
    passwordConfirm: Secret,
    firstName: string,
    lastName: string,
    role: Option<string>,
    phone: Option<Option<string>>)

  /** Registration is refused exactly when the two passwords differ; otherwise the input passes unchanged. */
  function ValidateRegistration(attrs: RegisterData): (r: Result<RegisterData, FieldError>)
    ensures r.Err? <==> attrs.password != attrs.passwordConfirm
    ensures r.Err? ==> r.error.field == "password"
    ensures r.Ok? ==> r.value == attrs
  {
    match RequireMatch("password", attrs.password, attrs.passwordConfirm)
    case Err(e) => Err(e)
    case Ok(_) => Ok(attrs)
  }

  /** The fields of a password-change request. */
  datatype PasswordChangeData = PasswordChangeData(currentPassword: Secret, newPassword: Secret, confirmPassword: Secret)

  /** A password change is refused exactly when the new password and its confirmation differ. */
  function ValidatePasswordChange(attrs: PasswordChangeData): (r: Result<PasswordChangeData, FieldError>)
    ensures r.Err? <==> attrs.newPassword != attrs.confirmPassword
    ensures r.Err? ==> r.error.field == "new_password"
    ensures r.Ok? ==> r.value == attrs
  {
    match RequireMatch("new_password", attrs.newPassword, attrs.confirmPassword)
    case Err(e) => Err(e)
    case Ok(_) => Ok(attrs)
  }

  /** The fields of a reset confirmation request. */
  datatype ResetConfirmData = ResetConfirmData(newPassword: Secret, confirmPassword: Secret)

  /** A reset confirmation is refused exactly when the new password and its confirmation differ. */
  function ValidateResetConfirm(attrs: ResetConfirmData): (r: Result<ResetConfirmData, FieldError>)
    ensures r.Err? <==> attrs.newPassword != attrs.confirmPassword
    ensures r.Err? ==> r.error.field == "new_password"
    ensures r.Ok? ==> r.value == attrs
  {
    match RequireMatch("new_password", attrs.newPassword, attrs.confirmPassword)
    case Err(e) => Err(e)
    case Ok(_) => Ok(attrs)
  }

  /**
    Creation of a registered user: the confirmation entry is dropped, the rest
    goes to the manager as a regular user, and one empty profile row is
    attached to the new user.
  */
  function CreateRegistered(id: UserId, data: RegisterData): (r: Result<User, string>)
    ensures r.Err? <==> data.email == ""
    ensures r.Ok? ==> r.value.id == id && r.value.email == data.email
    ensures r.Ok? ==> forall s :: CheckPassword(r.value, s) <==> s == data.password
    ensures r.Ok? ==> r.value.firstName == data.firstName && r.value.lastName == data.lastName
    ensures r.Ok? ==> r.value.role == data.role.GetOr(RestaurantRole)
    ensures r.Ok? ==> r.value.phone == data.phone.GetOr(None)
    ensures r.Ok? ==> !r.value.isStaff && !r.value.isSuperuser && !r.value.isEmailVerified
    ensures r.Ok? ==> r.value.verificationToken.None?
    ensures r.Ok? ==> r.value.profile == Some(EmptyProfile)
  {
    var extra := ExtraFields(None, None, Some(data.firstName), Some(data.lastName), data.role, data.phone);
    match CreateUser(id, data.email, Some(data.password), extra)
    case Err(e) => Err(e)
    case Ok(u) => Ok(u.(profile := Some(EmptyProfile)))
  }

  /**
    The confirmation entry is dropped before the user is created: two
    registrations that differ only in it create the same user.
  */
  lemma RegistrationIgnoresConfirmation(id: UserId, data: RegisterData, confirmation: Secret)
    ensures CreateRegistered(id, data.(passwordConfirm := confirmation)) == CreateRegistered(id, data)
  {
  }

  /** A partial update of a profile row: `None` leaves the column alone. */
  datatype ProfilePatch = ProfilePatch(
    picture: Option<Option<string>>,
    address: Option<Option<string>>,
    city: Option<Option<string>>,
    state: Option<Option<string>>,
    country: Option<Option<string>>,
    zipCode: Option<Option<string>>)
  {
    /** An empty patch is falsy in the source, so it updates nothing. */
    predicate IsEmpty() {
      picture.None? && address.None? && city.None? && state.None? && country.None? && zipCode.None?
    }
  }

  /**
    A partial update of a user. Only writable fields appear: `id` and
    `is_email_verified` are read-only and cannot be supplied.
  */
  datatype UserPatch = UserPatch(
    email: Option<string>,
    firstName: Option<string>,
    lastName: Option<string>,
    role: Option<string>,
    phone: Option<Option<string>>,
    profile: Option<ProfilePatch>)

  /** Every column the patch supplies is set on the profile row; every other column is kept. */
  function ApplyProfilePatch(p: Profile, patch: ProfilePatch): (r: Profile)
    ensures patch.picture.Some? ==> r.picture == patch.picture.value
    ensures patch.picture.None? ==> r.picture == p.picture
    ensures patch.address.Some? ==> r.address == patch.address.value
    ensures patch.address.None? ==> r.address == p.address
    ensures patch.city.Some? ==> r.city == patch.city.value
    ensures patch.city.None? ==> r.city == p.city
    ensures patch.state.Some? ==> r.state == patch.state.value
    ensures patch.state.None? ==> r.state == p.state
    ensures patch.country.Some? ==> r.country == patch.country.value
    ensures patch.country.None? ==> r.country == p.country
    ensures patch.zipCode.Some? ==> r.zipCode == patch.zipCode.value
    ensures patch.zipCode.None? ==> r.zipCode == p.zipCode
    ensures patch.IsEmpty() ==> r == p
  {
    Profile(
      patch.picture.GetOr(p.picture), patch.address.GetOr(p.address), patch.city.GetOr(p.city),
      patch.state.GetOr(p.state), patch.country.GetOr(p.country), patch.zipCode.GetOr(p.zipCode))
  }

  /** Whether the nested profile part of a patch is applied to `u`. */
  predicate TouchesProfile(u: User, patch: UserPatch) {
    patch.profile.Some? && !patch.profile.value.IsEmpty() && u.profile.Some?
  }

  /**
    The user-serializer update: every user field present in the patch is set,
    every other field is kept, and the profile is changed only when profile
    data is non-empty and the user has a profile row.
  */
  function Update(u: User, patch: UserPatch): (r: User)
    ensures r.id == u.id && r.isEmailVerified == u.isEmailVerified
    ensures r.password == u.password && r.verificationToken == u.verificationToken
    ensures r.isStaff == u.isStaff && r.isSuperuser == u.isSuperuser
    ensures patch.email.Some? ==> r.email == patch.email.value
    ensures patch.email.None? ==> r.email == u.email
    ensures patch.firstName.Some? ==> r.firstName == patch.firstName.value
    ensures patch.firstName.None? ==> r.firstName == u.firstName
    ensures patch.lastName.Some? ==> r.lastName == patch.lastName.value
    ensures patch.lastName.None? ==> r.lastName == u.lastName
    ensures patch.role.Some? ==> r.role == patch.role.value
    ensures patch.role.None? ==> r.role == u.role
    ensures patch.phone.Some? ==> r.phone == patch.phone.value
    ensures patch.phone.None? ==> r.phone == u.phone
    ensures !TouchesProfile(u, patch) ==> r.profile == u.profile
    ensures TouchesProfile(u, patch) ==> r.profile == Some(ApplyProfilePatch(u.profile.value, patch.profile.value))
    ensures r.profile.Some? <==> u.profile.Some?
  {
    var profile :=
      if TouchesProfile(u, patch) then Some(ApplyProfilePatch(u.profile.value, patch.profile.value))
      else u.profile;
    u.(email := patch.email.GetOr(u.email),
       firstName := patch.firstName.GetOr(u.firstName),
       lastName := patch.lastName.GetOr(u.lastName),
       role := patch.role.GetOr(u.role),
       phone := patch.phone.GetOr(u.phone),
       profile := profile)
  }

  /** An update that supplies nothing leaves the user as it was. */
  lemma EmptyUpdateIsIdentity(u: User)
    ensures Update(u, UserPatch(None, None, None, None, None, None)) == u
  {
  }

  /** Applying the same update twice gives the same user as applying it once. */
  lemma UpdateIsIdempotent(u: User, patch: UserPatch)
    ensures Update(Update(u, patch), patch) == Update(u, patch)
  {
  }

  /** The custom claims added to every issued token, next to the library's own user-id claim. */
  datatype Claims = Claims(userId: UserId, email: string, role: string, firstName: string, lastName: string)

  function TokenClaims(u: User): (r: Claims)
    ensures r.userId == u.id && r.email == u.email && r.role == u.role
    ensures r.firstName == u.firstName && r.lastName == u.lastName
  {
    Claims(u.id, u.email, u.role, u.firstName, u.lastName)
  }

  /** The `user` entry of the login response. */
  datatype UserSummary = UserSummary(id: UserId, email: string, role: string, firstName: string, lastName: string)

  /** The login response: the refresh and access tokens (signing left out) and the user entry. */
  datatype LoginPayload = LoginPayload(refresh: Claims, access: Claims, user: UserSummary)

  function LoginPayloadFor(u: User): (r: LoginPayload)
    ensures r.refresh == TokenClaims(u) && r.access == TokenClaims(u)
    ensures r.user.id == u.id && r.user.email == u.email && r.user.role == u.role
    ensures r.user.firstName == u.firstName && r.user.lastName == u.lastName
  {
    var claims := TokenClaims(u);
    LoginPayload(claims, claims, UserSummary(u.id, u.email, u.role, u.firstName, u.lastName))
  }
}
