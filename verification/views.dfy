/**
  The HTTP handlers of the account API as pure transitions: each takes the
  store (and, where the handler reads the clock or generates a UUID, the
  current time in seconds or a fresh token) and yields the new store with the
  response. Sending e-mail has no effect on the store and is left out.
*/
module Views {
  import opened Results
  import opened Models
  import opened Query
  import opened Database
  import opened Serializers

  /** Lifetime of a reset token: 24 hours, in seconds. */
  const ResetLifetime: int := 24 * 60 * 60

  const ForgotPasswordMessage: string :=
    "If an account with that email exists, we've sent password reset instructions."
  const ResetRequestMessage: string := "Password reset email sent."
  const InvalidResetMessage: string := "Invalid or expired token."
  const InvalidVerificationMessage: string := "Invalid verification token."

  datatype Body =
    | Message(text: string)
    | Error(text: string)
    | Fields(error: FieldError)
    | Validity(valid: bool)
    | Serialized(user: User)
    | Tokens(payload: LoginPayload)

  datatype Response = Response(status: nat, body: Body)

  /** An exception the handler does not catch (for instance `MultipleObjectsReturned`). */
  const ServerError: Response := Response(500, Error("Internal Server Error"))

  /** A rejected request body. */
  function Invalid(e: FieldError): Response {
    Response(400, Fields(e))
  }

  /** The store after a request, with the response sent back. */
  datatype Step = Step(store: Store, response: Response)

  // ---------------------------------------------------------------- registration

  /**
    The column-level checks the registration form derives from the user
    model: a non-blank email not already taken, and a role among the choices.
  */
  function CheckUserColumns(st: Store, email: Option<string>, role: Option<string>, editing: Option<UserId>): (r: Result<(), FieldError>)
    ensures r.Ok? <==>
      (email.Some? ==> email.value != "" &&
                       forall id :: id in st.users && st.users[id].email == email.value ==> Some(id) == editing)
      && (role.Some? ==> role.value in RoleChoices)
  {
    if email.Some? && email.value == "" then
      Err(FieldError("email", "This field may not be blank."))
    else if email.Some? && exists id :: id in st.users && st.users[id].email == email.value && Some(id) != editing then
      Err(FieldError("email", "user with this email address already exists."))
    else if role.Some? && role.value !in RoleChoices then
      Err(FieldError("role", "\"" + role.value + "\" is not a valid choice."))
    else
      Ok(())
  }

  /**
    The registration form: the column checks first, then the password match.
    On success the validated input is the request itself.
  */
  function ValidateRegisterForm(st: Store, data: RegisterData): (r: Result<RegisterData, FieldError>)
    ensures r.Ok? <==>
      data.email != "" && !EmailTaken(st, data.email) &&
      (data.role.Some? ==> data.role.value in RoleChoices) && data.password == data.passwordConfirm
    ensures r.Ok? ==> r.value == data
  {
    match CheckUserColumns(st, Some(data.email), data.role, None)
    case Err(e) => Err(e)
    case Ok(_) => ValidateRegistration(data)
  }

  /**
    Registration: validate the form, create the user with an empty profile,
    store the fresh verification token on it and answer 201.
  */
  function Register(st: Store, data: RegisterData, id: UserId, verificationToken: string): (r: Step)
    requires id !in st.users
    ensures r.response.status != 201 ==> r.store == st
    ensures r.response.status == 201 <==> ValidateRegisterForm(st, data).Ok?
    ensures r.response.status == 201 ==>
      r.store == st.(users := st.users[id := CreateRegistered(id, data).value.(verificationToken := Some(verificationToken))])
  {
    match ValidateRegisterForm(st, data)
    case Err(e) => Step(st, Invalid(e))
    case Ok(attrs) =>
      match CreateRegistered(id, attrs)
      case Err(_) => Step(st, ServerError)
      case Ok(u) =>
        var u' := u.(verificationToken := Some(verificationToken));
        Step(st.(users := st.users[id := u']),
             Response(201, Message("User registered successfully. Please check your email to verify your account.")))
  }

  /** Email verification: the user holding the token becomes verified and loses the token. */
  function VerifyEmail(st: Store, token: string): (r: Step)
    ensures r.response.status != 200 ==> r.store == st
    ensures !VerificationTokenIssued(st, token) ==> r.response == Response(400, Error(InvalidVerificationMessage))
    ensures r.store.resets == st.resets && r.store.users.Keys == st.users.Keys
    ensures r.response.status == 200 ==>
      exists id :: id in st.users && st.users[id].verificationToken == Some(token) &&
        r.store.users == st.users[id := st.users[id].(isEmailVerified := true, verificationToken := None)]
  {
    match UserWithVerificationToken(st, token)
    case NotFound => Step(st, Response(400, Error(InvalidVerificationMessage)))
    case Multiple => Step(st, ServerError)
    case Found(id) =>
      var u := st.users[id].(isEmailVerified := true, verificationToken := None);
      Step(st.(users := st.users[id := u]), Response(200, Message("Email verified successfully.")))
  }

  // ---------------------------------------------------------------- login

  /**
    Login: the library authenticates email and password, then the response
    carries the signed tokens with the custom claims and the user entry.
  */
  function Login(st: Store, email: string, password: Secret): (r: Response)
    ensures r.status == 200 ==> exists id :: id in st.users && st.users[id].email == email && CheckPassword(st.users[id], password)
    ensures r.status == 200 ==> r.body.Tokens?
  {
    match UserWithEmail(st, email)
    case Found(id) =>
      if CheckPassword(st.users[id], password) then Response(200, Tokens(LoginPayloadFor(st.users[id])))
      else Response(401, Error("No active account found with the given credentials"))
    case NotFound => Response(401, Error("No active account found with the given credentials"))
    case Multiple => ServerError
  }

  // ---------------------------------------------------------------- the user endpoints

  /** The users a requester may list: all for staff, otherwise only the requester. */
  function VisibleUsers(st: Store, requester: User): (r: set<UserId>)
    ensures r <= st.users.Keys
    ensures requester.isStaff ==> r == st.users.Keys
    ensures !requester.isStaff ==> forall id :: id in r <==> id in st.users && id == requester.id
  {
    if requester.isStaff then st.users.Keys else set id | id in st.users && id == requester.id
  }

  /** Partial update of the requester's own record and profile. */
  function UpdateProfile(st: Store, requester: UserId, patch: UserPatch): (r: Step)
    requires requester in st.users
    ensures r.store.resets == st.resets && r.store.users.Keys == st.users.Keys
    ensures forall id :: id in st.users && id != requester ==> r.store.users[id] == st.users[id]
    ensures r.response.status == 200 <==> CheckUserColumns(st, patch.email, patch.role, Some(requester)).Ok?
    ensures r.response.status != 200 ==> r.store == st
    ensures r.response.status == 200 ==> r.store.users[requester] == Update(st.users[requester], patch)
  {
    match CheckUserColumns(st, patch.email, patch.role, Some(requester))
    case Err(e) => Step(st, Invalid(e))
    case Ok(_) =>
      var u := Update(st.users[requester], patch);
      Step(st.(users := st.users[requester := u]), Response(200, Serialized(u)))
  }

  /**
    Password change for the requester: refused when the confirmation differs
    or the current password is wrong, otherwise the password is replaced.
  */
  function ChangePassword(st: Store, requester: UserId, data: PasswordChangeData): (r: Step)
    requires requester in st.users
    ensures r.store.resets == st.resets && r.store.users.Keys == st.users.Keys
    ensures r.response.status == 200 <==>
      data.newPassword == data.confirmPassword && CheckPassword(st.users[requester], data.currentPassword)
    ensures r.response.status != 200 ==> r.store == st
    ensures r.response.status == 200 ==>
      r.store.users == st.users[requester := st.users[requester].(password := Some(data.newPassword))]
  {
    match ValidatePasswordChange(data)
    case Err(e) => Step(st, Invalid(e))
    case Ok(attrs) =>
      var u := st.users[requester];
      if !CheckPassword(u, attrs.currentPassword) then
        Step(st, Invalid(FieldError("current_password", "Wrong password.")))
      else
        Step(st.(users := st.users[requester := SetPassword(u, Some(attrs.newPassword))]),
             Response(200, Message("Password updated successfully.")))
  }

  // ---------------------------------------------------------------- password reset

  /**
    The state change shared by both reset-request handlers: when a user has
    `email`, a new unused record with the fresh token expiring 24 hours from
    `now` is appended.
  */
  function RecordReset(st: Store, email: string, token: string, now: int): (r: Result<Store, ()>)
    ensures r.Err? ==> UserWithEmail(st, email).Multiple?
    ensures r.Ok? && !EmailTaken(st, email) ==> r.value == st
    ensures r.Ok? && EmailTaken(st, email) ==>
      r.value.users == st.users &&
      exists id :: id in st.users && st.users[id].email == email &&
        r.value.resets == st.resets + [ResetRecord(id, token, false, now + ResetLifetime)]
  {
    match UserWithEmail(st, email)
    case Found(id) => Ok(st.(resets := st.resets + [NewReset(id, token, now + ResetLifetime)]))
    case NotFound => Ok(st)
    case Multiple => Err(())
  }

  /** The forgot-password handler: the same answer whether or not the email is known. */
  function ForgotPassword(st: Store, email: string, token: string, now: int): (r: Step)
    ensures r.response.status == 200 ==> r.response == Response(200, Message(ForgotPasswordMessage))
    ensures r.response.status != 200 ==> r.store == st
  {
    match RecordReset(st, email, token, now)
    case Ok(st') => Step(st', Response(200, Message(ForgotPasswordMessage)))
    case Err(_) => Step(st, ServerError)
  }

  /** The reset-request handler: the same answer whether or not the email is known. */
  function RequestPasswordReset(st: Store, email: string, token: string, now: int): (r: Step)
    ensures r.response.status == 200 ==> r.response == Response(200, Message(ResetRequestMessage))
    ensures r.response.status != 200 ==> r.store == st
  {
    match RecordReset(st, email, token, now)
    case Ok(st') => Step(st', Response(200, Message(ResetRequestMessage)))
    case Err(_) => Step(st, ServerError)
  }

  /**
    Reset confirmation: the redeemable record's user gets the new password,
    the record is marked used and so is every other unused record of that user.
  */
  function ConfirmReset(st: Store, token: string, data: ResetConfirmData, now: int): (r: Step)
    ensures r.response.status != 200 ==> r.store == st
    ensures r.response.status == 200 ==> data.newPassword == data.confirmPassword && TokenRedeemable(st, token, now)
    ensures data.newPassword == data.confirmPassword && !TokenRedeemable(st, token, now) ==>
      r.response == Response(400, Error(InvalidResetMessage))
    ensures r.store.users.Keys == st.users.Keys && |r.store.resets| == |st.resets|
  {
    match ValidateResetConfirm(data)
    case Err(e) => Step(st, Invalid(e))
    case Ok(attrs) =>
      match RedeemableReset(st, token, now)
      case NotFound => Step(st, Response(400, Error(InvalidResetMessage)))
      case Multiple => Step(st, ServerError)
      case Found(i) =>
        var owner := st.resets[i].user;
        if owner !in st.users then
          Step(st, ServerError)
        else
          var users' := st.users[owner := SetPassword(st.users[owner], Some(attrs.newPassword))];
          var resets' := RetireResetsOf(st.resets[i := st.resets[i].(isUsed := true)], owner);
          Step(Store(users', resets'), Response(200, Message("Password has been reset successfully.")))
  }

  /** Token validation: answers with the token's validity and never changes the store. */
  function ValidateResetToken(st: Store, token: string, now: int): (r: Response)
    ensures r == Response(200, Validity(false)) <==> !TokenRedeemable(st, token, now)
    ensures r == Response(200, Validity(true)) ==> TokenRedeemable(st, token, now)
  {
    match RedeemableReset(st, token, now)
    case Found(_) => Response(200, Validity(true))
    case NotFound => Response(200, Validity(false))
    case Multiple => ServerError
  }
}
