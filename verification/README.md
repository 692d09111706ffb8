# Account credential lifecycle — a Dafny model

This project models the account subsystem of a multi-role web service in Dafny. It covers
the user records with their profile, the user manager that creates users, the
request validators, the role-based permissions, and above all the lifecycle of
credential tokens:

- issuing a password-reset token (the forgot-password and reset-request handlers);
- validating a reset token;
- confirming a reset, which sets the password and retires every open token of that user;
- verifying an email address with its one-time token;
- changing a password, and logging in.

The store is one immutable value. It holds a map of users and a sequence of
password-reset records. Every handler is a pure function from the store and the
request to the new store and the HTTP response. The clock is an integer count of
seconds passed in by the caller. Generated UUIDs (user keys, verification tokens,
reset tokens) are parameters. Passwords are opaque secrets compared for equality.

Files:

- `results.dfy`: `Option` and `Result`.
- `query.dfy`: the single-row lookup of the object-relational mapper. It has three outcomes:
  no row, exactly one row, or several rows. The handlers catch only the first, so
  several rows become a 500 response.
- `models.dfy`: the user, profile and reset-record types, and the user manager.
- `database.dfy`: the store, its integrity invariant `Valid`, and the queries the handlers run.
- `serializers.dfy`: the password-match validators, registration creation, partial update, and login payload.
- `views.dfy`: the handlers as transitions.
- `permissions.dfy`: the restaurant and provider permissions.
- `lifecycle.dfy`: lemmas that relate several requests. They cover single use, strict expiry,
  non-enumeration, verification working only once, login after a reset, and preservation of `Valid`.

`Valid` holds when:
- each user sits under its own key;
- emails are unique;
- pending verification tokens are unique;
- reset tokens are unique;
- every reset record belongs to an existing user.

In a valid store no lookup returns several rows. Each handler keeps the store
valid, as long as the generated values it is given are fresh.

## Model

| member | source | states |
|---|---|---|
| Query.GetIndex | accounts/views.py:231-235 | a lookup over reset rows fails with "not found" exactly when no row matches, returns the only matching row when there is one, and reports "several" exactly when two rows match |
| Query.GetKey | accounts/views.py:69-74 | the same three-way lookup over users keyed by primary key |
| Database.UserWithEmail | accounts/views.py:133 | the user lookup by email finds nothing exactly when no user has that email, and never finds several in a valid store |
| Database.UserWithVerificationToken | accounts/views.py:69 | the user lookup by verification token finds nothing exactly when no user holds that token, and never finds several in a valid store |
| Database.RedeemableReset | accounts/views.py:231-235 | the reset lookup finds nothing exactly when no record has the token, is unused and has `now < expires_at`; never several in a valid store |
| Database.RetireResetsOf | accounts/views.py:247-250 | the bulk update keeps every record except its used flag, which afterwards is set exactly for records already used or belonging to the user |
| Models.NewReset | accounts/models.py:76-81 | a new reset record is unused and carries the given user, token and expiry |
| Models.SetDefault | accounts/models.py:23-24 | a flag the caller supplied is kept, and a missing one takes the default |
| Models.BuildUser | accounts/models.py:11-19 | an empty email is refused with "The given email must be set"; otherwise the user has the given id and email, the given password (none means no password matches), the given names and phone, role `restaurant` unless given, is unverified and has no profile row |
| Models.CreateUser | accounts/models.py:21-25 | refused exactly for an empty email; otherwise the user has the given id, email, password, names, phone and role (`restaurant` by default), is unverified without token or profile, and is staff or superuser only if the caller passed true for that flag |
| Models.CreateSuperuser | accounts/models.py:27-37 | refused exactly when a flag is passed as false or the email is empty, with the staff check first; otherwise both flags are true and the user has the given id, email, password, names, phone and role (`restaurant` by default), and is unverified without token or profile |
| Serializers.ValidateRegistration | accounts/serializers.py:85-88 | registration is refused on `password` exactly when the two passwords differ, and otherwise passes its input unchanged |
| Serializers.ValidatePasswordChange | accounts/serializers.py:107-110 | a password change is refused on `new_password` exactly when the new password and its confirmation differ |
| Serializers.ValidateResetConfirm | accounts/serializers.py:126-129 | a reset confirmation is refused on `new_password` exactly when the new password and its confirmation differ |
| Serializers.CreateRegistered | accounts/serializers.py:90-97 | the registered user carries the form's fields and password, is neither staff nor superuser nor verified, and has exactly one empty profile row |
| Serializers.RegistrationIgnoresConfirmation | accounts/serializers.py:90-92 | the confirmation entry is dropped: it has no influence on the created user |
| Serializers.ApplyProfilePatch | accounts/serializers.py:67-70 | each profile column present in the input is set and every other column kept |
| Serializers.Update | accounts/serializers.py:58-72 | each user field present in the input is set and every other field kept; id, verification flag, password and staff flags never change; non-empty profile data on a user that has a profile is applied column by column to that profile, and otherwise the profile is kept |
| Serializers.UpdateIsIdempotent | accounts/serializers.py:62-70 | applying the same update twice is the same as applying it once |
| Serializers.EmptyUpdateIsIdentity | accounts/serializers.py:58-72 | an update that supplies no field leaves the user unchanged |
| Serializers.TokenClaims | accounts/serializers.py:13-23 | every issued token carries the library's user-id claim with the user's id, and the custom claims email, role, first name and last name with the user's values |
| Serializers.LoginPayloadFor | accounts/serializers.py:25-37 | the login answer carries the refresh and access tokens with those claims, and a `user` entry with the user's id, email, role and names |
| Views.CheckUserColumns | accounts/models.py:47-50 | a form passes exactly when any given email is non-blank and held by no other user, and any given role is one of `restaurant` and `provider` |
| Views.ValidateRegisterForm | accounts/serializers.py:75-88 | the registration form passes exactly when the email is non-blank and new, any given role is a valid choice and the passwords match, and then yields the request unchanged |
| Views.Register | accounts/views.py:35-60 | registration with a fresh key answers 201 exactly when the form passes; then the store gains exactly the user created from the form, carrying the new verification token, under that key, and nothing else changes; any other answer leaves the store unchanged |
| Views.VerifyEmail | accounts/views.py:67-75 | an unknown token answers 400 "Invalid verification token." and changes nothing; a success marks the holder verified, clears the token, and touches no one else |
| Views.Login | accounts/serializers.py:25-37 | a login succeeds only for a stored user with that email and password, and answers with tokens |
| Views.VisibleUsers | accounts/views.py:83-87 | staff see every user; anyone else sees only their own record |
| Views.UpdateProfile | accounts/views.py:96-102 | a profile update answers 200 exactly when the form passes, and then changes only the requester's record, to the serializer update; a refused update changes nothing |
| Views.ChangePassword | accounts/views.py:105-119 | succeeds exactly when the confirmation matches and the current password is right, and then only the requester's password changes; otherwise nothing changes; reset records are never touched |
| Views.RecordReset | accounts/views.py:133-144 | for a known email exactly one unused record expiring 24 hours later is appended and users are unchanged; for an unknown email the store is unchanged |
| Views.ForgotPassword | accounts/views.py:127-172 | every 200 answer is the same generic message |
| Views.RequestPasswordReset | accounts/views.py:180-215 | every 200 answer is the same "Password reset email sent." message |
| Views.ConfirmReset | accounts/views.py:223-254 | any non-200 answer leaves the store unchanged; success needs matching passwords and a redeemable token; with matching passwords and no redeemable token the answer is 400 "Invalid or expired token." |
| Views.ValidateResetToken | accounts/views.py:261-271 | answers `valid: false` exactly when no record redeems the token, and `valid: true` only when one does |
| Lifecycle.ValidationReflectsTokenState | accounts/views.py:261-271 | in a valid store validation always answers 200 and reports exactly whether the token is unused and unexpired |
| Lifecycle.ExpiryIsStrict | accounts/views.py:264-268 | a token is no longer valid at exactly its `expires_at` |
| Lifecycle.IssueEffect | accounts/views.py:136-144 | both reset-request handlers answer 200 and make the same change: one new record for a known email, none for an unknown one |
| Lifecycle.ResetRequestsDoNotRevealAccounts | accounts/views.py:127-215 | in valid stores each reset-request handler gives the same answer for every email, known or not |
| Lifecycle.IssuePreservesValid | accounts/views.py:140-144 | issuing with a fresh token keeps the store valid |
| Lifecycle.IssueKeepsEarlierTokens | accounts/views.py:140-144 | issuing does not retire earlier tokens: a token live before a request stays live after it |
| Lifecycle.IssuedTokenValidUntilExpiry | accounts/views.py:136-144 | a freshly issued token validates at every time before `now + 24h` and fails from then on |
| Lifecycle.ConfirmRedeems | accounts/views.py:238-250 | a successful reset sets the owner's new password and changes no other user; every record of the owner ends up used; every other record is untouched |
| Lifecycle.ConfirmIsSingleUse | accounts/views.py:243-254 | after a successful reset the same token is refused with "Invalid or expired token." at any later time, and the refusal changes nothing |
| Lifecycle.ValidAfterFlagChange | accounts/views.py:247-250 | changing only the used flags of reset records keeps the store valid |
| Lifecycle.ConfirmPreservesValid | accounts/views.py:237-250 | confirming keeps the store valid |
| Lifecycle.ConfirmThenLogin | accounts/views.py:238-240 | after a successful reset the owner logs in with the new password |
| Lifecycle.VerifyEmailOnce | accounts/views.py:69-75 | a pending token verifies its holder once; the same token is then refused and changes nothing |
| Lifecycle.VerifyEmailPreservesValid | accounts/views.py:69-72 | verification keeps the store valid |
| Lifecycle.RegisterPreservesValid | accounts/views.py:38-43 | registration with a fresh key and a fresh verification token keeps the store valid |
| Lifecycle.RegisterThenVerify | accounts/views.py:35-75 | a new registrant is unverified, has an empty profile, and becomes verified with the token issued at registration |
| Lifecycle.UpdateProfilePreservesValid | accounts/views.py:96-102 | a profile update keeps emails unique and the store valid |
| Lifecycle.ChangePasswordPreservesValid | accounts/views.py:105-119 | a password change keeps the store valid |
| Lifecycle.ChangePasswordThenLogin | accounts/views.py:112-119 | after a password change the requester logs in with the new password, and no longer with the old one |
| Lifecycle.LoginCarriesAccountFields | accounts/serializers.py:14-35 | a login with the right credentials carries claims `email`, `role`, `first_name` and `last_name`, and a `user` entry with exactly the id, email, role and names of the stored user |
| Permissions.OwnsThrough | accounts/permissions.py:11-17 | an object with a `user` attribute grants access exactly to that user, and refuses everyone when it is null; otherwise the owner of the restaurant or provider link decides, a null link raises, and an object with neither attribute is refused; access always needs a signed-in requester |
| Permissions.RestaurantHasObjectPermission | accounts/permissions.py:11-17 | the restaurant object check raises exactly when the object has no `user` attribute and a null `restaurant` link, and grants exactly to the user named by the `user` attribute, or, without one, by the restaurant's owner |
| Permissions.ProviderHasObjectPermission | accounts/permissions.py:27-33 | the provider object check raises exactly when the object has no `user` attribute and a null `provider` link, and grants exactly to the user named by the `user` attribute, or, without one, by the provider's owner |
| Permissions.RolePermissionsExclusive | accounts/permissions.py:8-25 | the request-level checks `RestaurantHasPermission` and `ProviderHasPermission` each admit exactly the signed-in users of their role, and no requester passes both |
| Permissions.DirectLinkDecidesForBoth | accounts/permissions.py:11-30 | on an object with a `user` attribute both permissions agree and never raise, whatever the other links are |
| Permissions.NullUserLinkRefuses | accounts/permissions.py:13-14 | a null `user` attribute refuses everyone, even the owner named by a restaurant or provider link |
| Permissions.NullRoleLinkRaises | accounts/permissions.py:15-16 | without a `user` attribute, a permission raises exactly when its own role link is null |
| Permissions.UnownedObjectsAreRefused | accounts/permissions.py:27-33 | an object with no ownership attribute is refused by both permissions |

Behaviour of the code worth knowing:

- Issuing a reset token does not retire the user's earlier tokens, so one user may hold several
  live tokens (`Lifecycle.IssueKeepsEarlierTokens`). Only a successful confirmation retires them.
- A password change through `change_password` leaves reset records untouched.
- The role choices are not enforced by the user manager, so `role` is a string. Only the form
  validation of registration and profile update checks it (`Views.CheckUserColumns`).

## Left out

- E-mail sending (`common/utils.py`) is left out. It has no effect on the store, and URL building for links is left out with it.
- Password hashing is abstracted: a password is stored as the secret itself, and checking it is equality of secrets.
- The password-strength validators and the email format checks are left out, so every password and every email passes them.
- Email normalisation is modelled as the identity.
- JWT signing and encoding are left out.
- UUID generation is left out: new user keys and tokens are parameters. The preservation lemmas require them to be fresh.
- Wall-clock time and time zones are left out: time is an integer count of seconds.
- Field-level form checks are modelled only where the store depends on them: blank email, duplicate email and role choice. Blank and length limits of other fields are left out. When several fields fail, only the first error is reported.
- Form cleaning is left out: handler inputs are the already-cleaned field values. The forms trim surrounding whitespace from character and email fields, and required fields are non-blank. The model compares and stores the values exactly as given.
- Views.ForgotPassword and Views.RequestPasswordReset: the reset-request form's own validation (a required, well-formed email, an optional URL) is not modelled, so a blank or malformed email is not refused with 400 here.
- Views.ChangePassword: requires the requester to be a stored user. Request authentication is framework code and is left out.
- Views.UpdateProfile: requires the requester to be a stored user, for the same reason.
- Views.Login: does not model the library's `is_active` check.
- Views.Login: only the user-id claim and the four custom claims are modelled. The library's token-type, expiry, issue-time and token-id claims are left out. So the model's refresh and access claims coincide (`Lifecycle.LoginCarriesAccountFields`), although the two tokens the library issues differ in those claims.
- The generic routes of the user view set are left out. `get_queryset` is modelled as `Views.VisibleUsers`, which bounds what they reach:
  - list and retrieve, and the `me` action, only read users;
  - update applies the same serializer update without the requester restriction of `update_profile`;
  - create saves a user row through the user serializer, without setting a password and without a profile row;
  - destroy deletes a user, and the cascading foreign keys delete that user's profile and reset records with it.
- Models.CreateUser: models only the extra fields `is_staff`, `is_superuser`, `first_name`, `last_name`, `role` and `phone`.
- Models.CreateSuperuser: flags are `Option<bool>`. A non-boolean value such as `1`, which Python's `is not True` also refuses, is not representable.
- The profile picture (a hosted-image field) is an opaque optional string.
- Timestamps (`created_at`, `updated_at`), database transactions and concurrent requests are left out.
- Routing and admin registration are left out because they contain no logic.
