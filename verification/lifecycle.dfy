/**
  Properties of the credential lifecycle that relate several requests: reset
  tokens are single-use and expire strictly, a reset touches only the owning
  user, the reset-request answer does not reveal whether an account exists,
  email verification works once, and every handler keeps the store valid.
*/
module Lifecycle {
  import opened Results
  import opened Models
  import opened Query
  import opened Database
  import opened Serializers
  import opened Views

  // ---------------------------------------------------------------- validation

  /** In a valid store the validation endpoint always answers 200 with the token's exact state. */
  lemma ValidationReflectsTokenState(st: Store, token: string, now: int)
    requires Valid(st)
    ensures ValidateResetToken(st, token, now) == Response(200, Validity(TokenRedeemable(st, token, now)))
  {
  }

  /** Expiry is strict: a record stops redeeming at exactly its expiry time. */
  lemma ExpiryIsStrict(st: Store, token: string, i: nat)
    requires Valid(st)
    requires i < |st.resets| && st.resets[i].token == token
    ensures !TokenRedeemable(st, token, st.resets[i].expiresAt)
    ensures ValidateResetToken(st, token, st.resets[i].expiresAt) == Response(200, Validity(false))
  {
  }

  // ---------------------------------------------------------------- issuing

  /** The store after a reset request for `email`, whichever of the two handlers served it. */
  lemma IssueEffect(st: Store, email: string, token: string, now: int)
    requires Valid(st)
    ensures var f := ForgotPassword(st, email, token, now);
            var q := RequestPasswordReset(st, email, token, now);
            f.store == q.store && f.response.status == 200 && q.response.status == 200
    ensures !EmailTaken(st, email) ==> ForgotPassword(st, email, token, now).store == st
    ensures EmailTaken(st, email) ==>
      exists id :: id in st.users && st.users[id].email == email &&
        ForgotPassword(st, email, token, now).store ==
          st.(resets := st.resets + [ResetRecord(id, token, false, now + ResetLifetime)])
  {
  }

  /**
    Neither reset-request handler reveals whether an account exists: in valid
    stores the answer is the same for any email, token and time.
  */
  lemma ResetRequestsDoNotRevealAccounts(
    st1: Store, email1: string, token1: string, now1: int,
    st2: Store, email2: string, token2: string, now2: int)
    requires Valid(st1) && Valid(st2)
    ensures ForgotPassword(st1, email1, token1, now1).response == ForgotPassword(st2, email2, token2, now2).response
    ensures RequestPasswordReset(st1, email1, token1, now1).response ==
            RequestPasswordReset(st2, email2, token2, now2).response
  {
  }

  /** Issuing with a fresh token keeps the store valid. */
  lemma IssuePreservesValid(st: Store, email: string, token: string, now: int)
    requires Valid(st)
    requires !ResetTokenIssued(st, token)
    ensures Valid(ForgotPassword(st, email, token, now).store)
    ensures Valid(RequestPasswordReset(st, email, token, now).store)
  {
  }

  /**
    Issuing does not retire the user's earlier tokens: any token that redeems
    before a new request still redeems after it, so one user may hold several
    live tokens until one of them is confirmed.
  */
  lemma IssueKeepsEarlierTokens(st: Store, email: string, token: string, now: int, earlier: string, later: int)
    requires Valid(st)
    requires TokenRedeemable(st, earlier, later)
    ensures TokenRedeemable(ForgotPassword(st, email, token, now).store, earlier, later)
    ensures TokenRedeemable(RequestPasswordReset(st, email, token, now).store, earlier, later)
  {
    IssueEffect(st, email, token, now);
    var st' := ForgotPassword(st, email, token, now).store;
    var i :| 0 <= i < |st.resets| && Redeemable(st.resets[i], earlier, later);
    assert st'.resets[i] == st.resets[i];
  }

  /**
    A freshly issued token is accepted by the validation endpoint at every
    time before `now + ResetLifetime` and refused from that moment on.
  */
  lemma IssuedTokenValidUntilExpiry(st: Store, email: string, token: string, now: int, later: int)
    requires Valid(st)
    requires EmailTaken(st, email) && !ResetTokenIssued(st, token)
    ensures ValidateResetToken(ForgotPassword(st, email, token, now).store, token, later) ==
            Response(200, Validity(later < now + ResetLifetime))
  {
  }

  // ---------------------------------------------------------------- confirming

  /**
    A successful reset: the owner of the redeemed record gets the new password,
    no other user changes, every record of the owner ends up used, and every
    other record is left as it was.
  */
  lemma ConfirmRedeems(st: Store, token: string, data: ResetConfirmData, now: int, i: nat)
    requires Valid(st)
    requires data.newPassword == data.confirmPassword
    requires i < |st.resets| && Redeemable(st.resets[i], token, now)
    ensures ConfirmReset(st, token, data, now).response.status == 200
    ensures ConfirmReset(st, token, data, now).store.users ==
            st.users[st.resets[i].user := st.users[st.resets[i].user].(password := Some(data.newPassword))]
    ensures forall k :: 0 <= k < |st.resets| && st.resets[k].user == st.resets[i].user ==>
              ConfirmReset(st, token, data, now).store.resets[k].isUsed
    ensures forall k :: 0 <= k < |st.resets| && st.resets[k].user != st.resets[i].user ==>
              ConfirmReset(st, token, data, now).store.resets[k] == st.resets[k]
    ensures forall k :: 0 <= k < |st.resets| ==>
              ConfirmReset(st, token, data, now).store.resets[k] ==
              st.resets[k].(isUsed := ConfirmReset(st, token, data, now).store.resets[k].isUsed)
  {
  }

  /**
    A reset token is single-use: once a confirmation has succeeded, any later
    confirmation with the same token, at any time, is refused and changes nothing.
  */
  lemma ConfirmIsSingleUse(st: Store, token: string, data: ResetConfirmData, now: int,
                           again: ResetConfirmData, later: int)
    requires Valid(st)
    requires ConfirmReset(st, token, data, now).response.status == 200
    requires again.newPassword == again.confirmPassword
    ensures var st' := ConfirmReset(st, token, data, now).store;
            ConfirmReset(st', token, again, later) == Step(st', Response(400, Error(InvalidResetMessage)))
  {
    var i :| 0 <= i < |st.resets| && Redeemable(st.resets[i], token, now);
    ConfirmRedeems(st, token, data, now, i);
    var st' := ConfirmReset(st, token, data, now).store;
    forall k | 0 <= k < |st'.resets| && st'.resets[k].token == token
      ensures k == i
    {
      assert st.resets[k].token == st.resets[i].token;
    }
    assert !TokenRedeemable(st', token, later);
  }

  /**
    Writing one user row keeps the store valid when the row sits under its own
    key and neither its email nor its pending token is held by another user.
  */
  lemma ValidAfterUserWrite(st: Store, id: UserId, u: User)
    requires Valid(st)
    requires u.id == id
    requires forall other :: other in st.users && other != id ==> st.users[other].email != u.email
    requires forall other :: other in st.users && other != id ==> !SharePendingToken(u, st.users[other])
    ensures Valid(st.(users := st.users[id := u]))
  {
  }

  /** Changing only the used flags of the reset records keeps the store valid. */
  lemma ValidAfterFlagChange(st: Store, resets: seq<ResetRecord>)
    requires Valid(st)
    requires |resets| == |st.resets|
    requires forall k :: 0 <= k < |resets| ==> resets[k] == st.resets[k].(isUsed := resets[k].isUsed)
    ensures Valid(st.(resets := resets))
  {
    assert forall k :: 0 <= k < |resets| ==> resets[k].token == st.resets[k].token && resets[k].user == st.resets[k].user;
  }

  /** Confirming keeps the store valid. */
  lemma ConfirmPreservesValid(st: Store, token: string, data: ResetConfirmData, now: int)
    requires Valid(st)
    ensures Valid(ConfirmReset(st, token, data, now).store)
  {
    var r := ConfirmReset(st, token, data, now);
    if r.response.status == 200 {
      var i :| 0 <= i < |st.resets| && Redeemable(st.resets[i], token, now);
      ConfirmRedeems(st, token, data, now, i);
      var owner := st.resets[i].user;
      var u := st.users[owner].(password := Some(data.newPassword));
      ValidAfterUserWrite(st, owner, u);
      var written := st.(users := st.users[owner := u]);
      assert r.store == written.(resets := r.store.resets);
      ValidAfterFlagChange(written, r.store.resets);
    }
  }

  /** After a successful reset the owner logs in with the new password. */
  lemma ConfirmThenLogin(st: Store, token: string, data: ResetConfirmData, now: int, i: nat)
    requires Valid(st)
    requires data.newPassword == data.confirmPassword
    requires i < |st.resets| && Redeemable(st.resets[i], token, now)
    ensures var st' := ConfirmReset(st, token, data, now).store;
            var owner := st.users[st.resets[i].user];
            Login(st', owner.email, data.newPassword).status == 200
  {
    ConfirmRedeems(st, token, data, now, i);
    ConfirmPreservesValid(st, token, data, now);
  }

  // ---------------------------------------------------------------- email verification

  /**
    Verification works once: a pending token verifies its holder and is
    cleared, so the same token is refused the second time.
  */
  lemma VerifyEmailOnce(st: Store, token: string)
    requires Valid(st)
    requires VerificationTokenIssued(st, token)
    ensures VerifyEmail(st, token).response.status == 200
    ensures var st' := VerifyEmail(st, token).store;
            VerifyEmail(st', token) == Step(st', Response(400, Error(InvalidVerificationMessage)))
  {
  }

  /** Verification keeps the store valid. */
  lemma VerifyEmailPreservesValid(st: Store, token: string)
    requires Valid(st)
    ensures Valid(VerifyEmail(st, token).store)
  {
  }

  // ---------------------------------------------------------------- registration, profile, password

  /** Registration with a fresh key and a fresh verification token keeps the store valid. */
  lemma RegisterPreservesValid(st: Store, data: RegisterData, id: UserId, verificationToken: string)
    requires Valid(st)
    requires id !in st.users && !VerificationTokenIssued(st, verificationToken)
    ensures Valid(Register(st, data, id, verificationToken).store)
  {
    var r := Register(st, data, id, verificationToken);
    if r.response.status == 201 {
      var created := CreateRegistered(id, data);
      var u := created.value.(verificationToken := Some(verificationToken));
      assert r.store == st.(users := st.users[id := u]);
      ValidAfterUserWrite(st, id, u);
    }
  }

  /** A successful registration leaves a single unverified user holding the verification token. */
  lemma RegisterThenVerify(st: Store, data: RegisterData, id: UserId, verificationToken: string)
    requires Valid(st)
    requires id !in st.users && !VerificationTokenIssued(st, verificationToken)
    requires Register(st, data, id, verificationToken).response.status == 201
    ensures var st' := Register(st, data, id, verificationToken).store;
            && !st'.users[id].isEmailVerified
            && st'.users[id].profile == Some(EmptyProfile)
            && VerifyEmail(st', verificationToken).response.status == 200
            && VerifyEmail(st', verificationToken).store.users[id].isEmailVerified
  {
  }

  /** A profile update that passes validation keeps the store valid. */
  lemma UpdateProfilePreservesValid(st: Store, requester: UserId, patch: UserPatch)
    requires Valid(st) && requester in st.users
    ensures Valid(UpdateProfile(st, requester, patch).store)
  {
  }

  /** A password change keeps the store valid. */
  lemma ChangePasswordPreservesValid(st: Store, requester: UserId, data: PasswordChangeData)
    requires Valid(st) && requester in st.users
    ensures Valid(ChangePassword(st, requester, data).store)
  {
  }

  /**
    After a successful password change the requester logs in with the new
    password and no longer with the old one, if it differs.
  */
  lemma ChangePasswordThenLogin(st: Store, requester: UserId, data: PasswordChangeData)
    requires Valid(st) && requester in st.users
    requires ChangePassword(st, requester, data).response.status == 200
    ensures var st' := ChangePassword(st, requester, data).store;
            var email := st.users[requester].email;
            && Login(st', email, data.newPassword).status == 200
            && (data.currentPassword != data.newPassword ==> Login(st', email, data.currentPassword).status == 401)
  {
  }

  // ---------------------------------------------------------------- login

  /**
    A login with the right credentials answers with tokens whose custom claims,
    and whose user entry, are exactly the stored user's fields.
  */
  lemma LoginCarriesAccountFields(st: Store, id: UserId, password: Secret)
    requires Valid(st) && id in st.users
    requires CheckPassword(st.users[id], password)
    ensures var u := st.users[id];
            var r := Login(st, u.email, password);
            && r.status == 200
            && r.body.payload.user == UserSummary(u.id, u.email, u.role, u.firstName, u.lastName)
            && r.body.payload.access == Claims(u.id, u.email, u.role, u.firstName, u.lastName)
            && r.body.payload.refresh == r.body.payload.access
  {
  }
}
