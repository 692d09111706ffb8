/**
  The persistent state the account views read and write: the user table
  (keyed by primary key, profile rows folded into their user) and the table
  of password-reset records, together with the queries the views run on them.
*/
module Database {
  import opened Results
  import opened Models
  import opened Query

  datatype Store = Store(users: map<UserId, User>, resets: seq<ResetRecord>)

  /**
    The integrity the database and the generators maintain: every user sits
    under its own key, emails are unique (a unique column), pending
    verification tokens and reset tokens are unique (fresh UUIDs), and every
    reset record refers to an existing user (a foreign key).
  */
  ghost predicate Valid(st: Store) {
    && KeyedById(st.users)
    && UniqueEmails(st.users)
    && UniquePendingTokens(st.users)
    && ResetOwnersExist(st)
    && UniqueResetTokens(st.resets)
  }

  ghost predicate KeyedById(users: map<UserId, User>) {
    forall id :: id in users ==> users[id].id == id
  }

  ghost predicate UniqueEmails(users: map<UserId, User>) {
    forall a, b :: a in users && b in users && users[a].email == users[b].email ==> a == b
  }

  ghost predicate UniquePendingTokens(users: map<UserId, User>) {
    forall a, b :: a in users && b in users && SharePendingToken(users[a], users[b]) ==> a == b
  }

  ghost predicate ResetOwnersExist(st: Store) {
    forall i :: 0 <= i < |st.resets| ==> st.resets[i].user in st.users
  }

  ghost predicate UniqueResetTokens(resets: seq<ResetRecord>) {
    forall i, j :: 0 <= i < j < |resets| ==> resets[i].token != resets[j].token
  }

  /** Whether two users hold the same pending verification token. */
  predicate SharePendingToken(u: User, v: User) {
    u.verificationToken.Some? && u.verificationToken == v.verificationToken
  }

  /** Whether some user already has `email`. */
  predicate EmailTaken(st: Store, email: string) {
    exists id :: id in st.users && st.users[id].email == email
  }

  /** Whether `token` is one of the recorded reset tokens. */
  predicate ResetTokenIssued(st: Store, token: string) {
    exists i :: 0 <= i < |st.resets| && st.resets[i].token == token
  }

  /** Whether `token` is some user's pending verification token. */
  predicate VerificationTokenIssued(st: Store, token: string) {
    exists id :: id in st.users && st.users[id].verificationToken == Some(token)
  }

  /** The user lookup by email. */
  function UserWithEmail(st: Store, email: string): (r: Lookup<UserId>)
    ensures r.NotFound? <==> !EmailTaken(st, email)
    ensures r.Found? ==> r.key in st.users && st.users[r.key].email == email
    ensures Valid(st) ==> !r.Multiple?
  {
    GetKey(st.users, (u: User) => u.email == email)
  }

  /** The user lookup by pending verification token. */
  function UserWithVerificationToken(st: Store, token: string): (r: Lookup<UserId>)
    ensures r.NotFound? <==> !VerificationTokenIssued(st, token)
    ensures r.Found? ==> r.key in st.users && st.users[r.key].verificationToken == Some(token)
    ensures Valid(st) ==> !r.Multiple?
  {
    GetKey(st.users, (u: User) => u.verificationToken == Some(token))
  }

  /** A reset record that still opens a reset at time `now`: right token, unused, strictly before expiry. */
  predicate Redeemable(r: ResetRecord, token: string, now: int) {
    r.token == token && !r.isUsed && now < r.expiresAt
  }

  /** Whether some record redeems `token` at time `now`. */
  predicate TokenRedeemable(st: Store, token: string, now: int) {
    exists i :: 0 <= i < |st.resets| && Redeemable(st.resets[i], token, now)
  }

  /** The reset lookup by token, unused, not yet expired. */
  function RedeemableReset(st: Store, token: string, now: int): (r: Lookup<nat>)
    ensures r.NotFound? <==> !TokenRedeemable(st, token, now)
    ensures r.Found? ==> r.key < |st.resets| && Redeemable(st.resets[r.key], token, now)
    ensures Valid(st) ==> !r.Multiple?
  {
    GetIndex(st.resets, (rec: ResetRecord) => Redeemable(rec, token, now))
  }

  /**
    The bulk update that marks every unused reset record of `user` as used.
    Only the used flag of that user's records can change.
  */
  function RetireResetsOf(resets: seq<ResetRecord>, user: UserId): (r: seq<ResetRecord>)
    ensures |r| == |resets|
    ensures forall i :: 0 <= i < |r| ==> r[i] == resets[i].(isUsed := r[i].isUsed)
    ensures forall i :: 0 <= i < |r| ==> (r[i].isUsed <==> resets[i].isUsed || resets[i].user == user)
    decreases |resets|
  {
    if |resets| == 0 then []
    else
      var head := resets[0];
      var head' := if head.user == user && !head.isUsed then head.(isUsed := true) else head;
      [head'] + RetireResetsOf(resets[1..], user)
  }
}
