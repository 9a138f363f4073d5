/** The profile page: renaming the signed-in account (first its authentication profile, then its
    `users` document) and signing out. */
module Profile {
  import opened Wrappers
  import opened Types
  import opened DocStore

  /** The guard of `handleProfileUpdate`: someone is signed in and the field holds a new, non-empty name. */
  predicate ShouldUpdateProfile(user: Option<User>, displayName: string) {
    user.Some? && displayName != "" && Some(displayName) != user.value.displayName
  }

  datatype UpdateOutcome =
    | NoChange            // the guard returns before any write
    | Updated             // "Success!"
    | AuthUpdateFailed    // "Update Failed": `updateProfile` rejected
    | UserDocMissing      // "Update Failed": there is no `users` document to update
    | DocUpdateRejected   // "Update Failed": the store rejected the document update
    | AccountMissing      // "Update Failed": the authentication service has no current account

  /** The display names after an update: in the authentication profiles and in the `users` documents. */
  datatype ProfileWrite = ProfileWrite(displayNames: map<string, string>, users: map<string, string>, outcome: UpdateOutcome)

  /** What `handleProfileUpdate` leaves behind. `authOk` is whether `updateProfile` succeeds and
      `docOk` whether the store accepts the document update, which also fails when there is no
      `users` document for the account. */
  function PlanProfileUpdate(displayNames: map<string, string>, users: map<string, string>,
                             user: Option<User>, displayName: string, authOk: bool, docOk: bool): ProfileWrite
  {
    if !ShouldUpdateProfile(user, displayName) then ProfileWrite(displayNames, users, NoChange)
    else if !authOk then ProfileWrite(displayNames, users, AuthUpdateFailed)
    else
      var uid := user.value.uid;
      var renamed := displayNames[uid := displayName];
      if uid !in users then ProfileWrite(renamed, users, UserDocMissing)
      else if !docOk then ProfileWrite(renamed, users, DocUpdateRejected)
      else ProfileWrite(renamed, users[uid := displayName], Updated)
  }

  /** Each outcome and its cause; the account is never reported missing on this page. */
  lemma ProfileOutcomes(displayNames: map<string, string>, users: map<string, string>,
                        user: Option<User>, displayName: string, authOk: bool, docOk: bool)
    ensures var w := PlanProfileUpdate(displayNames, users, user, displayName, authOk, docOk);
      && (w.outcome == NoChange <==> !ShouldUpdateProfile(user, displayName))
      && (w.outcome == AuthUpdateFailed <==> ShouldUpdateProfile(user, displayName) && !authOk)
      && (w.outcome == Updated <==> ShouldUpdateProfile(user, displayName) && authOk && user.value.uid in users && docOk)
      && (w.outcome == UserDocMissing <==> ShouldUpdateProfile(user, displayName) && authOk && user.value.uid !in users)
      && (w.outcome == DocUpdateRejected <==>
            ShouldUpdateProfile(user, displayName) && authOk && user.value.uid in users && !docOk)
      && w.outcome != AccountMissing
  {
  }

  /** Nothing is written unless the outcome says so; a success leaves both stores holding the new
      name for the account and every other entry as it was. */
  lemma ProfileWrites(displayNames: map<string, string>, users: map<string, string>,
                      user: Option<User>, displayName: string, authOk: bool, docOk: bool)
    ensures var w := PlanProfileUpdate(displayNames, users, user, displayName, authOk, docOk);
      && (w.outcome in {NoChange, AuthUpdateFailed} ==> w.displayNames == displayNames && w.users == users)
      && (w.outcome == Updated ==>
            && w.displayNames == displayNames[user.value.uid := displayName]
            && w.users[user.value.uid] == displayName
            && (forall k :: k in users && k != user.value.uid ==> k in w.users && w.users[k] == users[k])
            && w.users.Keys == users.Keys)
  {
  }

  /** The document is renamed only after the profile is; when the document update fails the profile
      keeps the new name anyway, so the two stores disagree. */
  lemma ProfileWriteIsNotAtomic(displayNames: map<string, string>, users: map<string, string>,
                                user: Option<User>, displayName: string, authOk: bool, docOk: bool)
    ensures var w := PlanProfileUpdate(displayNames, users, user, displayName, authOk, docOk);
      && (w.users != users ==> authOk && user.Some? && w.displayNames == displayNames[user.value.uid := displayName])
      && (w.outcome in {UserDocMissing, DocUpdateRejected} ==>
            w.displayNames[user.value.uid] == displayName && w.users == users)
  {
  }

  /** Submitting the same name again, once the account carries it, writes nothing. */
  lemma ResubmitIsNoChange(displayNames: map<string, string>, users: map<string, string>,
                           u: User, displayName: string, authOk: bool, docOk: bool)
    ensures PlanProfileUpdate(displayNames, users, Some(u.(displayName := Some(displayName))), displayName, authOk, docOk).outcome == NoChange
  {
  }

  /** `handleProfileUpdate` on the profile page: rename the account's authentication profile, then its `users` document. */
  method HandleProfileUpdate(auth: Auth, db: Store, user: Option<User>, displayName: string, authOk: bool, docOk: bool)
    returns (outcome: UpdateOutcome)
    modifies auth, db
    ensures var w := PlanProfileUpdate(old(auth.displayNames), old(db.users), user, displayName, authOk, docOk);
      && outcome == w.outcome
      && auth.displayNames == w.displayNames && db.users == w.users
      && auth.currentUser == old(auth.currentUser)
      && db.bookings == old(db.bookings) && db.posts == old(db.posts)
      && db.teams == old(db.teams) && db.members == old(db.members)
  {
    if !ShouldUpdateProfile(user, displayName) {
      return NoChange;
    }
    if !authOk {
      return AuthUpdateFailed;
    }
    auth.UpdateProfile(user.value.uid, displayName);
    var found := user.value.uid in db.users;
    var written := db.UpdateUserName(user.value.uid, displayName, docOk);
    outcome := if written then Updated else if found then DocUpdateRejected else UserDocMissing;
  }

  /** `handleLogout`: on success nobody is signed in and the page moves to the login route. */
  method HandleLogout(auth: Auth, signOutOk: bool) returns (redirect: Option<string>)
    modifies auth
    ensures signOutOk ==> redirect == Some("/login") && auth.currentUser.None?
    ensures !signOutOk ==> redirect.None? && auth.currentUser == old(auth.currentUser)
    ensures auth.displayNames == old(auth.displayNames)
  {
    if !signOutOk {
      return None;
    }
    auth.SignOut();
    redirect := Some("/login");
  }
}
