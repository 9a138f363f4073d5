/** The dashboard's profile page. Its rename differs from the profile page's: it renames the
    authentication service's current account, failing first when there is none, while the `users`
    document it renames is still the one of the account the page was rendered for. */
module DashboardProfile {
  import opened Wrappers
  import opened Types
  import opened DocStore
  import opened Profile

  /** What this page's `handleProfileUpdate` leaves behind; `currentUser` is `auth.currentUser`. */
  function PlanDashboardProfileUpdate(currentUser: Option<string>, displayNames: map<string, string>,
                                      users: map<string, string>, user: Option<User>, displayName: string,
                                      authOk: bool, docOk: bool): ProfileWrite
  {
    if !ShouldUpdateProfile(user, displayName) then ProfileWrite(displayNames, users, NoChange)
    else if currentUser.None? then ProfileWrite(displayNames, users, AccountMissing)
    else if !authOk then ProfileWrite(displayNames, users, AuthUpdateFailed)
    else
      var uid := user.value.uid;
      var renamed := displayNames[currentUser.value := displayName];
      if uid !in users then ProfileWrite(renamed, users, UserDocMissing)
      else if !docOk then ProfileWrite(renamed, users, DocUpdateRejected)
      else ProfileWrite(renamed, users[uid := displayName], Updated)
  }

  /** With no current account nothing is written; when the current account is the page's account,
      this page does exactly what the profile page does. */
  lemma DashboardMatchesProfilePage(currentUser: Option<string>, displayNames: map<string, string>,
                                    users: map<string, string>, user: Option<User>, displayName: string,
                                    authOk: bool, docOk: bool)
    ensures currentUser.None? ==>
      var w := PlanDashboardProfileUpdate(currentUser, displayNames, users, user, displayName, authOk, docOk);
      w.displayNames == displayNames && w.users == users &&
      (w.outcome == AccountMissing <==> ShouldUpdateProfile(user, displayName))
    ensures user.Some? && currentUser == Some(user.value.uid) ==>
      PlanDashboardProfileUpdate(currentUser, displayNames, users, user, displayName, authOk, docOk) ==
      PlanProfileUpdate(displayNames, users, user, displayName, authOk, docOk)
  {
  }

  /** When the current account is another one, it is that account that gets the new name while the
      page's account's `users` document is renamed. */
  lemma DashboardRenamesCurrentAccount(current: string, displayNames: map<string, string>,
                                       users: map<string, string>, u: User, displayName: string)
    requires current != u.uid && u.uid in users
    requires ShouldUpdateProfile(Some(u), displayName)
    ensures var w := PlanDashboardProfileUpdate(Some(current), displayNames, users, Some(u), displayName, true, true);
      && w.outcome == Updated
      && w.displayNames == displayNames[current := displayName]
      && w.users[u.uid] == displayName
      && (u.uid in displayNames ==> w.displayNames[u.uid] == displayNames[u.uid])
  {
  }

  /** `handleProfileUpdate` on the dashboard's profile page. */
  method HandleProfileUpdate(auth: Auth, db: Store, user: Option<User>, displayName: string, authOk: bool, docOk: bool)
    returns (outcome: UpdateOutcome)
    modifies auth, db
    ensures var w := PlanDashboardProfileUpdate(old(auth.currentUser), old(auth.displayNames), old(db.users),
                                                user, displayName, authOk, docOk);
      && outcome == w.outcome
      && auth.displayNames == w.displayNames && db.users == w.users
      && auth.currentUser == old(auth.currentUser)
      && db.bookings == old(db.bookings) && db.posts == old(db.posts)
      && db.teams == old(db.teams) && db.members == old(db.members)
  {
    if !ShouldUpdateProfile(user, displayName) {
      return NoChange;
    }
    if auth.currentUser.None? {
      return AccountMissing;
    }
    if !authOk {
      return AuthUpdateFailed;
    }
    auth.UpdateProfile(auth.currentUser.value, displayName);
    var found := user.value.uid in db.users;
    var written := db.UpdateUserName(user.value.uid, displayName, docOk);
    outcome := if written then Updated else if found then DocUpdateRejected else UserDocMissing;
  }
}
