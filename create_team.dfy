/** The create-team dialog: its form, the AI name suggestions, and the transaction that writes a
    team document together with the creator's member document. */
module CreateTeam {
  import opened Wrappers
  import opened Types
  import opened DocStore
  import opened Text
  import opened BookingSheet

  /** The form schema: a name of 3 to 50 UTF-16 code units (zod's `min` and `max` compare `length`)
      and a chosen sport. */
  predicate TeamFormOk(name: string, sport: string) {
    3 <= Utf16Length(name) <= 50 && |sport| >= 1
  }

  datatype TeamError = InvalidTeamForm | NotSignedIn | TeamTransactionFailed

  /** The two documents the transaction writes. */
  datatype TeamPlan = TeamPlan(team: Team, member: TeamMember)

  /** What `onSubmit` decides to write, before the transaction runs; `teamId` is the fresh document id. */
  function PlanTeam(user: Option<User>, name: string, sport: string, teamId: string, serverTime: int): Result<TeamPlan, TeamError> {
    if !TeamFormOk(name, sport) then Err(InvalidTeamForm)
    else if user.None? then Err(NotSignedIn)
    else
      var u := user.value;
      Ok(TeamPlan(Team(teamId, name, sport, [u.uid], serverTime, None),
                  TeamMember(u.uid, u.displayName, u.email, u.photoURL, serverTime)))
  }

  /** Invalid forms are refused first, then a missing user; nothing else is refused before the transaction. */
  lemma PlanTeamRejects(user: Option<User>, name: string, sport: string, teamId: string, serverTime: int)
    ensures PlanTeam(user, name, sport, teamId, serverTime) == Err(InvalidTeamForm) <==> !TeamFormOk(name, sport)
    ensures PlanTeam(user, name, sport, teamId, serverTime) == Err(NotSignedIn) <==> TeamFormOk(name, sport) && user.None?
    ensures PlanTeam(user, name, sport, teamId, serverTime) != Err(TeamTransactionFailed)
  {
  }

  /** The name's length is counted in UTF-16 code units: two basketball emoji are four units, enough
      for a team name, while a name of 26 of them is too long although it has only 26 characters. */
  lemma NameLengthInCodeUnits(u: User, teamId: string, serverTime: int)
    ensures Utf16Length("\U{1F3C0}\U{1F3C0}") == 4
    ensures PlanTeam(Some(u), "\U{1F3C0}\U{1F3C0}", "Basketball", teamId, serverTime).Ok?
    ensures PlanTeam(Some(u), seq(26, _ => '\U{1F3C0}'), "Basketball", teamId, serverTime) == Err(InvalidTeamForm)
  {
    var balls := seq(26, _ => '\U{1F3C0}');
    assert forall k :: 0 <= k < |balls| ==> balls[k] as int >= 0x1_0000;
  }

  /** The creator is the new team's only admin and its first member, with the profile fields copied as they are. */
  lemma PlanTeamMakesCreatorAdmin(u: User, name: string, sport: string, teamId: string, serverTime: int)
    requires TeamFormOk(name, sport)
    ensures var r := PlanTeam(Some(u), name, sport, teamId, serverTime);
      && r.Ok?
      && r.value.team.id == teamId && r.value.team.name == name && r.value.team.sport == sport
      && r.value.team.adminIds == [u.uid]
      && r.value.team.IsAdmin(u.uid)
      && (forall v :: r.value.team.IsAdmin(v) ==> v == u.uid)
      && r.value.team.memberCount.None?
      && r.value.member.uid == u.uid
      && r.value.member.displayName == u.displayName
      && r.value.member.email == u.email
      && r.value.member.photoURL == u.photoURL
  {
  }

  /** Appending a member document to the store extends that team's roster by one member, and no other roster. */
  lemma {:induction false} RosterAppend(docs: seq<MemberDoc>, d: MemberDoc, teamId: string)
    ensures RosterOf(docs + [d], teamId) == RosterOf(docs, teamId) + (if d.teamId == teamId then [d.member] else [])
  {
    if docs == [] {
      assert docs + [d] == [d];
    } else {
      assert (docs + [d])[1..] == docs[1..] + [d];
      RosterAppend(docs[1..], d, teamId);
    }
  }

  /** A roster whose team id no member document carries is empty. */
  lemma EmptyRoster(docs: seq<MemberDoc>, teamId: string)
    requires forall d :: d in docs ==> d.teamId != teamId
    ensures RosterOf(docs, teamId) == []
  {
  }

  /** After the commit, a team with a fresh id has exactly the creator as its roster, and the team
      is among the creator's teams as the booking sheet lists them. */
  lemma CommittedTeamIsTheCreators(teams: seq<Team>, docs: seq<MemberDoc>, t: Team, m: TeamMember)
    requires forall x :: x in teams ==> x.id != t.id
    requires forall d :: d in docs ==> d.teamId != t.id
    ensures RosterOf(docs + [MemberDoc(t.id, m)], t.id) == [m]
    ensures t in TeamsOf(MemberDocsOf(docs + [MemberDoc(t.id, m)], m.uid), teams + [t])
  {
    RosterAppend(docs, MemberDoc(t.id, m), t.id);
    EmptyRoster(docs, t.id);
    var r := FindTeam(teams + [t], t.id);
    assert r.Some? by {
      assert t in teams + [t];
    }
    assert r == Some(t);
    UserTeamsMeaning(docs + [MemberDoc(t.id, m)], teams + [t], m.uid);
    assert MemberDoc(t.id, m) in docs + [MemberDoc(t.id, m)];
  }

  /** The dialog's state: the two form fields and the current name suggestions. */
  class TeamDialog {
    var name: string
    var sport: string
    var nameSuggestions: seq<string>

    /** The form's default values. */
    constructor ()
      ensures name == "" && sport == "" && nameSuggestions == []
    {
      name, sport, nameSuggestions := "", "", [];
    }

    /** `applySuggestion`: take the suggested name and clear the suggestions. */
    method ApplySuggestion(suggestion: string)
      modifies this
      ensures name == suggestion && nameSuggestions == [] && sport == old(sport)
    {
      name := suggestion;
      nameSuggestions := [];
    }

    /** `handleSuggestNames`: without a sport nothing is asked; otherwise the suggestions are cleared
        and replaced by the flow's names, or stay empty when the flow fails (`aiResult` is `None`). */
    method HandleSuggestNames(aiResult: Option<seq<string>>) returns (asked: bool)
      modifies this
      ensures asked <==> old(sport) != ""
      ensures !asked ==> nameSuggestions == old(nameSuggestions)
      ensures asked ==> nameSuggestions == (if aiResult.Some? then aiResult.value else [])
      ensures name == old(name) && sport == old(sport)
    {
      if sport == "" {
        return false;
      }
      nameSuggestions := [];
      if aiResult.Some? {
        nameSuggestions := aiResult.value;
      }
      asked := true;
    }

    /** `onSubmit`: write the team and the creator's member document in one transaction, then reset
        the form. `teamId` is the fresh document id and `commitOk` whether the transaction commits. */
    method OnSubmit(db: Store, user: Option<User>, teamId: string, serverTime: int, commitOk: bool)
      returns (r: Result<Team, TeamError>)
      modifies this, db
      ensures var plan := PlanTeam(user, old(name), old(sport), teamId, serverTime);
        && (plan.Err? ==> r == Err(plan.error) && unchanged(db) && unchanged(this))
        && (plan.Ok? && !commitOk ==> r == Err(TeamTransactionFailed) && unchanged(db) && unchanged(this))
        && (plan.Ok? && commitOk ==>
              && r == Ok(plan.value.team)
              && db.teams == old(db.teams) + [plan.value.team]
              && db.members == old(db.members) + [MemberDoc(teamId, plan.value.member)]
              && db.bookings == old(db.bookings) && db.posts == old(db.posts) && db.users == old(db.users)
              && name == "" && sport == "" && nameSuggestions == old(nameSuggestions))
    {
      if !TeamFormOk(name, sport) {
        return Err(InvalidTeamForm);
      }
      if user.None? {
        return Err(NotSignedIn);
      }
      if !commitOk {
        return Err(TeamTransactionFailed);
      }
      var u := user.value;
      var team := Team(teamId, name, sport, [u.uid], serverTime, None);
      var member := TeamMember(u.uid, u.displayName, u.email, u.photoURL, serverTime);
      db.CommitTeam(team, member);
      name, sport := "", "";
      r := Ok(team);
    }
  }
}
