/** The booking sheet: which hourly slots are offered, whether a facility is multiplayer,
    how a submitted form becomes a booking and (for multiplayer games) an Interest Hub post,
    and which of the user's teams may book. */
module BookingSheet {
  import opened Wrappers
  import opened Types
  import opened Seqs
  import opened Text
  import opened Catalog
  import opened DocStore

  // ---------------------------------------------------------------- slots

  /** `allTimeSlots`, by hour of the day: 15 hourly slots. */
  function AllTimeSlots(): seq<int> {
    seq(15, i => 7 + i)
  }

  /** The slots start at 07:00, end with 21:00 and ascend one hour at a time. */
  lemma AllTimeSlotsSpan()
    ensures |AllTimeSlots()| == 15
    ensures AllTimeSlots()[0] == 7 && AllTimeSlots()[14] == 21
    ensures Ordered(AllTimeSlots(), (a: int, b: int) => a < b)
    ensures forall h :: h in AllTimeSlots() <==> 7 <= h <= 21
  {
    var s := AllTimeSlots();
    forall h | 7 <= h <= 21 ensures h in s {
      assert s[h - 7] == h;
    }
  }

  /** The last minute the availability query still counts as the selected day (`dayStart` plus 23 h 59 min). */
  function DayEnd(dayStart: int): int {
    dayStart + 23 * MsPerHour + 59 * MsPerMinute
  }

  /** The availability query: bookings of the facility starting within the day. Status is not filtered. */
  function DayBookings(bookings: seq<Booking>, facilityId: string, dayStart: int): seq<Booking> {
    Filter(bookings, (b: Booking) => b.facilityId == facilityId && dayStart <= b.startTime <= DayEnd(dayStart))
  }

  /** `bookedHours`: the hour of each returned booking's start. */
  function BookedHours(q: seq<Booking>): seq<int> {
    seq(|q|, k requires 0 <= k < |q| => GetHours(q[k].startTime))
  }

  /** The filter behind `availableSlots`: a slot hour survives when no returned booking starts at
      that hour and `now` is before the slot on the selected day. */
  function AvailableSlots(bookings: seq<Booking>, facilityId: string, date: int, now: int): seq<int> {
    var dayStart := StartOfDay(date);
    var booked := BookedHours(DayBookings(bookings, facilityId, dayStart));
    Filter(AllTimeSlots(), (h: int) => h !in booked && now < SetHours(dayStart, h))
  }

  /** No booking of the facility on that day, of any status, starts in hour `h`. */
  ghost predicate HourFree(bookings: seq<Booking>, facilityId: string, dayStart: int, h: int) {
    forall b :: b in bookings && b.facilityId == facilityId && dayStart <= b.startTime <= DayEnd(dayStart)
      ==> GetHours(b.startTime) != h
  }

  lemma BookedHoursMeaning(q: seq<Booking>, h: int)
    ensures h in BookedHours(q) <==> exists b :: b in q && GetHours(b.startTime) == h
  {
    var booked := BookedHours(q);
    if h in booked {
      var k :| 0 <= k < |booked| && booked[k] == h;
      assert q[k] in q;
    }
    if exists b :: b in q && GetHours(b.startTime) == h {
      var b :| b in q && GetHours(b.startTime) == h;
      var k :| 0 <= k < |q| && q[k] == b;
      assert booked[k] == h;
    }
  }

  /** The offered slots are exactly the hours 7..21 that no booking of the facility on that day
      occupies, whatever its status, and that start strictly after `now`; they keep the ascending
      order of the slot universe. */
  lemma {:induction false} AvailableSlotsSpec(bookings: seq<Booking>, facilityId: string, date: int, now: int)
    ensures IsSublist(AvailableSlots(bookings, facilityId, date, now), AllTimeSlots())
    ensures Ordered(AvailableSlots(bookings, facilityId, date, now), (a: int, b: int) => a < b)
    ensures forall h :: h in AvailableSlots(bookings, facilityId, date, now) <==>
      7 <= h <= 21 && HourFree(bookings, facilityId, StartOfDay(date), h) && now < StartOfDay(date) + h * MsPerHour
  {
    var dayStart := StartOfDay(date);
    var q := DayBookings(bookings, facilityId, dayStart);
    var r := AvailableSlots(bookings, facilityId, date, now);
    AllTimeSlotsSpan();
    SublistKeepsOrder(r, AllTimeSlots(), (a: int, b: int) => a < b);
    forall h | 7 <= h <= 21
      ensures h in r <==> HourFree(bookings, facilityId, dayStart, h) && now < dayStart + h * MsPerHour
    {
      SetHoursOfMidnight(date, h);
      BookedHoursMeaning(q, h);
    }
  }

  /** A cancelled booking still takes its slot off the list. */
  lemma CancelledBookingBlocksSlot(bookings: seq<Booking>, b: Booking, date: int, now: int)
    requires b in bookings && b.status == Cancelled
    requires StartOfDay(date) <= b.startTime <= DayEnd(StartOfDay(date))
    ensures GetHours(b.startTime) !in AvailableSlots(bookings, b.facilityId, date, now)
  {
    AvailableSlotsSpec(bookings, b.facilityId, date, now);
  }

  /** The select value of a slot: date-fns `format(slot, 'HH:mm')` of a whole hour. */
  function FormatSlot(h: nat): string
    requires h < 100
  {
    TwoDigits(h) + ":00"
  }

  /** `const [hour] = timeSlot.split(':').map(Number)`. */
  function SlotHour(timeSlot: string): Option<nat> {
    ParseNumber(Split(timeSlot, ':')[0])
  }

  /** Reading the hour back from a slot's select value gives the slot's hour. */
  lemma SlotTextRoundTrip(h: nat)
    requires h < 24
    ensures SlotHour(FormatSlot(h)) == Some(h)
  {
    var d := TwoDigits(h);
    assert ':' !in d;
    assert FormatSlot(h) == d + [':'] + "00";
    SplitFirst(d, ':', "00");
  }

  // ---------------------------------------------------------------- facility selection

  /** The booking selector's options: the available facilities, in catalog order. */
  function OfferedFacilities(catalog: seq<Facility>): seq<Facility> {
    Filter(catalog, (f: Facility) => f.status == Available)
  }

  /** The shipped catalog offers facilities 1, 2, 4, 6, 7 and 8. */
  lemma ShippedOffer()
    ensures forall f :: f in OfferedFacilities(Facilities) ==> f in Facilities
    ensures forall f :: f in Facilities ==> (f in OfferedFacilities(Facilities) <==> f.id != "3" && f.id != "5")
    ensures IsSublist(OfferedFacilities(Facilities), Facilities)
  {
    CatalogStatuses();
  }

  /** `facility.minPlayers > 1`, which is false when the field is undefined. */
  predicate HasMultiplePlayers(f: Facility) {
    f.minPlayers.Some? && f.minPlayers.value > 1
  }

  /** `isMultiplayer` for the selected facility id. */
  function IsMultiplayer(catalog: seq<Facility>, id: string): bool {
    match FindFacility(catalog, id)
    case None => false
    case Some(f) => HasMultiplePlayers(f)
  }

  /** As shipped, no facility is multiplayer. */
  lemma ShippedCatalogNotMultiplayer(id: string)
    ensures !IsMultiplayer(Facilities, id)
  {
    CatalogHasNoPlayerBounds();
  }

  // ---------------------------------------------------------------- submission

  /** The form values handed to `onSubmit`; an unset optional field is the empty string. */
  datatype BookingForm = BookingForm(
    facilityId: string,
    date: int,
    timeSlot: string,
    teamId: string,
    postDescription: string,
    postSkillLevel: string,
    postRules: string)

  /** `bookingSchema`: a facility id and a time slot of at least one character. */
  predicate FormSchemaOk(form: BookingForm) {
    |form.facilityId| >= 1 && |form.timeSlot| >= 1
  }

  datatype BookingError =
    | InvalidForm             // the schema rejected the form; `onSubmit` is not called
    | NotSignedInOrNoFacility // "You must be logged in and select a facility."
    | MissingPostDetails      // "Please fill in the Interest Hub post details to find players."
    | InvalidTimeSlot         // the hour text is not a number this model reads
    | TransactionFailed       // the store rejected the transaction

  datatype BookingPlan = BookingPlan(booking: Booking, post: Option<InterestHubPost>)

  /** The roster `onSubmit` reads, only when a team id is set. */
  function TeamRoster(members: seq<MemberDoc>, teamId: string): seq<TeamMember> {
    if teamId != "" then RosterOf(members, teamId) else []
  }

  /** `selectedFacility.sports[0] || 'Game'`. */
  function PostSport(f: Facility): string {
    if |f.sports| > 0 && f.sports[0] != "" then f.sports[0] else "Game"
  }

  /** What `onSubmit` writes for the given inputs, or why it writes nothing. `roster` is the team's
      member list as read before the transaction. */
  function PlanBooking(catalog: seq<Facility>, user: Option<User>, form: BookingForm, roster: seq<TeamMember>,
                       bookingId: string, postId: string, serverTime: int): Result<BookingPlan, BookingError>
  {
    if !FormSchemaOk(form) then Err(InvalidForm)
    else
      var facility := FindFacility(catalog, form.facilityId);
      if user.None? || facility.None? then Err(NotSignedInOrNoFacility)
      else
        var u, f := user.value, facility.value;
        var multi := HasMultiplePlayers(f);
        if multi && form.teamId == "" && (form.postDescription == "" || form.postSkillLevel == "") then
          Err(MissingPostDetails)
        else
          match SlotHour(form.timeSlot)
          case None => Err(InvalidTimeSlot)
          case Some(hour) =>
            var start := SetHours(form.date, hour);
            var onTeam := form.teamId != "";
            var booking := Booking(bookingId, form.facilityId, u.uid, OrElse(u.displayName, "Anonymous"),
                                   start, start + MsPerHour, Pending,
                                   if onTeam then Some(form.teamId) else None,
                                   if onTeam then Some(Uids(roster)) else None,
                                   serverTime);
            var post := InterestHubPost(postId, bookingId, u.uid, OrElse(u.displayName, "Anonymous"),
                                        OrNull(u.photoURL), f.id, f.name, PostSport(f),
                                        start, start + MsPerHour,
                                        form.postDescription, form.postSkillLevel, form.postRules,
                                        if onTeam then Uids(roster) else [u.uid],
                                        f.maxPlayers, serverTime);
            Ok(BookingPlan(booking, if multi then Some(post) else None))
  }

  /** The rejections, each exactly under its condition and in the order the handler checks them;
      a plan never fails with `TransactionFailed`. */
  lemma PlanBookingRejects(catalog: seq<Facility>, user: Option<User>, form: BookingForm, roster: seq<TeamMember>,
                           bookingId: string, postId: string, serverTime: int)
    ensures var r := PlanBooking(catalog, user, form, roster, bookingId, postId, serverTime);
      && (r == Err(InvalidForm) <==> !FormSchemaOk(form))
      && (r == Err(NotSignedInOrNoFacility) <==>
            FormSchemaOk(form) && (user.None? || forall f :: f in catalog ==> f.id != form.facilityId))
      && (r == Err(MissingPostDetails) <==>
            FormSchemaOk(form) && user.Some? && IsMultiplayer(catalog, form.facilityId) &&
            form.teamId == "" && (form.postDescription == "" || form.postSkillLevel == ""))
      && (r == Err(InvalidTimeSlot) ==> SlotHour(form.timeSlot).None?)
      && r != Err(TransactionFailed)
  {
  }

  /** A planned booking: the user's pending booking of the chosen hour, one hour long, carrying
      the team and its member uids only when a team id was given. */
  lemma PlanBookingRecord(catalog: seq<Facility>, user: Option<User>, form: BookingForm, roster: seq<TeamMember>,
                          bookingId: string, postId: string, serverTime: int)
    requires PlanBooking(catalog, user, form, roster, bookingId, postId, serverTime).Ok?
    ensures var b := PlanBooking(catalog, user, form, roster, bookingId, postId, serverTime).value.booking;
      && user.Some? && b.userId == user.value.uid
      && b.id == bookingId && b.facilityId == form.facilityId
      && SlotHour(form.timeSlot).Some?
      && b.startTime == SetHours(form.date, SlotHour(form.timeSlot).value)
      && b.endTime == b.startTime + MsPerHour
      && b.status == Pending
      && (b.teamId.Some? <==> form.teamId != "") && (b.teamId.Some? ==> b.teamId.value == form.teamId)
      && (b.participantIds.Some? <==> form.teamId != "")
      && (b.participantIds.Some? ==> b.participantIds.value == Uids(roster))
  {
  }

  /** A post is planned exactly for a multiplayer facility; it points back at the booking, shares
      its hour, takes the facility's cap and lists the team's members, or else just the author. */
  lemma PlanBookingPost(catalog: seq<Facility>, user: Option<User>, form: BookingForm, roster: seq<TeamMember>,
                        bookingId: string, postId: string, serverTime: int)
    requires PlanBooking(catalog, user, form, roster, bookingId, postId, serverTime).Ok?
    ensures var plan := PlanBooking(catalog, user, form, roster, bookingId, postId, serverTime).value;
      && (plan.post.Some? <==> IsMultiplayer(catalog, form.facilityId))
      && (plan.post.Some? ==>
            var p := plan.post.value;
            && FindFacility(catalog, form.facilityId).Some?
            && p.bookingId == plan.booking.id
            && p.authorId == plan.booking.userId
            && p.facilityId == form.facilityId
            && p.startTime == plan.booking.startTime && p.endTime == plan.booking.endTime
            && p.maxPlayers == FindFacility(catalog, form.facilityId).value.maxPlayers
            && p.players == (if form.teamId != "" then Uids(roster) else [plan.booking.userId])
            && p.description == form.postDescription && p.skillLevel == form.postSkillLevel)
  {
  }

  /** Choosing a slot from the list on a calendar day books that hour of that day. */
  lemma ChosenSlotStart(catalog: seq<Facility>, user: Option<User>, form: BookingForm, roster: seq<TeamMember>,
                        bookingId: string, postId: string, serverTime: int, h: nat)
    requires h < 24 && form.timeSlot == FormatSlot(h) && form.date == StartOfDay(form.date)
    requires PlanBooking(catalog, user, form, roster, bookingId, postId, serverTime).Ok?
    ensures var b := PlanBooking(catalog, user, form, roster, bookingId, postId, serverTime).value.booking;
      b.startTime == form.date + h * MsPerHour && GetHours(b.startTime) == h
  {
    SlotTextRoundTrip(h);
    SetHoursOfMidnight(form.date, h);
  }

  /** With the shipped catalog a submission never asks for post details and never writes a post. */
  lemma ShippedCatalogNeverPosts(user: Option<User>, form: BookingForm, roster: seq<TeamMember>,
                                 bookingId: string, postId: string, serverTime: int)
    ensures var r := PlanBooking(Facilities, user, form, roster, bookingId, postId, serverTime);
      r != Err(MissingPostDetails) && (r.Ok? ==> r.value.post.None?)
  {
    ShippedCatalogNotMultiplayer(form.facilityId);
    PlanBookingRejects(Facilities, user, form, roster, bookingId, postId, serverTime);
    if PlanBooking(Facilities, user, form, roster, bookingId, postId, serverTime).Ok? {
      PlanBookingPost(Facilities, user, form, roster, bookingId, postId, serverTime);
    }
  }

  /** "Book as individual" has the value "a", which is a non-empty team id: the post details are
      not required, and the booking records team "a" with that team's (usually empty) member list. */
  lemma IndividualOptionActsAsTeam(catalog: seq<Facility>, user: Option<User>, form: BookingForm, roster: seq<TeamMember>,
                                   bookingId: string, postId: string, serverTime: int)
    requires form.teamId == "a"
    ensures PlanBooking(catalog, user, form, roster, bookingId, postId, serverTime) != Err(MissingPostDetails)
    ensures var r := PlanBooking(catalog, user, form, roster, bookingId, postId, serverTime);
      r.Ok? ==>
        && r.value.booking.teamId == Some("a")
        && r.value.booking.participantIds == Some(Uids(roster))
        && (r.value.post.Some? ==> r.value.post.value.players == Uids(roster))
  {
  }

  /** User A booking a facility with bounds 2 and 10 alone at 18:00, with post details. */
  lemma PickupGamePlan(catalog: seq<Facility>, f: Facility)
    requires FindFacility(catalog, "2") == Some(f) && f.minPlayers == Some(2) && f.maxPlayers == Some(10)
    ensures var form := BookingForm("2", 0, FormatSlot(18), "", "Pickup game", "Intermediate", "");
      var r := PlanBooking(catalog, Some(User("A", Some("A"), None, None)), form, [], "b", "p", 0);
      && r.Ok?
      && r.value.booking.status == Pending && r.value.booking.facilityId == "2"
      && r.value.booking.startTime == 18 * MsPerHour
      && r.value.post.Some?
      && r.value.post.value.players == ["A"] && r.value.post.value.maxPlayers == Some(10)
      && r.value.post.value.bookingId == "b"
  {
    var form := BookingForm("2", 0, FormatSlot(18), "", "Pickup game", "Intermediate", "");
    var user := Some(User("A", Some("A"), None, None));
    SlotTextRoundTrip(18);
    SetHoursOfMidnight(0, 18);
    PlanBookingPost(catalog, user, form, [], "b", "p", 0);
  }

  /** Were Basketball Court A given the bounds 2 and 10, user A booking it alone at 18:00 with post
      details would get a pending booking of that hour and a post listing A, capped at 10. */
  lemma PickupGameScenario()
    ensures var catalog := Facilities[1 := Facilities[1].(minPlayers := Some(2), maxPlayers := Some(10))];
      var form := BookingForm("2", 0, FormatSlot(18), "", "Pickup game", "Intermediate", "");
      var r := PlanBooking(catalog, Some(User("A", Some("A"), None, None)), form, [], "b", "p", 0);
      && r.Ok?
      && r.value.post.Some?
      && r.value.post.value.players == ["A"] && r.value.post.value.maxPlayers == Some(10)
  {
    var catalog := Facilities[1 := Facilities[1].(minPlayers := Some(2), maxPlayers := Some(10))];
    assert FindFacility(catalog, "2") == Some(catalog[1]) by {
      assert catalog[0].id == "1" && catalog[1].id == "2";
    }
    PickupGamePlan(catalog, catalog[1]);
  }

  /** `onSubmit`: validate, read the team's members, then write the booking and (for a multiplayer
      game) its post in one transaction, or write nothing. */
  method OnSubmit(db: Store, catalog: seq<Facility>, user: Option<User>, form: BookingForm,
                  bookingId: string, postId: string, serverTime: int, commitOk: bool)
    returns (r: Result<Booking, BookingError>)
    modifies db
    ensures var plan := PlanBooking(catalog, user, form, TeamRoster(old(db.members), form.teamId),
                                    bookingId, postId, serverTime);
      && (plan.Err? ==> r == Err(plan.error) && unchanged(db))
      && (plan.Ok? && !commitOk ==> r == Err(TransactionFailed) && unchanged(db))
      && (plan.Ok? && commitOk ==>
            && r == Ok(plan.value.booking)
            && db.bookings == old(db.bookings) + [plan.value.booking]
            && db.posts == old(db.posts) + OptionToSeq(plan.value.post)
            && db.teams == old(db.teams) && db.members == old(db.members) && db.users == old(db.users))
  {
    if !FormSchemaOk(form) {
      return Err(InvalidForm);
    }
    var facility := FindFacility(catalog, form.facilityId);
    if user.None? || facility.None? {
      return Err(NotSignedInOrNoFacility);
    }
    var u, f := user.value, facility.value;
    var isMultiplayerGame := HasMultiplePlayers(f);
    if isMultiplayerGame && form.teamId == "" && (form.postDescription == "" || form.postSkillLevel == "") {
      return Err(MissingPostDetails);
    }
    var hour := SlotHour(form.timeSlot);
    if hour.None? {
      return Err(InvalidTimeSlot);
    }
    var startTime := SetHours(form.date, hour.value);
    var endTime := startTime + MsPerHour;

    var teamMembers: seq<TeamMember> := [];
    if form.teamId != "" {
      teamMembers := RosterOf(db.members, form.teamId);
    }

    if !commitOk {
      return Err(TransactionFailed);
    }
    var name := OrElse(u.displayName, "Anonymous");
    var bookingData := Booking(bookingId, form.facilityId, u.uid, name, startTime, endTime, Pending, None, None, serverTime);
    if form.teamId != "" {
      bookingData := bookingData.(teamId := Some(form.teamId), participantIds := Some(Uids(teamMembers)));
    }
    var post: Option<InterestHubPost> := None;
    if isMultiplayerGame {
      var players := if form.teamId != "" then Uids(teamMembers) else [u.uid];
      post := Some(InterestHubPost(postId, bookingId, u.uid, name, OrNull(u.photoURL), f.id, f.name, PostSport(f),
                                   startTime, endTime, form.postDescription, form.postSkillLevel, form.postRules,
                                   players, f.maxPlayers, serverTime));
    }
    db.CommitBooking(bookingData, post);
    r := Ok(bookingData);
  }

  // ---------------------------------------------------------------- the user's teams

  /** The collection-group query `members where uid == uid`. */
  function MemberDocsOf(docs: seq<MemberDoc>, uid: string): seq<MemberDoc> {
    Filter(docs, (d: MemberDoc) => d.member.uid == uid)
  }

  /** `getDoc(teamRef)`: the team document with that id, if it exists. */
  function FindTeam(teams: seq<Team>, id: string): (r: Option<Team>)
    ensures r.Some? ==> r.value in teams && r.value.id == id
    ensures r.None? <==> forall t :: t in teams ==> t.id != id
  {
    Find(teams, (t: Team) => t.id == id)
  }

  /** The teams `fetchUserTeams` pushes, one per member document whose parent team exists, in query order. */
  function TeamsOf(docs: seq<MemberDoc>, teams: seq<Team>): seq<Team> {
    if docs == [] then []
    else
      var found := FindTeam(teams, docs[|docs| - 1].teamId);
      TeamsOf(docs[..|docs| - 1], teams) + OptionToSeq(found)
  }

  /** A team is listed exactly when one of the given member documents belongs to it. */
  lemma {:induction false} TeamsOfMeaning(docs: seq<MemberDoc>, teams: seq<Team>)
    ensures forall t :: t in TeamsOf(docs, teams) <==> exists d :: d in docs && FindTeam(teams, d.teamId) == Some(t)
  {
    if docs != [] {
      var init := docs[..|docs| - 1];
      TeamsOfMeaning(init, teams);
      assert docs == init + [docs[|docs| - 1]];
      forall t ensures t in TeamsOf(docs, teams) <==> exists d :: d in docs && FindTeam(teams, d.teamId) == Some(t) {
        if exists d :: d in docs && FindTeam(teams, d.teamId) == Some(t) {
          var d :| d in docs && FindTeam(teams, d.teamId) == Some(t);
          if d != docs[|docs| - 1] {
            assert d in init;
          }
        }
      }
    }
  }

  /** The user's teams are exactly the existing teams holding a member document with the user's uid. */
  lemma UserTeamsMeaning(docs: seq<MemberDoc>, teams: seq<Team>, uid: string)
    ensures forall t :: t in TeamsOf(MemberDocsOf(docs, uid), teams) <==>
      t in teams && exists d :: d in docs && d.member.uid == uid && d.teamId == t.id && FindTeam(teams, t.id) == Some(t)
  {
    TeamsOfMeaning(MemberDocsOf(docs, uid), teams);
  }

  /** `fetchUserTeams`: walk the user's member documents and push each one's parent team if it exists. */
  method FetchUserTeams(db: Store, uid: string) returns (userTeams: seq<Team>)
    ensures userTeams == TeamsOf(MemberDocsOf(db.members, uid), db.teams)
  {
    var memberDocs := MemberDocsOf(db.members, uid);
    var teams: seq<Team> := [];
    var i := 0;
    while i < |memberDocs|
      invariant 0 <= i <= |memberDocs|
      invariant teams == TeamsOf(memberDocs[..i], db.teams)
    {
      var teamDoc := FindTeam(db.teams, memberDocs[i].teamId);
      if teamDoc.Some? {
        teams := teams + [teamDoc.value];
      }
      assert memberDocs[..i + 1][..i] == memberDocs[..i];
      i := i + 1;
    }
    assert memberDocs[..i] == memberDocs;
    userTeams := teams;
  }

  /** `relevantTeams`: the user's teams whose sport the selected facility offers, none when no facility is selected. */
  function RelevantTeams(userTeams: seq<Team>, selected: Option<Facility>): (r: seq<Team>)
    ensures IsSublist(r, userTeams)
    ensures forall t :: t in r <==> t in userTeams && selected.Some? && t.sport in selected.value.sports
  {
    if selected.None? then [] else Filter(userTeams, (t: Team) => t.sport in selected.value.sports)
  }
}
