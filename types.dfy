/** The records the application stores and displays, and the time arithmetic it uses. */
module Types {
  import opened Wrappers

  /** Instants are local-time epoch milliseconds, as JavaScript `Date` and Firestore `Timestamp` hold them. */
  const MsPerMinute: int := 60_000
  const MsPerHour: int := 3_600_000
  const MsPerDay: int := 86_400_000

  /** date-fns `startOfDay`: midnight of the day containing `t`. */
  function StartOfDay(t: int): int {
    t - t % MsPerDay
  }

  /** `Date.prototype.getHours`: the hour of the day, 0 to 23. */
  function GetHours(t: int): (h: int)
    ensures 0 <= h < 24
  {
    (t % MsPerDay) / MsPerHour
  }

  /** date-fns `setHours`: the same day, minutes and seconds, at hour `h` (an hour past 23 rolls into later days). */
  function SetHours(t: int, h: int): int {
    t + (h - GetHours(t)) * MsPerHour
  }

  /** Setting hour `h` of a midnight lands `h` hours after it, on an instant whose hour is `h`. */
  lemma SetHoursOfMidnight(day: int, h: int)
    requires 0 <= h < 24
    ensures StartOfDay(StartOfDay(day)) == StartOfDay(day)
    ensures SetHours(StartOfDay(day), h) == StartOfDay(day) + h * MsPerHour
    ensures GetHours(StartOfDay(day) + h * MsPerHour) == h
  {
    var m := StartOfDay(day);
    assert m % MsPerDay == 0;
    assert (m + h * MsPerHour) % MsPerDay == h * MsPerHour;
  }

  datatype FacilityType = Indoor | Outdoor | Aquatic | Gym

  /** The text of a facility type as stored in the catalog. */
  function TypeName(k: FacilityType): string {
    match k
    case Indoor => "Indoor"
    case Outdoor => "Outdoor"
    case Aquatic => "Aquatic"
    case Gym => "Gym"
  }

  datatype FacilityStatus = Available | Maintenance | Closed

  /** A bookable facility. The player bounds are optional because catalog entries may leave them out. */
  datatype Facility = Facility(
    id: string,
    name: string,
    kind: FacilityType,
    sports: seq<string>,
    image: string,
    status: FacilityStatus,
    minPlayers: Option<int>,
    maxPlayers: Option<int>)

  datatype BookingStatus = Confirmed | Pending | Cancelled

  /** A booking document; `createdAt` is the server timestamp written with it. */
  datatype Booking = Booking(
    id: string,
    facilityId: string,
    userId: string,
    userName: string,
    startTime: int,
    endTime: int,
    status: BookingStatus,
    teamId: Option<string>,
    participantIds: Option<seq<string>>,
    createdAt: int)

  /** An Interest Hub post; `maxPlayers` is whatever the facility's cap was, possibly undefined. */
  datatype InterestHubPost = InterestHubPost(
    id: string,
    bookingId: string,
    authorId: string,
    authorName: string,
    authorPhotoURL: Option<string>,
    facilityId: string,
    facilityName: string,
    sport: string,
    startTime: int,
    endTime: int,
    description: string,
    skillLevel: string,
    rules: string,
    players: seq<string>,
    maxPlayers: Option<int>,
    createdAt: int)

  /** A document of a team's `members` subcollection. */
  datatype TeamMember = TeamMember(
    uid: string,
    displayName: Option<string>,
    email: Option<string>,
    photoURL: Option<string>,
    joinedAt: int)

  datatype Team = Team(
    id: string,
    name: string,
    sport: string,
    adminIds: seq<string>,
    createdAt: int,
    memberCount: Option<int>)
  {
    /** `team.adminIds.includes(uid)`, the admin test of the teams page. */
    predicate IsAdmin(uid: string) {
      uid in adminIds
    }
  }

  /** The signed-in account as the authentication service reports it. */
  datatype User = User(
    uid: string,
    displayName: Option<string>,
    email: Option<string>,
    photoURL: Option<string>)

  /** `s || fallback` for a string that may be null or empty. */
  function OrElse(s: Option<string>, fallback: string): (r: string)
    ensures s.Some? && s.value != "" ==> r == s.value
    ensures s.None? || s.value == "" ==> r == fallback
  {
    if s.Some? && s.value != "" then s.value else fallback
  }

  /** `s || null`: an empty string becomes null. */
  function OrNull(s: Option<string>): (r: Option<string>)
    ensures r.Some? <==> s.Some? && s.value != ""
    ensures r.Some? ==> r == s
  {
    if s.Some? && s.value != "" then s else None
  }
}
