# Court-side booking client, modelled in Dafny

This project models the decision rules and record builders of a sports-facility booking web client.
The client is built with Next.js and talks to a Firebase document store and authentication service.
The model covers:

- the facility catalog and the record types;
- the booking sheet, which picks the free hourly slots, decides whether a game is multiplayer, turns a
  submitted form into a booking and (for a multiplayer game) an Interest Hub post, and lists the
  user's teams;
- the Interest Hub post card (`canJoin`, the schedule-conflict check, the array-union join);
- the My Bookings tabs, the facility-name lookup and cancellation;
- the create-team dialog and its team-plus-member transaction;
- the Interest Hub sport filter, the facility search and the navigation's active-link rule;
- avatar initials and the display-name update of both profile pages.

Files, one Dafny module each:

| file | module | models |
|---|---|---|
| `wrappers.dfy` | `Wrappers` | `Option`, `Result` |
| `seqs.dfy` | `Seqs` | order-preserving filter, first-match `find`, sublists, `Array.from(new Set(...))` |
| `text.dfy` | `Text` | ASCII case mapping, `length` in UTF-16 code units, `includes`, `startsWith`, `split`, `Number()` on digit strings, two-digit formatting |
| `types.dfy` | `Types` | the record types of `src/lib/types.ts`, time arithmetic |
| `catalog.dfy` | `Catalog` | the `facilities` constant of `src/lib/data.ts` and `find` by id |
| `doc_store.dfy` | `DocStore` | the document store and the authentication service, as classes with the writes the client issues |
| `booking_sheet.dfy` | `BookingSheet` | `src/components/booking-sheet.tsx` |
| `post_card.dfy` | `PostCard` | `src/components/interest-hub-post-card.tsx` |
| `initials.dfy` | `Initials` | `getInitials` of the post card and of both profile pages |
| `my_bookings.dfy` | `MyBookings` | `src/app/dashboard/bookings/page.tsx` |
| `create_team.dfy` | `CreateTeam` | `src/components/create-team-dialog.tsx` |
| `interest_hub.dfy` | `InterestHub` | `src/app/dashboard/hub/page.tsx` |
| `facility_search.dfy` | `FacilitySearch` | `src/app/dashboard/page.tsx` |
| `dashboard_nav.dfy` | `DashboardNav` | `src/components/dashboard-nav.tsx` |
| `profile.dfy` | `Profile` | `src/app/profile/page.tsx` |
| `dashboard_profile.dfy` | `DashboardProfile` | `src/app/dashboard/profile/page.tsx` |

How the model represents the program:

- **Time.** A time is an integer number of milliseconds in local time.
  - `StartOfDay`, `GetHours` and `SetHours` are the date-fns operations on that scale.
  - Every clock reading (`new Date()`, `Timestamp.now()`) is a `now` parameter.
  - Every `serverTimestamp()` is a `serverTime` parameter.
- **The store.** `DocStore.Store` is a class holding the collections as `seq` fields.
  - The team `members` subcollections are one flat sequence of `MemberDoc(teamId, member)`.
  - The `users` display names are a `map`.
  - Each write the client issues is a method with a `modifies` clause: the transactional commit of a
    booking and its post, the commit of a team and its first member, `deleteDoc`, `arrayUnion`
    and `updateDoc` of a user name.
- **Authentication.** `DocStore.Auth` holds `auth.currentUser` and each account's profile display name.
- **Outside inputs.** A random document id is a parameter. So is the success or failure of something
  outside the client: a transaction commit, `updateProfile`, `deleteDoc`, `signOut`, the conflict
  query of a join, the store's acceptance of an `updateDoc` (the `arrayUnion` of a join, a user
  document's new name), the AI name suggestion.
- **Handlers.** A handler that changes state is a method. It is tied to a pure function of its inputs
  (`PlanBooking`, `PlanTeam`, `PlanProfileUpdate`, `PlanDashboardProfileUpdate`), and the lemmas
  state the handler's properties about that function.

Some behaviours of the code are reproduced as they are, each with a lemma that exhibits it:

- **No player bounds.** No catalog entry defines `minPlayers` or `maxPlayers`, so they are
  `Option<int>` here. As shipped, no facility is multiplayer and no Interest Hub post is ever
  written (`ShippedCatalogNeverPosts`).
- **The "a" option.** "Book as individual" has the value `"a"`. Being non-empty, it acts as a
  team id (`IndividualOptionActsAsTeam`).
- **Cancelled bookings still block.** Availability ignores booking status, so a cancelled
  booking still blocks its slot (`CancelledBookingBlocksSlot`).
- **No commit-time re-check.** The booking transaction does not re-read existing bookings. The
  join handler re-checks neither capacity nor start time (`UngatedJoinCanOverfill`).
- **Cancelling deletes.** Cancelling a booking deletes its document and leaves its post in place
  (`HandleCancelBooking`); every tab then shows what it showed before, less that booking
  (`CancelUpdatesTabs`).
- **"undefined" initials.** `getInitials` turns an empty name part into the text "undefined"
  (`TrailingSpaceSpellsUndefined`).
- **Non-atomic profile update.** The profile update may rename the account without renaming its
  `users` document (`ProfileWriteIsNotAtomic`).
- **Two accounts on one page.** The dashboard's profile page renames `auth.currentUser`, which
  may be another account than the one whose document it renames (`DashboardRenamesCurrentAccount`).

The program also behaves as follows, which a reader might not expect:

- Booking submission checks neither the facility's status nor that the chosen hour is still
  free, and has no "slot unavailable" error.
- Slot availability does not skip cancelled bookings.
- Joining a game has no "already joined" outcome: a repeated join is an array union that changes
  nothing, reported as a successful join.
- Full and past games are refused only by the disabled button, not by the handler.

## Model

| member | source | states |
|---|---|---|
| Types.GetHours | src/components/booking-sheet.tsx:153 | the hour of a time is within 0..23 |
| Types.SetHoursOfMidnight | src/components/booking-sheet.tsx:155-157 | setting hour h on a day's start gives that day's start plus h hours, whose hour is h; startOfDay is idempotent |
| Types.OrElse | src/components/booking-sheet.tsx:226 | `s || fallback`: a non-empty string is kept, a null or empty one replaced |
| Types.OrNull | src/components/booking-sheet.tsx:249 | `s || null`: a non-empty string is kept, anything else becomes null |
| Catalog.FindFacility | src/components/booking-sheet.tsx:123 | `find` by id: the first entry with that id, none exactly when no entry has it |
| Catalog.CatalogIds | src/lib/data.ts:3-68 | eight entries with ids "1" to "8", pairwise distinct |
| Catalog.CatalogSports | src/lib/data.ts:8-65 | every entry lists at least one sport and at most two; only "6" lists two |
| Catalog.CatalogStatuses | src/lib/data.ts:10-66 | "3" is under maintenance, "5" closed, every other entry available |
| Catalog.CatalogHasNoPlayerBounds | src/lib/data.ts:3-68 | no entry defines minPlayers or maxPlayers |
| DocStore.RosterOf | src/components/booking-sheet.tsx:215-217 | a team's member list holds exactly the members of that team's member documents |
| DocStore.Uids | src/components/booking-sheet.tsx:236 | the uid of each member, position for position |
| DocStore.ArrayUnion | src/components/interest-hub-post-card.tsx:71 | the element is present afterwards, the old list is a prefix, nothing else is added, no duplicate is introduced |
| DocStore.ArrayUnionIdempotent | src/components/interest-hub-post-card.tsx:71 | a second union with the same element changes nothing |
| DocStore.JoinPosts | src/components/interest-hub-post-card.tsx:69-72 | the post with the id gets the uid by array union; every other post is unchanged |
| DocStore.WithoutBooking | src/app/dashboard/bookings/page.tsx:61 | after the delete, exactly the bookings with another id remain |
| DocStore.Store.CommitBooking | src/components/booking-sheet.tsx:221-263 | the booking is appended and the post too when there is one; the other collections are unchanged |
| DocStore.Store.CommitTeam | src/components/create-team-dialog.tsx:80-98 | the team and one member document under its id are appended, nothing else changes |
| DocStore.Store.DeleteBooking | src/app/dashboard/bookings/page.tsx:61 | the booking document is removed; posts and the rest stay |
| DocStore.Store.UnionPlayers | src/components/interest-hub-post-card.tsx:69-72 | succeeds exactly when the store accepts the write and a post has the id; then the uid is unioned into that post's players, otherwise nothing changes |
| DocStore.Store.UpdateUserName | src/app/profile/page.tsx:48-49 | succeeds exactly when the store accepts the write and the user document exists; then its display name is set, otherwise nothing changes |
| DocStore.Auth.UpdateProfile | src/app/profile/page.tsx:46 | the account's profile name becomes the new name |
| DocStore.Auth.SignOut | src/app/profile/page.tsx:26 | nobody is signed in afterwards |
| Text.ToLower | src/app/dashboard/page.tsx:14 | same length, each character lower-cased |
| Text.ToUpper | src/app/profile/page.tsx:71 | same length, each character upper-cased |
| Text.LowerOfUpper | src/app/dashboard/page.tsx:19-21 | lower-casing forgets an earlier upper- or lower-casing |
| Text.ContainsLower | src/app/dashboard/page.tsx:19-21 | substring containment survives lower-casing both sides |
| Text.ContainsTrans | src/app/dashboard/page.tsx:19-21 | a substring of a substring is a substring |
| Text.Split | src/app/profile/page.tsx:69 | one more part than separators, none containing the separator |
| Text.JoinSplit | src/app/profile/page.tsx:69 | joining the parts with the separator gives back the string |
| Text.SplitFirst | src/components/booking-sheet.tsx:209 | the first part is the text before the first separator |
| Text.TwoDigits | src/components/booking-sheet.tsx:354 | an hour below 100 written as two decimal digits that read back as the hour |
| BookingSheet.AllTimeSlotsSpan | src/components/booking-sheet.tsx:132-135 | 15 slots, hours 7 to 21, ascending |
| BookingSheet.BookedHoursMeaning | src/components/booking-sheet.tsx:153 | an hour is booked exactly when some returned booking starts in it |
| BookingSheet.AvailableSlotsSpec | src/components/booking-sheet.tsx:141-158 | `AvailableSlots`: a slot is offered iff it is within 7..21, no booking of the facility that day starts in it (any status), and it starts strictly after now; the offer is an ascending sublist of the universe |
| BookingSheet.CancelledBookingBlocksSlot | src/components/booking-sheet.tsx:144-149 | a cancelled booking still removes its hour from the offer |
| BookingSheet.SlotTextRoundTrip | src/components/booking-sheet.tsx:209 | `FormatSlot` and `SlotHour`: reading the hour from a slot's "HH:mm" value gives the slot's hour |
| BookingSheet.ShippedOffer | src/components/booking-sheet.tsx:299 | the selector offers exactly the shipped facilities other than "3" and "5", in catalog order |
| BookingSheet.ShippedCatalogNotMultiplayer | src/components/booking-sheet.tsx:126 | `IsMultiplayer`: with the shipped catalog no id is multiplayer |
| BookingSheet.PlanBookingRejects | src/components/booking-sheet.tsx:197-207 | each rejection exactly under its condition, in the handler's order: invalid form, no user or unknown facility, multiplayer without team and without description or skill level |
| BookingSheet.PlanBookingRecord | src/components/booking-sheet.tsx:209-237 | the booking is the user's, pending, starts at the chosen hour of the chosen date, lasts one hour, and has team id and member uids exactly when a team id is set |
| BookingSheet.PlanBookingPost | src/components/booking-sheet.tsx:241-261 | a post exactly for a multiplayer facility, pointing at the booking, same times, the facility's cap, players the team's uids or else the author |
| BookingSheet.ChosenSlotStart | src/components/booking-sheet.tsx:209-210 | a slot chosen on a day books that hour of that day |
| BookingSheet.ShippedCatalogNeverPosts | src/components/booking-sheet.tsx:241 | with the shipped catalog post details are never demanded and no post is written |
| BookingSheet.IndividualOptionActsAsTeam | src/components/booking-sheet.tsx:379 | the "a" option counts as a team id: no post details demanded, team "a" recorded with its roster |
| BookingSheet.PickupGamePlan | src/components/booking-sheet.tsx:221-261 | for a facility "2" with bounds 2..10, a lone 18:00 booking with post details gives a pending booking of that hour and a post for it listing its author, capped at 10 |
| BookingSheet.PickupGameScenario | src/components/booking-sheet.tsx:241-259 | the shipped catalog with those bounds patched onto facility "2" writes that booking and post |
| BookingSheet.OnSubmit | src/components/booking-sheet.tsx:197-272 | a rejected plan or a failed commit writes nothing; otherwise the planned booking and post are both appended |
| BookingSheet.FindTeam | src/components/booking-sheet.tsx:110-112 | the team document with the id, none exactly when it does not exist |
| BookingSheet.TeamsOfMeaning | src/components/booking-sheet.tsx:107-115 | a team is listed iff some member document's parent team exists and is that team |
| BookingSheet.UserTeamsMeaning | src/components/booking-sheet.tsx:105-113 | the user's teams are the existing teams holding a member document with the user's uid |
| BookingSheet.FetchUserTeams | src/components/booking-sheet.tsx:103-116 | the loop pushes exactly the existing parent team of each of the user's member documents, in query order |
| BookingSheet.RelevantTeams | src/components/booking-sheet.tsx:274 | the user's teams whose sport the selected facility offers, in order; none without a facility |
| PostCard.JoinThroughButton | src/components/interest-hub-post-card.tsx:27-30 | `CanJoin`: a join enabled by canJoin appends the user as one new player, and afterwards canJoin is false for that user on the updated post at any time |
| PostCard.ConflictingBooking | src/components/interest-hub-post-card.tsx:49-57 | a conflict exists iff some booking of the user, confirmed or pending, overlaps the game |
| PostCard.ConflictNeedsLiveOverlap | src/components/interest-hub-post-card.tsx:52-57 | a cancelled, another user's or merely adjacent booking is no conflict |
| PostCard.HandleJoinGame | src/components/interest-hub-post-card.tsx:40-81 | no user, a failed conflict query or a conflict writes nothing; otherwise the uid is unioned into the post, joined exactly when the store accepts the write and the post exists, and any failure is "Failed to Join" with nothing written |
| PostCard.JoinAddsPlayer | src/components/interest-hub-post-card.tsx:69-72 | afterwards the uid is a player, earlier players keep their order, no duplicate appears |
| PostCard.JoinTwiceIsJoinOnce | src/components/interest-hub-post-card.tsx:71 | joining twice equals joining once |
| PostCard.GatedJoinWithinCap | src/components/interest-hub-post-card.tsx:121 | a join allowed by canJoin stays within a defined cap |
| PostCard.UngatedJoinCanOverfill | src/components/interest-hub-post-card.tsx:40-72 | the handler by itself adds a player to a full game |
| PostCard.JoinScenario | src/components/interest-hub-post-card.tsx:70-72 | players ["A"], B joins, B joins again: ["A","B"] both times |
| Initials.SingleWordInitials | src/components/interest-hub-post-card.tsx:37 | `GetInitials`: a name without a space gives its first two characters or fewer, upper-cased |
| Initials.MultiWordInitials | src/components/interest-hub-post-card.tsx:33-35 | `GetInitials`: a name with a space gives the upper-cased first characters of its first and last parts |
| Initials.TrailingSpaceSpellsUndefined | src/app/profile/page.tsx:69-71 | "Ann " gives "AUNDEFINED" |
| Initials.ProfileInitialsAgree | src/app/profile/page.tsx:67-73 | both profile pages give "" for a missing name and otherwise the post card's initials |
| MyBookings.TabBookings | src/app/dashboard/bookings/page.tsx:79-81 | a tab holds exactly the bookings its filter admits, as a sublist in subscription order |
| MyBookings.TabsMeaning | src/app/dashboard/bookings/page.tsx:79-81 | upcoming = confirmed and future, pending = pending and future, past = started whatever the status; no booking in two tabs; a future cancelled booking in none |
| MyBookings.TabsPartition | src/app/dashboard/bookings/page.tsx:79-81 | the three tabs plus the hidden future cancelled bookings count every booking once |
| MyBookings.TabsKeepOrder | src/app/dashboard/bookings/page.tsx:39 | each tab keeps the newest-first order of the subscription |
| MyBookings.GetFacilityName | src/app/dashboard/bookings/page.tsx:83-85 | the catalog name of a known id, "Unknown Facility" for an unknown id or an empty name |
| MyBookings.ShippedFacilityNames | src/app/dashboard/bookings/page.tsx:84 | "2" names Basketball Court A; an id outside the catalog is unknown |
| MyBookings.HandleCancelBooking | src/app/dashboard/bookings/page.tsx:58-76 | a successful cancel deletes the booking document and keeps every post |
| MyBookings.CancelUpdatesTabs | src/app/dashboard/bookings/page.tsx:61-81 | after a cancel each tab shows exactly what it showed before without the cancelled booking, in the same order |
| Text.Utf16Length | src/components/create-team-dialog.tsx:23 | a string's `length` in UTF-16 code units: between its character count and twice it, equal to the count for Basic Multilingual Plane text and twice it for text wholly outside |
| CreateTeam.PlanTeamRejects | src/components/create-team-dialog.tsx:22-25 | refused iff the name is not 3 to 50 UTF-16 code units long or no sport is chosen, then iff nobody is signed in |
| CreateTeam.NameLengthInCodeUnits | src/components/create-team-dialog.tsx:23 | two basketball emoji make a valid four-unit name; 26 of them, 52 units, are refused |
| CreateTeam.PlanTeamMakesCreatorAdmin | src/components/create-team-dialog.tsx:84-97 | the creator is the only admin and the member written, with their profile fields |
| CreateTeam.RosterAppend | src/components/create-team-dialog.tsx:91-97 | a new member document extends its own team's roster by that member and no other roster |
| CreateTeam.CommittedTeamIsTheCreators | src/components/create-team-dialog.tsx:80-98 | after the commit a team with a fresh id has exactly the creator as member and is among the creator's teams |
| CreateTeam.TeamDialog.constructor | src/components/create-team-dialog.tsx:38-46 | empty name, empty sport, no suggestions |
| CreateTeam.TeamDialog.ApplySuggestion | src/components/create-team-dialog.tsx:68-71 | the name becomes the suggestion and the suggestions are cleared |
| CreateTeam.TeamDialog.HandleSuggestNames | src/components/create-team-dialog.tsx:50-66 | no sport: no call and nothing changes; otherwise the suggestions become the flow's names, or none on failure |
| CreateTeam.TeamDialog.OnSubmit | src/components/create-team-dialog.tsx:73-107 | an invalid form, no user or a failed commit writes nothing; otherwise team and member are written together and the form is reset |
| InterestHub.AllSports | src/app/dashboard/hub/page.tsx:22 | exactly the sports some facility lists |
| InterestHub.AvailableSports | src/app/dashboard/hub/page.tsx:21-24 | every sport of every facility, each once |
| InterestHub.ShippedSports | src/app/dashboard/hub/page.tsx:22-23 | the shipped catalog's nine sports, in catalog order |
| InterestHub.FilteredPosts | src/app/dashboard/hub/page.tsx:47-52 | "all" returns the posts unchanged; otherwise exactly the posts of that sport, as a sublist |
| InterestHub.FilterKeepsFeedOrder | src/app/dashboard/hub/page.tsx:29 | the filtered feed stays newest first |
| InterestHub.UnlistedSportOnlyUnderAll | src/app/dashboard/hub/page.tsx:47-52 | a post whose sport no facility lists appears under "all" and under no sport option |
| FacilitySearch.Matching | src/app/dashboard/page.tsx:18-22 | exactly the facilities whose lower-cased name, type or some sport contains the query, in order |
| FacilitySearch.FilteredFacilities | src/app/dashboard/page.tsx:13-23 | an empty query returns the catalog; otherwise the matching facilities, as a sublist |
| FacilitySearch.SearchIgnoresCase | src/app/dashboard/page.tsx:14 | upper- or lower-casing the query does not change the result |
| FacilitySearch.MatchNarrows | src/app/dashboard/page.tsx:19-21 | a facility matching a query matches every substring of it |
| FacilitySearch.SearchNarrows | src/app/dashboard/page.tsx:18-22 | if q2 contains q1, the results for q2 are among the results for q1 |
| DashboardNav.ActiveMeaning | src/components/dashboard-nav.tsx:23 | `IsActive`: the home link is active iff the path is exactly "/dashboard"; every other link iff the path starts with its target |
| DashboardNav.SectionHrefsDiffer | src/components/dashboard-nav.tsx:11-14 | the four section targets differ at their twelfth character |
| DashboardNav.AtMostOneActive | src/components/dashboard-nav.tsx:22-23 | no path activates two links |
| DashboardNav.OutsideDashboardNoneActive | src/components/dashboard-nav.tsx:23 | a path outside "/dashboard" activates nothing |
| DashboardNav.ActiveExamples | src/components/dashboard-nav.tsx:23 | a team page activates My Teams; "/dashboard/hubbub" activates Interest Hub |
| Profile.ProfileOutcomes | src/app/profile/page.tsx:37-65 | no change iff no user, empty or unchanged name; then auth failure; then a missing user document; then a rejected document update; success iff the name is new, the account update succeeds, the document exists and the store accepts its update |
| Profile.ProfileWrites | src/app/profile/page.tsx:45-49 | nothing is written on no change or auth failure; a success gives both stores the new name and touches no other entry |
| Profile.ProfileWriteIsNotAtomic | src/app/profile/page.tsx:46-49 | the document is renamed only after the account; a missing document or a rejected document update leaves the account renamed alone |
| Profile.ResubmitIsNoChange | src/app/profile/page.tsx:39-41 | submitting the name the account already carries does nothing |
| Profile.HandleProfileUpdate | src/app/profile/page.tsx:37-65 | the account and document names and the outcome are those planned; the rest of the store is unchanged |
| Profile.HandleLogout | src/app/profile/page.tsx:24-35 | a successful sign-out leaves nobody signed in and moves to /login; a failed one changes nothing |
| DashboardProfile.DashboardMatchesProfilePage | src/app/dashboard/profile/page.tsx:31-35 | no current account: fails with nothing written; current account = page's account: same as the profile page |
| DashboardProfile.DashboardRenamesCurrentAccount | src/app/dashboard/profile/page.tsx:31-38 | another current account gets the new name while the page account's document is renamed |
| DashboardProfile.HandleProfileUpdate | src/app/dashboard/profile/page.tsx:22-54 | the account and document names and the outcome are those planned; the rest of the store is unchanged |

## Left out

- Store plumbing is not modelled: snapshot subscriptions, `getDocs`, collection-group queries, the
  loading and error states, and the order documents arrive in beyond the stated `orderBy`. Also
  left out: real transactions, concurrent sessions and races. A transaction is an all-or-nothing
  append.
- A failure of the team-roster read before the booking transaction is not modelled. Nor is the
  store's refusal of a document with an `undefined` field, such as a post's `maxPlayers`.
- Time zones, daylight-saving changes and the 14-day window of the date picker are not modelled.
  Times are local milliseconds with 24-hour days.
- Text.ToLower: only ASCII letters change case; Unicode case mapping is not modelled. So
  `Text.LowerOfUpper`, `Text.ContainsLower` and `FacilitySearch.SearchIgnoresCase` are facts about
  the ASCII mapping only: JavaScript turns "ß" upper- then lower-cased into "ss", and lower-cases a
  word-final "Σ" to "ς", so containment need not survive lower-casing there.
- Text.ToUpper: only ASCII letters change case, so a name such as "ß" keeps its length.
- BookingSheet.SlotHour: `Number()` is read only for the empty string and ASCII digit strings. Any
  other hour text is the `InvalidTimeSlot` error, with nothing written. In the program text such as
  " 7", "+7", "7.5", "1e1" or "0x7" is a number, so `setHours` builds a real start time and the
  booking is written; the model rejects such text. In the other direction, a digit string whose
  hour takes the start past the range of a store `Timestamp` (after 9999-12-31, for example
  "99999999") makes `Timestamp.fromDate` throw inside the transaction, so the program writes
  nothing, while the model books it. The select only ever emits "HH:mm" values.
- The AI flows (game details, post enhancement, team names) are calls to an outside text service.
  Only their success or failure is a parameter, for the team-name suggestions.
- The team dialog's sport options come from a `sportsList` that the catalog file does not define.
  They are not modelled.
- React state, toasts, the `isLoading`, `isJoining` and `isCancelling` flags, dialog opening and
  closing, and routing other than the logout redirect are not modelled.
- The teams page is not modelled beyond its admin test, which is `Types.Team.IsAdmin`.
- The card badge and icon maps are not modelled. They only affect rendering.
- The profile pages' initial field value (`user.displayName || ''`) is not modelled. The name is a
  parameter of the update.
- The error messages carried by failures are not modelled; only which failure occurred.
- Initials.SingleWordInitials: a Dafny `char` is a Unicode scalar value, so the model takes the first
  two characters where `substring(0, 2)` takes the first two UTF-16 code units. Whenever one of
  the first two characters is outside the Basic Multilingual Plane the two differ: the program keeps
  one character, or one character followed by a lone surrogate, where the model keeps two
  characters. When both are inside it they agree.
- Initials.MultiWordInitials: `part[0]` is one UTF-16 code unit, which for a part starting outside
  the Basic Multilingual Plane is a lone surrogate that a Dafny `char` cannot hold; the model takes
  the whole first character there. For other names the two agree.
- PostCard.HandleJoinGame: timestamps are compared as integer milliseconds, so sub-millisecond
  precision of stored timestamps is not modelled.
- The booking sheet's AI suggestion button (`handleAiSuggest`) is left out with the AI flows. Its
  only logic is a guard on a selected facility and time slot.
