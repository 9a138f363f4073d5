/** The Interest Hub post card: when the join button is enabled, the schedule-conflict check, and
    the join itself, which adds the user's uid to the post's player list by array union. */
module PostCard {
  import opened Wrappers
  import opened Types
  import opened Seqs
  import opened DocStore

  /** `isUserPlayer`. */
  predicate IsUserPlayer(user: Option<User>, post: InterestHubPost) {
    user.Some? && user.value.uid in post.players
  }

  /** `isGameFull`: `players.length >= maxPlayers`, false when the cap is undefined. */
  predicate IsGameFull(post: InterestHubPost) {
    post.maxPlayers.Some? && |post.players| >= post.maxPlayers.value
  }

  /** `isGamePast`: the game starts before `now`. */
  predicate IsGamePast(post: InterestHubPost, now: int) {
    post.startTime < now
  }

  /** `canJoin`, which enables the join button. */
  predicate CanJoin(user: Option<User>, post: InterestHubPost, now: int) {
    user.Some? && !IsUserPlayer(user, post) && !IsGameFull(post) && !IsGamePast(post, now)
  }

  /** Through the enabled button a join appends the user as one new player; afterwards the button
      is disabled for that user on the updated post, whatever the clock says. */
  lemma JoinThroughButton(user: Option<User>, posts: seq<InterestHubPost>, k: nat, now: int, later: int)
    requires k < |posts| && CanJoin(user, posts[k], now)
    ensures JoinPosts(posts, posts[k].id, user.value.uid)[k].players == posts[k].players + [user.value.uid]
    ensures !CanJoin(user, JoinPosts(posts, posts[k].id, user.value.uid)[k], later)
  {
  }

  /** A booking that blocks joining: the user's, confirmed or pending, overlapping the game's hour. */
  predicate Conflicts(b: Booking, uid: string, post: InterestHubPost) {
    && b.userId == uid
    && (b.status == Confirmed || b.status == Pending)
    && b.startTime < post.endTime
    && b.endTime > post.startTime
  }

  /** The conflict query and `find`: the first of the user's bookings that conflicts, if any. */
  function ConflictingBooking(bookings: seq<Booking>, uid: string, post: InterestHubPost): (r: Option<Booking>)
    ensures r.Some? ==> r.value in bookings && Conflicts(r.value, uid, post)
    ensures r.None? <==> forall b :: b in bookings ==> !Conflicts(b, uid, post)
  {
    if bookings == [] then None
    else if Conflicts(bookings[0], uid, post) then Some(bookings[0])
    else ConflictingBooking(bookings[1..], uid, post)
  }

  /** A cancelled booking, or one that merely touches the game's hour at an end point, never conflicts. */
  lemma ConflictNeedsLiveOverlap(b: Booking, uid: string, post: InterestHubPost)
    requires b.status == Cancelled || b.endTime <= post.startTime || post.endTime <= b.startTime || b.userId != uid
    ensures ConflictingBooking([b], uid, post).None?
  {
  }

  datatype JoinOutcome =
    | NotAuthenticated   // "You must be logged in to join."
    | ScheduleConflict   // "You already have a booking at this time."
    | Joined             // "You're in!"
    | JoinFailed         // "An unexpected error occurred."

  /** `handleJoinGame`. It checks only sign-in and conflicts: fullness and start time are left to
      the disabled button, so the handler takes no clock. `queryOk` is whether the conflict query
      succeeds and `writeOk` whether the store accepts the update; any failure lands in the one
      catch, which reports "Failed to Join" with nothing written. */
  method HandleJoinGame(db: Store, user: Option<User>, post: InterestHubPost, queryOk: bool, writeOk: bool)
    returns (r: JoinOutcome)
    modifies db
    ensures user.None? ==> r == NotAuthenticated && unchanged(db)
    ensures user.Some? && !queryOk ==> r == JoinFailed && unchanged(db)
    ensures user.Some? && queryOk && ConflictingBooking(old(db.bookings), user.value.uid, post).Some? ==>
      r == ScheduleConflict && unchanged(db)
    ensures user.Some? && queryOk && ConflictingBooking(old(db.bookings), user.value.uid, post).None? ==>
      && (r == Joined <==> writeOk && exists p :: p in old(db.posts) && p.id == post.id)
      && (r == Joined || r == JoinFailed)
      && db.posts == (if r == Joined then JoinPosts(old(db.posts), post.id, user.value.uid) else old(db.posts))
    ensures db.bookings == old(db.bookings) && db.teams == old(db.teams)
    ensures db.members == old(db.members) && db.users == old(db.users)
  {
    if user.None? {
      return NotAuthenticated;
    }
    if !queryOk {
      return JoinFailed;
    }
    var conflicting := ConflictingBooking(db.bookings, user.value.uid, post);
    if conflicting.Some? {
      return ScheduleConflict;
    }
    var written := db.UnionPlayers(post.id, user.value.uid, writeOk);
    r := if written then Joined else JoinFailed;
  }

  /** After a join the uid is a player, earlier players keep their places, and no duplicate appears. */
  lemma JoinAddsPlayer(posts: seq<InterestHubPost>, postId: string, uid: string, k: nat)
    requires k < |posts| && posts[k].id == postId
    ensures var after := JoinPosts(posts, postId, uid)[k].players;
      && uid in after
      && posts[k].players <= after
      && (NoDup(posts[k].players) ==> NoDup(after))
      && |after| <= |posts[k].players| + 1
  {
  }

  /** Joining twice leaves the posts as after the first join. */
  lemma JoinTwiceIsJoinOnce(posts: seq<InterestHubPost>, postId: string, uid: string)
    ensures JoinPosts(JoinPosts(posts, postId, uid), postId, uid) == JoinPosts(posts, postId, uid)
  {
    var once := JoinPosts(posts, postId, uid);
    var twice := JoinPosts(once, postId, uid);
    forall k | 0 <= k < |posts| ensures twice[k] == once[k] {
      if posts[k].id == postId {
        ArrayUnionIdempotent(posts[k].players, uid);
      }
    }
  }

  /** Gated by `canJoin`, a join keeps the player count within a defined cap. */
  lemma GatedJoinWithinCap(user: Option<User>, post: InterestHubPost, now: int)
    requires CanJoin(user, post, now) && post.maxPlayers.Some?
    ensures |ArrayUnion(post.players, user.value.uid)| <= post.maxPlayers.value
  {
  }

  /** The handler alone does not keep the cap: a full game still takes one more player. */
  lemma UngatedJoinCanOverfill()
    ensures var post := InterestHubPost("p", "b", "A", "A", None, "2", "Basketball Court A", "Basketball",
                                        0, MsPerHour, "", "", "", ["A"], Some(1), 0);
      && IsGameFull(post)
      && |JoinPosts([post], "p", "B")[0].players| == 2
  {
    var post := InterestHubPost("p", "b", "A", "A", None, "2", "Basketball Court A", "Basketball",
                                0, MsPerHour, "", "", "", ["A"], Some(1), 0);
    assert "B" !in post.players;
  }

  /** A first player A, then B joins, then B joins again: the list is A then B both times. */
  lemma JoinScenario()
    ensures var post := InterestHubPost("p", "b", "A", "A", None, "2", "Basketball Court A", "Basketball",
                                        0, MsPerHour, "Pickup game", "Intermediate", "", ["A"], Some(10), 0);
      && JoinPosts([post], "p", "B")[0].players == ["A", "B"]
      && JoinPosts(JoinPosts([post], "p", "B"), "p", "B")[0].players == ["A", "B"]
  {
    var post := InterestHubPost("p", "b", "A", "A", None, "2", "Basketball Court A", "Basketball",
                                0, MsPerHour, "Pickup game", "Intermediate", "", ["A"], Some(10), 0);
    assert "B" !in post.players;
    JoinTwiceIsJoinOnce([post], "p", "B");
  }
}
