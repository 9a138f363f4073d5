/** The document store and the authentication service, as in-memory state with the write
    primitives the application calls: transactional writes, document deletion, array union and
    field update. */
module DocStore {
  import opened Wrappers
  import opened Types
  import opened Seqs

  /** A document of `teams/{teamId}/members`. */
  datatype MemberDoc = MemberDoc(teamId: string, member: TeamMember)

  /** The documents of `teams/{teamId}/members`, in store order. */
  function RosterOf(docs: seq<MemberDoc>, teamId: string): (r: seq<TeamMember>)
    ensures forall m :: m in r <==> MemberDoc(teamId, m) in docs
    ensures |r| <= |docs|
  {
    if docs == [] then []
    else if docs[0].teamId == teamId then [docs[0].member] + RosterOf(docs[1..], teamId)
    else RosterOf(docs[1..], teamId)
  }

  /** `members.map(m => m.uid)`. */
  function Uids(ms: seq<TeamMember>): (r: seq<string>)
    ensures |r| == |ms|
    ensures forall k :: 0 <= k < |ms| ==> r[k] == ms[k].uid
  {
    seq(|ms|, k requires 0 <= k < |ms| => ms[k].uid)
  }

  /** Firestore `arrayUnion(x)` on an array field: `x` is appended unless already present. */
  function ArrayUnion(xs: seq<string>, x: string): (r: seq<string>)
    ensures x in r
    ensures xs <= r
    ensures forall y :: y in r <==> y in xs || y == x
    ensures NoDup(xs) ==> NoDup(r)
    ensures |r| == if x in xs then |xs| else |xs| + 1
  {
    if x in xs then xs else xs + [x]
  }

  /** A second union with the same element changes nothing. */
  lemma ArrayUnionIdempotent(xs: seq<string>, x: string)
    ensures ArrayUnion(ArrayUnion(xs, x), x) == ArrayUnion(xs, x)
  {
  }

  /** The posts after `updateDoc(post id, { players: arrayUnion(uid) })`: every post with that id gets the uid. */
  function JoinPosts(posts: seq<InterestHubPost>, postId: string, uid: string): (r: seq<InterestHubPost>)
    ensures |r| == |posts|
    ensures forall k :: 0 <= k < |posts| && posts[k].id != postId ==> r[k] == posts[k]
    ensures forall k :: 0 <= k < |posts| && posts[k].id == postId ==>
      r[k] == posts[k].(players := ArrayUnion(posts[k].players, uid))
  {
    seq(|posts|, k requires 0 <= k < |posts| =>
      if posts[k].id == postId then posts[k].(players := ArrayUnion(posts[k].players, uid)) else posts[k])
  }

  /** `deleteDoc(bookings/{id})`: the booking documents other than `id`, in order. */
  function WithoutBooking(bookings: seq<Booking>, id: string): (r: seq<Booking>)
    ensures forall b :: b in r <==> b in bookings && b.id != id
    ensures |r| <= |bookings|
  {
    if bookings == [] then []
    else if bookings[0].id == id then WithoutBooking(bookings[1..], id)
    else [bookings[0]] + WithoutBooking(bookings[1..], id)
  }

  /** The collections the application reads and writes. */
  class Store {
    var bookings: seq<Booking>
    var posts: seq<InterestHubPost>
    var teams: seq<Team>
    var members: seq<MemberDoc>
    /** `users/{uid}.displayName`, for the user documents that exist. */
    var users: map<string, string>

    constructor ()
      ensures bookings == [] && posts == [] && teams == [] && members == [] && users == map[]
    {
      bookings, posts, teams, members, users := [], [], [], [], map[];
    }

    /** A committed booking transaction: the booking and, when there is one, its post. */
    method CommitBooking(b: Booking, p: Option<InterestHubPost>)
      modifies this
      ensures bookings == old(bookings) + [b]
      ensures posts == old(posts) + OptionToSeq(p)
      ensures teams == old(teams) && members == old(members) && users == old(users)
    {
      bookings := bookings + [b];
      posts := posts + OptionToSeq(p);
    }

    /** A committed team transaction: the team document and one member document under it. */
    method CommitTeam(t: Team, m: TeamMember)
      modifies this
      ensures teams == old(teams) + [t]
      ensures members == old(members) + [MemberDoc(t.id, m)]
      ensures bookings == old(bookings) && posts == old(posts) && users == old(users)
    {
      teams := teams + [t];
      members := members + [MemberDoc(t.id, m)];
    }

    /** `deleteDoc`: removing a document that does not exist succeeds and changes nothing. */
    method DeleteBooking(id: string)
      modifies this
      ensures bookings == WithoutBooking(old(bookings), id)
      ensures posts == old(posts) && teams == old(teams) && members == old(members) && users == old(users)
    {
      bookings := WithoutBooking(bookings, id);
    }

    /** `updateDoc(interestHubPosts/{postId}, { players: arrayUnion(uid) })`. It fails when the post does
        not exist, and when the store rejects the write for any other reason (permissions, network),
        which `accepted` says. */
    method UnionPlayers(postId: string, uid: string, accepted: bool) returns (written: bool)
      modifies this
      ensures written <==> accepted && exists p :: p in old(posts) && p.id == postId
      ensures posts == if written then JoinPosts(old(posts), postId, uid) else old(posts)
      ensures bookings == old(bookings) && teams == old(teams) && members == old(members) && users == old(users)
    {
      written := accepted && exists p :: p in posts && p.id == postId;
      if written {
        posts := JoinPosts(posts, postId, uid);
      }
    }

    /** `updateDoc(users/{uid}, { displayName })`. It fails when the user document does not exist, and
        when the store rejects the write for any other reason, which `accepted` says. */
    method UpdateUserName(uid: string, name: string, accepted: bool) returns (written: bool)
      modifies this
      ensures written <==> accepted && uid in old(users)
      ensures users == if written then old(users)[uid := name] else old(users)
      ensures bookings == old(bookings) && posts == old(posts) && teams == old(teams) && members == old(members)
    {
      written := accepted && uid in users;
      if written {
        users := users[uid := name];
      }
    }
  }

  /** The authentication service: who `auth.currentUser` is and each account's profile display name. */
  class Auth {
    var currentUser: Option<string>
    var displayNames: map<string, string>

    constructor (current: Option<string>, names: map<string, string>)
      ensures currentUser == current && displayNames == names
    {
      currentUser, displayNames := current, names;
    }

    /** A successful `updateProfile(account, { displayName })`. */
    method UpdateProfile(uid: string, name: string)
      modifies this
      ensures displayNames == old(displayNames)[uid := name]
      ensures currentUser == old(currentUser)
    {
      displayNames := displayNames[uid := name];
    }

    /** A successful `signOut`: nobody is signed in any more. */
    method SignOut()
      modifies this
      ensures currentUser.None? && displayNames == old(displayNames)
    {
      currentUser := None;
    }
  }
}
