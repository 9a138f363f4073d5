/** The My Bookings page: the upcoming / pending / past tabs over the user's bookings, the
    facility-name lookup, and cancelling a booking by deleting its document. */
module MyBookings {
  import opened Wrappers
  import opened Types
  import opened Seqs
  import opened Catalog
  import opened DocStore

  datatype Tab = UpcomingTab | PendingTab | PastTab

  /** The filters of `upcomingBookings`, `pendingBookings` and `pastBookings`. */
  predicate InTab(b: Booking, tab: Tab, now: int) {
    match tab
    case UpcomingTab => b.status == Confirmed && b.startTime > now
    case PendingTab => b.status == Pending && b.startTime > now
    case PastTab => b.startTime <= now
  }

  /** The bookings shown under a tab, in subscription order. */
  function TabBookings(bookings: seq<Booking>, tab: Tab, now: int): (r: seq<Booking>)
    ensures forall b :: b in r <==> b in bookings && InTab(b, tab, now)
    ensures IsSublist(r, bookings)
  {
    Filter(bookings, (b: Booking) => InTab(b, tab, now))
  }

  /** Upcoming holds the confirmed future bookings, pending the pending future ones, past every
      booking that has started, whatever its status; no booking is under two tabs, and a
      cancelled future booking is under none. */
  lemma TabsMeaning(bookings: seq<Booking>, now: int)
    ensures forall b :: b in TabBookings(bookings, UpcomingTab, now) <==> b in bookings && b.status == Confirmed && b.startTime > now
    ensures forall b :: b in TabBookings(bookings, PendingTab, now) <==> b in bookings && b.status == Pending && b.startTime > now
    ensures forall b :: b in TabBookings(bookings, PastTab, now) <==> b in bookings && b.startTime <= now
    ensures forall b: Booking, t1: Tab, t2: Tab :: b in TabBookings(bookings, t1, now) && b in TabBookings(bookings, t2, now) ==> t1 == t2
    ensures forall b: Booking, t: Tab :: b.status == Cancelled && b.startTime > now ==> b !in TabBookings(bookings, t, now)
  {
  }

  /** Cancelled future bookings, which no tab shows. */
  function HiddenCount(bookings: seq<Booking>, now: int): nat {
    if bookings == [] then 0
    else (if bookings[0].status == Cancelled && bookings[0].startTime > now then 1 else 0) + HiddenCount(bookings[1..], now)
  }

  /** The tabs and the hidden cancelled future bookings account for every booking exactly once. */
  lemma {:induction false} TabsPartition(bookings: seq<Booking>, now: int)
    ensures |TabBookings(bookings, UpcomingTab, now)| + |TabBookings(bookings, PendingTab, now)|
          + |TabBookings(bookings, PastTab, now)| + HiddenCount(bookings, now) == |bookings|
  {
    if bookings != [] {
      TabsPartition(bookings[1..], now);
    }
  }

  /** The subscription's order, `startTime` descending. */
  predicate LaterFirst(a: Booking, b: Booking) {
    a.startTime >= b.startTime
  }

  /** Each tab keeps the subscription's newest-first order. */
  lemma TabsKeepOrder(bookings: seq<Booking>, tab: Tab, now: int)
    requires Ordered(bookings, LaterFirst)
    ensures Ordered(TabBookings(bookings, tab, now), LaterFirst)
  {
    SublistKeepsOrder(TabBookings(bookings, tab, now), bookings, LaterFirst);
  }

  /** `getFacilityName`: the catalog name, or "Unknown Facility" when the id is unknown or the name is empty. */
  function GetFacilityName(catalog: seq<Facility>, facilityId: string): (r: string)
    ensures (forall f :: f in catalog ==> f.id != facilityId) ==> r == "Unknown Facility"
    ensures FindFacility(catalog, facilityId).Some? && FindFacility(catalog, facilityId).value.name != "" ==>
      r == FindFacility(catalog, facilityId).value.name
    ensures FindFacility(catalog, facilityId).Some? && FindFacility(catalog, facilityId).value.name == "" ==>
      r == "Unknown Facility"
    ensures r == "Unknown Facility" || exists f :: f in catalog && f.id == facilityId && f.name == r
  {
    match FindFacility(catalog, facilityId)
    case Some(f) => OrElse(Some(f.name), "Unknown Facility")
    case None => "Unknown Facility"
  }

  /** Every shipped facility id names its facility; anything else is unknown. */
  lemma ShippedFacilityNames(id: string)
    ensures id == "2" ==> GetFacilityName(Facilities, id) == "Basketball Court A"
    ensures (forall f :: f in Facilities ==> f.id != id) ==> GetFacilityName(Facilities, id) == "Unknown Facility"
  {
  }

  /** `handleCancelBooking`: delete the booking document. Its status is not set to cancelled and
      any post made for it stays. `deleteOk` is whether the store accepted the delete. */
  method HandleCancelBooking(db: Store, bookingId: string, deleteOk: bool) returns (cancelled: bool)
    modifies db
    ensures cancelled == deleteOk
    ensures db.bookings == if deleteOk then WithoutBooking(old(db.bookings), bookingId) else old(db.bookings)
    ensures db.posts == old(db.posts) && db.teams == old(db.teams)
    ensures db.members == old(db.members) && db.users == old(db.users)
  {
    if !deleteOk {
      return false;
    }
    db.DeleteBooking(bookingId);
    cancelled := true;
  }

  /** After a cancel every tab shows what it showed before, less the cancelled booking, in the
      same order. */
  lemma {:induction false} CancelUpdatesTabs(bookings: seq<Booking>, bookingId: string, tab: Tab, now: int)
    ensures TabBookings(WithoutBooking(bookings, bookingId), tab, now)
         == WithoutBooking(TabBookings(bookings, tab, now), bookingId)
  {
    if bookings != [] {
      CancelUpdatesTabs(bookings[1..], bookingId, tab, now);
      if InTab(bookings[0], tab, now) {
        assert ([bookings[0]] + TabBookings(bookings[1..], tab, now))[1..] == TabBookings(bookings[1..], tab, now);
      }
      if bookings[0].id != bookingId {
        assert ([bookings[0]] + WithoutBooking(bookings[1..], bookingId))[1..] == WithoutBooking(bookings[1..], bookingId);
      }
    }
  }
}
