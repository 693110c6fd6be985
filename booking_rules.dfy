/** The pure parts of the booking routes: the overlap query, the owner-or-admin guard
    and the listing filter, with the intended "no double booking" invariant. */
module BookingRules {
  import opened Base
  import opened BookingModel

  /** Statuses whose bookings hold a claim on their hoarding (`$in: ['pending', 'approved']`). */
  predicate Live(status: string) {
    status == PENDING || status == APPROVED
  }

  /** The query's three-case `$or` for an existing range [es, ee] against a new [s, e]:
      the new range starts inside it, ends inside it, or encloses it. */
  predicate OverlapCases(es: int, ee: int, s: int, e: int) {
    || (es <= s && ee >= s)
    || (es <= e && ee >= e)
    || (es >= s && ee <= e)
  }

  /** Plain intersection of the closed intervals [es, ee] and [s, e]. */
  predicate Intersects(es: int, ee: int, s: int, e: int) {
    es <= e && s <= ee
  }

  /** One document matching the query for hoarding `hoardingId` and dates [s, e]. */
  predicate Conflicts(b: Booking, hoardingId: Id, s: int, e: int) {
    && b.hoarding == hoardingId
    && Live(b.status)
    && OverlapCases(b.startDate, b.endDate, s, e)
  }

  /** `hasOverlappingBooking`: some stored booking matches the query. */
  predicate HasOverlappingBooking(bookings: map<Id, Booking>, hoardingId: Id, s: int, e: int) {
    exists id :: id in bookings && Conflicts(bookings[id], hoardingId, s, e)
  }

  /** For well-ordered ranges the three cases say exactly that the closed intervals
      intersect; bounds are inclusive. */
  lemma OverlapIsIntersection(es: int, ee: int, s: int, e: int)
    requires s <= e && es <= ee
    ensures OverlapCases(es, ee, s, e) <==> Intersects(es, ee, s, e)
  {
  }

  /** A new range that starts at the very instant an existing one ends still overlaps it. */
  lemma TouchingRangesOverlap(es: int, ee: int, e: int)
    requires es <= ee <= e
    ensures OverlapCases(es, ee, ee, e)
  {
  }

  /** Every stored range is well ordered. */
  ghost predicate OrderedRanges(bookings: map<Id, Booking>) {
    forall id :: id in bookings ==> bookings[id].startDate <= bookings[id].endDate
  }

  /** Over well-ordered stored ranges the query finds a booking exactly when some live
      booking of the same hoarding intersects [s, e]. */
  lemma {:induction false} OverlapQueryIsIntersection(bookings: map<Id, Booking>, hoardingId: Id, s: int, e: int)
    requires OrderedRanges(bookings) && s <= e
    ensures HasOverlappingBooking(bookings, hoardingId, s, e) <==>
      exists id :: id in bookings && bookings[id].hoarding == hoardingId && Live(bookings[id].status)
                   && Intersects(bookings[id].startDate, bookings[id].endDate, s, e)
  {
    forall id | id in bookings
      ensures OverlapCases(bookings[id].startDate, bookings[id].endDate, s, e)
          <==> Intersects(bookings[id].startDate, bookings[id].endDate, s, e)
    {
      OverlapIsIntersection(bookings[id].startDate, bookings[id].endDate, s, e);
    }
  }

  /** Adding or replacing a booking that holds no claim (a rejected one, say) never
      changes the query's answer for the slot it replaces, when that slot held none either. */
  lemma {:induction false} UnclaimedBookingsNeverCount(bookings: map<Id, Booking>, id: Id, b: Booking, hoardingId: Id, s: int, e: int)
    requires !Live(b.status)
    requires id in bookings ==> !Live(bookings[id].status)
    ensures HasOverlappingBooking(bookings[id := b], hoardingId, s, e) == HasOverlappingBooking(bookings, hoardingId, s, e)
  {
    var m := bookings[id := b];
    if HasOverlappingBooking(m, hoardingId, s, e) {
      var j :| j in m && Conflicts(m[j], hoardingId, s, e);
      assert j != id && j in bookings && m[j] == bookings[j];
    }
    if HasOverlappingBooking(bookings, hoardingId, s, e) {
      var j :| j in bookings && Conflicts(bookings[j], hoardingId, s, e);
      assert j != id && j in m && m[j] == bookings[j];
    }
  }

  /** The intended invariant: no two live bookings of one hoarding share an instant. */
  ghost predicate NoDoubleBooking(bookings: map<Id, Booking>) {
    forall i, j :: i in bookings && j in bookings && i != j
      && bookings[i].hoarding == bookings[j].hoarding
      && Live(bookings[i].status) && Live(bookings[j].status)
      ==> !Intersects(bookings[i].startDate, bookings[i].endDate, bookings[j].startDate, bookings[j].endDate)
  }

  /** Inserting a booking after the overlap query found nothing keeps the invariant. */
  lemma {:induction false} CheckedInsertKeepsNoDoubleBooking(bookings: map<Id, Booking>, id: Id, b: Booking)
    requires id !in bookings
    requires NoDoubleBooking(bookings) && OrderedRanges(bookings)
    requires b.startDate <= b.endDate
    requires !HasOverlappingBooking(bookings, b.hoarding, b.startDate, b.endDate)
    ensures NoDoubleBooking(bookings[id := b])
  {
    var m := bookings[id := b];
    forall i | i in bookings && bookings[i].hoarding == b.hoarding && Live(bookings[i].status)
      ensures !Intersects(bookings[i].startDate, bookings[i].endDate, b.startDate, b.endDate)
    {
      assert !Conflicts(bookings[i], b.hoarding, b.startDate, b.endDate);
      OverlapIsIntersection(bookings[i].startDate, bookings[i].endDate, b.startDate, b.endDate);
    }
    forall i, j | i in m && j in m && i != j && m[i].hoarding == m[j].hoarding && Live(m[i].status) && Live(m[j].status)
      ensures !Intersects(m[i].startDate, m[i].endDate, m[j].startDate, m[j].endDate)
    {
      if i == id {
        assert m[j] == bookings[j];
      } else if j == id {
        assert m[i] == bookings[i];
      } else {
        assert m[i] == bookings[i] && m[j] == bookings[j];
      }
    }
  }

  /** The guard of the read and delete handlers: an admin, or the booking's owner. */
  predicate MayAccess(b: Booking, actor: Id, role: Role) {
    role == Admin || b.user == actor
  }

  /** `Booking.find({ user })`: exactly the bookings of `user`, unchanged. */
  function OwnedBy(bookings: map<Id, Booking>, user: Id): (r: map<Id, Booking>)
    ensures forall id :: id in r <==> id in bookings && bookings[id].user == user
    ensures forall id :: id in r ==> r[id] == bookings[id]
  {
    map id | id in bookings && bookings[id].user == user :: bookings[id]
  }

  /** What the listing handler returns: everything for an admin, the caller's own otherwise. */
  function Visible(bookings: map<Id, Booking>, actor: Id, role: Role): map<Id, Booking> {
    if role == Admin then bookings else OwnedBy(bookings, actor)
  }

  /** The listing shows exactly the bookings the read handler would let this caller fetch. */
  lemma ListingMatchesAccess(bookings: map<Id, Booking>, actor: Id, role: Role)
    ensures forall id :: id in Visible(bookings, actor, role) <==>
      id in bookings && MayAccess(bookings[id], actor, role)
    ensures forall id :: id in Visible(bookings, actor, role) ==> Visible(bookings, actor, role)[id] == bookings[id]
  {
  }
}
