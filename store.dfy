/** The backend's two routers as operations on one in-memory store: hoarding id to
    hoarding and booking id to booking. Each handler runs as one atomic step; the clock
    reading `now` and the caller's id and role are inputs. Admin-only handlers model the
    handler body that runs once the admin gate has admitted the caller. */
module Backend {
  import opened Base
  import opened HoardingModel
  import opened BookingModel
  import opened BookingRules
  import opened HoardingRules

  /** A JSON response body. */
  datatype Body =
    | Message(text: string)
    | OneBooking(id: Id, booking: Booking)
    | BookingList(bookings: map<Id, Booking>)
    | OneHoarding(hid: Id, hoarding: Hoarding)
    | HoardingList(hoardings: map<Id, Hoarding>)

  /** An HTTP status code with its body. */
  datatype Reply = Reply(code: int, body: Body)

  const BOOKING_NOT_FOUND: Reply := Reply(404, Message("Booking not found"))
  const HOARDING_NOT_FOUND: Reply := Reply(404, Message("Hoarding not found"))
  const NOT_AVAILABLE: Reply := Reply(400, Message("Hoarding is not available"))
  const NOT_AUTHORIZED: Reply := Reply(403, Message("Not authorized"))
  /** What every handler's `catch` answers, a failed validation on save included. */
  const SERVER_ERROR: Reply := Reply(500, Message("Server error"))
  const BOOKING_REMOVED: Reply := Reply(200, Message("Booking removed"))
  const HOARDING_REMOVED: Reply := Reply(200, Message("Hoarding removed"))
  /** The refusal of the corrected admission, which consults the overlap query. */
  const ALREADY_BOOKED: Reply := Reply(400, Message("Hoarding is already booked for the selected dates"))

  /** Both dates were supplied and pass the booking schema's two date validators. */
  predicate DatesAdmissible(startDate: Option<int>, endDate: Option<int>, now: int) {
    && startDate.Some? && endDate.Some?
    && StartsInFuture(startDate.value, now)
    && EndsAfterStart(startDate.value, endDate.value)
  }

  /** The booking a successful admission stores. */
  function AdmittedBooking(actor: Id, hoardingId: Id, startDate: int, endDate: int, price: int): Booking {
    Booking(hoardingId, actor, startDate, endDate, PENDING,
            Some(TotalAmount(startDate, endDate, price)), DEFAULT_PAYMENT_STATUS)
  }

  /** A hoarding as a save leaves it: it passes the schema, and its location went
      through the trim setter. */
  predicate StoredHoarding(h: Hoarding) {
    ValidHoarding(h) && Trimmed(h.location)
  }

  class Store {
    var hoardings: map<Id, Hoarding>
    var bookings: map<Id, Booking>
    /** The next fresh document id. */
    var nextId: Id

    /** Every key is below `nextId`, every stored hoarding is as a save leaves it, and
        every stored booking meets the clock-free schema constraints. */
    ghost predicate Valid()
      reads this
    {
      && (forall id :: id in hoardings ==> id < nextId && StoredHoarding(hoardings[id]))
      && (forall id :: id in bookings ==> id < nextId && WellFormed(bookings[id]))
    }

    /** An empty store. */
    constructor ()
      ensures Valid() && hoardings == map[] && bookings == map[] && nextId == 0
    {
      hoardings, bookings, nextId := map[], map[], 0;
    }

    // ---------------------------------------------------------------- bookings router

    /** `GET /bookings`: every booking for an admin, exactly the caller's own otherwise. */
    method ListBookings(actor: Id, role: Role) returns (r: Reply)
      ensures r.code == 200 && r.body.BookingList?
      ensures forall id :: id in r.body.bookings <==> id in bookings && MayAccess(bookings[id], actor, role)
      ensures forall id :: id in r.body.bookings ==> r.body.bookings[id] == bookings[id]
    {
      ListingMatchesAccess(bookings, actor, role);
      r := Reply(200, BookingList(Visible(bookings, actor, role)));
    }

    /** `GET /bookings/:id`: 404 for an unknown id, 403 unless admin or owner. */
    method GetBooking(id: Id, actor: Id, role: Role) returns (r: Reply)
      ensures id !in bookings ==> r == BOOKING_NOT_FOUND
      ensures id in bookings && !MayAccess(bookings[id], actor, role) ==> r == NOT_AUTHORIZED
      ensures id in bookings && MayAccess(bookings[id], actor, role) ==> r == Reply(200, OneBooking(id, bookings[id]))
    {
      if id !in bookings {
        return BOOKING_NOT_FOUND;
      }
      var booking := bookings[id];
      if role != Admin && booking.user != actor {
        return NOT_AUTHORIZED;
      }
      r := Reply(200, OneBooking(id, booking));
    }

    /** `new Booking({...})` followed by `save()`: the pre-save hook prices the booking
        from the referenced hoarding, validation runs at clock reading `now`, and a
        passing document is stored under a fresh id. A missing date fails the schema's
        `required` check. Any failure is the handler's 500, with nothing stored. */
    method SaveNewBooking(actor: Id, hoardingId: Id, startDate: Option<int>, endDate: Option<int>, now: int)
      returns (r: Reply)
      requires Valid() && hoardingId in hoardings
      modifies this
      ensures Valid() && hoardings == old(hoardings)
      ensures !DatesAdmissible(startDate, endDate, now) ==> r == SERVER_ERROR && unchanged(this)
      ensures DatesAdmissible(startDate, endDate, now) ==>
        var b := AdmittedBooking(actor, hoardingId, startDate.value, endDate.value, hoardings[hoardingId].price);
        && old(nextId) !in old(bookings)
        && bookings == old(bookings)[old(nextId) := b]
        && nextId == old(nextId) + 1
        && r == Reply(200, OneBooking(old(nextId), b))
    {
      if startDate.None? || endDate.None? {
        return SERVER_ERROR;
      }
      var doc := new BookingDocument(hoardingId, actor, startDate.value, endDate.value, PENDING);
      doc.PreSave(hoardings, true, true);
      var b := doc.Value();
      if EndsAfterStart(b.startDate, b.endDate) {
        TotalAtLeastPrice(b.startDate, b.endDate, hoardings[hoardingId].price);
      }
      if !ValidBooking(b, now) {
        return SERVER_ERROR;
      }
      bookings := bookings[nextId := b];
      r := Reply(200, OneBooking(nextId, b));
      nextId := nextId + 1;
    }

    /** `POST /bookings`, as written: 404 for an unknown hoarding, 400 unless the hoarding
        is `available`, otherwise save a `pending` booking of the caller. The overlap query
        is never consulted, so the outcome does not depend on the bookings already stored,
        and no hoarding changes. */
    method CreateBooking(actor: Id, hoardingId: Id, startDate: Option<int>, endDate: Option<int>, now: int)
      returns (r: Reply)
      requires Valid()
      modifies this
      ensures Valid() && hoardings == old(hoardings)
      ensures hoardingId !in hoardings ==> r == HOARDING_NOT_FOUND && unchanged(this)
      ensures hoardingId in hoardings && hoardings[hoardingId].status != AVAILABLE ==>
        r == NOT_AVAILABLE && unchanged(this)
      ensures hoardingId in hoardings && hoardings[hoardingId].status == AVAILABLE ==>
        if !DatesAdmissible(startDate, endDate, now) then
          r == SERVER_ERROR && unchanged(this)
        else
          var b := AdmittedBooking(actor, hoardingId, startDate.value, endDate.value, hoardings[hoardingId].price);
          && old(nextId) !in old(bookings)
          && bookings == old(bookings)[old(nextId) := b]
          && nextId == old(nextId) + 1
          && r == Reply(200, OneBooking(old(nextId), b))
    {
      if hoardingId !in hoardings {
        return HOARDING_NOT_FOUND;
      }
      var hoarding := hoardings[hoardingId];
      if hoarding.status != AVAILABLE {
        return NOT_AVAILABLE;
      }
      r := SaveNewBooking(actor, hoardingId, startDate, endDate, now);
    }

    /** `POST /bookings` with the overlap query in the place its helper was written for:
        between the availability check and the save, refusing dates that clash with a
        pending or approved booking of the same hoarding. This admission keeps the store
        free of double bookings. */
    method CreateBookingChecked(actor: Id, hoardingId: Id, startDate: Option<int>, endDate: Option<int>, now: int)
      returns (r: Reply)
      requires Valid()
      modifies this
      ensures Valid() && hoardings == old(hoardings)
      ensures NoDoubleBooking(old(bookings)) ==> NoDoubleBooking(bookings)
      ensures hoardingId !in hoardings ==> r == HOARDING_NOT_FOUND && unchanged(this)
      ensures hoardingId in hoardings && hoardings[hoardingId].status != AVAILABLE ==>
        r == NOT_AVAILABLE && unchanged(this)
      ensures hoardingId in hoardings && hoardings[hoardingId].status == AVAILABLE ==>
        if startDate.Some? && endDate.Some?
           && HasOverlappingBooking(old(bookings), hoardingId, startDate.value, endDate.value) then
          r == ALREADY_BOOKED && unchanged(this)
        else if !DatesAdmissible(startDate, endDate, now) then
          r == SERVER_ERROR && unchanged(this)
        else
          var b := AdmittedBooking(actor, hoardingId, startDate.value, endDate.value, hoardings[hoardingId].price);
          && old(nextId) !in old(bookings)
          && bookings == old(bookings)[old(nextId) := b]
          && nextId == old(nextId) + 1
          && r == Reply(200, OneBooking(old(nextId), b))
    {
      if hoardingId !in hoardings {
        return HOARDING_NOT_FOUND;
      }
      var hoarding := hoardings[hoardingId];
      if hoarding.status != AVAILABLE {
        return NOT_AVAILABLE;
      }
      if startDate.Some? && endDate.Some? && HasOverlappingBooking(bookings, hoardingId, startDate.value, endDate.value) {
        return ALREADY_BOOKED;
      }
      ghost var before := bookings;
      r := SaveNewBooking(actor, hoardingId, startDate, endDate, now);
      if DatesAdmissible(startDate, endDate, now) && NoDoubleBooking(before) {
        CheckedInsertKeepsNoDoubleBooking(before, old(nextId), bookings[old(nextId)]);
      }
    }

    /** `PUT /bookings/:id/status`: 404 for an unknown id. Otherwise the new status is
        written whatever the old one was; the save's enum validation refuses a value
        outside the enum with the handler's 500. Only `approved` marks the referenced
        hoarding `booked` (when it still exists); nothing else changes. */
    method UpdateBookingStatus(id: Id, status: string) returns (r: Reply)
      requires Valid()
      modifies this
      ensures Valid() && nextId == old(nextId)
      ensures id !in old(bookings) ==> r == BOOKING_NOT_FOUND && unchanged(this)
      ensures id in old(bookings) && status !in BOOKING_STATUSES ==> r == SERVER_ERROR && unchanged(this)
      ensures id in old(bookings) && status in BOOKING_STATUSES ==>
        var b := old(bookings)[id].(status := status);
        && bookings == old(bookings)[id := b]
        && r == Reply(200, OneBooking(id, b))
        && hoardings ==
             if status == APPROVED && b.hoarding in old(hoardings)
             then old(hoardings)[b.hoarding := old(hoardings)[b.hoarding].(status := BOOKED)]
             else old(hoardings)
    {
      if id !in bookings {
        return BOOKING_NOT_FOUND;
      }
      var doc := new BookingDocument.Load(bookings[id]);
      doc.status := status;
      doc.PreSave(hoardings, false, false);
      var b := doc.Value();
      if !WellFormed(b) {
        return SERVER_ERROR;
      }
      bookings := bookings[id := b];
      if status == APPROVED && b.hoarding in hoardings {
        MarkBookedKeepsValid(hoardings[b.hoarding]);
        hoardings := hoardings[b.hoarding := hoardings[b.hoarding].(status := BOOKED)];
      }
      r := Reply(200, OneBooking(id, b));
    }

    /** `DELETE /bookings/:id`: 404 for an unknown id, 403 unless admin or owner, otherwise
        exactly that booking is removed, whatever its status; the hoarding's status is
        left as it was. */
    method DeleteBooking(id: Id, actor: Id, role: Role) returns (r: Reply)
      requires Valid()
      modifies this
      ensures Valid() && hoardings == old(hoardings) && nextId == old(nextId)
      ensures id !in old(bookings) ==> r == BOOKING_NOT_FOUND && bookings == old(bookings)
      ensures id in old(bookings) && !MayAccess(old(bookings)[id], actor, role) ==>
        r == NOT_AUTHORIZED && bookings == old(bookings)
      ensures id in old(bookings) && MayAccess(old(bookings)[id], actor, role) ==>
        r == BOOKING_REMOVED && bookings == old(bookings) - {id}
    {
      if id !in bookings {
        return BOOKING_NOT_FOUND;
      }
      if role != Admin && bookings[id].user != actor {
        return NOT_AUTHORIZED;
      }
      bookings := bookings - {id};
      r := BOOKING_REMOVED;
    }

    // ---------------------------------------------------------------- hoardings router

    /** `GET /hoardings`: every hoarding. */
    method ListHoardings() returns (r: Reply)
      ensures r.code == 200 && r.body.HoardingList?
      ensures r.body.hoardings.Keys == hoardings.Keys
      ensures forall id :: id in hoardings ==> r.body.hoardings[id] == hoardings[id]
    {
      r := Reply(200, HoardingList(hoardings));
    }

    /** `GET /hoardings/:id`: 404 for an unknown id. */
    method GetHoarding(id: Id) returns (r: Reply)
      ensures id !in hoardings ==> r == HOARDING_NOT_FOUND
      ensures id in hoardings ==> r == Reply(200, OneHoarding(id, hoardings[id]))
    {
      if id !in hoardings {
        return HOARDING_NOT_FOUND;
      }
      r := Reply(200, OneHoarding(id, hoardings[id]));
    }

    /** `save()` of a new hoarding document: a draft that passes the schema is stored
        under a fresh id; anything else is the handler's 500, with nothing stored. */
    method SaveNewHoarding(draft: Option<Hoarding>) returns (r: Reply)
      requires Valid()
      requires draft.Some? ==> Trimmed(draft.value.location)
      modifies this
      ensures Valid() && bookings == old(bookings)
      ensures !(draft.Some? && ValidHoarding(draft.value)) ==> r == SERVER_ERROR && unchanged(this)
      ensures draft.Some? && ValidHoarding(draft.value) ==>
        && old(nextId) !in old(hoardings)
        && hoardings == old(hoardings)[old(nextId) := draft.value]
        && nextId == old(nextId) + 1
        && r == Reply(200, OneHoarding(old(nextId), draft.value))
    {
      if draft.None? || !ValidHoarding(draft.value) {
        return SERVER_ERROR;
      }
      hoardings := hoardings[nextId := draft.value];
      r := Reply(200, OneHoarding(nextId, draft.value));
      nextId := nextId + 1;
    }

    /** `POST /hoardings`, as written: the document is built without `createdBy`, which
        the schema requires, so every request ends in the handler's 500 and nothing is
        stored. */
    method CreateHoarding(fields: HoardingFields) returns (r: Reply)
      requires Valid()
      modifies this
      ensures Valid() && r == SERVER_ERROR && unchanged(this)
    {
      var draft := Draft(fields, None);
      TrimYieldsTrimmed(fields.location);
      CreateRequestNeverValid(fields);
      r := SaveNewHoarding(draft);
    }

    /** `POST /hoardings` with the creator reference the schema requires set to the
        calling admin: a request with size and price whose document passes the schema is
        stored with status `status || 'available'`; otherwise 500 and nothing stored. */
    method CreateHoardingBy(actor: Id, fields: HoardingFields) returns (r: Reply)
      requires Valid()
      modifies this
      ensures Valid() && bookings == old(bookings)
      ensures var d := Draft(fields, Some(actor));
        if d.Some? && ValidHoarding(d.value) then
          && d.value.createdBy == Some(actor)
          && d.value.status == CreateStatus(fields.status)
          && old(nextId) !in old(hoardings)
          && hoardings == old(hoardings)[old(nextId) := d.value]
          && nextId == old(nextId) + 1
          && r == Reply(200, OneHoarding(old(nextId), d.value))
        else
          r == SERVER_ERROR && unchanged(this)
    {
      var draft := Draft(fields, Some(actor));
      TrimYieldsTrimmed(fields.location);
      r := SaveNewHoarding(draft);
    }

    /** `PUT /hoardings/:id`: 404 for an unknown id. Otherwise each of location, size,
        price and status is replaced only by a truthy request value; a merged document
        that fails the schema is the handler's 500. Only the target hoarding changes. */
    method UpdateHoarding(id: Id, fields: HoardingFields) returns (r: Reply)
      requires Valid()
      modifies this
      ensures Valid() && bookings == old(bookings) && nextId == old(nextId)
      ensures id !in old(hoardings) ==> r == HOARDING_NOT_FOUND && hoardings == old(hoardings)
      ensures id in old(hoardings) && !ValidHoarding(Merged(old(hoardings)[id], fields)) ==>
        r == SERVER_ERROR && hoardings == old(hoardings)
      ensures id in old(hoardings) && ValidHoarding(Merged(old(hoardings)[id], fields)) ==>
        && hoardings == old(hoardings)[id := Merged(old(hoardings)[id], fields)]
        && r == Reply(200, OneHoarding(id, Merged(old(hoardings)[id], fields)))
    {
      if id !in hoardings {
        return HOARDING_NOT_FOUND;
      }
      var h := hoardings[id];
      h := h.(location := Trim(if fields.location != "" then fields.location else h.location));
      h := h.(size := if fields.size.Some? then fields.size.value else h.size);
      h := h.(price := if SuppliedPrice(fields.price) then fields.price.value else h.price);
      h := h.(status := if fields.status != "" then fields.status else h.status);
      assert h == Merged(hoardings[id], fields);
      if !ValidHoarding(h) {
        return SERVER_ERROR;
      }
      MergeKeepsLocationTrimmed(hoardings[id], fields);
      r := SaveHoarding(id, h);
    }

    /** `save()` of a fetched hoarding that passes the schema: it replaces the stored one. */
    method SaveHoarding(id: Id, h: Hoarding) returns (r: Reply)
      requires Valid() && id in hoardings && StoredHoarding(h)
      modifies this
      ensures Valid() && bookings == old(bookings) && nextId == old(nextId)
      ensures hoardings == old(hoardings)[id := h] && r == Reply(200, OneHoarding(id, h))
    {
      hoardings := hoardings[id := h];
      r := Reply(200, OneHoarding(id, h));
    }

    /** `DELETE /hoardings/:id`: 404 for an unknown id, otherwise exactly that hoarding is
        removed; bookings that reference it stay in place. */
    method DeleteHoarding(id: Id) returns (r: Reply)
      requires Valid()
      modifies this
      ensures Valid() && bookings == old(bookings) && nextId == old(nextId)
      ensures id !in old(hoardings) ==> r == HOARDING_NOT_FOUND && hoardings == old(hoardings)
      ensures id in old(hoardings) ==> r == HOARDING_REMOVED && hoardings == old(hoardings) - {id}
    {
      if id !in hoardings {
        return HOARDING_NOT_FOUND;
      }
      hoardings := hoardings - {id};
      r := HOARDING_REMOVED;
    }
  }
}
