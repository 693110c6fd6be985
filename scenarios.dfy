/** Concrete client runs against the store: one hoarding on MG Road at 1000 a day, with
    dates counted in whole days from the clock reading 0. */
module Scenarios {
  import opened Base
  import opened Days
  import opened HoardingModel
  import opened BookingModel
  import opened BookingRules
  import opened HoardingRules
  import opened Backend

  const MG_ROAD: HoardingFields := HoardingFields("MG Road", Some(Size(10, 5)), Some(1000), "")

  /** A store holding just the MG Road hoarding, created by admin 7 under id 0. */
  method StoreWithOneHoarding() returns (s: Store)
    ensures fresh(s) && s.Valid()
    ensures s.bookings == map[] && s.nextId == 1 && s.hoardings.Keys == {0}
    ensures s.hoardings[0].status == AVAILABLE && s.hoardings[0].price == 1000
  {
    s := new Store();
    var d := Draft(MG_ROAD, Some(7));
    assert !IsSpace(MG_ROAD.location[0]);
    assert d.value.location != [];
    assert ValidHoarding(d.value);
    var created := s.CreateHoardingBy(7, MG_ROAD);
  }

  /** The as-written admission stores two pending bookings of the same hoarding, days
      10 to 13 and days 12 to 15, whose ranges intersect: the store is left with a
      double booking. */
  method DoubleBookingAdmitted() returns (s: Store, first: Reply, second: Reply)
    ensures s.Valid() && first.code == 200 && second.code == 200
    ensures !NoDoubleBooking(s.bookings)
  {
    s := StoreWithOneHoarding();
    first := s.CreateBooking(1, 0, Some(10 * MS_PER_DAY), Some(13 * MS_PER_DAY), 0);
    second := s.CreateBooking(2, 0, Some(12 * MS_PER_DAY), Some(15 * MS_PER_DAY), 0);
    assert 1 in s.bookings && 2 in s.bookings;
    assert Intersects(s.bookings[1].startDate, s.bookings[1].endDate,
                      s.bookings[2].startDate, s.bookings[2].endDate);
  }

  /** With the overlap query consulted, the same second request is refused, and so is a
      range that only touches the first one at its end; a range starting a day after the
      first ends is admitted, and the store stays free of double bookings. */
  method CheckedAdmissionRefusesOverlap() returns (s: Store, overlapping: Reply, touching: Reply, later: Reply)
    ensures s.Valid() && NoDoubleBooking(s.bookings)
    ensures overlapping == ALREADY_BOOKED && touching == ALREADY_BOOKED && later.code == 200
  {
    s := StoreWithOneHoarding();
    var first := s.CreateBookingChecked(1, 0, Some(10 * MS_PER_DAY), Some(13 * MS_PER_DAY), 0);
    assert s.bookings[1].startDate == 10 * MS_PER_DAY && s.bookings[1].endDate == 13 * MS_PER_DAY;
    overlapping := s.CreateBookingChecked(2, 0, Some(12 * MS_PER_DAY), Some(15 * MS_PER_DAY), 0);
    touching := s.CreateBookingChecked(2, 0, Some(13 * MS_PER_DAY), Some(16 * MS_PER_DAY), 0);
    var bookings := s.bookings;
    assert Conflicts(bookings[1], 0, 13 * MS_PER_DAY, 16 * MS_PER_DAY);
    assert !HasOverlappingBooking(bookings, 0, 14 * MS_PER_DAY, 16 * MS_PER_DAY) by {
      assert bookings.Keys == {1};
    }
    later := s.CreateBookingChecked(2, 0, Some(14 * MS_PER_DAY), Some(16 * MS_PER_DAY), 0);
  }

  /** A three-day booking at 1000 a day is stored with a total of 3000, and a booking of
      a single millisecond is charged a full day. */
  method BookingsArePricedPerStartedDay() returns (s: Store, threeDays: Reply, oneMilli: Reply)
    ensures s.Valid()
    ensures threeDays.body.OneBooking? && threeDays.body.booking.totalAmount == Some(3000)
    ensures oneMilli.body.OneBooking? && oneMilli.body.booking.totalAmount == Some(1000)
  {
    s := StoreWithOneHoarding();
    threeDays := s.CreateBooking(1, 0, Some(10 * MS_PER_DAY), Some(13 * MS_PER_DAY), 0);
    DurationCoversSpan(10 * MS_PER_DAY, 13 * MS_PER_DAY);
    CeilDivUnique(3 * MS_PER_DAY, MS_PER_DAY, 3);
    oneMilli := s.CreateBooking(1, 0, Some(20 * MS_PER_DAY), Some(20 * MS_PER_DAY + 1), 0);
    ShortBookingCostsOneDay(20 * MS_PER_DAY, 20 * MS_PER_DAY + 1, 1000);
  }

  /** Approving a booking marks its hoarding `booked`, after which the hoarding refuses
      every further request, even for dates far from the approved range. */
  method ApprovalBlocksAllDates() returns (s: Store, approval: Reply, later: Reply)
    ensures s.Valid()
    ensures approval.code == 200 && 0 in s.hoardings && s.hoardings[0].status == BOOKED
    ensures later == NOT_AVAILABLE
  {
    s := StoreWithOneHoarding();
    var first := s.CreateBooking(1, 0, Some(10 * MS_PER_DAY), Some(13 * MS_PER_DAY), 0);
    approval := s.UpdateBookingStatus(1, APPROVED);
    later := s.CreateBooking(2, 0, Some(100 * MS_PER_DAY), Some(101 * MS_PER_DAY), 0);
  }
}
