/** The booking document schema: validators, enums with defaults, and the pre-save
    hook that prices a booking from its dates and the hoarding's daily rate. */
module BookingModel {
  import opened Base
  import opened Days
  import opened HoardingModel

  const PENDING: string := "pending"
  const APPROVED: string := "approved"
  const REJECTED: string := "rejected"

  /** The values the `status` enum admits. Its default, PENDING, is never reached: the
      create handler always passes `'pending'` explicitly. */
  const BOOKING_STATUSES: set<string> := {PENDING, APPROVED, REJECTED}

  const PAYMENT_PENDING: string := "pending"
  const PAYMENT_PAID: string := "paid"
  const PAYMENT_FAILED: string := "failed"

  /** The values the `paymentStatus` enum admits; its default is PAYMENT_PENDING. */
  const PAYMENT_STATUSES: set<string> := {PAYMENT_PENDING, PAYMENT_PAID, PAYMENT_FAILED}
  const DEFAULT_PAYMENT_STATUS: string := PAYMENT_PENDING

  /** A booking document. Dates are instants in milliseconds; `totalAmount` is absent
      until the pre-save hook has priced the booking. Payment details are not modelled. */
  datatype Booking = Booking(
    hoarding: Id,
    user: Id,
    startDate: int,
    endDate: int,
    status: string,
    totalAmount: Option<int>,
    paymentStatus: string)

  /** The `startDate` validator: strictly after the clock reading `now`. */
  predicate StartsInFuture(startDate: int, now: int) {
    startDate > now
  }

  /** The `endDate` validator: strictly after the start date. */
  predicate EndsAfterStart(startDate: int, endDate: int) {
    endDate > startDate
  }

  /** The schema constraints that do not read the clock. */
  predicate WellFormed(b: Booking) {
    && EndsAfterStart(b.startDate, b.endDate)
    && b.status in BOOKING_STATUSES
    && b.totalAmount.Some? && b.totalAmount.value >= 0
    && b.paymentStatus in PAYMENT_STATUSES
  }

  /** Every schema constraint, checked when a new booking is saved at clock reading `now`. */
  predicate ValidBooking(b: Booking, now: int) {
    StartsInFuture(b.startDate, now) && WellFormed(b)
  }

  /** `Math.ceil((endDate - startDate) / (1000 * 60 * 60 * 24))`, on real numbers. */
  function DurationDays(startDate: int, endDate: int): int {
    Ceil((endDate - startDate) as real / MS_PER_DAY as real)
  }

  /** `duration * hoarding.price`. */
  function TotalAmount(startDate: int, endDate: int, price: int): int {
    DurationDays(startDate, endDate) * price
  }

  /** The duration is the number of days rounded up: the least whole number of days
      that covers the booked span. */
  lemma {:induction false} DurationCoversSpan(startDate: int, endDate: int)
    ensures DurationDays(startDate, endDate) == CeilDiv(endDate - startDate, MS_PER_DAY)
    ensures (DurationDays(startDate, endDate) - 1) * MS_PER_DAY < endDate - startDate
    ensures endDate - startDate <= DurationDays(startDate, endDate) * MS_PER_DAY
  {
    CeilOfQuotient(endDate - startDate, MS_PER_DAY);
  }

  /** A booking that ends after it starts lasts at least one day: a partial day is
      charged as a whole one. */
  lemma {:induction false} DurationAtLeastOneDay(startDate: int, endDate: int)
    requires EndsAfterStart(startDate, endDate)
    ensures DurationDays(startDate, endDate) >= 1
  {
    DurationCoversSpan(startDate, endDate);
    CeilDivPositive(endDate - startDate, MS_PER_DAY);
  }

  /** A booking of at most one day costs exactly one day's price. */
  lemma {:induction false} ShortBookingCostsOneDay(startDate: int, endDate: int, price: int)
    requires startDate < endDate <= startDate + MS_PER_DAY
    ensures TotalAmount(startDate, endDate, price) == price
  {
    DurationCoversSpan(startDate, endDate);
    CeilDivUnique(endDate - startDate, MS_PER_DAY, 1);
  }

  /** For a well-ordered range and a non-negative price the amount is at least one day's
      price, and so meets the schema's `min: 0` on `totalAmount`. */
  lemma {:induction false} TotalAtLeastPrice(startDate: int, endDate: int, price: int)
    requires EndsAfterStart(startDate, endDate) && price >= 0
    ensures TotalAmount(startDate, endDate, price) >= price >= 0
  {
    DurationAtLeastOneDay(startDate, endDate);
    var d := DurationDays(startDate, endDate);
    assert d * price == price + (d - 1) * price;
    assert (d - 1) * price >= 0;
  }

  /** Extending the end by `k` whole days adds exactly `k` days' price. */
  lemma {:induction false} TotalLinearInDays(startDate: int, endDate: int, price: int, k: int)
    ensures TotalAmount(startDate, endDate + k * MS_PER_DAY, price)
         == TotalAmount(startDate, endDate, price) + k * price
  {
    DurationCoversSpan(startDate, endDate);
    DurationCoversSpan(startDate, endDate + k * MS_PER_DAY);
    assert endDate + k * MS_PER_DAY - startDate == (endDate - startDate) + k * MS_PER_DAY;
    CeilDivShift(endDate - startDate, MS_PER_DAY, k);
    var d := DurationDays(startDate, endDate);
    assert (d + k) * price == d * price + k * price;
  }

  /** A booking document in memory (`new Booking({...})` or one loaded by `findById`),
      whose pre-save hook assigns `totalAmount` in place. */
  class BookingDocument {
    var hoarding: Id
    var user: Id
    var startDate: int
    var endDate: int
    var status: string
    var totalAmount: Option<int>
    var paymentStatus: string

    /** The document's current field values. */
    function Value(): Booking
      reads this
    {
      Booking(hoarding, user, startDate, endDate, status, totalAmount, paymentStatus)
    }

    /** `new Booking({ user, hoarding, startDate, endDate, status })`: the amount is not
        yet set and the payment status takes its default. */
    constructor (hoarding: Id, user: Id, startDate: int, endDate: int, status: string)
      ensures Value() == Booking(hoarding, user, startDate, endDate, status, None, DEFAULT_PAYMENT_STATUS)
    {
      this.hoarding := hoarding;
      this.user := user;
      this.startDate := startDate;
      this.endDate := endDate;
      this.status := status;
      this.totalAmount := None;
      this.paymentStatus := DEFAULT_PAYMENT_STATUS;
    }

    /** A document loaded from the store. */
    constructor Load(b: Booking)
      ensures Value() == b
    {
      hoarding := b.hoarding;
      user := b.user;
      startDate := b.startDate;
      endDate := b.endDate;
      status := b.status;
      totalAmount := b.totalAmount;
      paymentStatus := b.paymentStatus;
    }

    /** The pre-save hook. When either date was modified (the `isModified` flags) and the
        referenced hoarding is in `hoardings`, the amount becomes the rounded-up day count
        times that hoarding's daily price; otherwise the document is left as it was.
        No other field changes. */
    method PreSave(hoardings: map<Id, Hoarding>, startModified: bool, endModified: bool)
      modifies this
      ensures hoarding == old(hoarding) && user == old(user) && status == old(status)
      ensures startDate == old(startDate) && endDate == old(endDate)
      ensures paymentStatus == old(paymentStatus)
      ensures (startModified || endModified) && hoarding in hoardings ==>
        totalAmount == Some(TotalAmount(startDate, endDate, hoardings[hoarding].price))
      ensures !((startModified || endModified) && hoarding in hoardings) ==>
        totalAmount == old(totalAmount)
    {
      if startModified || endModified {
        if hoarding in hoardings {
          var duration := DurationDays(startDate, endDate);
          totalAmount := Some(duration * hoardings[hoarding].price);
        }
      }
    }
  }
}
