/** The bookings page: its own copy of the pricing rule, the status chip colours, and
    the delete confirmation dialog. */
module BookingsPage {
  import opened Base
  import opened Days
  import opened BookingModel

  /** `calculateTotalPrice`: `Math.ceil((end - start) / (1000 * 60 * 60 * 24))` times
      the daily price of the booking's hoarding as the page fetched it. */
  function CalculateTotalPrice(startDate: int, endDate: int, dailyPrice: int): int {
    Ceil((endDate - startDate) as real / (1000 * 60 * 60 * 24) as real) * dailyPrice
  }

  /** The page's copy of the rule computes the backend's `totalAmount` for the same inputs. */
  lemma PagePriceMatchesBackend(startDate: int, endDate: int, dailyPrice: int)
    ensures CalculateTotalPrice(startDate, endDate, dailyPrice) == TotalAmount(startDate, endDate, dailyPrice)
  {
  }

  /** For a range that ends after it starts and a non-negative rate the page shows at
      least one day's price. */
  lemma {:induction false} PagePriceAtLeastDailyPrice(startDate: int, endDate: int, dailyPrice: int)
    requires EndsAfterStart(startDate, endDate) && dailyPrice >= 0
    ensures CalculateTotalPrice(startDate, endDate, dailyPrice) >= dailyPrice
  {
    PagePriceMatchesBackend(startDate, endDate, dailyPrice);
    TotalAtLeastPrice(startDate, endDate, dailyPrice);
  }

  /** The page prices with the hoarding's current rate, the backend stored the rate of
      the moment of booking: the two agree exactly when the rate has not changed. */
  lemma {:induction false} PagePriceAgreesIffRateUnchanged(b: Booking, bookedRate: int, currentRate: int)
    requires EndsAfterStart(b.startDate, b.endDate)
    requires b.totalAmount == Some(TotalAmount(b.startDate, b.endDate, bookedRate))
    ensures CalculateTotalPrice(b.startDate, b.endDate, currentRate) == b.totalAmount.value <==> currentRate == bookedRate
  {
    PagePriceMatchesBackend(b.startDate, b.endDate, currentRate);
    DurationAtLeastOneDay(b.startDate, b.endDate);
    var d := DurationDays(b.startDate, b.endDate);
    assert d * currentRate - d * bookedRate == d * (currentRate - bookedRate);
    if currentRate != bookedRate {
      assert d * (currentRate - bookedRate) != 0;
    }
  }

  /** `getStatusColor`: a chip colour for each status of the booking enum, and
      `default` for anything else. */
  function StatusColor(status: string): (color: string)
    ensures status == APPROVED ==> color == "success"
    ensures status == PENDING ==> color == "warning"
    ensures status == REJECTED ==> color == "error"
    ensures color == "default" <==> status !in BOOKING_STATUSES
  {
    if status == APPROVED then "success"
    else if status == PENDING then "warning"
    else if status == REJECTED then "error"
    else "default"
  }

  /** Distinct statuses of the enum get distinct colours. */
  lemma StatusColorsDistinguishEnum(s: string, t: string)
    requires s in BOOKING_STATUSES && t in BOOKING_STATUSES && s != t
    ensures StatusColor(s) != StatusColor(t)
  {
  }

  const DELETE_FAILED: string := "Failed to delete booking"

  /** The React state of the delete confirmation flow, with the delete requests the
      page has sent and how often it re-fetched the list. */
  class DeleteDialog {
    var open: bool
    /** The id of `bookingToDelete`, None for `null`. */
    var target: Option<Id>
    /** The page-level `error` state, whose alert is shown outside the dialog. */
    var error: Option<string>
    var requests: seq<Id>
    var refreshes: nat

    /** The state after the page's `useState` initialisers. */
    constructor ()
      ensures !open && target.None? && error.None? && requests == [] && refreshes == 0
    {
      open, target, error, requests, refreshes := false, None, None, [], 0;
    }

    /** `handleDeleteClick`: records the target and opens the dialog; nothing is deleted. */
    method DeleteClick(booking: Id)
      modifies this
      ensures open && target == Some(booking)
      ensures error == old(error) && requests == old(requests) && refreshes == old(refreshes)
    {
      target := Some(booking);
      open := true;
    }

    /** `handleDeleteConfirm`, with `outcome` what the delete call comes back with. With no
        target, reading its id throws inside the `try` and the generic failure is shown.
        Otherwise exactly one delete request is sent for the target; success closes the
        dialog, clears the target and re-fetches, failure shows the server's message (or
        the generic one) and leaves the dialog as it was. */
    method DeleteConfirm(outcome: ApiOutcome)
      modifies this
      ensures old(target).None? ==>
        && error == Some(DELETE_FAILED) && requests == old(requests)
        && open == old(open) && target == old(target) && refreshes == old(refreshes)
      ensures old(target).Some? ==> requests == old(requests) + [old(target).value]
      ensures old(target).Some? && outcome.Succeeded? ==>
        !open && target.None? && error == old(error) && refreshes == old(refreshes) + 1
      ensures old(target).Some? && outcome.Failed? ==>
        && error == Some(if outcome.message != "" then outcome.message else DELETE_FAILED)
        && open == old(open) && target == old(target) && refreshes == old(refreshes)
    {
      if target.None? {
        error := Some(DELETE_FAILED);
        return;
      }
      requests := requests + [target.value];
      match outcome
      case Succeeded =>
        open := false;
        target := None;
        refreshes := refreshes + 1;
      case Failed(message) =>
        error := Some(if message != "" then message else DELETE_FAILED);
    }

    /** `handleDeleteCancel`: closes the dialog and clears the target without deleting. */
    method DeleteCancel()
      modifies this
      ensures !open && target.None?
      ensures error == old(error) && requests == old(requests) && refreshes == old(refreshes)
    {
      open := false;
      target := None;
    }
  }
}
