/** The hoardings page: the Book button, the booking dialog's state, and the checks it
    runs before it sends a create request. */
module HoardingsPage {
  import opened Base
  import opened HoardingModel
  import opened BookingModel

  const MISSING_DATES: string := "Please select both start and end dates"
  const END_NOT_AFTER_START: string := "End date must be after start date"
  const START_IN_PAST: string := "Start date cannot be in the past"
  const CREATE_FAILED: string := "Failed to create booking"

  /** The Book button is enabled exactly for a hoarding whose status is `available`. */
  predicate BookEnabled(status: string) {
    status == AVAILABLE
  }

  /** The checks of `handleBookingSubmit`, in order; the first that fails names the
      message shown, and None means every check passed. */
  function SubmitError(startDate: Option<int>, endDate: Option<int>, now: int): (err: Option<string>)
    ensures err == Some(MISSING_DATES) <==> startDate.None? || endDate.None?
    ensures err == Some(END_NOT_AFTER_START) <==>
      startDate.Some? && endDate.Some? && startDate.value >= endDate.value
    ensures err == Some(START_IN_PAST) <==>
      startDate.Some? && endDate.Some? && startDate.value < endDate.value && startDate.value < now
    ensures err.None? <==>
      startDate.Some? && endDate.Some? && startDate.value < endDate.value && now <= startDate.value
  {
    if startDate.None? || endDate.None? then Some(MISSING_DATES)
    else if startDate.value >= endDate.value then Some(END_NOT_AFTER_START)
    else if startDate.value < now then Some(START_IN_PAST)
    else None
  }

  /** The page reads the browser's clock (`pageNow`) before it sends the request; the
      server's validators read the server's clock (`serverNow`) later. Dates the server
      accepts always passed the page's checks. */
  lemma ServerValidDatesPassPage(startDate: int, endDate: int, pageNow: int, serverNow: int)
    requires pageNow <= serverNow
    requires StartsInFuture(startDate, serverNow) && EndsAfterStart(startDate, endDate)
    ensures SubmitError(Some(startDate), Some(endDate), pageNow).None?
  {
  }

  /** The page and the server disagree on exactly one kind of input: a start date from
      the page's clock reading up to the server's, which passes the page's
      `startDate < now` check and fails the server's strict `startDate > now` validator.
      With one clock for both, that is a start date equal to it. */
  lemma PageAndServerDisagreeOnlyBetweenClocks(startDate: int, endDate: int, pageNow: int, serverNow: int)
    requires pageNow <= serverNow
    ensures (SubmitError(Some(startDate), Some(endDate), pageNow).None?
             && !(StartsInFuture(startDate, serverNow) && EndsAfterStart(startDate, endDate)))
        <==> (pageNow <= startDate <= serverNow && startDate < endDate)
  {
  }

  /** A request `bookingService.create` was handed. */
  datatype CreateRequest = CreateRequest(hoardingId: Id, startDate: int, endDate: int)

  /** The booking dialog's React state, with the requests the page has sent and whether
      it navigated to the bookings list. */
  class BookingDialog {
    var open: bool
    /** The id of `selectedHoarding`, None for `null`. */
    var selected: Option<Id>
    var startDate: Option<int>
    var endDate: Option<int>
    var bookingError: Option<string>
    var sent: seq<CreateRequest>
    var navigated: bool

    /** The state after the page's `useState` initialisers. */
    constructor ()
      ensures !open && selected.None? && startDate.None? && endDate.None? && bookingError.None?
      ensures sent == [] && !navigated
    {
      open, selected, startDate, endDate, bookingError := false, None, None, None, None;
      sent, navigated := [], false;
    }

    /** A click on a card's Book button: a disabled button does nothing; an enabled one
        (`handleBookingClick`) selects the hoarding and opens the dialog. */
    method BookingClick(hoardingId: Id, status: string)
      modifies this
      ensures startDate == old(startDate) && endDate == old(endDate) && bookingError == old(bookingError)
      ensures sent == old(sent) && navigated == old(navigated)
      ensures BookEnabled(status) ==> open && selected == Some(hoardingId)
      ensures !BookEnabled(status) ==> open == old(open) && selected == old(selected)
    {
      if BookEnabled(status) {
        selected := Some(hoardingId);
        open := true;
      }
    }

    /** The start date picker's `onChange`. */
    method ChangeStartDate(d: Option<int>)
      modifies this`startDate
      ensures startDate == d
    {
      startDate := d;
    }

    /** The end date picker's `onChange`. */
    method ChangeEndDate(d: Option<int>)
      modifies this`endDate
      ensures endDate == d
    {
      endDate := d;
    }

    /** `handleCloseDialog`: closes the dialog and resets the selection, both dates and
        the error; requests already sent are not affected. */
    method CloseDialog()
      modifies this
      ensures !open && selected.None? && startDate.None? && endDate.None? && bookingError.None?
      ensures sent == old(sent) && navigated == old(navigated)
    {
      open := false;
      selected := None;
      startDate := None;
      endDate := None;
      bookingError := None;
    }

    /** `handleBookingSubmit` at clock reading `now`; `outcome` is what the create call
        comes back with. A failed check shows its message and sends nothing. With no
        selection, reading its id throws inside the `try`, which shows the generic
        failure and sends nothing. Otherwise exactly one request is sent with the
        selected hoarding and both dates; success closes the dialog and navigates,
        failure shows the server's message, or the generic one when it has none. */
    method Submit(now: int, outcome: ApiOutcome)
      modifies this
      ensures var err := SubmitError(old(startDate), old(endDate), now);
        if err.Some? then
          && bookingError == err && sent == old(sent)
          && open == old(open) && selected == old(selected) && navigated == old(navigated)
          && startDate == old(startDate) && endDate == old(endDate)
        else if old(selected).None? then
          && bookingError == Some(CREATE_FAILED) && sent == old(sent)
          && open == old(open) && selected == old(selected) && navigated == old(navigated)
          && startDate == old(startDate) && endDate == old(endDate)
        else
          && sent == old(sent) + [CreateRequest(old(selected).value, old(startDate).value, old(endDate).value)]
          && (outcome.Succeeded? ==>
                && !open && selected.None? && startDate.None? && endDate.None?
                && bookingError.None? && navigated)
          && (outcome.Failed? ==>
                && bookingError == Some(if outcome.message != "" then outcome.message else CREATE_FAILED)
                && open == old(open) && selected == old(selected) && navigated == old(navigated)
                && startDate == old(startDate) && endDate == old(endDate))
    {
      var err := SubmitError(startDate, endDate, now);
      if err.Some? {
        bookingError := err;
        return;
      }
      if selected.None? {
        bookingError := Some(CREATE_FAILED);
        return;
      }
      sent := sent + [CreateRequest(selected.value, startDate.value, endDate.value)];
      match outcome
      case Succeeded =>
        CloseDialog();
        navigated := true;
      case Failed(message) =>
        bookingError := Some(if message != "" then message else CREATE_FAILED);
    }
  }
}
