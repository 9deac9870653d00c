/** The booking form of a listing page: the nights and total kept in step with the
    two date inputs, the checks made before a booking request, and the reset after
    a booking is created. A date input holds either nothing or a valid
    `YYYY-MM-DD` value; the model keeps its year, month (1..12) and day. The
    server's answer to the request is a parameter. */
module BookingForm {
  import opened Wrappers
  import opened CivilDates

  const MissingDates: string := "Please select both check-in and check-out dates."
  const InvalidDates: string := "Please select valid dates."
  const RequestFailed: string := "Failed to create booking"
  const ErrorFallback: string := "An error occurred while creating the booking."

  /** The value of a date input, month counted from 1. */
  datatype DateInput = DateInput(year: int, month: int, day: int)

  predicate ValidInput(d: Option<DateInput>) {
    d.Some? ==> 1 <= d.value.month <= 12
  }

  /** `new Date(y, m - 1, d)` for the parts of the input. */
  function InputMs(d: DateInput): int
    requires 1 <= d.month <= 12
  {
    DateMs(d.year, d.month - 1, d.day)
  }

  /** `Math.round(timeDiff / (1000 * 60 * 60 * 24))`: both dates are local
      midnights, so the division is exact and the rounding changes nothing. */
  function Nights(checkIn: DateInput, checkOut: DateInput): (n: int)
    requires 1 <= checkIn.month <= 12 && 1 <= checkOut.month <= 12
    ensures n * DayMs == InputMs(checkOut) - InputMs(checkIn)
    ensures n == DayNumber(checkOut.year, checkOut.month - 1, checkOut.day) - DayNumber(checkIn.year, checkIn.month - 1, checkIn.day)
    ensures n > 0 <==> InputMs(checkIn) < InputMs(checkOut)
  {
    var diff := InputMs(checkOut) - InputMs(checkIn);
    assert diff == (DayNumber(checkOut.year, checkOut.month - 1, checkOut.day) -
                    DayNumber(checkIn.year, checkIn.month - 1, checkIn.day)) * DayMs;
    diff / DayMs
  }

  /** The nights and total after the effect, as written: they change only when the
      new dates give a positive number of nights, so a later change to dates that
      give none leaves the previous figures in place. */
  function TotalsAsWritten(checkIn: Option<DateInput>, checkOut: Option<DateInput>, nights: int, total: int, price: int): (r: (int, int))
    requires ValidInput(checkIn) && ValidInput(checkOut)
    ensures Totals(checkIn, checkOut, price).0 > 0 ==> r == Totals(checkIn, checkOut, price)
    ensures !(checkIn.Some? && checkOut.Some? && InputMs(checkIn.value) < InputMs(checkOut.value)) ==> r == (nights, total)
  {
    if checkIn.Some? && checkOut.Some? && Nights(checkIn.value, checkOut.value) > 0 then
      (Nights(checkIn.value, checkOut.value), Nights(checkIn.value, checkOut.value) * price)
    else (nights, total)
  }

  /** The nights and total after the effect, corrected: dates that give no positive
      number of nights clear them. */
  function Totals(checkIn: Option<DateInput>, checkOut: Option<DateInput>, price: int): (r: (int, int))
    requires ValidInput(checkIn) && ValidInput(checkOut)
    ensures r.0 > 0 ==> checkIn.Some? && checkOut.Some? && r.0 == Nights(checkIn.value, checkOut.value)
    ensures r.0 > 0 <==> checkIn.Some? && checkOut.Some? && InputMs(checkIn.value) < InputMs(checkOut.value)
    ensures r.1 == r.0 * price && r.0 >= 0
  {
    if checkIn.Some? && checkOut.Some? && Nights(checkIn.value, checkOut.value) > 0 then
      (Nights(checkIn.value, checkOut.value), Nights(checkIn.value, checkOut.value) * price)
    else (0, 0)
  }

  /** The checks of `handleSubmit`: the message it shows, or `None` when it goes on
      to send the request. */
  function SubmitError(checkIn: Option<DateInput>, checkOut: Option<DateInput>, nights: int): (e: Option<string>)
    ensures checkIn.None? || checkOut.None? ==> e == Some(MissingDates)
    ensures checkIn.Some? && checkOut.Some? ==> (e.None? <==> nights > 0)
    ensures e.Some? ==> e.value == MissingDates || e.value == InvalidDates
  {
    if checkIn.None? || checkOut.None? then Some(MissingDates)
    else if nights <= 0 then Some(InvalidDates)
    else None
  }

  /** With the corrected effect, a request is only ever made for a check-out after
      the check-in, with the total of those nights. */
  lemma SubmitOnlyForwardRanges(checkIn: Option<DateInput>, checkOut: Option<DateInput>, price: int)
    requires ValidInput(checkIn) && ValidInput(checkOut)
    requires SubmitError(checkIn, checkOut, Totals(checkIn, checkOut, price).0).None?
    ensures checkIn.Some? && checkOut.Some? && InputMs(checkIn.value) < InputMs(checkOut.value)
    ensures Totals(checkIn, checkOut, price).1 == Nights(checkIn.value, checkOut.value) * price
  {
  }

  /** The dates the inputs' `min` and `max` attributes let the form be submitted
      with, on the current date `today`: a check-in from today to a week ahead, and
      a check-out from the check-in to a week ahead. */
  predicate InputsAllowed(today: DateInput, checkIn: DateInput, checkOut: DateInput)
    requires 1 <= today.month <= 12 && 1 <= checkIn.month <= 12 && 1 <= checkOut.month <= 12
  {
    var t := DayNumber(today.year, today.month - 1, today.day);
    var i := DayNumber(checkIn.year, checkIn.month - 1, checkIn.day);
    var o := DayNumber(checkOut.year, checkOut.month - 1, checkOut.day);
    t <= i <= t + 7 && i <= o <= t + 7
  }

  /** As written, the figures of an earlier valid pair survive a change of the
      check-in onto the check-out day, and the request goes out for a stay of no
      nights: on 2025-01-01, check-in 2025-01-02 and check-out 2025-01-05 give 3
      nights; moving the check-in to 2025-01-05, which both inputs allow, keeps 3
      nights and the total of 3 nights, and the checks before the request pass. */
  lemma StaleNightsAsWritten(price: int)
    ensures var first := TotalsAsWritten(Some(DateInput(2025, 1, 2)), Some(DateInput(2025, 1, 5)), 0, 0, price);
      var second := TotalsAsWritten(Some(DateInput(2025, 1, 5)), Some(DateInput(2025, 1, 5)), first.0, first.1, price);
      first == (3, 3 * price) && second == (3, 3 * price) &&
      InputsAllowed(DateInput(2025, 1, 1), DateInput(2025, 1, 2), DateInput(2025, 1, 5)) &&
      InputsAllowed(DateInput(2025, 1, 1), DateInput(2025, 1, 5), DateInput(2025, 1, 5)) &&
      SubmitError(Some(DateInput(2025, 1, 5)), Some(DateInput(2025, 1, 5)), second.0).None?
    ensures Totals(Some(DateInput(2025, 1, 5)), Some(DateInput(2025, 1, 5)), price) == (0, 0)
  {
    var a := Nights(DateInput(2025, 1, 2), DateInput(2025, 1, 5));
    var b := Nights(DateInput(2025, 1, 5), DateInput(2025, 1, 5));
    var today := DayNumber(2025, 0, 1);
    assert DayNumber(2025, 0, 2) == today + 1 && DayNumber(2025, 0, 5) == today + 4;
    assert a == 3;
    assert b == 0;
  }

  /** The two effects agree whenever the new dates give a positive number of
      nights; they differ only in what they leave behind otherwise. */
  lemma TotalsAgreeOnValidRanges(checkIn: Option<DateInput>, checkOut: Option<DateInput>, nights: int, total: int, price: int)
    requires ValidInput(checkIn) && ValidInput(checkOut)
    requires checkIn.Some? && checkOut.Some? && InputMs(checkIn.value) < InputMs(checkOut.value)
    ensures TotalsAsWritten(checkIn, checkOut, nights, total, price) == Totals(checkIn, checkOut, price)
  {
  }

  /** The booking request's body. `guestId` is `user?.id`. */
  datatype BookingRequest = BookingRequest(
    listingId: string, guestId: Option<string>, hostId: string,
    checkIn: DateInput, checkOut: DateInput, totalPrice: int)

  /** What the request comes to: a created booking, a refusal whose body may carry
      `error` and `details`, or a thrown error with its message. */
  datatype Outcome = Created | Refused(error: Option<string>, details: Option<string>) | Thrown(message: string)

  /** The message `handleSubmit` shows for an outcome; `None` for a created booking. */
  function OutcomeError(o: Outcome): (e: Option<string>)
    ensures o.Created? <==> e.None?
    ensures e.Some? ==> e.value != ""
    ensures o.Refused? && o.error.Some? && o.error.value != "" ==> e == o.error
    ensures o.Refused? && (o.error.None? || o.error.value == "") && (o.details.None? || o.details.value == "") ==>
      e == Some(RequestFailed)
    ensures o.Thrown? && o.message == "" ==> e == Some(ErrorFallback)
  {
    match o
    case Created => None
    case Refused(err, details) =>
      if err.Some? && err.value != "" then err
      else if details.Some? && details.value != "" then details
      else Some(RequestFailed)
    case Thrown(m) => if m != "" then Some(m) else Some(ErrorFallback)
  }

  class Form {
    var checkIn: Option<DateInput>
    var checkOut: Option<DateInput>
    var totalPrice: int
    var nights: int
    var guestCount: int
    var error: Option<string>
    var loading: bool
    const listingId: string
    const hostId: string
    const pricePerNight: int

    predicate Valid()
      reads this
    {
      ValidInput(checkIn) && ValidInput(checkOut) && (nights, totalPrice) == Totals(checkIn, checkOut, pricePerNight)
    }

    /** The initial form: no dates, 0 nights, 0 total, one guest. */
    constructor (listingId: string, hostId: string, pricePerNight: int)
      ensures Valid() && checkIn.None? && checkOut.None? && nights == 0 && totalPrice == 0
      ensures guestCount == 1 && error.None? && !loading
      ensures this.listingId == listingId && this.hostId == hostId && this.pricePerNight == pricePerNight
    {
      this.listingId := listingId;
      this.hostId := hostId;
      this.pricePerNight := pricePerNight;
      checkIn := None;
      checkOut := None;
      totalPrice := 0;
      nights := 0;
      guestCount := 1;
      error := None;
      loading := false;
    }

    /** The effect that runs when a date changes (corrected). */
    method UpdateTotals()
      requires ValidInput(checkIn) && ValidInput(checkOut)
      modifies this
      ensures Valid()
      ensures checkIn == old(checkIn) && checkOut == old(checkOut) && guestCount == old(guestCount)
      ensures error == old(error) && loading == old(loading)
    {
      if checkIn.Some? && checkOut.Some? {
        var n := Nights(checkIn.value, checkOut.value);
        if n > 0 {
          nights := n;
          totalPrice := n * pricePerNight;
        } else {
          nights := 0;
          totalPrice := 0;
        }
      } else {
        nights := 0;
        totalPrice := 0;
      }
    }

    /** A new check-in value, followed by the effect. */
    method SetCheckIn(v: Option<DateInput>)
      requires ValidInput(v) && ValidInput(checkOut)
      modifies this
      ensures Valid() && checkIn == v && checkOut == old(checkOut)
      ensures guestCount == old(guestCount) && error == old(error) && loading == old(loading)
    {
      checkIn := v;
      UpdateTotals();
    }

    /** A new check-out value, followed by the effect. */
    method SetCheckOut(v: Option<DateInput>)
      requires ValidInput(v) && ValidInput(checkIn)
      modifies this
      ensures Valid() && checkOut == v && checkIn == old(checkIn)
      ensures guestCount == old(guestCount) && error == old(error) && loading == old(loading)
    {
      checkOut := v;
      UpdateTotals();
    }

    /** `resetForm`. */
    method ResetForm()
      modifies this
      ensures Valid() && checkIn.None? && checkOut.None? && nights == 0 && totalPrice == 0
      ensures guestCount == 1 && error.None? && loading == old(loading)
    {
      checkIn := None;
      checkOut := None;
      totalPrice := 0;
      nights := 0;
      guestCount := 1;
      error := None;
    }

    /** `handleSubmit`: the checks, then the request and what its outcome does; the
        request is `None` when a check stops the submission. */
    method Submit(guestId: Option<string>, outcome: Outcome) returns (request: Option<BookingRequest>)
      requires Valid()
      modifies this
      ensures SubmitError(old(checkIn), old(checkOut), old(nights)).Some? ==>
        request.None? && error == SubmitError(old(checkIn), old(checkOut), old(nights)) &&
        checkIn == old(checkIn) && checkOut == old(checkOut) && nights == old(nights) &&
        totalPrice == old(totalPrice) && guestCount == old(guestCount) && loading == old(loading)
      ensures SubmitError(old(checkIn), old(checkOut), old(nights)).None? ==>
        request == Some(BookingRequest(listingId, guestId, hostId, old(checkIn).value, old(checkOut).value, old(totalPrice))) &&
        !loading && error == OutcomeError(outcome)
      ensures SubmitError(old(checkIn), old(checkOut), old(nights)).None? && outcome.Created? ==>
        checkIn.None? && checkOut.None? && nights == 0 && totalPrice == 0 && guestCount == 1
      ensures SubmitError(old(checkIn), old(checkOut), old(nights)).None? && !outcome.Created? ==>
        checkIn == old(checkIn) && checkOut == old(checkOut) && nights == old(nights) &&
        totalPrice == old(totalPrice) && guestCount == old(guestCount)
      ensures Valid()
    {
      if checkIn.None? || checkOut.None? {
        error := Some(MissingDates);
        return None;
      }
      if nights <= 0 {
        error := Some(InvalidDates);
        return None;
      }
      loading := true;
      error := None;
      request := Some(BookingRequest(listingId, guestId, hostId, checkIn.value, checkOut.value, totalPrice));
      if outcome.Created? {
        ResetForm();
      } else {
        error := OutcomeError(outcome);
      }
      loading := false;
    }
  }
}
