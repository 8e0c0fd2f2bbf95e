/** The booking form of BookingForm.js: its booking state, the two updaters the
    inputs call, the client-side check of a booking, and the submit sequence.
    Dates are day numbers, so "after" is `<` on integers; the request, the
    navigation and the signed-in user are inputs and outputs of the methods. */
module Client {
  import opened Lookup

  /** The form's booking state (BookingForm.js:10-15). */
  datatype Booking = Booking(checkIn: int, checkOut: int, guests: int, roomType: string)

  const DATE_ORDER_ERROR := "Check-out date must be after check-in date"
  const GUESTS_ERROR := "Number of guests must be at least 1"
  const BOOKING_FAILED := "Booking failed"
  const LOGIN_PATH := "/login"
  const BOOKINGS_PATH := "/bookings"

  /** The state the form starts in on day `today`: check-out the next day, one
      guest, a standard room. */
  function InitialBooking(today: int): Booking
  {
    Booking(today, today + 1, 1, "standard")
  }

  /** The decision of validateBooking (BookingForm.js:34-44): the error it
      sets, or None when it returns true. The date rule is tried first. */
  function BookingError(b: Booking): (r: Option<string>)
    ensures r.None? <==> b.checkIn < b.checkOut && b.guests >= 1
    ensures b.checkIn >= b.checkOut ==> r == Some(DATE_ORDER_ERROR)
    ensures b.checkIn < b.checkOut && b.guests < 1 ==> r == Some(GUESTS_ERROR)
  {
    if b.checkIn >= b.checkOut then Some(DATE_ORDER_ERROR)
    else if b.guests < 1 then Some(GUESTS_ERROR)
    else None
  }

  /** The initial booking is one the form accepts without changes. */
  lemma InitialBookingIsValid(today: int)
    ensures InitialBooking(today).checkOut == InitialBooking(today).checkIn + 1
    ensures InitialBooking(today).guests == 1 && InitialBooking(today).roomType == "standard"
    ensures BookingError(InitialBooking(today)) == None
  {
  }

  /** The two inputs that call handleChange, by their `name`. */
  datatype Input = GuestsInput(guests: int) | RoomTypeInput(roomType: string)

  /** The `field` argument of handleDateChange. */
  datatype DateField = CheckInField | CheckOutField

  /** `{...prev, [name]: value}` (BookingForm.js:19-25): the named field takes
      the value and every other field keeps its own. */
  function WithInput(b: Booking, input: Input): (r: Booking)
    ensures r.checkIn == b.checkIn && r.checkOut == b.checkOut
    ensures input.GuestsInput? ==> r.guests == input.guests && r.roomType == b.roomType
    ensures input.RoomTypeInput? ==> r.roomType == input.roomType && r.guests == b.guests
  {
    match input
    case GuestsInput(n) => b.(guests := n)
    case RoomTypeInput(t) => b.(roomType := t)
  }

  /** `{...prev, [field]: date}` (BookingForm.js:27-32). */
  function WithDate(b: Booking, date: int, field: DateField): (r: Booking)
    ensures r.guests == b.guests && r.roomType == b.roomType
    ensures field == CheckInField ==> r.checkIn == date && r.checkOut == b.checkOut
    ensures field == CheckOutField ==> r.checkOut == date && r.checkIn == b.checkIn
  {
    match field
    case CheckInField => b.(checkIn := date)
    case CheckOutField => b.(checkOut := date)
  }

  /** Moving the check-in past the check-out makes the form refuse the
      booking with the date error, whatever the guests are. */
  lemma CheckInPastCheckOutIsRefused(b: Booking, date: int)
    requires date >= b.checkOut
    ensures BookingError(WithDate(b, date, CheckInField)) == Some(DATE_ORDER_ERROR)
  {
  }

  /** The JSON body handleSubmit posts: `{...booking, hotelId: hotel.id}`. */
  datatype SentBody = SentBody(checkIn: int, checkOut: int, guests: int, roomType: string, hotelId: int)

  function RequestBody(b: Booking, hotelId: int): (s: SentBody)
    ensures s.checkIn == b.checkIn && s.checkOut == b.checkOut
    ensures s.guests == b.guests && s.roomType == b.roomType && s.hotelId == hotelId
  {
    SentBody(b.checkIn, b.checkOut, b.guests, b.roomType, hotelId)
  }

  /** How the request of a submit ends: a response with `ok` set, a response
      without it (carrying the server's `message`, if any), or a thrown error
      (a network failure or an unreadable reply) with its message. */
  datatype FetchOutcome = Accepted | Refused(message: Option<string>) | Thrown(reason: string)

  /** The message the catch block puts in `error` (BookingForm.js:73-80):
      `data.message || 'Booking failed'` for a refused request, where an
      absent or empty message falls back to the default, and the error's own
      message for a thrown one. */
  function FailureMessage(outcome: FetchOutcome): (m: string)
    requires !outcome.Accepted?
    ensures outcome.Refused? ==> m != ""
    ensures outcome.Refused? && outcome.message.Some? && outcome.message.value != "" ==> m == outcome.message.value
    ensures outcome.Refused? && (outcome.message == None || outcome.message == Some("")) ==> m == BOOKING_FAILED
    ensures outcome.Thrown? ==> m == outcome.reason
  {
    match outcome
    case Refused(message) =>
      if message == None || message == Some("") then BOOKING_FAILED else message.value
    case Thrown(reason) => reason
  }

  /** The form component's state. `hotelId` is the id of the `hotel` prop. */
  class BookingForm {
    const hotelId: int
    var booking: Booking
    var error: string
    var loading: bool

    constructor (hotelId: int, today: int)
      ensures this.hotelId == hotelId
      ensures booking == InitialBooking(today) && error == "" && !loading
    {
      this.hotelId := hotelId;
      booking := InitialBooking(today);
      error := "";
      loading := false;
    }

    /** handleChange: only the named booking field changes. */
    method HandleChange(input: Input)
      modifies this
      ensures booking == WithInput(old(booking), input)
      ensures error == old(error) && loading == old(loading)
    {
      booking := WithInput(booking, input);
    }

    /** handleDateChange: only the named date changes. */
    method HandleDateChange(date: int, field: DateField)
      modifies this
      ensures booking == WithDate(old(booking), date, field)
      ensures error == old(error) && loading == old(loading)
    {
      booking := WithDate(booking, date, field);
    }

    /** validateBooking: true when the booking passes both rules, leaving
        `error` as it was; otherwise false with the first failing rule's
        message in `error`. */
    method ValidateBooking() returns (ok: bool)
      modifies this
      ensures booking == old(booking) && loading == old(loading)
      ensures ok <==> old(booking).checkIn < old(booking).checkOut && old(booking).guests >= 1
      ensures ok ==> error == old(error)
      ensures !ok ==> Some(error) == BookingError(old(booking))
    {
      var problem := BookingError(booking);
      if problem.Some? {
        error := problem.value;
        return false;
      }
      return true;
    }

    /** handleSubmit (BookingForm.js:46-84). Signed out: go to the login page
        and send nothing, without validating. Invalid booking: send nothing.
        Otherwise send the booking with the hotel's id, clear `error`, and end
        with `loading` false: on success go to the bookings page, on failure
        show the failure's message. The booking itself is never changed. */
    method HandleSubmit(signedIn: bool, outcome: FetchOutcome)
      returns (sent: Option<SentBody>, navigate: Option<string>)
      modifies this
      ensures booking == old(booking)
      ensures !old(loading) ==> !loading
      ensures !signedIn ==>
        sent == None && navigate == Some(LOGIN_PATH) && error == old(error) && loading == old(loading)
      ensures signedIn && BookingError(booking).Some? ==>
        sent == None && navigate == None && Some(error) == BookingError(booking) && loading == old(loading)
      ensures signedIn && BookingError(booking).None? ==>
        sent == Some(RequestBody(booking, hotelId)) && !loading
      ensures signedIn && BookingError(booking).None? && outcome == Accepted ==>
        navigate == Some(BOOKINGS_PATH) && error == ""
      ensures signedIn && BookingError(booking).None? && outcome != Accepted ==>
        navigate == None && error == FailureMessage(outcome)
    {
      if !signedIn {
        return None, Some(LOGIN_PATH);
      }
      var ok := ValidateBooking();
      if !ok {
        return None, None;
      }
      loading := true;
      error := "";
      sent := Some(RequestBody(booking, hotelId));
      navigate := None;
      if outcome == Accepted {
        navigate := Some(BOOKINGS_PATH);
      } else {
        error := FailureMessage(outcome);
      }
      loading := false;
    }
  }
}
