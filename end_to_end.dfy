/** What becomes of the form's request once the server's booking handler
    merges it: the body the client posts to `/api/hotels/<hotel id>/book`,
    as JSON, run through the server's field merge. */
module EndToEnd {
  import opened Json
  import Client
  import Server

  /** The JSON object of a sent body. Dates are carried as numbers here. */
  function BodyJson(s: Client.SentBody): (o: Object)
    ensures o.Keys == {"checkIn", "checkOut", "guests", "roomType", "hotelId"}
    ensures o["hotelId"] == JNum(s.hotelId) && o["guests"] == JNum(s.guests)
    ensures o["checkIn"] == JNum(s.checkIn) && o["checkOut"] == JNum(s.checkOut)
    ensures o["roomType"] == JStr(s.roomType)
  {
    map["checkIn" := JNum(s.checkIn), "checkOut" := JNum(s.checkOut), "guests" := JNum(s.guests),
        "roomType" := JStr(s.roomType), "hotelId" := JNum(s.hotelId)]
  }

  /** A booking the form sends is stored with the server's id, the signed-in
      user's id, the hotel of the route, status "confirmed", and the form's
      dates, guests and room type: the form's body names neither `id` nor
      `userId`, and its `hotelId` is the route's. */
  lemma FormBookingIsStored(b: Client.Booking, hotelId: int, bookingId: int, userId: int, now: string)
    ensures var stored := Server.MergeBooking(bookingId, hotelId, userId, BodyJson(Client.RequestBody(b, hotelId)), now);
      && stored.Keys == {"id", "hotelId", "userId", "status", "createdAt", "checkIn", "checkOut", "guests", "roomType"}
      && stored["id"] == JNum(bookingId) && stored["userId"] == JNum(userId)
      && stored["hotelId"] == JNum(hotelId) && stored["status"] == Server.CONFIRMED
      && stored["checkIn"] == JNum(b.checkIn) && stored["checkOut"] == JNum(b.checkOut)
      && stored["guests"] == JNum(b.guests) && stored["roomType"] == JStr(b.roomType)
  {
  }

  /** The date and guest rules hold of a stored booking only because the form
      checks them: a booking the form lets through has ordered dates and at
      least one guest, while the merge itself keeps whatever dates it is given. */
  lemma OnlyTheFormChecksDates(b: Client.Booking, hotelId: int, bookingId: int, userId: int, now: string)
    requires Client.BookingError(b).None?
    ensures var stored := Server.MergeBooking(bookingId, hotelId, userId, BodyJson(Client.RequestBody(b, hotelId)), now);
      && stored["checkIn"].JNum? && stored["checkOut"].JNum? && stored["guests"].JNum?
      && stored["checkIn"].n < stored["checkOut"].n && stored["guests"].n >= 1
  {
  }
}
