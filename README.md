# Hotel booking: server handlers and booking form

A Dafny model of the two parts of the hotel-booking application that hold
logic:

- **The server** (index.js). It keeps one document with three collections:
  `users`, `hotels` and `bookings`. When no document exists, it writes a seed
  of four hotels. A token gate stands in front of the protected routes. The
  route handlers register users, log them in, check and clear sessions, list
  and look up hotels, and create bookings. The document is the class
  `Server.Database` with three `seq` fields. The five handlers that use the
  document (list hotels, get hotel, register, login, book) are its methods;
  check-session and logout never touch the document and are the functions
  `Server.CheckSession` and `Server.Logout`. Every handler returns a
  `Response`: a status, a body and what happens to the session cookie.
  Register and book append to the sequences; list hotels, get hotel and login
  only read them. Every lookup is JavaScript's `find`, modelled by
  `Lookup.FirstIndex` (the first match, or none).
- **The booking form** (BookingForm.js). Its state is the class
  `Client.BookingForm` with the fields `booking`, `error` and `loading`. It
  has the two field updaters, the two-rule `validateBooking` and the
  `handleSubmit` sequence. The request the form sends is an output of
  `HandleSubmit`, and how that request ends is an input.
- **`EndToEnd`** joins the two. It follows the form's request body through
  the server's booking merge.

Modelling choices:

- Reading and writing the document file become a `Storage` parameter:
  `Healthy`, `ReadFails` or `WriteFails`. Each failure gives the handler's
  500 "Server error" response. A failed write leaves the stored document as it
  was.
- `jwt.verify` becomes a parameter `verify: string -> Option<PublicUser>`. An
  issued token is shown as the claims it carries (`SetToken(payload)`). Those
  claims are the user without its password.
- The timestamp `new Date().toISOString()` becomes a parameter `now`.
- `parseInt` of the route id becomes an `Option<int>`. `None` stands for
  NaN, which matches no hotel.
- A booking is the JSON object (`map<string, Json>`) that the server builds
  by spreading the request body. The spread is map union, where the later
  object wins.
- On the client, dates are day numbers and `guests` is an integer.
- Hotel ratings are stored in tenths (4.8 is 48).

`Server.SessionScenario` is a verified walk through one session. It registers
alice; a second registration with the same email is refused; alice logs in;
the token login issued, once it verifies, yields exactly the claims login put
in it, without a password; and after logout the session
check is refused.

Three behaviours of the code a reader might not expect:

- The booking route checks neither the dates, nor the guest count, nor room
  availability: `Server.Database.Book` appends whatever body it is given.
  Only the form checks dates and guests (`EndToEnd.OnlyTheFormChecksDates`).
- The booking's `userId` comes from the token, but the request body can
  override it (`Server.BodyOverridesUserId`). The same holds for `id` and
  `hotelId`: `Server.MergeBooking` states it for every key of the body.
- Booking ids are `bookings.length + 1` unless the body says otherwise. So
  only user ids are proved sequential.

## Model

| member | source | states |
|---|---|---|
| Lookup.FirstIndex | index.js:214 | `find`: None exactly when no element matches; otherwise the index of a matching element with no match before it |
| Json.Spread | index.js:153-160 | object spread: the keys of both objects, each taking the later object's value when both have it |
| Server.StripPassword | index.js:192 | removing the password loses nothing else: putting the password back gives the stored user |
| Server.RegisterKeepsUsersValid | index.js:176-188 | appending a user with a fresh email and id `length+1` keeps emails unique and `users[i].id == i+1` |
| Server.RegisteredUserCanLogIn | index.js:180-189 | a user appended with a fresh email is the first match for a login with its email and password |
| Server.LoginMatchUnderUniqueEmails | index.js:214-217 | with unique emails, credentials match exactly when the stored password of that email is the one given, and then that user is the first match |
| Server.SeedHotels | index.js:33-86 | the seed has four hotels with ids 1 to 4, all unique, each with rooms available |
| Server.HotelLookupUnderUniqueIds | index.js:135 | with unique hotel ids, the hotel found for an id is the one holding it |
| Server.MergeBooking | index.js:153-160 | the booking's keys are the body's plus the five defaults; status is always "confirmed" and createdAt is the timestamp; every other body key keeps its value; id, hotelId and userId take the defaults only when the body lacks them |
| Server.BodyOverridesUserId | index.js:156-157 | a body naming another userId is stored under that user, not the authenticated one |
| Server.Authenticate | index.js:102-116 | a missing or empty token gives 401 "Authentication required"; a non-empty token is admitted exactly when verification succeeds, with the verified claims; otherwise it gives 401 "Invalid or expired token" |
| Server.CheckSession | index.js:119-121 | 200 with the verified claims exactly when the gate admits; otherwise the gate's 401 |
| Server.SessionRoundTrip | index.js:110-121 | the token a register or login response sets, once verified, reads back at the session check as exactly the password-free claims that response issued |
| Server.Logout | index.js:240-243 | 200, and the cookie is cleared |
| Server.Database.Seeded | index.js:29-89 | a new document has no users, the four seed hotels and no bookings, and satisfies the document invariant |
| Server.Database.Existing | index.js:30-31 | an existing document is left as it is |
| Server.Database.ListHotels | index.js:123-130 | the hotels exactly, or 500 when the document cannot be read |
| Server.Database.GetHotel | index.js:132-143 | the first hotel whose id equals the parameter; 404 "Hotel not found" when none does; 500 when unreadable; nothing written |
| Server.Database.Login | index.js:209-238 | 200 with the first user whose email and password both match, password stripped in body and token; else 401 "Invalid credentials"; the document is not changed |
| Server.Database.Register | index.js:171-207 | duplicate email: 400 "User already exists" and nothing changes; fresh email: exactly one user with id `length+1` appended, returned and put in the token without its password; hotels and bookings unchanged; the invariant is preserved; 500 with no change when reading or writing fails |
| Server.Database.Book | index.js:145-169 | a refused token gives the gate's 401 with no change; an unknown hotel gives 404 with no change; otherwise exactly one merged booking is appended and returned with 201; users and hotels never change |
| Client.BookingError | BookingForm.js:34-44 | no error exactly when checkIn < checkOut and guests >= 1; the date message whenever the dates are not ordered, even with bad guests; the guests message when the dates are ordered but guests < 1 |
| Client.InitialBookingIsValid | BookingForm.js:10-15 | the initial booking has check-out one day after check-in, one guest, a standard room, and passes validation |
| Client.WithInput | BookingForm.js:19-25 | handleChange's update sets the named field and keeps the others |
| Client.WithDate | BookingForm.js:27-32 | handleDateChange's update sets the named date and keeps the others |
| Client.CheckInPastCheckOutIsRefused | BookingForm.js:27-38 | moving check-in to or beyond check-out makes validation fail with the date message |
| Client.RequestBody | BookingForm.js:67-70 | the sent body holds the booking's four fields and the hotel's id |
| Client.FailureMessage | BookingForm.js:73-80 | a refused request shows the server's message, or "Booking failed" when that is absent or empty; a thrown error shows its own message |
| Client.BookingForm.constructor | BookingForm.js:10-17 | the form starts with the initial booking, an empty error and loading false |
| Client.BookingForm.HandleChange | BookingForm.js:19-25 | only the named booking field changes; error and loading stay |
| Client.BookingForm.HandleDateChange | BookingForm.js:27-32 | only the named date changes; error and loading stay |
| Client.BookingForm.ValidateBooking | BookingForm.js:34-44 | true exactly when the dates are ordered and guests >= 1, with error unchanged; otherwise false with the first failing rule's message in error |
| Client.BookingForm.HandleSubmit | BookingForm.js:46-84 | never leaves the form loading; signed out: go to /login and send nothing; invalid: send nothing, error set, loading unchanged; valid: send the booking with the hotel id, end with loading false, then go to /bookings with error cleared on success or show the failure message |
| EndToEnd.BodyJson | BookingForm.js:67-70 | the JSON of a sent body has exactly its five keys and values |
| EndToEnd.FormBookingIsStored | index.js:153-160 | the form's booking is stored with the server's id, the token user's id, the route's hotel, status "confirmed" and the form's own fields |
| EndToEnd.OnlyTheFormChecksDates | BookingForm.js:34-44 | a booking the form lets through is stored with ordered dates and at least one guest |

## Left out

- File I/O and JSON serialisation (`readDB`, `writeDB`, `fs.access`). The document lives in memory, and each handler is one atomic step. A partial or corrupt write is not modelled.
- The lost update between the `await readDB()` and the `await writeDB()` of two concurrent writes. This is concurrency, and the model is sequential.
- JWT signing and verification, the `iat`/`exp` fields that `jwt.sign` adds to the claims, the 24-hour expiry, and the cookie options. Verification is an oracle parameter.
- The Express, helmet and cors middleware, static file serving and the catch-all route.
- `parseInt` itself. The route id is already an `Option<int>`.
- Timestamps. `now` is a parameter.
- Register and login bodies whose `name`, `email` or `password` is missing (undefined in JavaScript) or not a string (a number, object, array or null). The model takes strings. An object- or array-valued email is never `===` a stored one (index.js:176), so the duplicate check cannot catch it; `EmailsUnique` is a property of string emails only.
- Request-body numbers that are not integers (`{"guests": 2.5}`). JSON numbers are integers here; the booking merge stores body values without looking at them, so this changes nothing it does.
- The date encoding of the form's request. `JSON.stringify` sends the `Date` values as ISO-8601 strings, so the server stores `checkIn`/`checkOut` as strings. `EndToEnd.BodyJson` and `EndToEnd.OnlyTheFormChecksDates` use day numbers instead, and the ordering they state is of those numbers.
- Request bodies that are not JSON objects, and the key order of JSON objects.
- Floating-point ratings. They are stored in tenths; prices in the seed are integers.
- The form's string-to-number coercion of `guests`, and a date picker that is cleared to null.
- The render while the request is pending (`loading` true, button disabled). `HandleSubmit` runs the request to its end in one step.
- The presentational components: App.js, Layout.js, HomePage.js, LoginForm.js, RegisterForm.js, HotelDetails.js and HotelList.js.
