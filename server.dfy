/** The server of index.js: the in-memory document with its three collections,
    the seed written when no document exists, the token gate in front of the
    protected routes, and one method per route handler.

    Every handler of the source reads the whole document from a file, changes
    the loaded copy and writes it back. Here the document is one object that
    the handlers read and update in a single step; the file becomes the
    `Storage` parameter, which says whether reading or writing it fails. */
module Server {
  import opened Lookup
  import opened Json

  /** A stored user (index.js:180-186); the password is kept as given. */
  datatype User = User(id: int, name: string, email: string, password: string, createdAt: string)

  /** A user without the password field: what register and login return and
      what the session token carries (index.js:192, index.js:220). */
  datatype PublicUser = PublicUser(id: int, name: string, email: string, createdAt: string)

  /** A hotel (index.js:36-47). The rating is kept in tenths: 4.8 is 48. */
  datatype Hotel = Hotel(
    id: int,
    name: string,
    description: string,
    location: string,
    price: int,
    ratingTenths: int,
    images: seq<string>,
    availableRooms: int)

  /** A booking is the JSON object built by a spread of the request body
      (index.js:153-160), so it holds whatever keys the client sent. */
  type Booking = Object

  /** What the response does to the session cookie. */
  datatype Cookie = NoCookie | SetToken(payload: PublicUser) | ClearToken

  datatype Body =
    | Message(message: string)
    | UserBody(user: PublicUser)
    | LoginBody(message: string, user: PublicUser)
    | ClaimsBody(claims: PublicUser)
    | HotelsBody(hotels: seq<Hotel>)
    | HotelBody(hotel: Hotel)
    | BookingBody(booking: Booking)

  datatype Response = Response(status: int, body: Body, cookie: Cookie)

  /** Whether reading or writing the document file fails on this request. */
  datatype Storage = Healthy | ReadFails | WriteFails

  const SERVER_ERROR := Response(500, Message("Server error"), NoCookie)
  const HOTEL_NOT_FOUND := Response(404, Message("Hotel not found"), NoCookie)
  const USER_EXISTS := Response(400, Message("User already exists"), NoCookie)
  const INVALID_CREDENTIALS := Response(401, Message("Invalid credentials"), NoCookie)
  const AUTH_REQUIRED := Response(401, Message("Authentication required"), NoCookie)
  const INVALID_TOKEN := Response(401, Message("Invalid or expired token"), NoCookie)
  const LOGIN_SUCCESSFUL := "Login successful"
  const CONFIRMED := JStr("confirmed")

  // ---------------------------------------------------------------------------
  // Users and the password strip

  /** Puts a password back on a public user: the inverse of StripPassword. */
  function WithPassword(p: PublicUser, password: string): User
  {
    User(p.id, p.name, p.email, password, p.createdAt)
  }

  /** `{ password: _, ...userWithoutPassword }`: the user with only its
      password removed, so that nothing else about it is lost. */
  function StripPassword(u: User): (p: PublicUser)
    ensures WithPassword(p, u.password) == u
  {
    PublicUser(u.id, u.name, u.email, u.createdAt)
  }

  /** Some user already has this email. */
  ghost predicate EmailTaken(users: seq<User>, email: string)
  {
    exists i :: 0 <= i < |users| && users[i].email == email
  }

  /** No two users share an email. */
  ghost predicate EmailsUnique(users: seq<User>)
  {
    forall i, j :: 0 <= i < j < |users| ==> users[i].email != users[j].email
  }

  /** Every user's id is its position plus one, as `users.length + 1` assigns it. */
  ghost predicate IdsSequential(users: seq<User>)
  {
    forall i :: 0 <= i < |users| ==> users[i].id == i + 1
  }

  /** Some user has exactly these credentials. */
  ghost predicate CredentialsMatch(users: seq<User>, email: string, password: string)
  {
    exists i :: 0 <= i < |users| && users[i].email == email && users[i].password == password
  }

  /** `i` is the first user with exactly these credentials. */
  ghost predicate FirstCredentialMatch(users: seq<User>, email: string, password: string, i: int)
  {
    && 0 <= i < |users|
    && users[i].email == email && users[i].password == password
    && forall j :: 0 <= j < i ==> !(users[j].email == email && users[j].password == password)
  }

  /** The user that register appends to `users`. */
  function NewUser(users: seq<User>, name: string, email: string, password: string, now: string): User
  {
    User(|users| + 1, name, email, password, now)
  }

  /** Register's append keeps emails unique and ids sequential when the email
      is fresh; it is this lemma that makes the duplicate check matter. */
  lemma RegisterKeepsUsersValid(users: seq<User>, name: string, email: string, password: string, now: string)
    requires EmailsUnique(users) && IdsSequential(users)
    requires !EmailTaken(users, email)
    ensures EmailsUnique(users + [NewUser(users, name, email, password, now)])
    ensures IdsSequential(users + [NewUser(users, name, email, password, now)])
  {
  }

  /** A user that register appends with a fresh email is the one a login with
      the same email and password finds. */
  lemma RegisteredUserCanLogIn(users: seq<User>, name: string, email: string, password: string, now: string)
    requires !EmailTaken(users, email)
    ensures FirstCredentialMatch(users + [NewUser(users, name, email, password, now)], email, password, |users|)
  {
  }

  /** When emails are unique, login succeeds exactly for the password stored
      with that email, and it is that user that logs in. */
  lemma LoginMatchUnderUniqueEmails(users: seq<User>, email: string, password: string, i: int)
    requires EmailsUnique(users)
    requires 0 <= i < |users| && users[i].email == email
    ensures CredentialsMatch(users, email, password) <==> users[i].password == password
    ensures users[i].password == password ==> FirstCredentialMatch(users, email, password, i)
  {
  }

  // ---------------------------------------------------------------------------
  // Hotels and the seed

  /** Some hotel's id equals the parsed route parameter (None stands for NaN,
      which no id equals). */
  ghost predicate HasHotel(hotels: seq<Hotel>, id: Option<int>)
  {
    exists i :: 0 <= i < |hotels| && Some(hotels[i].id) == id
  }

  /** `i` is the first hotel whose id equals the parsed route parameter. */
  ghost predicate FirstHotelWithId(hotels: seq<Hotel>, id: Option<int>, i: int)
  {
    && 0 <= i < |hotels|
    && Some(hotels[i].id) == id
    && forall j :: 0 <= j < i ==> Some(hotels[j].id) != id
  }

  ghost predicate HotelIdsUnique(hotels: seq<Hotel>)
  {
    forall i, j :: 0 <= i < j < |hotels| ==> hotels[i].id != hotels[j].id
  }

  /** The four hotels initDB writes when no document exists (index.js:35-84). */
  function SeedHotels(): (hs: seq<Hotel>)
    ensures |hs| == 4
    ensures forall i :: 0 <= i < |hs| ==> hs[i].id == i + 1 && hs[i].availableRooms > 0
    ensures HotelIdsUnique(hs)
  {
    [ Hotel(1, "Luxury Palace Hotel",
            "Experience ultimate luxury in our 5-star hotel with breathtaking city views.",
            "Downtown City Center", 300, 48,
            ["https://images.unsplash.com/photo-1566073771259-6a8506099945"], 50),
      Hotel(2, "Seaside Resort & Spa",
            "Relax in our beachfront resort featuring private beach access.",
            "Coastal Boulevard", 250, 46,
            ["https://images.unsplash.com/photo-1571896349842-33c89424de2d"], 40),
      Hotel(3, "Mountain View Lodge",
            "A cozy mountain retreat with stunning views.",
            "Mountain Range", 180, 45,
            ["https://images.unsplash.com/photo-1517320964276-a002fa203177"], 30),
      Hotel(4, "Business Elite Hotel",
            "Perfect for business travelers with modern facilities.",
            "Business District", 220, 47,
            ["https://images.unsplash.com/photo-1551882547-ff40c63fe5fa"], 45) ]
  }

  /** When hotel ids are unique, the hotel a lookup finds is the only one with that id. */
  lemma HotelLookupUnderUniqueIds(hotels: seq<Hotel>, i: int)
    requires HotelIdsUnique(hotels)
    requires 0 <= i < |hotels|
    ensures FirstHotelWithId(hotels, Some(hotels[i].id), i)
  {
  }

  // ---------------------------------------------------------------------------
  // The booking record

  /** The booking built at index.js:153-160: the defaults id, hotelId and
      userId, overridden by every key of the request body, overridden in turn
      by status and createdAt. */
  function MergeBooking(id: int, hotelId: int, userId: int, body: Object, now: string): (b: Booking)
    ensures b.Keys == body.Keys + {"id", "hotelId", "userId", "status", "createdAt"}
    ensures b["status"] == CONFIRMED && b["createdAt"] == JStr(now)
    ensures forall k :: k in body && k != "status" && k != "createdAt" ==> b[k] == body[k]
    ensures "id" !in body ==> b["id"] == JNum(id)
    ensures "hotelId" !in body ==> b["hotelId"] == JNum(hotelId)
    ensures "userId" !in body ==> b["userId"] == JNum(userId)
  {
    Spread(
      Spread(map["id" := JNum(id), "hotelId" := JNum(hotelId), "userId" := JNum(userId)], body),
      map["status" := CONFIRMED, "createdAt" := JStr(now)])
  }

  /** The merge order lets a request body choose the booking's userId: a body
      naming another user's id is stored under that user. */
  lemma BodyOverridesUserId(id: int, hotelId: int, userId: int, other: int, now: string)
    requires other != userId
    ensures MergeBooking(id, hotelId, userId, map["userId" := JNum(other)], now)["userId"] == JNum(other)
    ensures MergeBooking(id, hotelId, userId, map["userId" := JNum(other)], now)["userId"] != JNum(userId)
  {
  }

  // ---------------------------------------------------------------------------
  // The token gate and the routes that need no document

  /** The outcome of authenticateToken: the handler runs with the verified
      claims, or the request ends with the gate's response. */
  datatype Gate = Admit(claims: PublicUser) | Refuse(response: Response)

  /** authenticateToken (index.js:102-116). A missing or empty cookie is
      refused before verification; `verify` stands for jwt.verify with the
      server's secret, returning the token's claims or failing. */
  function Authenticate(token: Option<string>, verify: string -> Option<PublicUser>): (g: Gate)
    ensures g == Refuse(AUTH_REQUIRED) <==> token == None || token == Some("")
    ensures g.Admit? <==> token.Some? && token.value != "" && verify(token.value).Some?
    ensures g.Admit? ==> verify(token.value) == Some(g.claims)
    ensures g.Refuse? ==> g.response == AUTH_REQUIRED || g.response == INVALID_TOKEN
  {
    match token
    case None => Refuse(AUTH_REQUIRED)
    case Some(t) =>
      if t == "" then Refuse(AUTH_REQUIRED)
      else match verify(t)
        case None => Refuse(INVALID_TOKEN)
        case Some(claims) => Admit(claims)
  }

  /** GET /api/auth/check (index.js:119-121): the claims of a valid token, or
      the gate's 401. */
  function CheckSession(token: Option<string>, verify: string -> Option<PublicUser>): (r: Response)
    ensures r.status == 200 <==> Authenticate(token, verify).Admit?
    ensures r.status == 200 ==> r == Response(200, ClaimsBody(verify(token.value).value), NoCookie)
    ensures r.status != 200 ==> r == Authenticate(token, verify).response
  {
    match Authenticate(token, verify)
    case Refuse(response) => response
    case Admit(claims) => Response(200, ClaimsBody(claims), NoCookie)
  }

  /** The token a register or login response sets, once the verifier accepts
      it, reads back as exactly the claims that response put in it. */
  lemma SessionRoundTrip(issued: Response, token: string, verify: string -> Option<PublicUser>)
    requires issued.cookie.SetToken?
    requires token != ""
    requires verify(token) == Some(issued.cookie.payload)
    ensures CheckSession(Some(token), verify) == Response(200, ClaimsBody(issued.cookie.payload), NoCookie)
  {
  }

  /** POST /api/auth/logout (index.js:240-243): clears the cookie. The server
      keeps no session state, so the token itself stays valid. */
  function Logout(): (r: Response)
    ensures r.status == 200 && r.cookie == ClearToken
  {
    Response(200, Message("Logged out successfully"), ClearToken)
  }

  // ---------------------------------------------------------------------------
  // The document and the handlers that read or change it

  class Database {
    var users: seq<User>
    var hotels: seq<Hotel>
    var bookings: seq<Booking>

    /** What the handlers keep true of a document that starts out seeded. */
    ghost predicate Valid()
      reads this
    {
      EmailsUnique(users) && IdsSequential(users) && HotelIdsUnique(hotels)
    }

    /** initDB when no document exists: no users, the four seed hotels, no bookings. */
    constructor Seeded()
      ensures users == [] && hotels == SeedHotels() && bookings == []
      ensures Valid()
    {
      users, hotels, bookings := [], SeedHotels(), [];
    }

    /** initDB when a document already exists: it is left as it is. */
    constructor Existing(users: seq<User>, hotels: seq<Hotel>, bookings: seq<Booking>)
      ensures this.users == users && this.hotels == hotels && this.bookings == bookings
    {
      this.users, this.hotels, this.bookings := users, hotels, bookings;
    }

    /** GET /api/hotels (index.js:123-130): the hotels exactly, or 500 when
        the document cannot be read. */
    method ListHotels(storage: Storage) returns (resp: Response)
      ensures storage == ReadFails ==> resp == SERVER_ERROR
      ensures storage != ReadFails ==> resp == Response(200, HotelsBody(hotels), NoCookie)
    {
      if storage == ReadFails {
        return SERVER_ERROR;
      }
      resp := Response(200, HotelsBody(hotels), NoCookie);
    }

    /** GET /api/hotels/:id (index.js:132-143): the first hotel whose id equals
        the parsed parameter, else 404; 500 when the document cannot be read. */
    method GetHotel(id: Option<int>, storage: Storage) returns (resp: Response)
      ensures storage == ReadFails ==> resp == SERVER_ERROR
      ensures storage != ReadFails && !HasHotel(hotels, id) ==> resp == HOTEL_NOT_FOUND
      ensures storage != ReadFails && HasHotel(hotels, id) ==>
        exists i :: FirstHotelWithId(hotels, id, i) && resp == Response(200, HotelBody(hotels[i]), NoCookie)
    {
      if storage == ReadFails {
        return SERVER_ERROR;
      }
      var found := FirstIndex(hotels, (h: Hotel) => Some(h.id) == id);
      if found.None? {
        return HOTEL_NOT_FOUND;
      }
      resp := Response(200, HotelBody(hotels[found.value]), NoCookie);
      assert FirstHotelWithId(hotels, id, found.value);
    }

    /** POST /api/auth/login (index.js:209-238): the first user with both the
        email and the password, returned and put in the token without its
        password; else 401. The document is only read. */
    method Login(email: string, password: string, storage: Storage) returns (resp: Response)
      ensures storage == ReadFails ==> resp == SERVER_ERROR
      ensures storage != ReadFails && !CredentialsMatch(users, email, password) ==> resp == INVALID_CREDENTIALS
      ensures storage != ReadFails && CredentialsMatch(users, email, password) ==>
        exists i :: FirstCredentialMatch(users, email, password, i) &&
          resp == Response(200, LoginBody(LOGIN_SUCCESSFUL, StripPassword(users[i])), SetToken(StripPassword(users[i])))
    {
      if storage == ReadFails {
        return SERVER_ERROR;
      }
      var found := FirstIndex(users, (u: User) => u.email == email && u.password == password);
      if found.None? {
        return INVALID_CREDENTIALS;
      }
      var safe := StripPassword(users[found.value]);
      resp := Response(200, LoginBody(LOGIN_SUCCESSFUL, safe), SetToken(safe));
      assert FirstCredentialMatch(users, email, password, found.value);
    }

    /** POST /api/auth/register (index.js:171-207): a duplicate email is
        refused with 400 and nothing is written; otherwise one user with id
        `users.length + 1` is appended, written, and returned (and put in the
        token) without its password. If the write fails the stored document
        keeps its old contents and the answer is 500. */
    method Register(name: string, email: string, password: string, now: string, storage: Storage)
      returns (resp: Response)
      modifies this
      ensures hotels == old(hotels) && bookings == old(bookings)
      ensures storage == ReadFails ==> resp == SERVER_ERROR && users == old(users)
      ensures storage != ReadFails && EmailTaken(old(users), email) ==>
        resp == USER_EXISTS && users == old(users)
      ensures storage == WriteFails && !EmailTaken(old(users), email) ==>
        resp == SERVER_ERROR && users == old(users)
      ensures storage == Healthy && !EmailTaken(old(users), email) ==>
        var u := NewUser(old(users), name, email, password, now);
        && users == old(users) + [u]
        && resp == Response(201, UserBody(StripPassword(u)), SetToken(StripPassword(u)))
      ensures old(Valid()) ==> Valid()
    {
      if storage == ReadFails {
        return SERVER_ERROR;
      }
      var found := FirstIndex(users, (u: User) => u.email == email);
      if found.Some? {
        return USER_EXISTS;
      }
      var u := NewUser(users, name, email, password, now);
      if storage == WriteFails {
        return SERVER_ERROR;
      }
      if Valid() {
        RegisterKeepsUsersValid(users, name, email, password, now);
      }
      users := users + [u];
      var safe := StripPassword(u);
      resp := Response(201, UserBody(safe), SetToken(safe));
    }

    /** POST /api/hotels/:id/book (index.js:145-169), behind the token gate:
        a refused token ends the request with the gate's 401 before the
        document is read; an unknown hotel gives 404; otherwise exactly one
        merged booking is appended and returned with 201. Users and hotels
        never change (no room count is taken off), and there is no check of
        dates, guests or capacity. */
    method Book(id: Option<int>, token: Option<string>, verify: string -> Option<PublicUser>,
                body: Object, now: string, storage: Storage)
      returns (resp: Response)
      modifies this
      ensures users == old(users) && hotels == old(hotels)
      ensures Authenticate(token, verify).Refuse? ==>
        resp == Authenticate(token, verify).response && bookings == old(bookings)
      ensures Authenticate(token, verify).Admit? && storage == ReadFails ==>
        resp == SERVER_ERROR && bookings == old(bookings)
      ensures Authenticate(token, verify).Admit? && storage != ReadFails && !HasHotel(hotels, id) ==>
        resp == HOTEL_NOT_FOUND && bookings == old(bookings)
      ensures Authenticate(token, verify).Admit? && storage == WriteFails && HasHotel(hotels, id) ==>
        resp == SERVER_ERROR && bookings == old(bookings)
      ensures Authenticate(token, verify).Admit? && storage == Healthy && HasHotel(hotels, id) ==>
        var b := MergeBooking(|old(bookings)| + 1, id.value, Authenticate(token, verify).claims.id, body, now);
        && bookings == old(bookings) + [b]
        && resp == Response(201, BookingBody(b), NoCookie)
    {
      var gate := Authenticate(token, verify);
      if gate.Refuse? {
        return gate.response;
      }
      if storage == ReadFails {
        return SERVER_ERROR;
      }
      var found := FirstIndex(hotels, (h: Hotel) => Some(h.id) == id);
      if found.None? {
        return HOTEL_NOT_FOUND;
      }
      var hotel := hotels[found.value];
      var booking := MergeBooking(|bookings| + 1, hotel.id, gate.claims.id, body, now);
      if storage == WriteFails {
        return SERVER_ERROR;
      }
      bookings := bookings + [booking];
      resp := Response(201, BookingBody(booking), NoCookie);
    }
  }

  /** The session scenario: register, a duplicate registration, login with the
      same credentials, the session check with the issued token, and the check
      once logout has cleared the cookie. */
  method SessionScenario()
  {
    var db := new Database.Seeded();
    var r1 := db.Register("alice", "alice@example.com", "pw1", "t0", Healthy);
    var alice := PublicUser(1, "alice", "alice@example.com", "t0");
    assert r1 == Response(201, UserBody(alice), SetToken(alice));
    assert db.users == [User(1, "alice", "alice@example.com", "pw1", "t0")];

    var r2 := db.Register("alice", "alice@example.com", "other", "t1", Healthy);
    assert db.users[0].email == "alice@example.com";
    assert r2 == USER_EXISTS && |db.users| == 1;

    var r3 := db.Login("alice@example.com", "pw1", Healthy);
    LoginMatchUnderUniqueEmails(db.users, "alice@example.com", "pw1", 0);
    assert r3 == Response(200, LoginBody(LOGIN_SUCCESSFUL, alice), SetToken(alice));

    // The verifier accepts the token signed over the claims login issued.
    var issued := r3.cookie.payload;
    var verify := (t: string) => if t == "alice-token" then Some(issued) else None;
    SessionRoundTrip(r3, "alice-token", verify);
    assert CheckSession(Some("alice-token"), verify) == Response(200, ClaimsBody(alice), NoCookie);
    assert Logout().cookie == ClearToken;
    assert CheckSession(None, verify) == AUTH_REQUIRED;
  }
}
