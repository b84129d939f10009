/** Seat booking and seat availability (controllers/sazzad/bookingController.js). */
module Bookings {
  import opened Options
  import Js
  import opened Store

  /** The hall has this many seats, numbered 0 .. HallSize - 1. */
  const HallSize: nat := 30
  const Booked := "booked"
  const Available := "available"

  const MissingFieldsMessage := "Missing required fields"
  const UserNotFoundMessage := "User not found."
  const MovieNotFoundMessage := "Movie not found."
  const ConfirmedMessage := "Booking confirmed successfully."
  const ServerErrorMessage := "Server error."

  /** A stored booking, under the controller's fields user_id, movie_id, show_time,
      show_date, seats and total_price. */
  datatype Booking = Booking(
    id: string,
    userId: string,
    movieId: string,
    showTime: string,
    showDate: string,
    seats: seq<int>,
    totalPrice: Js.Value)

  /** The body of a booking request; `None` is a field that is absent or null. */
  datatype BookingRequest = BookingRequest(
    userId: Option<string>,
    movieId: Option<string>,
    showTime: Option<string>,
    date: Option<string>,
    seats: Option<seq<int>>,
    totalPrice: Js.Value)

  /** The store calls the two handlers make, in the order they make them. */
  datatype Call = FindUser | FindMovie | SaveBooking | FindBookings

  /** What a handler sends back. */
  datatype Reply =
    | Confirmed(booking: Booking, bookingId: string)   // 201 { success, message, booking, bookingId }
    | SeatsStatus(seats: seq<string>)                  // 200 { seats }
    | Refused(status: nat, message: string)            // 400 or 404 { message }
    | ServerError(error: string)                       // 500 { message: "Server error.", error }
  {
    function Status(): nat {
      match this
      case Confirmed(_, _) => 201
      case SeatsStatus(_) => 200
      case Refused(s, _) => s
      case ServerError(_) => 500
    }

    /** The `message` field of the JSON body, when it has one. */
    function Message(): Option<string> {
      match this
      case Confirmed(_, _) => Some(ConfirmedMessage)
      case SeatsStatus(_) => None
      case Refused(_, m) => Some(m)
      case ServerError(_) => Some(ServerErrorMessage)
    }
  }

  /** A reply together with the booking collection after the request. */
  datatype Outcome = Outcome(reply: Reply, bookings: seq<Booking>)

  ghost predicate UniqueIds(bookings: seq<Booking>) {
    forall i, j :: 0 <= i < j < |bookings| ==> bookings[i].id != bookings[j].id
  }

  /** The presence guard: four non-empty strings and a total price that is not undefined
      (so a price of 0, or null, passes). */
  predicate HasRequiredFields(req: BookingRequest) {
    Js.Filled(req.userId) && Js.Filled(req.movieId) && Js.Filled(req.showTime)
    && Js.Filled(req.date) && req.totalPrice != Js.Undefined
  }

  /** The request is complete, its user and movie exist, and no store call throws. */
  predicate Accepted(req: BookingRequest, users: set<string>, movies: set<string>, fault: Fault<Call>) {
    HasRequiredFields(req)
    && !FailsAt(fault, FindUser) && req.userId.value in users
    && !FailsAt(fault, FindMovie) && req.movieId.value in movies
    && !FailsAt(fault, SaveBooking)
  }

  /** The booking records what the request submitted; absent seats become no seats. */
  predicate Records(b: Booking, req: BookingRequest)
    requires HasRequiredFields(req)
  {
    b.userId == req.userId.value && b.movieId == req.movieId.value
    && b.showTime == req.showTime.value && b.showDate == req.date.value
    && b.seats == req.seats.GetOr([]) && b.totalPrice == req.totalPrice
  }

  /** `userBooking`: the reply and the new collection, given the existing users and movies. */
  function UserBookingOutcome(
    bookings: seq<Booking>, req: BookingRequest, users: set<string>, movies: set<string>, fault: Fault<Call>
  ): (o: Outcome)
    ensures o.reply == Refused(400, MissingFieldsMessage) <==> !HasRequiredFields(req)
    ensures o.reply == Refused(404, UserNotFoundMessage) <==>
      HasRequiredFields(req) && !FailsAt(fault, FindUser) && req.userId.value !in users
    ensures o.reply == Refused(404, MovieNotFoundMessage) <==>
      HasRequiredFields(req) && !FailsAt(fault, FindUser) && req.userId.value in users
      && !FailsAt(fault, FindMovie) && req.movieId.value !in movies
    ensures o.reply.ServerError? <==>
      HasRequiredFields(req)
      && (FailsAt(fault, FindUser)
          || (req.userId.value in users
              && (FailsAt(fault, FindMovie) || (req.movieId.value in movies && FailsAt(fault, SaveBooking)))))
    ensures o.reply.ServerError? ==> fault.FailAt? && o.reply.error == fault.message
    ensures o.reply.Confirmed? <==> Accepted(req, users, movies, fault)
    ensures !o.reply.Confirmed? ==> o.bookings == bookings
    ensures Accepted(req, users, movies, fault) ==>
      o.bookings == bookings + [o.reply.booking]
      && o.reply.bookingId == o.reply.booking.id && (forall k :: 0 <= k < |bookings| ==> bookings[k].id != o.reply.bookingId)
      && Records(o.reply.booking, req)
    ensures UniqueIds(bookings) ==> UniqueIds(o.bookings)
  {
    if !HasRequiredFields(req) then Outcome(Refused(400, MissingFieldsMessage), bookings)
    else if FailsAt(fault, FindUser) then Outcome(ServerError(fault.message), bookings)
    else if req.userId.value !in users then Outcome(Refused(404, UserNotFoundMessage), bookings)
    else if FailsAt(fault, FindMovie) then Outcome(ServerError(fault.message), bookings)
    else if req.movieId.value !in movies then Outcome(Refused(404, MovieNotFoundMessage), bookings)
    else if FailsAt(fault, SaveBooking) then Outcome(ServerError(fault.message), bookings)
    else
      var b := Booking(FreshId(bookings, (b: Booking) => b.id), req.userId.value, req.movieId.value,
                       req.showTime.value, req.date.value, req.seats.GetOr([]), req.totalPrice);
      Outcome(Confirmed(b, b.id), bookings + [b])
  }

  /** The booking belongs to the showing the availability query names. */
  predicate ShowMatches(b: Booking, movieId: string, date: string, time: string) {
    b.movieId == movieId && b.showDate == date && b.showTime == time
  }

  /** Some booking of the showing lists the seat. */
  ghost predicate SeatTaken(bookings: seq<Booking>, movieId: string, date: string, time: string, seat: int) {
    exists b :: b in bookings && ShowMatches(b, movieId, date, time) && seat in b.seats
  }

  /** The seats listed by the bookings, concatenated in order (`bookedSeats.push(...booking.seats)`). */
  function AllSeats(bs: seq<Booking>): (r: seq<int>)
    ensures forall seat :: seat in r <==> exists b :: b in bs && seat in b.seats
  {
    if bs == [] then []
    else
      var last := bs[|bs| - 1];
      assert bs == bs[..|bs| - 1] + [last];
      AllSeats(bs[..|bs| - 1]) + last.seats
  }

  /** The 30-entry status array built from the list of booked seat numbers. */
  function SeatStatus(booked: seq<int>): seq<string> {
    seq(HallSize, i => if i in booked then Booked else Available)
  }

  /** The availability array of one showing: entry i is "booked" exactly when some
      booking of that showing lists seat i. */
  function SeatMap(bookings: seq<Booking>, movieId: string, date: string, time: string): (r: seq<string>)
    ensures |r| == HallSize
    ensures forall i :: 0 <= i < HallSize ==>
      r[i] == if SeatTaken(bookings, movieId, date, time, i) then Booked else Available
  {
    SeatStatus(AllSeats(Filter(b => ShowMatches(b, movieId, date, time), bookings)))
  }

  /** With no booking for the showing, every seat is available. */
  lemma NoBookingsAllAvailable(bookings: seq<Booking>, movieId: string, date: string, time: string)
    requires forall b :: b in bookings ==> !ShowMatches(b, movieId, date, time)
    ensures SeatMap(bookings, movieId, date, time) == seq(HallSize, _ => Available)
  {
  }

  /** A booking of another showing, or one whose seats all lie outside 0 .. 29 (no seats
      at all included), leaves the availability array of the showing as it was. */
  lemma IrrelevantBookingIgnored(
    bookings: seq<Booking>, b: Booking, movieId: string, date: string, time: string)
    requires !ShowMatches(b, movieId, date, time) || forall seat :: seat in b.seats ==> !(0 <= seat < HallSize)
    ensures SeatMap(bookings + [b], movieId, date, time) == SeatMap(bookings, movieId, date, time)
  {
  }

  /** Two bookings of the showing with seats [1, 2, 3] and [4, 5] mark seats 1 to 5
      booked and every other seat available. */
  lemma SeatMapExample(u1: string, u2: string, movieId: string, date: string, time: string, p1: Js.Value, p2: Js.Value)
    ensures var bookings := [Booking("b1", u1, movieId, time, date, [1, 2, 3], p1),
                             Booking("b2", u2, movieId, time, date, [4, 5], p2)];
      SeatMap(bookings, movieId, date, time) == seq(HallSize, i => if 1 <= i <= 5 then Booked else Available)
  {
  }

  /** After a confirmed booking, every seat it lists in 0 .. 29 shows as booked for its
      showing, and every seat that was booked before, for any showing, still is. */
  lemma ConfirmedSeatsShowBooked(
    bookings: seq<Booking>, req: BookingRequest, users: set<string>, movies: set<string>, fault: Fault<Call>)
    requires Accepted(req, users, movies, fault)
    ensures var after := UserBookingOutcome(bookings, req, users, movies, fault).bookings;
      forall seat :: seat in req.seats.GetOr([]) && 0 <= seat < HallSize ==>
        SeatMap(after, req.movieId.value, req.date.value, req.showTime.value)[seat] == Booked
    ensures var after := UserBookingOutcome(bookings, req, users, movies, fault).bookings;
      forall m, d, t, seat :: 0 <= seat < HallSize && SeatMap(bookings, m, d, t)[seat] == Booked ==>
        SeatMap(after, m, d, t)[seat] == Booked
  {
  }

  /** The seats value `seats || {}` hands to the new booking as the handler is written:
      the submitted list (an empty list is truthy and is kept), or an empty plain object
      when seats is absent or null. */
  datatype SeatsField = SeatList(list: seq<int>) | EmptyObject

  function SeatsAsWritten(seats: Option<seq<int>>): SeatsField {
    if seats.Some? then SeatList(seats.value) else EmptyObject
  }

  /** The availability loop as written over stored seat fields: `if (booking.seats)` lets
      the truthy `{}` through and spreading it throws, so no seat list comes out. */
  function GatherAsWritten(fields: seq<SeatsField>): (r: Option<seq<int>>)
    ensures r.None? <==> exists k :: 0 <= k < |fields| && fields[k].EmptyObject?
    ensures r.Some? ==> forall seat :: seat in r.value <==> exists k :: 0 <= k < |fields| && seat in fields[k].list
  {
    if fields == [] then Some([])
    else
      var last := fields[|fields| - 1];
      var front := GatherAsWritten(fields[..|fields| - 1]);
      assert forall k :: 0 <= k < |fields| - 1 ==> fields[..|fields| - 1][k] == fields[k];
      if last.EmptyObject? || front.None? then None else Some(front.value + last.list)
  }

  /** `getSeatAvailability` as written, given the stored seat fields of the showing's
      bookings in store order; `typeError` is the message of the spread's TypeError. */
  function SeatAvailabilityAsWritten(fields: seq<SeatsField>, typeError: string): (r: Reply)
    ensures r.ServerError? <==> exists k :: 0 <= k < |fields| && fields[k].EmptyObject?
    ensures r.ServerError? ==> r.error == typeError
    ensures !r.ServerError? ==>
      r.SeatsStatus? && |r.seats| == HallSize
      && forall i :: 0 <= i < HallSize ==>
           r.seats[i] == if exists k :: 0 <= k < |fields| && fields[k].SeatList? && i in fields[k].list
                         then Booked else Available
  {
    match GatherAsWritten(fields)
    case None => ServerError(typeError)
    case Some(booked) => SeatsStatus(SeatStatus(booked))
  }

  /** As written, a request without seats is confirmed with `{}` stored in the seats
      field, and from then on the availability of its showing is a 500, whatever the
      showing's other bookings hold. */
  lemma MissingSeatsAsWritten(
    bookings: seq<Booking>, req: BookingRequest, users: set<string>, movies: set<string>, fault: Fault<Call>,
    others: seq<SeatsField>, typeError: string)
    requires Accepted(req, users, movies, fault) && req.seats.None?
    ensures UserBookingOutcome(bookings, req, users, movies, fault).reply.Status() == 201
    ensures SeatsAsWritten(req.seats) == EmptyObject
    ensures SeatAvailabilityAsWritten(others + [SeatsAsWritten(req.seats)], typeError) == ServerError(typeError)
  {
  }

  /** Corrected: a booking made without seats is confirmed with no seats, and the
      availability of every showing stays as it was. */
  lemma MissingSeatsBookNothing(
    bookings: seq<Booking>, req: BookingRequest, users: set<string>, movies: set<string>, fault: Fault<Call>,
    movieId: string, date: string, time: string)
    requires Accepted(req, users, movies, fault) && req.seats.None?
    ensures var o := UserBookingOutcome(bookings, req, users, movies, fault);
      o.reply.Confirmed? && o.reply.booking.seats == []
      && SeatMap(o.bookings, movieId, date, time) == SeatMap(bookings, movieId, date, time)
  {
  }

  class BookingStore {
    var bookings: seq<Booking>

    ghost predicate Valid()
      reads this
    {
      UniqueIds(bookings)
    }

    constructor ()
      ensures Valid() && bookings == []
    {
      bookings := [];
    }

    /** `userBooking`: validate, look the user up, look the movie up, then save one booking. */
    method UserBooking(req: BookingRequest, users: set<string>, movies: set<string>, fault: Fault<Call>)
      returns (res: Reply)
      requires Valid()
      modifies this
      ensures Valid()
      ensures var o := UserBookingOutcome(old(bookings), req, users, movies, fault);
        res == o.reply && bookings == o.bookings
    {
      if !HasRequiredFields(req) {
        return Refused(400, MissingFieldsMessage);
      }
      if FailsAt(fault, FindUser) {
        return ServerError(fault.message);
      }
      if req.userId.value !in users {
        return Refused(404, UserNotFoundMessage);
      }
      if FailsAt(fault, FindMovie) {
        return ServerError(fault.message);
      }
      if req.movieId.value !in movies {
        return Refused(404, MovieNotFoundMessage);
      }
      if FailsAt(fault, SaveBooking) {
        return ServerError(fault.message);
      }
      var booking := Booking(FreshId(bookings, (b: Booking) => b.id), req.userId.value, req.movieId.value,
                             req.showTime.value, req.date.value, req.seats.GetOr([]), req.totalPrice);
      bookings := bookings + [booking];
      res := Confirmed(booking, booking.id);
    }

    /** `getSeatAvailability`: collect the seats of the showing's bookings, then mark
        each of the 30 seats. Reads the collection and changes nothing. */
    method GetSeatAvailability(movieId: Option<string>, date: Option<string>, time: Option<string>, fault: Fault<Call>)
      returns (res: Reply)
      ensures !(Js.Filled(movieId) && Js.Filled(date) && Js.Filled(time)) ==>
        res == Refused(400, MissingFieldsMessage)
      ensures Js.Filled(movieId) && Js.Filled(date) && Js.Filled(time) && FailsAt(fault, FindBookings) ==>
        res == ServerError(fault.message)
      ensures Js.Filled(movieId) && Js.Filled(date) && Js.Filled(time) && !FailsAt(fault, FindBookings) ==>
        res == SeatsStatus(SeatMap(bookings, movieId.value, date.value, time.value))
    {
      if !(Js.Filled(movieId) && Js.Filled(date) && Js.Filled(time)) {
        return Refused(400, MissingFieldsMessage);
      }
      if FailsAt(fault, FindBookings) {
        return ServerError(fault.message);
      }
      var matching := Filter(b => ShowMatches(b, movieId.value, date.value, time.value), bookings);
      var booked: seq<int> := [];
      var i := 0;
      while i < |matching|
        invariant 0 <= i <= |matching|
        invariant booked == AllSeats(matching[..i])
      {
        assert matching[..i + 1][..i] == matching[..i];
        booked := booked + matching[i].seats;
        i := i + 1;
      }
      assert matching[..i] == matching;
      res := SeatsStatus(SeatStatus(booked));
    }
  }
}
