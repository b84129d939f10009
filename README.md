# Cinehouse back end: booking, watchlist, help-support and gift-card handlers in Dafny

This project models the four request handlers of the Cinehouse movie-ticketing back end
that contain real rules, and proves properties of the model:

- **Seat booking** (`userBooking`): a presence guard, a user lookup, a movie lookup, then one
  booking appended to the booking collection.
- **Seat availability** (`getSeatAvailability`): the bookings of one showing (movie, date,
  time) are gathered, their seat numbers concatenated, and a 30-entry array of
  `"booked"` / `"available"` is built, one entry per seat 0 .. 29.
- **Watchlist** (`addToWatchlist`, `getWatchlist`, `removeFromWatchlist`): an insert guarded by
  a duplicate check on (user, movie id), a filter by user, and a delete by entry id.
- **Help-support queries** (`createSupportQuery`, `getUserQueries`, `deleteQuery`): each behind
  an ordered chain of 400 / 404 checks; a new query gets the schema defaults (no response,
  status `Open`).
- **Gift cards** (`addGiftCard`, `getGiftCards`): three ordered input checks, then one insert;
  and a listing of the whole collection.

How the model is built:

- The document store becomes an in-memory collection: a `seq` of records in insertion order.
  Each handler group has a class (`BookingStore`, `WatchlistStore`, `QueryStore`,
  `GiftCardStore`) holding that sequence as a field. Its methods do the handler's steps in
  the handler's order.
- Each handler that writes has a pure outcome function (`UserBookingOutcome`, `AddOutcome`,
  `RemoveOutcome`, `CreateOutcome`, `DeleteOutcome`). It returns the reply and the new
  collection, and its contract states the handler's rules. The class method is proved equal
  to it. Lemmas that relate several requests are stated over these functions.
- Handlers that only read are class methods without a `modifies` clause: the collection is
  unchanged by construction.
- A reply is a datatype with one constructor for each JSON body the handler sends. `Status()`
  gives the HTTP status.
- A failing store call is the parameter `fault: Fault<Call>`. It names which call throws and
  the error's message. Calls before it succeed, and a failing write writes nothing. Which
  call fails matters: an unknown user is a 404 even when the later save would have failed.
- The existing users and movies are parameters (`users`, `movies`: sets of ids).
  `Date.parse` is the parameter `isDate`.
- A generated `_id` is `Store.FreshId`: a non-empty string that differs from every id in use.
- JavaScript truthiness and `typeof ... === "number"` are spelled out in module `Js`. So
  `!balance` rejects a balance of 0, and `totalPrice === undefined` accepts a price of 0 or
  null.

Modules: `Options`, `Js`, `Store` (faults, filter, first-match lookup, removal, fresh ids),
`Bookings`, `Watchlist`, `HelpSupport`, `GiftCards`.

## Model

| member | source | states |
|---|---|---|
| `Bookings.UserBookingOutcome` | controllers/sazzad/bookingController.js:22-63 | 400 "Missing required fields" iff userId, movieId, showTime or date is empty/absent or totalPrice is undefined; 404 "User not found." iff the fields are present, the user lookup does not throw and the user is unknown (even if the movie is unknown too); 404 "Movie not found." iff the user exists and the movie is unknown; 500 iff the fields are present and a store call that is reached throws (the user lookup; the movie lookup once the user exists; the save once user and movie exist), carrying the thrown message; 201 iff every check passes and no store call throws; otherwise the collection is unchanged; on 201 exactly one booking is appended, holding the submitted user, movie, time, date, price and seats (none when absent), with a fresh id that is also returned as bookingId; distinct booking ids stay distinct |
| `Bookings.BookingStore.UserBooking` | controllers/sazzad/bookingController.js:22-63 | the handler's steps on the store; the reply and the new collection are those of `UserBookingOutcome` on the old collection; ids stay distinct |
| `Bookings.AllSeats` | controllers/sazzad/bookingController.js:92-98 | a seat number is in the gathered list iff one of the bookings lists it |
| `Bookings.SeatMap` | controllers/sazzad/bookingController.js:86-102 | the array has exactly 30 entries; entry i is "booked" iff some booking with exactly that movie, date and time lists seat i, and "available" otherwise |
| `Bookings.BookingStore.GetSeatAvailability` | controllers/sazzad/bookingController.js:78-108 | 400 "Missing required fields" when movieId, date or time is empty/absent; 500 with the thrown message when the lookup throws; otherwise 200 with `SeatMap` of the current bookings (the loop accumulating seats is proved against `AllSeats`); reads the store without changing it |
| `Bookings.NoBookingsAllAvailable` | controllers/sazzad/bookingController.js:86-102 | with no booking for the showing, all 30 entries are "available" |
| `Bookings.IrrelevantBookingIgnored` | controllers/sazzad/bookingController.js:86-102 | adding a booking of another movie, date or time, or one whose seats all lie outside 0..29 (including one with no seats), leaves the array unchanged |
| `Bookings.SeatMapExample` | __test__/bookingController.test.js:162-182 | bookings with seats [1,2,3] and [4,5] for the showing mark seats 1-5 booked and all others available |
| `Bookings.GatherAsWritten` | controllers/sazzad/bookingController.js:92-98 | the seat-gathering loop over stored seat fields: it throws iff some field is the plain object, and otherwise a seat is gathered iff some field lists it |
| `Bookings.SeatAvailabilityAsWritten` | controllers/sazzad/bookingController.js:92-106 | the availability handler as written, over the stored seats fields of the showing's bookings: 500 with the TypeError's message iff some field is the plain object `{}`; otherwise 200 with 30 entries, entry i "booked" iff some field lists seat i |
| `Bookings.MissingSeatsAsWritten` | controllers/sazzad/bookingController.js:42-106 | as written, an otherwise accepted request without seats is confirmed (201) with `{}` (`seats \|\| {}`, :47) stored in the seats field, and the availability of its showing is then a 500 whatever its other bookings hold |
| `Bookings.MissingSeatsBookNothing` | controllers/sazzad/bookingController.js:42-102 | corrected: an accepted request without seats is confirmed with an empty seat list, and the availability array of every showing is unchanged by it |
| `Bookings.ConfirmedSeatsShowBooked` | controllers/sazzad/bookingController.js:42-102 | after a confirmed booking, each of its seats in 0..29 shows "booked" for its showing, and every seat booked before, for any showing, stays booked |
| `Watchlist.AddOutcome` | controllers/zaed/watchlistController.js:22-37 | 400 "Movie already in watchlist" iff an entry with the same userId and movie._id exists (and the lookup does not throw); 201 iff there is none and neither the lookup nor the save throws; then exactly one entry {userId, movie} with a fresh id is appended; in every other case the collection is unchanged; 500 iff the movie is missing, the lookup throws, or there is no duplicate and the save throws; a missing movie gives 500 with the TypeError's message, a store failure 500 with its message; a duplicate-free collection stays duplicate-free; ids stay distinct |
| `Watchlist.ByUser` | controllers/zaed/watchlistController.js:53-54 | the listed entries are exactly the store's entries with that userId, each as often as it is stored, in store order |
| `Watchlist.RemoveOutcome` | controllers/zaed/watchlistController.js:70-77 | 200 whether or not an entry had the id, 500 with the message when the delete throws; an unknown id or a failure leaves the collection unchanged; with distinct ids the result is the collection with every other entry kept and the entry with that id gone; keeps ids distinct and keeps the collection duplicate-free |
| `Watchlist.ReplayKeepsNoDuplicates` | controllers/zaed/watchlistController.js:26-33 | from a duplicate-free collection with distinct ids, any sequence of add, list and remove requests keeps both properties |
| `Watchlist.AddThenList` | controllers/zaed/watchlistController.js:31-54 | after an add, the user's list is the old list plus the new entry at the end; other users' lists are unchanged |
| `Watchlist.AddThenRemove` | controllers/zaed/watchlistController.js:31-73 | removing the entry just added, by its id, restores the collection |
| `Watchlist.WatchlistStore.AddToWatchlist` | controllers/zaed/watchlistController.js:22-37 | reply and new collection are those of `AddOutcome`; ids stay distinct |
| `Watchlist.WatchlistStore.GetWatchlist` | controllers/zaed/watchlistController.js:49-58 | 200 with `ByUser` of the collection, or 500 with the message; reads only |
| `Watchlist.WatchlistStore.RemoveFromWatchlist` | controllers/zaed/watchlistController.js:70-77 | reply and new collection are those of `RemoveOutcome`; ids stay distinct |
| `HelpSupport.CreateOutcome` | controllers/amit/helpSupportController.js:17-44 | 400 "User ID and question are required." iff either is empty/absent; 404 "User not found." iff both are present, the lookup does not throw and the user is unknown; 500 iff both are present and the user lookup throws, or the user exists and the save throws, carrying the thrown message; 201 iff the user exists and neither store call throws; then exactly one query is appended with the given userId and question, a fresh non-empty id, response null and status Open (models/amit/helpSupportModel.js:54-68); otherwise the collection is unchanged |
| `HelpSupport.ByUser` | controllers/amit/helpSupportController.js:67-71 | the listed queries are exactly the store's queries with that userId, each as often as it is stored, in store order |
| `HelpSupport.DeleteOutcome` | controllers/amit/helpSupportController.js:90-114 | 400 "Query ID is required." iff the id is empty; 500 iff it is not and the delete throws; 404 "Query not found." iff no query has the id; 200 iff the id is non-empty, the delete does not throw and some query has the id; every reply but 200 leaves the collection unchanged; 200 removes exactly one query, and with distinct ids exactly the one with that id |
| `HelpSupport.CreateThenDelete` | controllers/amit/helpSupportController.js:32-109 | deleting the query just submitted, by its id, gives 200 and restores the collection |
| `HelpSupport.DeleteTwiceNotFound` | controllers/amit/helpSupportController.js:100-104 | with distinct ids, deleting the same id twice gives 404 the second time |
| `HelpSupport.CreateThenList` | controllers/amit/helpSupportController.js:32-71 | after a submission, the user's list is the old list plus the new query at the end; other users' lists are unchanged |
| `HelpSupport.QueryStore.CreateSupportQuery` | controllers/amit/helpSupportController.js:17-44 | reply and new collection are those of `CreateOutcome`; ids stay distinct |
| `HelpSupport.QueryStore.GetUserQueries` | controllers/amit/helpSupportController.js:57-76 | 400 "User ID is required." for an empty id; 500 with the message on failure; otherwise 200 with `ByUser`; reads only |
| `HelpSupport.QueryStore.DeleteQuery` | controllers/amit/helpSupportController.js:90-114 | reply and new collection are those of `DeleteOutcome`; ids stay distinct |
| `GiftCards.Validate` | controllers/akif/giftCardController.js:25-41 | the first failing check decides: "All fields ... are required" iff code, balance or expirationDate is falsy (so balance 0 lands here); "Balance must be a positive number" iff all are present and balance is not a positive number; "Expiration date must be a valid date" iff those pass and the date does not parse; no message iff all pass |
| `GiftCards.AddOutcome` | controllers/akif/giftCardController.js:21-56 | a failed check gives 400 with its message and no write; 201 iff the checks pass and the save does not throw, and then exactly one card with the given fields and a fresh id is appended and returned; a failing save gives 500 "Error adding gift card" with the message and no write |
| `GiftCards.GiftCardStore.AddGiftCard` | controllers/akif/giftCardController.js:21-56 | reply and new collection are those of `AddOutcome` |
| `GiftCards.GiftCardStore.GetGiftCards` | controllers/akif/giftCardController.js:67-77 | 200 with the whole collection, or 500 "Error fetching gift cards" with the message; reads only |

## Left out

- Persistence and HTTP plumbing: Mongoose models, schema casting and validation, Express routes, logging, `createdAt`/`updatedAt` timestamps and the real format of generated ObjectIds. A generated id is only fresh and non-empty.
- Ids that are not valid ObjectIds: Mongoose throws a cast error for them (a 500). Here an id is a plain string compared for equality.
- Concurrency: each request is one atomic step. The lookup-then-save races are not modelled: two simultaneous bookings of a seat, or two simultaneous adds of the same movie to a watchlist.
- Other controllers (users, reviews, payments, food, movie listing, search, profiles): authentication and single persistence calls. Not part of this model.
- Bookings.UserBookingOutcome: absent seats become an empty seat list, the evidently intended behaviour (see "## Findings"). Submitted seats are modelled as integer lists, so other JSON shapes `seats` could have are not modelled.
- Bookings.UserBookingOutcome: ids are `Option<string>`, so absent and null are one case. An id sent as a non-string JSON value is not modelled. `totalPrice` is a full JSON value, so null passes the guard as it does in the source.
- Bookings.SeatMap: a stored booking here always has a seat list, so the branch of `if (booking.seats)` that skips a booking never arises; an empty list gathers nothing, as a skipped booking would. The plain object `{}` that the handler would store for absent seats is modelled separately, by `Bookings.GatherAsWritten`.
- Bookings.SeatAvailabilityAsWritten: the TypeError's message is the parameter `typeError`; its wording is the JavaScript engine's.
- The booking schema (`models/sazzad/bookingModel.js`) declares other field names than the controller writes (`userId`, `movieId`, `showTime`, `showDate`, `totalPrice` versus `user_id`, `movie_id`, `show_time`, `show_date`, `total_price`). The model follows the controller's fields and applies neither the schema's casts nor its `required` checks. Were the schema applied as declared, the controller's paths would be dropped and every save would fail validation, with seats or without; the finding on `seats || {}` is stated over the record the controller writes.
- HelpSupport.CreateOutcome: the schema trims `question` when saving, and its `required` check then rejects a question made only of spaces (a 500). Neither is modelled: the stored question is the submitted one.
- Watchlist.AddOutcome: a movie given as null (rather than absent) throws a TypeError whose message says "null". The model has one message for both. An absent `userId` is not modelled either: the filter and schema behaviour for undefined values belongs to Mongoose.
- GiftCards.Validate: `Date.parse` is the parameter `isDate`. JavaScript numbers are reals here, so Infinity is not modelled.

## Findings

| source | as written | input that shows it | evidently intended | confidence | as-written member | corrected member |
|---|---|---|---|---|---|---|
| controllers/sazzad/bookingController.js:47 | `seats: seats \|\| {}` stores a plain empty object in the seats field when seats is absent or null, and the handler confirms the booking. `getSeatAvailability` lets that truthy object through `if (booking.seats)`, and `bookedSeats.push(...booking.seats)` (bookingController.js:95-96) throws on it because it is not iterable, so every later availability request for that showing is a 500. | a booking request with a valid userId, movieId, showTime, date and totalPrice and no `seats` field, then an availability request for the same movie, date and time | a booking without seats is confirmed with an empty seat list (`seats \|\| []`) and leaves seat availability as it was | not executed | `Bookings.GatherAsWritten`, `Bookings.SeatAvailabilityAsWritten`, `Bookings.MissingSeatsAsWritten` | `Bookings.UserBookingOutcome`, `Bookings.SeatMap`, `Bookings.MissingSeatsBookNothing` |
