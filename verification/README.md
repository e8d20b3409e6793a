# Ticket booking: seat inventory and reservations, in Dafny

This project models the core of a small train-ticket booking application written in Java. It covers:

- the train catalog (`TrainService`): route search, add-or-replace by train id, and booking one seat;
- the booking service (`UserBookingService`): registered users, the signed-in user, sign-up, lookup, login, seat booking and cancellation;
- the three entities `Train`, `Ticket` and `User`.

The Java objects whose setters change their fields are Dafny classes with the same fields:

- `Trains.Train`, `Tickets.Ticket` and `Users.User`;
- `TrainCatalog.TrainService`, which holds `trainList`;
- `Booking.UserBookingService`, which holds `user` and `userList`.

Each Java `List` field becomes a `seq` field, and the methods reassign it. A seat grid is a `seq<seq<int>>`: 0 is a free seat, 1 a booked one, and rows may have different lengths. Java's getters are plain field reads, and `fetchSeats` (`Booking.UserBookingService.FetchSeats`) is one of them. The stream pipelines are recursive functions with contracts: `filter`, `findFirst`, `indexOf` and `removeIf`. `searchTrains` is `TrainCatalog.SearchTrains`, applied to a catalog's `trainList` by `TrainService.Search`.

Object sharing is kept as the code has it. A ticket created by `bookTrainSeat` holds the very `Train` object whose seat was just taken, not a copy. A later booking on that train therefore shows through every ticket that holds it. The signed-in user chosen by `loginUser` is one of the objects in `userList`, so a booking or cancellation changes that entry of `userList`.

The model follows the code in three places where a reader might expect something else:

- Cancelling removes every ticket with the given id, not only the first one.
- Route search compares station names exactly. Only the command-line front end lower-cases what the user types.
- Train ids are the only names compared without regard to case (`equalsIgnoreCase`).

Cancelling a ticket does not free its seat.

Three client methods show what the contracts alone let a caller prove: `Booking.SignUpScenario`, `Booking.BookTwiceScenario` and `Booking.CancelScenario`. The second one books seat (0, 0) of a train on route a, b, c: the first booking succeeds and the second is refused. The third cancels a ticket, which leaves the seat taken, and a second cancellation finds nothing.

## Model

| member | source | states |
|---|---|---|
| `Lists.IndexOf` | app/src/main/java/ticket/booking/services/TrainService.java:96-97 | `List.indexOf` returns -1 exactly when the element is absent. Otherwise it returns a position holding the element, with no earlier occurrence. |
| `TrainCatalog.ValidTrain` | app/src/main/java/ticket/booking/services/TrainService.java:94-105 | A train is valid for a trip only when both stations are on its route and differ. |
| `Strings.EqualsIgnoreCaseIsEquivalence` | app/src/main/java/ticket/booking/services/TrainService.java:82 | Matching ids up to case is reflexive, symmetric and transitive. |
| `Strings.EqualsIgnoreCaseIffSameUpper` | app/src/main/java/ticket/booking/services/TrainService.java:57 | Two ids match iff their upper-case forms are equal. |
| `Strings.MatchesItsUpperCase` | app/src/main/java/ticket/booking/services/TrainService.java:82 | Every id matches its own upper-case form, so letter case never matters. |
| `Strings.NonLetterDifferenceMatters` | app/src/main/java/ticket/booking/services/TrainService.java:57 | Ids that differ at a position holding no ASCII letter do not match, so only case is ignored. |
| `Strings.LetterCaseIgnored` | app/src/main/java/ticket/booking/services/TrainService.java:57 | For example, "t1" matches "T1", and "t1" does not match "t2". |
| `TrainCatalog.ValidTrainMeansSourceFirst` | app/src/main/java/ticket/booking/services/TrainService.java:94-100 | `validTrain` holds iff the destination occurs and the source occurs before the destination's first occurrence. |
| `TrainCatalog.NoTrainFromStationToItself` | app/src/main/java/ticket/booking/services/TrainService.java:100 | `validTrain(t, s, s)` is false for every train and station. |
| `TrainCatalog.SearchTrains` | app/src/main/java/ticket/booking/services/TrainService.java:41-45 | The result keeps catalog order. It holds only trains passing `validTrain`, and each of those as many times as the catalog does. |
| `TrainCatalog.TrainService.Search` | app/src/main/java/ticket/booking/services/TrainService.java:41-50 | Searching the service's catalog keeps catalog order. It returns only trains valid for the trip, each as often as the catalog holds it. |
| `TrainCatalog.SearchFromStationToItselfIsEmpty` | app/src/main/java/ticket/booking/services/TrainService.java:43-45 | A search from a station to itself returns no trains. |
| `TrainCatalog.FirstWithId` | app/src/main/java/ticket/booking/services/TrainService.java:81-83 | Gives the first index whose train id equals the given id ignoring case, or -1 exactly when no id matches. |
| `TrainCatalog.Upsert` | app/src/main/java/ticket/booking/services/TrainService.java:55-66 | The new train is in the result. The length grows by one exactly when no id matched, and then the train is last. Every entry other than the first match keeps its index. |
| `TrainCatalog.UpsertThenFind` | app/src/main/java/ticket/booking/services/TrainService.java:81-86 | After add-or-replace, a lookup by the train's id finds that train: at the old match's index, or at the end when it was appended. |
| `TrainCatalog.UpsertIdempotent` | app/src/main/java/ticket/booking/services/TrainService.java:55-66 | Adding the same train twice leaves the catalog as adding it once. |
| `TrainCatalog.EndpointsValidIffDistinct` | app/src/main/java/ticket/booking/services/UserBookingService.java:147-148 | A ticket runs from the route's first to its last station. That pair passes `validTrain` iff the two stations differ. |
| `TrainCatalog.TrainService.constructor` | app/src/main/java/ticket/booking/services/TrainService.java:27-36 | The catalog holds the loaded trains. |
| `TrainCatalog.TrainService.AddTrain` | app/src/main/java/ticket/booking/services/TrainService.java:55-66 | The new list is `Upsert` of the old one: replace the first case-insensitive id match in place, or append. |
| `TrainCatalog.TrainService.UpdateTrain` | app/src/main/java/ticket/booking/services/TrainService.java:80-91 | The same `Upsert` result. The fallback to `addTrain` can only append. |
| `TrainCatalog.TrainService.BookTickets` | app/src/main/java/ticket/booking/services/TrainService.java:110-127 | Returns true iff the cell was in range (jagged rows) and held 0. Then exactly that cell becomes 1 and the train is upserted into the catalog. Otherwise grid and catalog are unchanged. No other train field changes. |
| `Trains.WithSeatTaken` | app/src/main/java/ticket/booking/services/TrainService.java:116-117 | Grid dimensions are kept, the chosen cell is 1, and every other cell is unchanged. |
| `Trains.TakingFreeSeatCountsOnce` | app/src/main/java/ticket/booking/services/TrainService.java:115-117 | Taking a free seat raises the number of taken seats of the grid by exactly one. |
| `Trains.TakenSeatIsNotFree` | app/src/main/java/ticket/booking/services/TrainService.java:114-122 | After a seat is taken, booking the same cell again is refused. |
| `Trains.Train.constructor` | app/src/main/java/ticket/booking/entities/Train.java:27-34 | Stores id, number, seats, station times and stations as given. |
| `Trains.Train.Info` | app/src/main/java/ticket/booking/entities/Train.java:37-39 | The text is "Train ID: ", the id, " Train No: ", then the number, at the stated positions. |
| `Trains.Train.SetTrainId` | app/src/main/java/ticket/booking/entities/Train.java:42-48 | Stores the id; every other field is unchanged. |
| `Trains.Train.SetTrainNo` | app/src/main/java/ticket/booking/entities/Train.java:50-56 | Stores the number; every other field is unchanged. |
| `Trains.Train.SetSeats` | app/src/main/java/ticket/booking/entities/Train.java:58-64 | Stores the grid; every other field is unchanged. |
| `Trains.Train.SetStationTimes` | app/src/main/java/ticket/booking/entities/Train.java:66-72 | Stores the timetable; every other field is unchanged. |
| `Trains.Train.SetStations` | app/src/main/java/ticket/booking/entities/Train.java:74-80 | Stores the route; every other field is unchanged. |
| `Tickets.Ticket.Blank` | app/src/main/java/ticket/booking/entities/Ticket.java:23 | The no-argument constructor leaves the train unset (null) and the strings empty. |
| `Tickets.Ticket.constructor` | app/src/main/java/ticket/booking/entities/Ticket.java:26-33 | Stores all six fields as given. |
| `Tickets.Ticket.Info` | app/src/main/java/ticket/booking/entities/Ticket.java:36-39 | The text is each label followed by id, user, source, destination and date, in that order, at the stated positions. |
| `Tickets.Ticket.SetTicketId` | app/src/main/java/ticket/booking/entities/Ticket.java:42-48 | Stores the id; the other five fields are unchanged. |
| `Tickets.Ticket.SetUserId` | app/src/main/java/ticket/booking/entities/Ticket.java:50-56 | Stores the user id; the other five fields are unchanged. |
| `Tickets.Ticket.SetSource` | app/src/main/java/ticket/booking/entities/Ticket.java:58-64 | Stores the source; the other five fields are unchanged. |
| `Tickets.Ticket.SetDestination` | app/src/main/java/ticket/booking/entities/Ticket.java:66-72 | Stores the destination; the other five fields are unchanged. |
| `Tickets.Ticket.SetDateOfTravel` | app/src/main/java/ticket/booking/entities/Ticket.java:74-80 | Stores the date; the other five fields are unchanged. |
| `Tickets.Ticket.SetTrain` | app/src/main/java/ticket/booking/entities/Ticket.java:82-88 | Stores the train reference; the other five fields are unchanged. |
| `Users.User.constructor` | app/src/main/java/ticket/booking/entities/User.java:29-35 | Stores username, user id, password and hash unchanged. The ticket list is the given one, or empty when none is given. |
| `Users.User.SetUsername` | app/src/main/java/ticket/booking/entities/User.java:70-72 | Stores the username; every other field is unchanged. |
| `Users.User.SetUserId` | app/src/main/java/ticket/booking/entities/User.java:74-76 | Stores the user id; every other field is unchanged. |
| `Users.User.SetHashedPassword` | app/src/main/java/ticket/booking/entities/User.java:78-80 | Stores the hash; every other field is unchanged. |
| `Users.User.SetTicketsBooked` | app/src/main/java/ticket/booking/entities/User.java:82-84 | Stores the ticket list; every other field is unchanged. |
| `Booking.FirstWithUsername` | app/src/main/java/ticket/booking/services/UserBookingService.java:79-83 | Gives the first index with exactly this username, or -1 exactly when there is none. |
| `Booking.FirstLogin` | app/src/main/java/ticket/booking/services/UserBookingService.java:177-180 | Gives the first index whose username matches and whose hash the password check accepts, or -1 exactly when there is none. |
| `Booking.WithoutTicket` | app/src/main/java/ticket/booking/services/UserBookingService.java:99-100 | Every ticket with the id is removed. The rest stay in order, each as often as before. |
| `Booking.RemovalIffPresent` | app/src/main/java/ticket/booking/services/UserBookingService.java:99-109 | The list shrinks iff some ticket had the id. When none had it, the list is unchanged. |
| `Booking.CancelTwiceRemovesNothingMore` | app/src/main/java/ticket/booking/services/UserBookingService.java:99-100 | Removing by the same id a second time changes nothing. |
| `Booking.UserBookingService.constructor` | app/src/main/java/ticket/booking/services/UserBookingService.java:30-39 | Holds the loaded users, with nobody signed in. |
| `Booking.UserBookingService.SignUp` | app/src/main/java/ticket/booking/services/UserBookingService.java:44-62 | Returns true iff no registered user has an equal username. Then the user is appended; otherwise the list is unchanged. |
| `Booking.UserBookingService.GetUserByUsername` | app/src/main/java/ticket/booking/services/UserBookingService.java:79-83 | Empty exactly when no user has the name. Otherwise it is the first list entry with that exact name. |
| `Booking.UserBookingService.SetUser` | app/src/main/java/ticket/booking/services/UserBookingService.java:86-88 | The signed-in user becomes the given one; the user list is unchanged. |
| `Booking.UserBookingService.LoginUser` | app/src/main/java/ticket/booking/services/UserBookingService.java:176-189 | Returns true iff some user matches name and password check. Then the first such user is signed in. Otherwise the signed-in user is unchanged. |
| `Booking.UserBookingService.CancelBooking` | app/src/main/java/ticket/booking/services/UserBookingService.java:93-110 | An empty id gives false and no change, even with nobody signed in. Otherwise every ticket with the id is removed, and the result says whether one existed. Only the signed-in user is modified, so no seat grid changes. |
| `Booking.UserBookingService.FetchSeats` | app/src/main/java/ticket/booking/services/UserBookingService.java:126-128 | Returns the train's own grid. |
| `Booking.UserBookingService.BookTrainSeat` | app/src/main/java/ticket/booking/services/UserBookingService.java:133-171 | Returns true iff the cell was in range and free; a signed-in user and a route are needed only then. On failure, grid, catalog and ticket list are unchanged. On success, only that cell becomes 1 and the train is upserted into the catalog. Exactly one fresh ticket is appended: the given id, the user's id, first station to last, date "2021-09-01", this same train. |
| `Booking.TakeSeat` | app/src/main/java/ticket/booking/services/UserBookingService.java:139-143 | The chosen free cell becomes 1 and no other cell changes. The train is upserted into the catalog, and no other train field changes. |
| `Booking.IssueTicket` | app/src/main/java/ticket/booking/services/UserBookingService.java:146-152 | A fresh blank ticket filled through its setters: route's first station to last, this train, the user's id, date "2021-09-01", the given id. |

## Left out

- Persistence: the JSON files are not modelled. This covers `loadTrains`, `loadUsers`, `saveTrainListToFile` and `saveUserListToFile`. The constructors take the loaded lists, and saves are no-ops. No serialisation round trip is stated, because the JSON library is not part of this model.
- `getTrains` is not modelled: it builds a fresh catalog from the file and turns a failure into an empty list. A search is `SearchTrains` over a catalog's `trainList`.
- Password hashing is not modelled. `hashPassword` and `checkPassword` wrap the BCrypt library; `LoginUser` takes the check as a function parameter.
- `generateTicketId` reads the clock, so `BookTrainSeat` takes the ticket id as a parameter.
- Exception fallbacks that only arise from I/O failure are not modelled:
  - `searchTrains` returning null;
  - the catch blocks of `signUp` and `bookTrainSeat`;
  - the `IOException` from the catalog reload at the start of `bookTrainSeat`.
- Console output is not modelled: `fetchBookings`, `User.printTickets` and the messages the services print. `App.java` is not part of this model: the menu loop, input prompting, its no-spaces username check and the lower-casing of search input.
- Null values are not modelled, and strings are never null:
  - `cancelBooking`'s null-or-empty test is the empty-string test.
  - The no-argument constructors of `Train` and `User` exist only for the JSON reader and are not modelled.
  - The one of `Ticket` uses empty strings where Java leaves null.
- Booking.UserBookingService.CancelBooking: requires a signed-in user only for a non-empty id. With nobody signed in, the source returns false for an empty id and fails on a null `user` otherwise.
- Booking.UserBookingService.BookTrainSeat: requires a signed-in user and a non-empty route only when the cell is free. A refused cell returns false before either is used. After taking a free cell, the source fails on a null `user` or on `getFirst()` of an empty route, with the seat already taken and the catalog updated. That exception path is not modelled.
- Booking.UserBookingService.BookTrainSeat: appends the ticket before taking the seat, where the source takes the seat first. The two steps touch disjoint state, and the ticket reads only the route and the user's id, so the final state is the same.
- Users.User.constructor: the empty list that replaces a null ticket list is an ordinary empty `seq`. In the source it is `Collections.emptyList()`, which is immutable, so a later `add` of a booked ticket would throw.
- Strings.EqualsIgnoreCase: folds ASCII letters only. Java's `equalsIgnoreCase` also folds the other Unicode letters.
- Java lists are shared objects, but here they are values. The model captures no effect of an in-place change seen through a second reference to the same `List` (for example a list passed to a constructor and also kept by the caller). References to the entities themselves (`Train`, `Ticket`, `User`) are shared exactly as in the source.
- `stationTimes` is carried as a map. No modelled operation reads it; only the console listing in `App.java`, which is not part of this model, prints it.
