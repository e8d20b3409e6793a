/**
 * The booking service: registered users, the signed-in user, sign-up,
 * lookup, login, seat booking and cancellation.
 */
module Booking {
  import opened Wrappers
  import opened Lists
  import opened Trains
  import opened Tickets
  import opened Users
  import opened TrainCatalog

  /** The date every booking is made for. */
  const TravelDate: string := "2021-09-01"

  /** The position of the first user called `name`, or -1 when there is none. */
  function FirstWithUsername(users: seq<User>, name: string): (r: int)
    reads users
    ensures -1 <= r < |users|
    ensures r == -1 <==> forall i :: 0 <= i < |users| ==> users[i].username != name
    ensures 0 <= r ==> users[r].username == name
    ensures forall i :: 0 <= i < r ==> users[i].username != name
  {
    if users == [] then -1
    else if users[0].username == name then 0
    else
      var k := FirstWithUsername(users[1..], name);
      if k == -1 then -1 else k + 1
  }

  /**
   * The position of the first user called `name` whose stored hash accepts
   * `password`, or -1 when there is none.
   */
  function FirstLogin(users: seq<User>, name: string, password: string,
                      checkPassword: (string, string) -> bool): (r: int)
    reads users
    ensures -1 <= r < |users|
    ensures r == -1 <==> forall i :: 0 <= i < |users| ==>
      !(users[i].username == name && checkPassword(password, users[i].hashedPassword))
    ensures 0 <= r ==> users[r].username == name && checkPassword(password, users[r].hashedPassword)
    ensures forall i :: 0 <= i < r ==>
      !(users[i].username == name && checkPassword(password, users[i].hashedPassword))
  {
    if users == [] then -1
    else if users[0].username == name && checkPassword(password, users[0].hashedPassword) then 0
    else
      var k := FirstLogin(users[1..], name, password, checkPassword);
      if k == -1 then -1 else k + 1
  }

  /** Some ticket of the list carries identifier `id`. */
  predicate HasTicket(tickets: seq<Ticket>, id: string)
    reads tickets
  {
    exists i :: 0 <= i < |tickets| && tickets[i].ticketId == id
  }

  /**
   * `removeIf(ticket -> ticket.getTicketId().equals(id))`: every ticket with
   * identifier `id` is dropped, the others stay in their order.
   */
  function WithoutTicket(tickets: seq<Ticket>, id: string): (r: seq<Ticket>)
    reads tickets
    ensures IsSubsequence(r, tickets)
    ensures forall t :: t in r ==> t in tickets && t.ticketId != id
    ensures forall t {:trigger multiset(r)[t]} :: t in tickets ==>
      multiset(r)[t] == if t.ticketId == id then 0 else multiset(tickets)[t]
  {
    if tickets == [] then []
    else
      var rest := WithoutTicket(tickets[1..], id);
      assert tickets == [tickets[0]] + tickets[1..];
      SubsequenceElements(rest, tickets[1..]);
      if tickets[0].ticketId == id then rest else [tickets[0]] + rest
  }

  /**
   * `removeIf` reports a removal exactly when some ticket carried the
   * identifier; when none did, the list is left as it was.
   */
  lemma {:induction false} RemovalIffPresent(tickets: seq<Ticket>, id: string)
    ensures |WithoutTicket(tickets, id)| <= |tickets|
    ensures |WithoutTicket(tickets, id)| == |tickets| <==> !HasTicket(tickets, id)
    ensures !HasTicket(tickets, id) ==> WithoutTicket(tickets, id) == tickets
  {
    if tickets != [] {
      var tail := tickets[1..];
      RemovalIffPresent(tail, id);
      var rest := WithoutTicket(tail, id);
      assert HasTicket(tickets, id) <==> tickets[0].ticketId == id || HasTicket(tail, id) by {
        if HasTicket(tickets, id) && tickets[0].ticketId != id {
          var i :| 0 <= i < |tickets| && tickets[i].ticketId == id;
          assert tail[i - 1].ticketId == id;
        }
        if HasTicket(tail, id) {
          var i :| 0 <= i < |tail| && tail[i].ticketId == id;
          assert tickets[i + 1].ticketId == id;
        }
      }
      if tickets[0].ticketId == id {
        assert WithoutTicket(tickets, id) == rest;
      } else {
        assert WithoutTicket(tickets, id) == [tickets[0]] + rest;
        assert tickets == [tickets[0]] + tail;
      }
    }
  }

  /** Cancelling twice with the same identifier removes nothing the second time. */
  lemma CancelTwiceRemovesNothingMore(tickets: seq<Ticket>, id: string)
    ensures WithoutTicket(WithoutTicket(tickets, id), id) == WithoutTicket(tickets, id)
  {
  }

  /**
   * The booking step of `bookTrainSeat`: mark the free cell taken in the
   * train's grid and add-or-replace the train in `catalog`.
   */
  method TakeSeat(catalog: TrainService, train: Train, row: int, seat: int)
    requires SeatFree(train.seats, row, seat)
    modifies catalog, train
    ensures train.seats == WithSeatTaken(old(train.seats), row, seat)
    ensures train.SameExceptSeats()
    ensures catalog.trainList == Upsert(old(catalog.trainList), train)
  {
    train.SetSeats(WithSeatTaken(train.seats, row, seat));
    catalog.AddTrain(train);
  }

  /**
   * The ticket `bookTrainSeat` creates: a blank ticket filled through its
   * setters with the route's first and last stations, the train itself, the
   * user's id, the fixed travel date and the given identifier.
   */
  method IssueTicket(train: Train, userId: string, ticketId: string) returns (t: Ticket)
    requires |train.stations| > 0
    ensures fresh(t)
    ensures t.source == train.stations[0] && t.destination == train.stations[|train.stations| - 1]
    ensures t.train == train && t.userId == userId
    ensures t.dateOfTravel == TravelDate && t.ticketId == ticketId
  {
    t := new Ticket.Blank();
    t.SetSource(train.stations[0]);
    t.SetDestination(train.stations[|train.stations| - 1]);
    t.SetTrain(train);
    t.SetUserId(userId);
    t.SetDateOfTravel(TravelDate);
    t.SetTicketId(ticketId);
  }

  class UserBookingService {
    /** The signed-in user; null until one is set. */
    var user: User?
    var userList: seq<User>

    /** A service holding the users read from the store, with nobody signed in. */
    constructor (loaded: seq<User>)
      ensures user == null && userList == loaded
    {
      user := null;
      userList := loaded;
    }

    /**
     * `signUp`: refuse a user whose name is already registered; otherwise
     * append the user. Saving the user list is not modelled.
     */
    method SignUp(newUser: User) returns (ok: bool)
      modifies this
      ensures ok <==> forall i :: 0 <= i < |old(userList)| ==> old(userList)[i].username != newUser.username
      ensures userList == if ok then old(userList) + [newUser] else old(userList)
      ensures user == old(user)
    {
      if FirstWithUsername(userList, newUser.username) != -1 {
        return false;
      }
      userList := userList + [newUser];
      return true;
    }

    /** `getUserByUsername`: the first registered user with exactly this name, if any. */
    function GetUserByUsername(name: string): (r: Option<User>)
      reads this, userList
      ensures r.None? <==> forall i :: 0 <= i < |userList| ==> userList[i].username != name
      ensures r.Some? ==> r.value.username == name
      ensures r.Some? ==> exists i :: 0 <= i < |userList| && userList[i] == r.value &&
                                      forall j :: 0 <= j < i ==> userList[j].username != name
    {
      var i := FirstWithUsername(userList, name);
      if i == -1 then None else Some(userList[i])
    }

    /** `setUser`: make `u` the signed-in user. */
    method SetUser(u: User?)
      modifies this
      ensures user == u && userList == old(userList)
    {
      user := u;
    }

    /** `fetchSeats`: the train's own seat grid, as it is now. */
    function FetchSeats(train: Train): (grid: SeatGrid)
      reads train
      ensures grid == train.seats
    {
      train.seats
    }

    /**
     * `loginUser`: sign in the first user with this name whose stored hash
     * accepts the password; with none, the signed-in user stays as it was.
     * The password check itself is a parameter.
     */
    method LoginUser(username: string, password: string,
                     checkPassword: (string, string) -> bool) returns (ok: bool)
      modifies this
      ensures ok <==> exists i :: 0 <= i < |userList| && userList[i].username == username &&
                                  checkPassword(password, userList[i].hashedPassword)
      ensures ok ==> user == userList[FirstLogin(userList, username, password, checkPassword)]
      ensures !ok ==> user == old(user)
      ensures userList == old(userList)
    {
      var i := FirstLogin(userList, username, password, checkPassword);
      if i != -1 {
        user := userList[i];
        assert userList[i].username == username && checkPassword(password, userList[i].hashedPassword);
        return true;
      }
      return false;
    }

    /**
     * `cancelBooking`: an empty identifier is refused, even with nobody
     * signed in; otherwise every ticket
     * of the signed-in user with that identifier is removed, and the result
     * says whether any was. No seat grid is touched.
     */
    method CancelBooking(ticketId: string) returns (ok: bool)
      requires ticketId != "" ==> user != null
      modifies user
      ensures ticketId == "" ==> !ok
      ensures ticketId == "" && user != null ==> user.ticketsBooked == old(user.ticketsBooked)
      ensures ticketId != "" ==> ok == HasTicket(old(user.ticketsBooked), ticketId)
      ensures ticketId != "" ==> user.ticketsBooked == WithoutTicket(old(user.ticketsBooked), ticketId)
      ensures user != null ==> user.username == old(user.username) && user.userId == old(user.userId)
      ensures user != null ==> user.password == old(user.password) && user.hashedPassword == old(user.hashedPassword)
    {
      if ticketId == "" {
        return false;
      }
      var kept := WithoutTicket(user.ticketsBooked, ticketId);
      RemovalIffPresent(user.ticketsBooked, ticketId);
      ok := |kept| != |user.ticketsBooked|;
      user.ticketsBooked := kept;
    }

    /**
     * `bookTrainSeat`: when the cell is inside the grid and free, mark it
     * taken, add-or-replace the train in `catalog`, and append to the
     * signed-in user's list a new ticket from the first to the last station
     * of the route, holding this very train. Otherwise nothing changes.
     * `catalog` stands for the catalog the source reloads from its store,
     * and `ticketId` for the identifier it derives from the clock.
     */
    method BookTrainSeat(catalog: TrainService, train: Train, row: int, seat: int,
                         ticketId: string) returns (ok: bool)
      requires SeatFree(train.seats, row, seat) ==> user != null && |train.stations| > 0
      modifies catalog, train, user
      ensures ok == old(SeatFree(train.seats, row, seat))
      ensures train.SameExceptSeats()
      ensures user != null ==> user.username == old(user.username) && user.userId == old(user.userId)
      ensures user != null ==> user.password == old(user.password) && user.hashedPassword == old(user.hashedPassword)
      ensures !ok ==> train.seats == old(train.seats) && catalog.trainList == old(catalog.trainList)
      ensures !ok && user != null ==> user.ticketsBooked == old(user.ticketsBooked)
      ensures ok ==> train.seats == WithSeatTaken(old(train.seats), row, seat)
      ensures ok ==> catalog.trainList == Upsert(old(catalog.trainList), train)
      ensures ok ==> |user.ticketsBooked| == |old(user.ticketsBooked)| + 1
      ensures ok ==> user.ticketsBooked[..|old(user.ticketsBooked)|] == old(user.ticketsBooked)
      ensures ok ==> var t := user.ticketsBooked[|old(user.ticketsBooked)|];
        fresh(t) && t.ticketId == ticketId && t.userId == user.userId &&
        t.source == train.stations[0] && t.destination == train.stations[|train.stations| - 1] &&
        t.dateOfTravel == TravelDate && t.train == train
    {
      var seats := train.seats;
      if !SeatInRange(seats, row, seat) {
        return false;
      }
      if seats[row][seat] != 0 {
        return false;
      }
      // The ticket step reads only the route and the user's id, which taking
      // the seat leaves as they are, so issuing it first ends in the same state.
      var ticket := IssueTicket(train, user.userId, ticketId);
      user.SetTicketsBooked(user.ticketsBooked + [ticket]);
      TakeSeat(catalog, train, row, seat);
      return true;
    }
  }

  /** A client: sign-up refuses a second user called "bob". */
  method SignUpScenario()
  {
    var service := new UserBookingService([]);
    var bob := new User("bob", "pw", "hash", Some([]), "u1");
    var ok := service.SignUp(bob);
    assert ok && service.userList == [bob];
    var otherBob := new User("bob", "pw2", "hash2", None, "u2");
    assert service.userList[0].username == otherBob.username;
    ok := service.SignUp(otherBob);
    assert !ok && service.userList == [bob];
  }

  /**
   * A client: train T1 on route a, b, c with a 2x2 grid. Booking seat (0, 0)
   * succeeds once and issues a ticket from a to c; a second attempt is
   * refused and leaves the user's tickets as they were.
   */
  method BookTwiceScenario()
  {
    var t1 := new Train("T1", "101", [[0, 0], [0, 0]], map[], ["a", "b", "c"]);
    assert ValidTrain(t1, "a", "c");
    var catalog := new TrainService([t1]);
    var service := new UserBookingService([]);
    var bob := new User("bob", "pw", "hash", Some([]), "u1");
    service.SetUser(bob);

    var ok := service.BookTrainSeat(catalog, t1, 0, 0, "1");
    assert ok && t1.seats == WithSeatTaken([[0, 0], [0, 0]], 0, 0);
    assert t1.seats[0] == [1, 0] && t1.seats[1] == [0, 0];
    assert |bob.ticketsBooked| == 1;
    var ticket := bob.ticketsBooked[0];
    assert ticket.source == "a" && ticket.destination == "c" && ticket.ticketId == "1";

    ok := service.BookTrainSeat(catalog, t1, 0, 0, "2");
    assert !ok && bob.ticketsBooked == [ticket];
  }

  /**
   * A client: cancelling ticket "1" removes it and says so, leaves the
   * train's taken seat taken, and a second cancellation finds nothing.
   */
  method CancelScenario()
  {
    var t1 := new Train("T1", "101", [[1, 0], [0, 0]], map[], ["a", "b", "c"]);
    var ticket := new Ticket("1", "u1", "a", "c", TravelDate, t1);
    var bob := new User("bob", "pw", "hash", Some([ticket]), "u1");
    var service := new UserBookingService([bob]);
    service.SetUser(bob);

    var ok := service.CancelBooking("1");
    assert ok && bob.ticketsBooked == [];
    assert t1.seats == [[1, 0], [0, 0]];

    ok := service.CancelBooking("1");
    assert !ok && bob.ticketsBooked == [];
  }
}
