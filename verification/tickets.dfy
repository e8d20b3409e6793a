/**
 * The Ticket entity: identifier, owning user, route endpoints, travel date
 * and the train it was booked on.
 */
module Tickets {
  import opened Trains

  class Ticket {
    var ticketId: string
    var userId: string
    var source: string
    var destination: string
    var dateOfTravel: string
    /**
     * The train the ticket was booked on. This is a reference to the very
     * object the booking changed, not a copy: a later change to that train
     * shows through every ticket that holds it. Null until it is set.
     */
    var train: Train?

    /** The no-argument constructor; its strings stand for Java's unset (null) fields. */
    constructor Blank()
      ensures ticketId == "" && userId == "" && source == "" && destination == ""
      ensures dateOfTravel == "" && train == null
    {
      ticketId, userId, source, destination, dateOfTravel := "", "", "", "", "";
      train := null;
    }

    /** The full constructor stores all six arguments as given. */
    constructor (ticketId: string, userId: string, source: string, destination: string,
                 dateOfTravel: string, train: Train?)
      ensures this.ticketId == ticketId && this.userId == userId
      ensures this.source == source && this.destination == destination
      ensures this.dateOfTravel == dateOfTravel && this.train == train
    {
      this.ticketId := ticketId;
      this.userId := userId;
      this.source := source;
      this.destination := destination;
      this.dateOfTravel := dateOfTravel;
      this.train := train;
    }

    /**
     * `getTicketInfo`: the five text fields in the order identifier, user,
     * source, destination, date, each after its label.
     */
    function Info(): (r: string)
      reads this
      ensures |r| == 42 + |ticketId| + |userId| + |source| + |destination| + |dateOfTravel|
      ensures r[..11] == "Ticket ID: " && r[11..11 + |ticketId|] == ticketId
      ensures var k := 11 + |ticketId|;
        r[k..k + 17] == " belongs to User " && r[k + 17..k + 17 + |userId|] == userId
      ensures var k := 28 + |ticketId| + |userId|;
        r[k..k + 6] == " from " && r[k + 6..k + 6 + |source|] == source
      ensures var k := 34 + |ticketId| + |userId| + |source|;
        r[k..k + 4] == " to " && r[k + 4..k + 4 + |destination|] == destination
      ensures var k := 38 + |ticketId| + |userId| + |source| + |destination|;
        r[k..k + 4] == " on " && r[k + 4..] == dateOfTravel
    {
      "Ticket ID: " + ticketId + " belongs to User " + userId + " from " + source +
      " to " + destination + " on " + dateOfTravel
    }

    method SetTicketId(ticketId: string)
      modifies this
      ensures this.ticketId == ticketId
      ensures userId == old(userId) && source == old(source) && destination == old(destination)
      ensures dateOfTravel == old(dateOfTravel) && train == old(train)
    {
      this.ticketId := ticketId;
    }

    method SetUserId(userId: string)
      modifies this
      ensures this.userId == userId
      ensures ticketId == old(ticketId) && source == old(source) && destination == old(destination)
      ensures dateOfTravel == old(dateOfTravel) && train == old(train)
    {
      this.userId := userId;
    }

    method SetSource(source: string)
      modifies this
      ensures this.source == source
      ensures ticketId == old(ticketId) && userId == old(userId) && destination == old(destination)
      ensures dateOfTravel == old(dateOfTravel) && train == old(train)
    {
      this.source := source;
    }

    method SetDestination(destination: string)
      modifies this
      ensures this.destination == destination
      ensures ticketId == old(ticketId) && userId == old(userId) && source == old(source)
      ensures dateOfTravel == old(dateOfTravel) && train == old(train)
    {
      this.destination := destination;
    }

    method SetDateOfTravel(dateOfTravel: string)
      modifies this
      ensures this.dateOfTravel == dateOfTravel
      ensures ticketId == old(ticketId) && userId == old(userId) && source == old(source)
      ensures destination == old(destination) && train == old(train)
    {
      this.dateOfTravel := dateOfTravel;
    }

    method SetTrain(train: Train?)
      modifies this
      ensures this.train == train
      ensures ticketId == old(ticketId) && userId == old(userId) && source == old(source)
      ensures destination == old(destination) && dateOfTravel == old(dateOfTravel)
    {
      this.train := train;
    }
  }
}
