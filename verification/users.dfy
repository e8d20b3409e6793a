/**
 * The User entity: name, identifier, passwords and the list of tickets the
 * user has booked.
 */
module Users {
  import opened Wrappers
  import opened Tickets

  class User {
    var username: string
    var userId: string
    /** The plain password, kept only until it is hashed. */
    var password: string
    var hashedPassword: string
    var ticketsBooked: seq<Ticket>

    /**
     * The full constructor. An absent ticket list (Java's null) is replaced
     * by an empty one, so `ticketsBooked` is always a list.
     */
    constructor (username: string, password: string, hashedPassword: string,
                 ticketsBooked: Option<seq<Ticket>>, userId: string)
      ensures this.username == username && this.userId == userId
      ensures this.password == password && this.hashedPassword == hashedPassword
      ensures this.ticketsBooked == if ticketsBooked.Some? then ticketsBooked.value else []
    {
      this.username := username;
      this.userId := userId;
      this.password := password;
      this.hashedPassword := hashedPassword;
      this.ticketsBooked := if ticketsBooked.Some? then ticketsBooked.value else [];
    }

    method SetUsername(username: string)
      modifies this
      ensures this.username == username
      ensures userId == old(userId) && password == old(password)
      ensures hashedPassword == old(hashedPassword) && ticketsBooked == old(ticketsBooked)
    {
      this.username := username;
    }

    method SetUserId(userId: string)
      modifies this
      ensures this.userId == userId
      ensures username == old(username) && password == old(password)
      ensures hashedPassword == old(hashedPassword) && ticketsBooked == old(ticketsBooked)
    {
      this.userId := userId;
    }

    method SetHashedPassword(hashedPassword: string)
      modifies this
      ensures this.hashedPassword == hashedPassword
      ensures username == old(username) && userId == old(userId)
      ensures password == old(password) && ticketsBooked == old(ticketsBooked)
    {
      this.hashedPassword := hashedPassword;
    }

    method SetTicketsBooked(ticketsBooked: seq<Ticket>)
      modifies this
      ensures this.ticketsBooked == ticketsBooked
      ensures username == old(username) && userId == old(userId)
      ensures password == old(password) && hashedPassword == old(hashedPassword)
    {
      this.ticketsBooked := ticketsBooked;
    }
  }
}
