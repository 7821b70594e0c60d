/** The venue-listing endpoint: connect, then answer GET with every venue, `_id` as a string. */
module Venues {
  import opened Common
  import opened Models
  import opened Http
  import Db

  /** `venues.map(venue => ({ ...venue, _id: venue._id.toString() }))`. */
  function WithStringIds(venues: seq<Venue>): (out: seq<VenueView>)
    ensures |out| == |venues|
    ensures forall i :: 0 <= i < |venues| ==>
      out[i].fields == venues[i].fields && out[i].id == IdString(venues[i].id)
  {
    if venues == [] then []
    else [VenueView(IdString(venues[0].id), venues[0].fields)] + WithStringIds(venues[1..])
  }

  /**
   * The listing handler. `connect` is what awaiting `connectToDatabase()` gave and
   * `fetched` what `Venue.find({})` gave; either may have thrown.
   */
  function Handle(req: Request, connect: Result<Db.Conn>, fetched: Result<seq<Venue>>): (resp: Response)
    ensures resp.headers == VenueCors
  {
    if req.verb == "OPTIONS" then Response(200, VenueCors, NoBody)
    else if connect.Err? then Response(500, VenueCors, Failure(InternalError, connect.message))
    else if req.verb == "GET" then
      if fetched.Err? then Response(500, VenueCors, Failure(InternalError, fetched.message))
      else Response(200, VenueCors, VenueList(WithStringIds(fetched.value)))
    else Response(405, VenueCors, Message(NotAllowed))
  }

  /** OPTIONS is answered with 200 and no body, whatever the database does. */
  lemma PreflightWithoutDatabase(req: Request, connect: Result<Db.Conn>, fetched: Result<seq<Venue>>)
    requires req.verb == "OPTIONS"
    ensures Handle(req, connect, fetched) == Response(200, VenueCors, NoBody)
  {
  }

  /** The connection precedes the method check: another method gets 405 only when connecting succeeds, else 500. */
  lemma ConnectBeforeMethodCheck(req: Request, connect: Result<Db.Conn>, fetched: Result<seq<Venue>>)
    requires req.verb != "OPTIONS" && req.verb != "GET"
    ensures Handle(req, connect, fetched).status == (if connect.Ok? then 405 else 500)
  {
  }

  /** Any thrown error, from connecting or from the query, gives 500 "Internal server error" with its message. */
  lemma ErrorsGive500(req: Request, connect: Result<Db.Conn>, fetched: Result<seq<Venue>>)
    requires req.verb != "OPTIONS"
    requires connect.Err? || (req.verb == "GET" && fetched.Err?)
    ensures var r := Handle(req, connect, fetched);
      && r.status == 500 && r.body.Failure? && r.body.message == InternalError
      && r.body.error == (if connect.Err? then connect.message else fetched.message)
  {
  }

  /** A GET lists every fetched venue in order, each unchanged except that `_id` is its string form. */
  lemma ListingPreservesVenues(req: Request, conn: Db.Conn, venues: seq<Venue>)
    requires req.verb == "GET"
    ensures var r := Handle(req, Ok(conn), Ok(venues));
      && r.status == 200 && r.body.VenueList?
      && |r.body.venues| == |venues|
      && forall i :: 0 <= i < |venues| ==>
           r.body.venues[i] == VenueView(IdString(venues[i].id), venues[i].fields)
  {
  }
}
