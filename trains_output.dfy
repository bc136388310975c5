/**
 * The output record of the `/kpi/trains` endpoint as mutable objects, and the
 * endpoint's loop over the feed, which fills it in place.  Each method is
 * proved to leave the record in the state that `TrainsSpec` describes.
 */
module TrainsOutput {
  import opened TrainsSpec

  /** One direction's dictionary: its list of trip entries and four flags. */
  class Bucket {
    var trips: seq<Entry>
    var trainsStoppingAtGrandArmy: bool
    var trainsStoppingAtWallStreet: bool
    var trainsStoppingAtPennStation: bool
    var trainsStoppingAtLincolnCenter: bool

    /** An empty trip list with every flag false. */
    constructor ()
      ensures View() == BucketView([], NoFlags)
    {
      trips := [];
      trainsStoppingAtGrandArmy := false;
      trainsStoppingAtWallStreet := false;
      trainsStoppingAtPennStation := false;
      trainsStoppingAtLincolnCenter := false;
    }

    function View(): BucketView
      reads this
    {
      BucketView(trips, Flags(trainsStoppingAtGrandArmy, trainsStoppingAtWallStreet,
                              trainsStoppingAtPennStation, trainsStoppingAtLincolnCenter))
    }
  }

  /** The whole output record: one bucket per direction. */
  class Output {
    const north: Bucket
    const south: Bucket

    ghost predicate Valid()
      reads this
    {
      north != south
    }

    /** Both direction buckets exist, each with an empty trip list and all four flags false. */
    constructor ()
      ensures Valid() && fresh(north) && fresh(south)
      ensures View() == Initial()
    {
      north := new Bucket();
      south := new Bucket();
    }

    function BucketFor(d: Direction): Bucket
      reads this
    {
      match d
      case North => north
      case South => south
    }

    function View(): OutputView
      reads this, north, south
    {
      OutputView(north.View(), south.View())
    }

    /**
     * The body of the endpoint's trip loop for one trip: unless the trip's
     * route is excluded, run the stop-name dispatch over its updates, filling
     * the entry and raising the flags of the trip's direction, then append
     * the entry to that direction's trip list.
     */
    method AddTrip(trip: Trip)
      requires Valid()
      modifies north, south
      ensures View() == Step(old(View()), trip)
      ensures unchanged(BucketFor(Opposite(trip.direction)))
    {
      var bucket := BucketFor(trip.direction);
      var input := FreshEntry(trip.summary);
      if !(trip.routeId in ["4", "5", "6", "7", "GS"]) {
        var updates := trip.updates;
        var i := 0;
        while i < |updates|
          invariant 0 <= i <= |updates|
          invariant input == EntryFor(trip.summary, updates[..i])
          invariant bucket.View() == BucketView(old(bucket.trips), Mark(old(bucket.View().flags), updates[..i]))
          invariant unchanged(BucketFor(Opposite(trip.direction)))
        {
          var update := updates[i];
          assert updates[..i + 1][..i] == updates[..i];
          if update.stopName == "Grand Army Plaza" {
            input := input.(grandArmyArrival := Some(update.arrival));
            bucket.trainsStoppingAtGrandArmy := true;
          } else if update.stopName == "Wall St" {
            input := input.(wallStreetArrival := Some(update.arrival));
            bucket.trainsStoppingAtWallStreet := true;
          } else if update.stopName == "34 St-Penn Station" {
            input := input.(pennStationArrival := Some(update.arrival));
            bucket.trainsStoppingAtPennStation := true;
          } else if update.stopName == "66 St-Lincoln Center" {
            input := input.(lincolnCenterArrival := Some(update.arrival));
            bucket.trainsStoppingAtLincolnCenter := true;
          }
          i := i + 1;
        }
        assert updates[..i] == trip.updates;
        bucket.trips := bucket.trips + [input];
      }
    }
  }

  /**
   * The endpoint: build the output record, then process the feed's trips in
   * order.  The result is the record `Run` describes; `TrainsSpec` proves
   * what that record contains.
   */
  method GetTrains(feed: seq<Trip>) returns (output: Output)
    ensures fresh(output) && output.Valid()
    ensures output.View() == Run(Initial(), feed)
  {
    output := new Output();
    var i := 0;
    while i < |feed|
      invariant 0 <= i <= |feed|
      invariant output.Valid() && fresh(output.north) && fresh(output.south)
      invariant output.View() == Run(Initial(), feed[..i])
    {
      assert feed[..i + 1][..i] == feed[..i];
      output.AddTrip(feed[i]);
      i := i + 1;
    }
    assert feed[..i] == feed;
  }
}
