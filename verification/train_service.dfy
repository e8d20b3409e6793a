/**
 * The train catalog: route search, add-or-replace by identifier, and booking
 * one seat of a train.
 */
module TrainCatalog {
  import opened Lists
  import opened Strings
  import opened Trains

  /**
   * `validTrain`: both stations are on the route and the first occurrence of
   * the source comes before the first occurrence of the destination. Names
   * are compared exactly.
   */
  predicate ValidTrain(train: Train, source: string, destination: string)
    reads train
    ensures ValidTrain(train, source, destination) ==>
      source in train.stations && destination in train.stations && source != destination
  {
    var s := IndexOf(train.stations, source);
    var d := IndexOf(train.stations, destination);
    s != -1 && d != -1 && s < d
  }

  /**
   * Another reading of `validTrain`: the destination occurs, and the source
   * occurs somewhere before the destination's first occurrence.
   */
  lemma ValidTrainMeansSourceFirst(train: Train, source: string, destination: string)
    ensures ValidTrain(train, source, destination) <==>
      exists j :: 0 <= j < |train.stations| && train.stations[j] == destination &&
        destination !in train.stations[..j] && source in train.stations[..j]
  {
  }

  /** No train runs from a station to itself, so such a search finds nothing. */
  lemma NoTrainFromStationToItself(train: Train, station: string)
    ensures !ValidTrain(train, station, station)
  {
  }

  /**
   * A booked ticket runs from the first to the last station of the route:
   * that is a valid journey exactly when the two stations differ.
   */
  lemma EndpointsValidIffDistinct(train: Train)
    requires |train.stations| > 0
    ensures ValidTrain(train, train.stations[0], train.stations[|train.stations| - 1]) <==>
      train.stations[0] != train.stations[|train.stations| - 1]
  {
  }

  /**
   * `searchTrains`: the trains that pass `validTrain`, in the order they have
   * in the catalog, each as often as it occurs there.
   */
  function SearchTrains(trains: seq<Train>, source: string, destination: string): (r: seq<Train>)
    reads trains
    ensures IsSubsequence(r, trains)
    ensures forall t :: t in r ==> t in trains && ValidTrain(t, source, destination)
    ensures forall t {:trigger multiset(r)[t]} :: t in trains ==>
      multiset(r)[t] == if ValidTrain(t, source, destination) then multiset(trains)[t] else 0
  {
    if trains == [] then []
    else
      var rest := SearchTrains(trains[1..], source, destination);
      assert trains == [trains[0]] + trains[1..];
      if ValidTrain(trains[0], source, destination) then [trains[0]] + rest else rest
  }

  /** A search from a station to itself returns nothing. */
  lemma {:induction false} SearchFromStationToItselfIsEmpty(trains: seq<Train>, station: string)
    ensures SearchTrains(trains, station, station) == []
  {
    var r := SearchTrains(trains, station, station);
    if r != [] {
      assert r[0] in r;
      NoTrainFromStationToItself(r[0], station);
    }
  }

  /**
   * The position of the first train whose identifier equals `id` ignoring
   * case, or -1 when there is none.
   */
  function FirstWithId(trains: seq<Train>, id: string): (r: int)
    reads trains
    ensures -1 <= r < |trains|
    ensures r == -1 <==> forall i :: 0 <= i < |trains| ==> !EqualsIgnoreCase(trains[i].trainId, id)
    ensures 0 <= r ==> EqualsIgnoreCase(trains[r].trainId, id)
    ensures forall i :: 0 <= i < r ==> !EqualsIgnoreCase(trains[i].trainId, id)
  {
    if trains == [] then -1
    else if EqualsIgnoreCase(trains[0].trainId, id) then 0
    else
      var k := FirstWithId(trains[1..], id);
      if k == -1 then -1 else k + 1
  }

  /**
   * The catalog after `addTrain(t)`: the first train with the same
   * identifier (ignoring case) is replaced by `t` in its place, or `t` is
   * appended when no identifier matches.
   */
  function Upsert(trains: seq<Train>, t: Train): (r: seq<Train>)
    reads trains, t
    ensures t in r
    ensures |r| == if FirstWithId(trains, t.trainId) == -1 then |trains| + 1 else |trains|
    ensures forall i :: 0 <= i < |trains| && i != FirstWithId(trains, t.trainId) ==> r[i] == trains[i]
    ensures FirstWithId(trains, t.trainId) == -1 ==> r[|trains|] == t
    ensures FirstWithId(trains, t.trainId) != -1 ==> r[FirstWithId(trains, t.trainId)] == t
  {
    var i := FirstWithId(trains, t.trainId);
    if i == -1 then trains + [t] else assert trains[i := t][i] == t; trains[i := t]
  }

  /** After `addTrain(t)`, a lookup by `t`'s identifier finds `t`, at the place given by the old catalog. */
  lemma {:induction false} UpsertThenFind(trains: seq<Train>, t: Train)
    ensures var i := FirstWithId(trains, t.trainId);
      FirstWithId(Upsert(trains, t), t.trainId) == (if i == -1 then |trains| else i)
    ensures Upsert(trains, t)[FirstWithId(Upsert(trains, t), t.trainId)] == t
  {
    var r := Upsert(trains, t);
    var i := FirstWithId(trains, t.trainId);
    var k := if i == -1 then |trains| else i;
    assert EqualsIgnoreCase(r[k].trainId, t.trainId);
  }

  /** Adding the same train twice leaves the catalog as adding it once. */
  lemma {:induction false} UpsertIdempotent(trains: seq<Train>, t: Train)
    ensures Upsert(Upsert(trains, t), t) == Upsert(trains, t)
  {
    var r := Upsert(trains, t);
    UpsertThenFind(trains, t);
    var k := FirstWithId(r, t.trainId);
    assert r[k := t] == r;
  }

  class TrainService {
    var trainList: seq<Train>

    /** A catalog holding the trains read from the store. */
    constructor (loaded: seq<Train>)
      ensures trainList == loaded
    {
      trainList := loaded;
    }

    /** `searchTrains` over this catalog; it reads the list and changes nothing. */
    function Search(source: string, destination: string): (r: seq<Train>)
      reads this, trainList
      ensures IsSubsequence(r, trainList)
      ensures forall t :: t in r ==> t in trainList && ValidTrain(t, source, destination)
      ensures forall t {:trigger multiset(r)[t]} :: t in trainList ==>
        multiset(r)[t] == if ValidTrain(t, source, destination) then multiset(trainList)[t] else 0
    {
      SearchTrains(trainList, source, destination)
    }

    /**
     * `addTrain`: replace the first train with the same identifier (ignoring
     * case), or append the train when there is none. Saving the catalog is
     * not modelled.
     */
    method AddTrain(newTrain: Train)
      modifies this
      ensures trainList == Upsert(old(trainList), newTrain)
    {
      if FirstWithId(trainList, newTrain.trainId) != -1 {
        UpdateTrain(newTrain);
      } else {
        trainList := trainList + [newTrain];
      }
    }

    /**
     * `updateTrain`: replace the first train with the same identifier at its
     * index; with no match it falls back to `addTrain`, which then appends.
     */
    method UpdateTrain(updatedTrain: Train)
      modifies this
      ensures trainList == Upsert(old(trainList), updatedTrain)
    {
      var i := FirstWithId(trainList, updatedTrain.trainId);
      if i != -1 {
        trainList := trainList[i := updatedTrain];
      } else {
        // addTrain finds no match either, so it appends
        trainList := trainList + [updatedTrain];
      }
    }

    /**
     * `bookTickets`: when the cell is inside the grid and free, mark it taken
     * and add-or-replace the train in the catalog; otherwise change nothing.
     */
    method BookTickets(train: Train, row: int, seat: int) returns (ok: bool)
      modifies this, train
      ensures ok == old(SeatFree(train.seats, row, seat))
      ensures train.SameExceptSeats()
      ensures ok ==> train.seats == WithSeatTaken(old(train.seats), row, seat)
      ensures ok ==> trainList == Upsert(old(trainList), train)
      ensures !ok ==> train.seats == old(train.seats) && trainList == old(trainList)
    {
      var seats := train.seats;
      if SeatInRange(seats, row, seat) {
        if seats[row][seat] == 0 {
          train.SetSeats(WithSeatTaken(seats, row, seat));
          AddTrain(train);
          return true;
        }
      }
      return false;
    }
  }
}
