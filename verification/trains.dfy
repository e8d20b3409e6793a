/**
 * The Train entity: identifier, number, seat grid, station timetable and the
 * ordered route, with the setters that update them in place.
 */
module Trains {

  /**
   * A seat grid: rows of cells, 0 for a free seat and any other value (1 once
   * booked) for a taken one. Rows may have different lengths.
   */
  type SeatGrid = seq<seq<int>>

  class Train {
    var trainId: string
    var trainNo: string
    var seats: SeatGrid
    /** Station name to scheduled time; only ever displayed. */
    var stationTimes: map<string, string>
    var stations: seq<string>

    /** The full constructor stores every argument as given. */
    constructor (trainId: string, trainNo: string, seats: SeatGrid,
                 stationTimes: map<string, string>, stations: seq<string>)
      ensures this.trainId == trainId && this.trainNo == trainNo
      ensures this.seats == seats && this.stationTimes == stationTimes
      ensures this.stations == stations
    {
      this.trainId := trainId;
      this.trainNo := trainNo;
      this.seats := seats;
      this.stationTimes := stationTimes;
      this.stations := stations;
    }

    /** `getTrainInfo`: the identifier and then the number, each after its label. */
    function Info(): (r: string)
      reads this
      ensures |r| == 10 + |trainId| + 11 + |trainNo|
      ensures r[..10] == "Train ID: "
      ensures r[10..10 + |trainId|] == trainId
      ensures r[10 + |trainId|..21 + |trainId|] == " Train No: "
      ensures r[21 + |trainId|..] == trainNo
    {
      "Train ID: " + trainId + " Train No: " + trainNo
    }

    /** Every field except the seat grid is what it was in the previous state. */
    twostate predicate SameExceptSeats()
      reads this
    {
      trainId == old(trainId) && trainNo == old(trainNo) &&
      stationTimes == old(stationTimes) && stations == old(stations)
    }

    method SetTrainId(trainId: string)
      modifies this
      ensures this.trainId == trainId
      ensures trainNo == old(trainNo) && seats == old(seats)
      ensures stationTimes == old(stationTimes) && stations == old(stations)
    {
      this.trainId := trainId;
    }

    method SetTrainNo(trainNo: string)
      modifies this
      ensures this.trainNo == trainNo
      ensures trainId == old(trainId) && seats == old(seats)
      ensures stationTimes == old(stationTimes) && stations == old(stations)
    {
      this.trainNo := trainNo;
    }

    method SetSeats(seats: SeatGrid)
      modifies this
      ensures this.seats == seats
      ensures SameExceptSeats()
    {
      this.seats := seats;
    }

    method SetStationTimes(stationTimes: map<string, string>)
      modifies this
      ensures this.stationTimes == stationTimes
      ensures trainId == old(trainId) && trainNo == old(trainNo)
      ensures seats == old(seats) && stations == old(stations)
    {
      this.stationTimes := stationTimes;
    }

    method SetStations(stations: seq<string>)
      modifies this
      ensures this.stations == stations
      ensures trainId == old(trainId) && trainNo == old(trainNo)
      ensures seats == old(seats) && stationTimes == old(stationTimes)
    {
      this.stations := stations;
    }
  }

  /** The bounds check of a booking: a row of the grid and a cell of that row. */
  predicate SeatInRange(grid: SeatGrid, row: int, seat: int)
  {
    0 <= row < |grid| && 0 <= seat < |grid[row]|
  }

  /** A cell that can be booked: inside the grid and holding 0. */
  predicate SeatFree(grid: SeatGrid, row: int, seat: int)
  {
    SeatInRange(grid, row, seat) && grid[row][seat] == 0
  }

  /** The grid after `seats.get(row).set(seat, 1)`: exactly that one cell now holds 1. */
  function WithSeatTaken(grid: SeatGrid, row: int, seat: int): (r: SeatGrid)
    requires SeatInRange(grid, row, seat)
    ensures |r| == |grid|
    ensures forall i :: 0 <= i < |r| ==> |r[i]| == |grid[i]|
    ensures r[row][seat] == 1
    ensures forall i, j :: 0 <= i < |r| && 0 <= j < |r[i]| && (i != row || j != seat) ==> r[i][j] == grid[i][j]
  {
    grid[row := grid[row][seat := 1]]
  }

  /** The number of cells of a row that are not free. */
  function TakenInRow(cells: seq<int>): nat
  {
    if cells == [] then 0 else (if cells[0] != 0 then 1 else 0) + TakenInRow(cells[1..])
  }

  /** The number of cells of the whole grid that are not free. */
  function Taken(grid: SeatGrid): nat
  {
    if grid == [] then 0 else TakenInRow(grid[0]) + Taken(grid[1..])
  }

  /** Taking a free cell of a row makes exactly one more cell of it taken. */
  lemma {:induction false} TakeInRow(cells: seq<int>, seat: int)
    requires 0 <= seat < |cells| && cells[seat] == 0
    ensures TakenInRow(cells[seat := 1]) == TakenInRow(cells) + 1
  {
    if seat > 0 {
      TakeInRow(cells[1..], seat - 1);
      assert cells[seat := 1][1..] == cells[1..][seat - 1 := 1];
    } else {
      assert cells[seat := 1][1..] == cells[1..];
    }
  }

  /** Booking a free seat makes exactly one more seat of the grid taken. */
  lemma {:induction false} TakingFreeSeatCountsOnce(grid: SeatGrid, row: int, seat: int)
    requires SeatFree(grid, row, seat)
    ensures Taken(WithSeatTaken(grid, row, seat)) == Taken(grid) + 1
  {
    var r := WithSeatTaken(grid, row, seat);
    if row > 0 {
      TakingFreeSeatCountsOnce(grid[1..], row - 1, seat);
      assert r[1..] == WithSeatTaken(grid[1..], row - 1, seat);
    } else {
      TakeInRow(grid[0], seat);
      assert r[1..] == grid[1..];
    }
  }

  /** A booked seat cannot be booked again: the second attempt finds it taken. */
  lemma TakenSeatIsNotFree(grid: SeatGrid, row: int, seat: int)
    requires SeatInRange(grid, row, seat)
    ensures SeatInRange(WithSeatTaken(grid, row, seat), row, seat)
    ensures !SeatFree(WithSeatTaken(grid, row, seat), row, seat)
  {
  }
}
