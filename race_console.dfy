/**
 * The race console (renderer/pages/home.tsx): one stopwatch shared by four
 * lanes, each lane with a lap counter bounded by its lap target. `Date.now()`
 * is the `now` parameter of Toggle and Tick; the 100 ms interval that calls
 * Tick exists only while the stopwatch runs.
 */
module RaceConsole {
  import opened Wrappers
  import Seqs

  /** One lane of the console (`courseData` entry). `time` mirrors the elapsed stopwatch time. */
  datatype Lane = Lane(
    id: int,
    name: string,
    vehicle: string,
    color: string,
    currentLap: nat,
    totalLaps: nat,
    time: int,
    bestLap: Option<int>)

  /** Every lap counter is within 0..totalLaps. */
  ghost predicate LapsInRange(lanes: seq<Lane>) {
    forall i :: 0 <= i < |lanes| ==> lanes[i].currentLap <= lanes[i].totalLaps
  }

  /** The four lanes the console starts with. */
  function InitialLanes(): (lanes: seq<Lane>)
    ensures |lanes| == 4 && LapsInRange(lanes)
    ensures forall i :: 0 <= i < 4 ==> lanes[i].id == i + 1 && lanes[i].totalLaps == 5 && lanes[i].time == 0
  {
    [ Lane(1, "選手1", "車両1", "red.500", 2, 5, 0, None),
      Lane(2, "選手2", "車両2", "blue.500", 3, 5, 0, None),
      Lane(3, "選手3", "車両3", "green.500", 1, 5, 0, None),
      Lane(4, "選手4", "車両4", "purple.500", 4, 5, 0, None) ]
  }

  function LapUp(lane: Lane, id: int): Lane {
    if lane.id == id && lane.currentLap < lane.totalLaps then lane.(currentLap := lane.currentLap + 1) else lane
  }

  function LapDown(lane: Lane, id: int): Lane {
    if lane.id == id && lane.currentLap > 0 then lane.(currentLap := lane.currentLap - 1) else lane
  }

  /**
   * `incrementLap(id)`: a lane with that id below its target gains one lap; a lane at
   * its target (a target of 0 included) and every other lane are left as they are.
   */
  function Incremented(lanes: seq<Lane>, id: int): (r: seq<Lane>)
    ensures |r| == |lanes|
    ensures forall i :: 0 <= i < |lanes| ==> r[i] == lanes[i].(currentLap := r[i].currentLap)
    ensures forall i :: 0 <= i < |lanes| && lanes[i].id != id ==> r[i] == lanes[i]
    ensures forall i :: 0 <= i < |lanes| && lanes[i].id == id ==>
              r[i].currentLap == if lanes[i].currentLap < lanes[i].totalLaps then lanes[i].currentLap + 1 else lanes[i].currentLap
    ensures LapsInRange(lanes) ==> LapsInRange(r)
  {
    Seqs.Map(l => LapUp(l, id), lanes)
  }

  /**
   * `decrementLap(id)`: a lane with that id above 0 loses one lap; a lane at 0 and every
   * other lane are left as they are.
   */
  function Decremented(lanes: seq<Lane>, id: int): (r: seq<Lane>)
    ensures |r| == |lanes|
    ensures forall i :: 0 <= i < |lanes| ==> r[i] == lanes[i].(currentLap := r[i].currentLap)
    ensures forall i :: 0 <= i < |lanes| && lanes[i].id != id ==> r[i] == lanes[i]
    ensures forall i :: 0 <= i < |lanes| && lanes[i].id == id ==>
              r[i].currentLap == if lanes[i].currentLap > 0 then lanes[i].currentLap - 1 else 0
    ensures LapsInRange(lanes) ==> LapsInRange(r)
  {
    Seqs.Map(l => LapDown(l, id), lanes)
  }

  /** The lane update of `resetTimer`: lap counts and times back to 0, everything else kept. */
  function LapsCleared(lanes: seq<Lane>): (r: seq<Lane>)
    ensures |r| == |lanes| && LapsInRange(r)
    ensures forall i :: 0 <= i < |lanes| ==>
              r[i].currentLap == 0 && r[i].time == 0 &&
              r[i].(currentLap := lanes[i].currentLap, time := lanes[i].time) == lanes[i]
  {
    Seqs.Map((l: Lane) => l.(time := 0, currentLap := 0), lanes)
  }

  /** The lane update of a tick: every lane shows the same elapsed time; nothing else changes. */
  function Timed(lanes: seq<Lane>, elapsed: int): (r: seq<Lane>)
    ensures |r| == |lanes|
    ensures forall i :: 0 <= i < |lanes| ==> r[i].time == elapsed && r[i].(time := lanes[i].time) == lanes[i]
    ensures LapsInRange(lanes) ==> LapsInRange(r)
  {
    Seqs.Map((l: Lane) => l.(time := elapsed), lanes)
  }

  /** Below the target, a lap added and then taken back leaves every lane exactly as it was. */
  lemma IncrementThenDecrement(lanes: seq<Lane>, id: int)
    requires forall i :: 0 <= i < |lanes| && lanes[i].id == id ==> lanes[i].currentLap < lanes[i].totalLaps
    ensures Decremented(Incremented(lanes, id), id) == lanes
  {
  }

  /** Above 0 and within the target, a lap taken back and then added again leaves every lane as it was. */
  lemma DecrementThenIncrement(lanes: seq<Lane>, id: int)
    requires LapsInRange(lanes)
    requires forall i :: 0 <= i < |lanes| && lanes[i].id == id ==> lanes[i].currentLap > 0
    ensures Incremented(Decremented(lanes, id), id) == lanes
  {
  }

  /** The console's state: the stopwatch and the lanes. */
  class Console {
    var isRunning: bool
    /** The instant from which elapsed time is counted; null until the first start. */
    var startTime: Option<int>
    var elapsedTime: int
    var lanes: seq<Lane>

    ghost predicate Valid()
      reads this
    {
      LapsInRange(lanes) && (isRunning ==> startTime.Some?)
    }

    constructor ()
      ensures Valid()
      ensures !isRunning && startTime == None && elapsedTime == 0 && lanes == InitialLanes()
    {
      isRunning := false;
      startTime := None;
      elapsedTime := 0;
      lanes := InitialLanes();
    }

    /**
     * `toggleTimer`: starting sets the start instant back by the elapsed time so the
     * count continues from where it was paused; pausing only stops the stopwatch.
     */
    method Toggle(now: int)
      requires Valid()
      modifies this`isRunning, this`startTime
      ensures Valid()
      ensures isRunning == !old(isRunning)
      ensures if old(isRunning) then startTime == old(startTime) else startTime == Some(now - elapsedTime)
    {
      if !isRunning {
        startTime := Some(now - elapsedTime);
        isRunning := true;
      } else {
        isRunning := false;
      }
    }

    /**
     * `resetTimer`: stops the stopwatch, zeroes the elapsed time and every lane's lap count
     * and time. The start instant is left as it was.
     */
    method Reset()
      requires Valid()
      modifies this`isRunning, this`elapsedTime, this`lanes
      ensures Valid()
      ensures !isRunning && elapsedTime == 0 && lanes == LapsCleared(old(lanes))
    {
      isRunning := false;
      elapsedTime := 0;
      lanes := LapsCleared(lanes);
    }

    /** `incrementLap(id)`. */
    method IncrementLap(id: int)
      requires Valid()
      modifies this`lanes
      ensures Valid()
      ensures lanes == Incremented(old(lanes), id)
    {
      lanes := Incremented(lanes, id);
    }

    /** `decrementLap(id)`. */
    method DecrementLap(id: int)
      requires Valid()
      modifies this`lanes
      ensures Valid()
      ensures lanes == Decremented(old(lanes), id)
    {
      lanes := Decremented(lanes, id);
    }

    /** The body of the interval callback, run only while the stopwatch runs. */
    method Tick(now: int)
      requires Valid() && isRunning
      modifies this`elapsedTime, this`lanes
      ensures Valid()
      ensures elapsedTime == now - startTime.value
      ensures lanes == Timed(old(lanes), elapsedTime)
    {
      var elapsed := now - startTime.value;
      elapsedTime := elapsed;
      lanes := Timed(lanes, elapsed);
    }
  }

  /**
   * Pausing and resuming loses no time: from a stopped console, a start at `now`
   * followed by a tick at `later` shows the paused time plus `later - now`, with every
   * lane showing it and no lap count changed.
   */
  method ResumeThenTick(c: Console, now: int, later: int)
    requires c.Valid() && !c.isRunning
    modifies c
    ensures c.Valid() && c.isRunning
    ensures c.elapsedTime == old(c.elapsedTime) + (later - now)
    ensures |c.lanes| == |old(c.lanes)|
    ensures forall i :: 0 <= i < |c.lanes| ==>
              c.lanes[i].time == c.elapsedTime && c.lanes[i].currentLap == old(c.lanes[i].currentLap)
  {
    c.Toggle(now);
    c.Tick(later);
  }
}
