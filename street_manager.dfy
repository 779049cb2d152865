/**
 * `StreetManager`: the race of a street map. Starting the race puts the
 * player at the first checkpoint and attaches the lap handler to that
 * checkpoint's trigger; each time the trigger fires the handler moves on to
 * the next checkpoint, counting a lap whenever it passes the first one, and
 * the race is won when the first checkpoint is reached with the last lap
 * already counted.
 *
 * Checkpoints are named by numbers and `next` gives each one's `Next`; the
 * handlers attached to the checkpoint triggers are counted in the multiset
 * `listening`, so attaching twice is visible. Lobby creation, the waiting
 * loop, spawning players and the on-screen arrow are not part of the model.
 */
module StreetManagers {
  import opened Common

  /**
   * `FindSpawnLocation`: with spawn points, the one at the connection count
   * minus one; without, the manager's own transform. `None` stands for the
   * out-of-range exception the list index throws when the count is 0 or
   * larger than the list.
   */
  function FindSpawnLocation<T>(spawnPoints: Option<seq<T>>, connections: int, own: T): (r: Option<T>)
    ensures spawnPoints.None? || spawnPoints.value == [] ==> r == Some(own)
    ensures spawnPoints.Some? && spawnPoints.value != [] ==>
              (r.Some? <==> 1 <= connections <= |spawnPoints.value|)
    ensures spawnPoints.Some? && r.Some? && 1 <= connections <= |spawnPoints.value| ==>
              r.value == spawnPoints.value[connections - 1]
  {
    if spawnPoints.Some? && |spawnPoints.value| > 0 then
      if 1 <= connections <= |spawnPoints.value| then Some(spawnPoints.value[connections - 1]) else None
    else Some(own)
  }

  /**
   * With distinct spawn points, players joining one after another (connection
   * counts 1, 2, ...) are placed at different points.
   */
  lemma SpawnPointsNotShared<T>(spawnPoints: seq<T>, c1: int, c2: int, own: T)
    requires forall a, b :: 0 <= a < b < |spawnPoints| ==> spawnPoints[a] != spawnPoints[b]
    requires 1 <= c1 < c2 <= |spawnPoints|
    ensures FindSpawnLocation(Some(spawnPoints), c1, own) != FindSpawnLocation(Some(spawnPoints), c2, own)
  {
    assert spawnPoints[c1 - 1] != spawnPoints[c2 - 1];
  }

  class StreetManager {
    var started: bool
    var firstCheckpoint: nat
    var currentCheckpoint: nat
    var maxLaps: int
    var lap: int
    /** The lap handlers attached to the checkpoint triggers. */
    var listening: multiset<nat>

    /** The handler is attached exactly once, to the current checkpoint, while the race runs. */
    predicate Racing()
      reads this
    {
      started && listening == multiset{currentCheckpoint}
    }

    /** Before the race: not started and no handler attached. */
    predicate Idle()
      reads this
    {
      !started && listening == multiset{}
    }

    constructor(firstCheckpoint: nat)
      ensures this.firstCheckpoint == firstCheckpoint && currentCheckpoint == firstCheckpoint
      ensures maxLaps == 1 && lap == 0
      ensures Idle()
    {
      started := false;
      this.firstCheckpoint := firstCheckpoint;
      currentCheckpoint := firstCheckpoint;
      maxLaps := 1;
      lap := 0;
      listening := multiset{};
    }

    /**
     * `StartRace`: back to the first checkpoint, attach the handler there and
     * start. From an idle manager this gives a running race; a second start
     * attaches a second handler.
     */
    method StartRace()
      modifies this`currentCheckpoint, this`listening, this`started
      ensures currentCheckpoint == firstCheckpoint && started
      ensures listening == old(listening) + multiset{firstCheckpoint}
      ensures old(Idle()) ==> Racing()
    {
      currentCheckpoint := firstCheckpoint;
      listening := listening + multiset{currentCheckpoint};
      started := true;
    }

    /** The `Started` setter: store the value, and start the race when it is true. */
    method SetStarted(value: bool)
      modifies this`started, this`currentCheckpoint, this`listening
      ensures started == value
      ensures value ==> currentCheckpoint == firstCheckpoint
                        && listening == old(listening) + multiset{firstCheckpoint}
      ensures !value ==> currentCheckpoint == old(currentCheckpoint) && listening == old(listening)
      ensures value && old(Idle()) ==> Racing()
    {
      started := value;
      if started {
        StartRace();
      }
    }

    /** `Win`: detach the handler from the current checkpoint and stop. */
    method Win()
      modifies this`listening, this`started
      ensures !started
      ensures listening == old(listening) - multiset{currentCheckpoint}
      ensures old(Racing()) ==> Idle()
    {
      listening := listening - multiset{currentCheckpoint};
      started := false;
    }

    /** The last three lines of `OnTriggerEnter`: move the handler from the current checkpoint to the next. */
    method MoveToNext(next: nat -> nat)
      modifies this`currentCheckpoint, this`listening
      ensures currentCheckpoint == next(old(currentCheckpoint))
      ensures listening == old(listening) - multiset{old(currentCheckpoint)} + multiset{currentCheckpoint}
      ensures old(Racing()) ==> Racing()
    {
      ghost var racing := Racing();
      listening := listening - multiset{currentCheckpoint};
      assert racing ==> listening == multiset{};
      currentCheckpoint := next(currentCheckpoint);
      listening := listening + multiset{currentCheckpoint};
    }

    /**
     * `OnTriggerEnter`. At the first checkpoint with the last lap counted the
     * race is won and nothing else changes; at the first checkpoint otherwise
     * a lap is counted; in both of the other cases the handler moves on to
     * the next checkpoint. A running race stays running until it is won, and
     * the lap count never passes `MaxLaps` if it did not already.
     */
    method OnTriggerEnter(next: nat -> nat)
      modifies this`lap, this`currentCheckpoint, this`listening, this`started
      ensures old(currentCheckpoint == firstCheckpoint && lap == maxLaps) ==>
                && !started && lap == old(lap) && currentCheckpoint == old(currentCheckpoint)
                && listening == old(listening) - multiset{old(currentCheckpoint)}
      ensures old(currentCheckpoint == firstCheckpoint && lap != maxLaps) ==>
                lap == old(lap) + 1 && currentCheckpoint == next(old(currentCheckpoint))
      ensures old(currentCheckpoint != firstCheckpoint) ==>
                lap == old(lap) && currentCheckpoint == next(old(currentCheckpoint))
      ensures !old(currentCheckpoint == firstCheckpoint && lap == maxLaps) ==>
                && started == old(started)
                && listening == old(listening) - multiset{old(currentCheckpoint)} + multiset{currentCheckpoint}
      ensures old(lap <= maxLaps) ==> lap <= maxLaps
      ensures old(Racing()) ==> Racing() || Idle()
      ensures old(Racing()) && Idle() ==> old(currentCheckpoint == firstCheckpoint && lap == maxLaps)
    {
      if currentCheckpoint == firstCheckpoint {
        if lap == maxLaps {
          Win();
          return;
        }
        lap := lap + 1;
      }
      MoveToNext(next);
    }
  }

  /**
   * A whole one-lap race over a circuit of three checkpoints, first -> b -> c
   * -> first: the lap is counted on the first pass of the first checkpoint
   * (which the car sits at when the race starts) and the race is won on the
   * second.
   */
  method OneLapRace(first: nat, b: nat, c: nat, next: nat -> nat) returns (m: StreetManager)
    requires first != b && b != c && c != first
    requires next(first) == b && next(b) == c && next(c) == first
    ensures m.Idle() && m.lap == 1
  {
    m := new StreetManager(first);
    m.SetStarted(true);
    m.OnTriggerEnter(next);
    assert m.lap == 1 && m.currentCheckpoint == b && m.Racing();
    m.OnTriggerEnter(next);
    m.OnTriggerEnter(next);
    assert m.currentCheckpoint == first && m.Racing();
    m.OnTriggerEnter(next);
  }
}
