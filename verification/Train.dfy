/** The train cycle (`TrainController`): approach the stop, wait for gifts
    with a countdown and a random quota, leave, and on leaving the field
    report whether the quota was met. Movement itself belongs to the engine:
    the model takes the train's x position after each frame's move as given
    and keeps only the threshold tests on it. */
module Train {
  import opened Arena
  import opened Optional
  import Player
  import Snowmen
  import Session

  /** The train stops once it is closer than this to `stopX`. */
  const StopEpsilon := 0.1
  /** A full train still waits this long after arriving before leaving early. */
  const MinLoadingTime := 2.0
  /** `Random.Range(3, 8)` on integers: 3 to 7, the upper bound excluded. */
  const QuotaMin := 3
  const QuotaMax := 8
  /** The quota the train holds before it first stops. */
  const InitialQuota := 10

  predicate QuotaInRange(q: int) {
    QuotaMin <= q < QuotaMax
  }

  datatype TrainConfig = TrainConfig(waitTime: real, spawnX: real, stopX: real, despawnX: real)

  /** The train's fields: `timer` is `currentWaitTimer`, `gifts` is
      `currentGifts`, `required` is `requiredGifts`, `wasFull` is
      `wasFullWhenDeparted`. */
  datatype TrainState = TrainState(x: real, isWaiting: bool, isLeaving: bool, timer: real,
                                   gifts: int, required: int, wasFull: bool)

  /** The three phases the two flags encode, in the order `Update` tests them. */
  datatype Phase = Approaching | Waiting | Leaving

  function PhaseOf(t: TrainState): Phase {
    if !t.isWaiting && !t.isLeaving then Approaching
    else if t.isWaiting then Waiting
    else Leaving
  }

  /** What holds of the train between frames: never waiting and leaving at
      once, a drawn quota while waiting, and, while leaving, a recorded
      outcome that still matches the count. */
  ghost predicate Inv(t: TrainState) {
    && !(t.isWaiting && t.isLeaving)
    && t.gifts >= 0
    && (t.isWaiting ==> QuotaInRange(t.required))
    && (t.isLeaving ==> t.wasFull == (t.gifts >= t.required))
  }

  /** The train as `Start` leaves it: at `spawnX`, approaching, with the
      fields' initial values. */
  function Initial(cfg: TrainConfig): (t: TrainState)
    ensures PhaseOf(t) == Approaching && Inv(t) && t.x == cfg.spawnX
  {
    TrainState(cfg.spawnX, false, false, 0.0, 0, InitialQuota, false)
  }

  /** `StartWaiting`: full countdown, nothing delivered, a fresh quota. */
  function Arrived(t: TrainState, cfg: TrainConfig, quota: int): (r: TrainState)
    ensures PhaseOf(r) == Waiting || t.isLeaving
    ensures r.timer == cfg.waitTime && r.gifts == 0 && r.required == quota
    ensures r.x == t.x && r.isLeaving == t.isLeaving && r.wasFull == t.wasFull
  {
    t.(isWaiting := true, timer := cfg.waitTime, gifts := 0, required := quota)
  }

  /** `Depart`: start leaving and record whether the quota was met. */
  function Departed(t: TrainState): (r: TrainState)
    ensures PhaseOf(r) == Leaving
    ensures r.wasFull <==> t.gifts >= t.required
    ensures r.gifts == t.gifts && r.required == t.required && r.timer == t.timer
  {
    t.(isWaiting := false, isLeaving := true, wasFull := t.gifts >= t.required)
  }

  /** `ResetTrain`: back at `spawnX`, approaching. */
  function Respawned(t: TrainState, cfg: TrainConfig): (r: TrainState)
    ensures PhaseOf(r) == Approaching && r.x == cfg.spawnX
    ensures r.gifts == t.gifts && r.required == t.required && r.wasFull == t.wasFull
  {
    t.(x := cfg.spawnX, isLeaving := false, isWaiting := false)
  }

  /** Whether a waiting train whose countdown reads `timer` leaves now: on
      timeout, or early once full and at least `MinLoadingTime` in. */
  function LeavesNow(timer: real, gifts: int, required: int, cfg: TrainConfig): (leaves: bool)
    ensures timer <= 0.0 ==> leaves
    ensures gifts < required ==> (leaves <==> timer <= 0.0)
    ensures gifts >= required ==> (leaves <==> timer <= 0.0 || timer < cfg.waitTime - MinLoadingTime)
    ensures timer > 0.0 && timer >= cfg.waitTime - MinLoadingTime ==> !leaves
  {
    timer <= 0.0 || (gifts >= required && timer < cfg.waitTime - MinLoadingTime)
  }

  /** One running frame of `Update`. `movedX` is the train's x after the
      engine has moved it this frame (towards `stopX` while approaching,
      leftwards while leaving); `quota` is the draw used if the train stops.
      The second component is the outcome reported to the session when the
      train leaves the field. */
  function Tick(t: TrainState, cfg: TrainConfig, dt: real, movedX: real, quota: int): (r: (TrainState, Option<bool>))
    ensures QuotaInRange(quota) && Inv(t) ==> Inv(r.0)
    ensures PhaseOf(t) == Approaching ==>
              && r.1 == None && r.0.x == movedX
              && (PhaseOf(r.0) == Waiting <==> Abs(movedX - cfg.stopX) < StopEpsilon)
              && (PhaseOf(r.0) == Approaching <==> !(Abs(movedX - cfg.stopX) < StopEpsilon))
              && (PhaseOf(r.0) == Waiting ==> r.0.timer == cfg.waitTime && r.0.gifts == 0 && r.0.required == quota)
    ensures PhaseOf(t) == Waiting ==>
              && r.1 == None && r.0.x == t.x
              && r.0.timer == t.timer - dt && r.0.gifts == t.gifts && r.0.required == t.required
              && (PhaseOf(r.0) == Leaving <==> LeavesNow(t.timer - dt, t.gifts, t.required, cfg))
              && (PhaseOf(r.0) == Waiting <==> !LeavesNow(t.timer - dt, t.gifts, t.required, cfg))
              && (PhaseOf(r.0) == Leaving ==> (r.0.wasFull <==> t.gifts >= t.required))
    ensures PhaseOf(t) == Leaving ==>
              && (r.1.Some? <==> movedX < cfg.despawnX)
              && (r.1.Some? ==> r.1.value == t.wasFull && PhaseOf(r.0) == Approaching && r.0.x == cfg.spawnX)
              && (r.1.None? ==> r.0 == t.(x := movedX))
    ensures Inv(t) && r.1.Some? ==> r.1.value == (t.gifts >= t.required)
    ensures PhaseOf(r.0) == Leaving && PhaseOf(t) != Leaving ==> PhaseOf(t) == Waiting
  {
    match PhaseOf(t)
    case Approaching =>
      var moved := t.(x := movedX);
      if Abs(moved.x - cfg.stopX) < StopEpsilon then (Arrived(moved, cfg, quota), None) else (moved, None)
    case Waiting =>
      var counted := t.(timer := t.timer - dt);
      if LeavesNow(counted.timer, counted.gifts, counted.required, cfg) then (Departed(counted), None) else (counted, None)
    case Leaving =>
      var moved := t.(x := movedX);
      if moved.x < cfg.despawnX then (Respawned(moved, cfg), Some(t.wasFull)) else (moved, None)
  }

  /** The counting in `OnTriggerEnter`: gifts handed over are counted only
      while waiting, and a hand-over of nothing changes nothing. There is no
      cap at the quota: the count may pass it. */
  function Deliver(t: TrainState, amount: int): (r: TrainState)
    ensures !t.isWaiting || amount <= 0 ==> r == t
    ensures t.isWaiting && amount > 0 ==> r.gifts == t.gifts + amount && r == t.(gifts := r.gifts)
    ensures Inv(t) ==> Inv(r)
  {
    if t.isWaiting && amount > 0 then t.(gifts := t.gifts + amount) else t
  }

  /** Handing over the whole stack: every carried gift is given. */
  lemma GiveAll(stack: seq<Player.Gift>)
    ensures Player.Give(stack, |stack|) == Player.Handover([], |stack|)
  {
  }

  /** The count can exceed the quota: a waiting train that needs 3 gifts and
      receives a stack of 5 counts 5. */
  lemma DeliveryCanOverfill(cfg: TrainConfig)
    ensures var t := Arrived(Initial(cfg), cfg, 3);
            Deliver(t, 5).gifts == 5 > t.required
  {
  }

  /** One frame or one contact with the collector carrying `amount` gifts. */
  datatype Event = Frame(dt: real, movedX: real, quota: int) | Contact(amount: int)

  predicate QuotasInRange(events: seq<Event>) {
    forall i :: 0 <= i < |events| ==> events[i].Frame? ==> QuotaInRange(events[i].quota)
  }

  /** An outcome reported on leaving the field, with the count and the
      quota the train held at that moment. */
  datatype Report = Report(gifts: int, required: int, wasFull: bool)

  /** The train after a sequence of events, and the outcomes it reported. */
  function Run(t: TrainState, cfg: TrainConfig, events: seq<Event>): (TrainState, seq<Report>)
    decreases |events|
  {
    if events == [] then (t, [])
    else
      var (next, report) := match events[0]
        case Frame(dt, movedX, quota) => Tick(t, cfg, dt, movedX, quota)
        case Contact(amount) => (Deliver(t, amount), None);
      var (last, reports) := Run(next, cfg, events[1..]);
      (last, if report.Some? then [Report(t.gifts, t.required, report.value)] + reports else reports)
  }

  /** Over any run of frames and contacts the train is always in exactly one
      phase and keeps its invariant, and every outcome it reports is a
      success exactly when the count it carried met its quota. */
  lemma {:induction false} RunKeepsInv(t: TrainState, cfg: TrainConfig, events: seq<Event>)
    requires Inv(t) && QuotasInRange(events)
    ensures Inv(Run(t, cfg, events).0)
    ensures forall i :: 0 <= i < |Run(t, cfg, events).1| ==>
              var report := Run(t, cfg, events).1[i];
              report.wasFull <==> report.gifts >= report.required
    decreases |events|
  {
    if events != [] {
      var next := match events[0]
        case Frame(dt, movedX, quota) => Tick(t, cfg, dt, movedX, quota).0
        case Contact(amount) => Deliver(t, amount);
      assert Inv(next);
      assert QuotasInRange(events[1..]) by {
        forall i | 0 <= i < |events[1..]| && events[1..][i].Frame?
          ensures QuotaInRange(events[1..][i].quota)
        {
          assert events[1..][i] == events[i + 1];
        }
      }
      RunKeepsInv(next, cfg, events[1..]);
    }
  }

  /** The train object. */
  class TrainController {
    const waitTime: real
    const spawnX: real
    const stopX: real
    const despawnX: real

    var x: real
    var isWaiting: bool
    var isLeaving: bool
    var currentWaitTimer: real
    var currentGifts: int
    var requiredGifts: int
    var wasFullWhenDeparted: bool

    function Config(): TrainConfig {
      TrainConfig(waitTime, spawnX, stopX, despawnX)
    }

    function Snapshot(): TrainState
      reads this
    {
      TrainState(x, isWaiting, isLeaving, currentWaitTimer, currentGifts, requiredGifts, wasFullWhenDeparted)
    }

    ghost predicate Valid()
      reads this
    {
      Inv(Snapshot())
    }

    /** The object with its fields' initial values, at `x0`. */
    constructor (waitTime: real, spawnX: real, stopX: real, despawnX: real, x0: real)
      ensures Valid()
      ensures Config() == TrainConfig(waitTime, spawnX, stopX, despawnX)
      ensures Snapshot() == Initial(Config()).(x := x0)
    {
      this.waitTime := waitTime;
      this.spawnX := spawnX;
      this.stopX := stopX;
      this.despawnX := despawnX;
      x := x0;
      isWaiting, isLeaving := false, false;
      currentWaitTimer := 0.0;
      currentGifts, requiredGifts := 0, InitialQuota;
      wasFullWhenDeparted := false;
    }

    /** `Start`: the initial reset, which also resets the snowman spawner. */
    method Start(spawner: Snowmen.SnowmanSpawner?)
      requires Valid() && (spawner != null ==> spawner.Valid())
      modifies this, spawner
      ensures Valid()
      ensures Snapshot() == Respawned(old(Snapshot()), Config())
      ensures spawner != null ==> spawner.Valid() && spawner.Snapshot() == Snowmen.Reset(old(spawner.Snapshot()), spawner.Config())
    {
      ResetTrain(true, spawner);
    }

    method StartWaiting(quota: int)
      modifies this`isWaiting, this`currentWaitTimer, this`currentGifts, this`requiredGifts
      ensures Snapshot() == Arrived(old(Snapshot()), Config(), quota)
    {
      isWaiting := true;
      currentWaitTimer := waitTime;
      currentGifts := 0;
      requiredGifts := quota;
    }

    method Depart()
      modifies this`isWaiting, this`isLeaving, this`wasFullWhenDeparted
      ensures Snapshot() == Departed(old(Snapshot()))
    {
      isWaiting := false;
      isLeaving := true;
      wasFullWhenDeparted := currentGifts >= requiredGifts;
    }

    /** `ResetTrain(initial)`; on the initial reset the snowman spawner is
        reset as well. */
    method ResetTrain(initial: bool, spawner: Snowmen.SnowmanSpawner?)
      requires spawner != null ==> spawner.Valid()
      modifies this`x, this`isWaiting, this`isLeaving, spawner
      ensures Snapshot() == Respawned(old(Snapshot()), Config())
      ensures spawner != null ==> spawner.Valid()
      ensures spawner != null ==>
                spawner.Snapshot() == if initial then Snowmen.Reset(old(spawner.Snapshot()), spawner.Config())
                                      else old(spawner.Snapshot())
    {
      x := spawnX;
      isLeaving := false;
      isWaiting := false;
      if initial && spawner != null {
        spawner.ResetSpawner();
      }
    }

    /** `Update`. Nothing happens while the game is not running. When the
        train leaves the field it first asks the spawner for one snowman
        (at `trainRoll`), then reports its outcome to the session (whose
        request, if any, is served at `roundRoll`), then resets. */
    method Update(dt: real, movedX: real, quota: int, gm: Session.GameManager, trainRoll: Roll, roundRoll: Roll)
      requires Valid() && gm.Valid() && QuotaInRange(quota)
      requires gm.spawner != null ==> gm.spawner.area.HasRoll(trainRoll) && gm.spawner.area.HasRoll(roundRoll)
      modifies this, gm, gm.spawner
      ensures Valid() && gm.Valid()
      ensures !old(gm.IsGameRunning()) ==> unchanged(this) && unchanged(gm) && (gm.spawner != null ==> unchanged(gm.spawner))
      ensures old(gm.IsGameRunning()) ==>
                Snapshot() == Tick(old(Snapshot()), Config(), dt, movedX, quota).0
      ensures old(gm.IsGameRunning()) && Tick(old(Snapshot()), Config(), dt, movedX, quota).1.None? ==>
                unchanged(gm) && (gm.spawner != null ==> unchanged(gm.spawner))
      ensures old(gm.IsGameRunning()) && Tick(old(Snapshot()), Config(), dt, movedX, quota).1.Some? ==>
                var outcome := Session.Departure(old(gm.Snapshot()), old(wasFullWhenDeparted));
                && gm.Snapshot() == outcome.0
                && (gm.spawner != null ==>
                      var cfg := gm.spawner.Config();
                      gm.spawner.Snapshot() == Session.Serve(Snowmen.Spawn(old(gm.spawner.Snapshot()), cfg, trainRoll), cfg, outcome.1, roundRoll))
    {
      if !gm.IsGameRunning() {
        return;
      }
      if !isWaiting && !isLeaving {
        x := movedX;
        if Abs(x - stopX) < StopEpsilon {
          StartWaiting(quota);
        }
      } else if isWaiting {
        currentWaitTimer := currentWaitTimer - dt;
        if currentWaitTimer <= 0.0 || (currentGifts >= requiredGifts && currentWaitTimer < waitTime - MinLoadingTime) {
          Depart();
        }
      } else if isLeaving {
        x := movedX;
        if x < despawnX {
          var spawner := gm.spawner;
          if spawner != null {
            spawner.SpawnSnowman(trainRoll);
          }
          gm.OnTrainDeparted(wasFullWhenDeparted, roundRoll);
          ResetTrain(false, null);
        }
      }
    }

    /** `OnTriggerEnter`: while waiting, a touching collector hands over its
        whole stack and the count grows by what was handed over. `player` is
        the touching collector, or null for anything else. */
    method OnTriggerEnter(player: Player.Collector?)
      requires Valid() && (player != null ==> player.Valid())
      modifies this, player
      ensures Valid() && (player != null ==> player.Valid())
      ensures player != null ==> player.pos == old(player.pos)
      ensures old(isWaiting) && player != null ==>
                player.stack == [] && Snapshot() == Deliver(old(Snapshot()), |old(player.stack)|)
      ensures !(old(isWaiting) && player != null) ==> unchanged(this) && (player != null ==> unchanged(player))
    {
      if isWaiting && player != null {
        var gifts := player.GiveGifts(|player.stack|);
        if gifts > 0 {
          currentGifts := currentGifts + gifts;
        }
      }
    }
  }
}
