/** The hazard population (`SnowmanSpawner`): a capped list of live snowmen
    and one shared speed that every snowman is kept at. */
module Snowmen {
  import opened Arena
  import opened Optional

  /** Height below the ground plane at which a snowman is instantiated
      (it then rises into the arena on its own). */
  const SpawnDepth := -2.0

  /** A live snowman. `speed` is the speed of its `SnowmanController`, or
      `None` when the prefab carries no such component. */
  datatype Snowman = Snowman(id: nat, pos: Vec3, speed: Option<real>)

  /** The spawner's inspector settings. */
  datatype SpawnerConfig = SpawnerConfig(maxSnowmen: int, initialSpeed: real, area: Bounds, prefabHasController: bool)

  /** The spawner's state: `active` is `activeSnowmen`, `speed` is
      `currentGlobalSpeed`, `alive` the ids of snowman objects instantiated
      and not yet destroyed, `nextId` the id the next instantiation gets. */
  datatype SpawnerState = SpawnerState(active: seq<Snowman>, speed: real, alive: set<nat>, nextId: nat)

  /** The ids of a list of snowmen. */
  function Ids(s: seq<Snowman>): (r: set<nat>)
    ensures forall i :: 0 <= i < |s| ==> s[i].id in r
    ensures forall id :: id in r ==> exists i :: 0 <= i < |s| && s[i].id == id
  {
    if s == [] then {} else Ids(s[..|s| - 1]) + {s[|s| - 1].id}
  }

  /** What stays true of the spawner between any two of its operations: the
      cap is respected, every listed snowman is alive, and ids are issued in
      increasing order, so no snowman is listed twice. */
  ghost predicate Inv(st: SpawnerState, cfg: SpawnerConfig) {
    && |st.active| <= cfg.maxSnowmen
    && (forall i :: 0 <= i < |st.active| ==> st.active[i].id in st.alive && st.active[i].id < st.nextId)
    && (forall i, j :: 0 <= i < j < |st.active| ==> st.active[i].id < st.active[j].id)
    && (forall id :: id in st.alive ==> id < st.nextId)
  }

  /** `SpawnSnowman`: a no-op at the cap; below it, one new snowman is
      appended at the rolled ground position, `SpawnDepth` below the ground,
      with its speed set to the shared speed. */
  function Spawn(st: SpawnerState, cfg: SpawnerConfig, roll: Roll): (r: SpawnerState)
    ensures |st.active| >= cfg.maxSnowmen ==> r == st
    ensures |st.active| < cfg.maxSnowmen ==>
              && |r.active| == |st.active| + 1
              && r.active[..|st.active|] == st.active
              && r.speed == st.speed
              && r.alive == st.alive + {st.nextId}
    ensures |st.active| < cfg.maxSnowmen ==>
              var s := r.active[|st.active|];
              && (Inv(st, cfg) ==> s.id !in st.alive)
              && (cfg.area.HasRoll(roll) ==> cfg.area.Contains(s.pos.x, s.pos.z)) && s.pos.y == SpawnDepth
              && (s.speed.Some? <==> cfg.prefabHasController)
              && (s.speed.Some? ==> s.speed.value == st.speed)
    ensures Inv(st, cfg) ==> Inv(r, cfg)
  {
    if |st.active| >= cfg.maxSnowmen then st
    else
      var newcomer := Snowman(st.nextId, Vec3(roll.x, SpawnDepth, roll.z),
                           if cfg.prefabHasController then Some(st.speed) else None);
      SpawnerState(st.active + [newcomer], st.speed, st.alive + {st.nextId}, st.nextId + 1)
  }

  /** Every snowman with a controller set to speed `v`; nothing else changes. */
  function WithSpeed(active: seq<Snowman>, v: real): (r: seq<Snowman>)
    ensures |r| == |active|
    ensures forall i :: 0 <= i < |r| ==>
              && r[i].id == active[i].id && r[i].pos == active[i].pos
              && (r[i].speed.Some? <==> active[i].speed.Some?)
              && (r[i].speed.Some? ==> r[i].speed.value == v)
  {
    seq(|active|, i requires 0 <= i < |active| =>
      if active[i].speed.Some? then active[i].(speed := Some(v)) else active[i])
  }

  /** `IncreaseGlobalSpeed(amount)`: the shared speed grows by `amount` and
      every active snowman is brought to it. */
  function SpeedUp(st: SpawnerState, amount: real): (r: SpawnerState)
    ensures r.speed == st.speed + amount
    ensures r.active == WithSpeed(st.active, r.speed)
    ensures r.alive == st.alive && r.nextId == st.nextId
    ensures forall cfg :: Inv(st, cfg) ==> Inv(r, cfg)
  {
    var v := st.speed + amount;
    st.(speed := v, active := WithSpeed(st.active, v))
  }

  /** `ResetSpawner`: every listed snowman is destroyed, the list is emptied
      and the shared speed is back at `initialSpeed`. */
  function Reset(st: SpawnerState, cfg: SpawnerConfig): (r: SpawnerState)
    ensures r.active == [] && r.speed == cfg.initialSpeed
    ensures forall i :: 0 <= i < |st.active| ==> st.active[i].id !in r.alive
    ensures r.alive <= st.alive && r.nextId == st.nextId
    ensures Inv(st, cfg) ==> Inv(r, cfg)
  {
    SpawnerState([], cfg.initialSpeed, st.alive - Ids(st.active), st.nextId)
  }

  /** `Update`: while the game runs and no snowman is listed, one is spawned. */
  function Tick(st: SpawnerState, cfg: SpawnerConfig, running: bool, roll: Roll): (r: SpawnerState)
    ensures !(running && st.active == []) ==> r == st
    ensures running && st.active == [] && cfg.maxSnowmen > 0 ==> |r.active| == 1
    ensures Inv(st, cfg) ==> Inv(r, cfg)
  {
    if running && |st.active| == 0 then Spawn(st, cfg, roll) else st
  }

  /** One call into the spawner. */
  datatype Op = SpawnOp(roll: Roll) | SpeedOp(amount: real) | ResetOp | TickOp(running: bool, roll: Roll)

  function Apply(st: SpawnerState, cfg: SpawnerConfig, op: Op): SpawnerState {
    match op
    case SpawnOp(roll) => Spawn(st, cfg, roll)
    case SpeedOp(amount) => SpeedUp(st, amount)
    case ResetOp => Reset(st, cfg)
    case TickOp(running, roll) => Tick(st, cfg, running, roll)
  }

  function Run(st: SpawnerState, cfg: SpawnerConfig, ops: seq<Op>): SpawnerState
    decreases |ops|
  {
    if ops == [] then st else Run(Apply(st, cfg, ops[0]), cfg, ops[1..])
  }

  /** Whatever the game asks of the spawner, in whatever order, the number of
      active snowmen never exceeds `maxSnowmen` and no snowman is listed twice. */
  lemma {:induction false} RunKeepsInv(st: SpawnerState, cfg: SpawnerConfig, ops: seq<Op>)
    requires cfg.maxSnowmen >= 0 && Inv(st, cfg)
    ensures Inv(Run(st, cfg, ops), cfg)
    ensures |Run(st, cfg, ops).active| <= cfg.maxSnowmen
    decreases |ops|
  {
    if ops != [] {
      var next := Apply(st, cfg, ops[0]);
      assert Inv(next, cfg);
      RunKeepsInv(next, cfg, ops[1..]);
    }
  }

  /** The spawner object. */
  class SnowmanSpawner {
    const maxSnowmen: int
    const initialSpeed: real
    const area: Bounds
    const prefabHasController: bool

    var activeSnowmen: seq<Snowman>
    var currentGlobalSpeed: real
    var alive: set<nat>
    var nextId: nat

    function Config(): SpawnerConfig {
      SpawnerConfig(maxSnowmen, initialSpeed, area, prefabHasController)
    }

    function Snapshot(): SpawnerState
      reads this
    {
      SpawnerState(activeSnowmen, currentGlobalSpeed, alive, nextId)
    }

    ghost predicate Valid()
      reads this
    {
      maxSnowmen >= 0 && area.WellFormed() && Inv(Snapshot(), Config())
    }

    /** `Awake`: no snowman yet, the shared speed at `initialSpeed`. */
    constructor (maxSnowmen: int, initialSpeed: real, area: Bounds, prefabHasController: bool)
      requires maxSnowmen >= 0 && area.WellFormed()
      ensures Valid()
      ensures Config() == SpawnerConfig(maxSnowmen, initialSpeed, area, prefabHasController)
      ensures activeSnowmen == [] && currentGlobalSpeed == initialSpeed && alive == {}
    {
      this.maxSnowmen := maxSnowmen;
      this.initialSpeed := initialSpeed;
      this.area := area;
      this.prefabHasController := prefabHasController;
      activeSnowmen := [];
      currentGlobalSpeed := initialSpeed;
      alive := {};
      nextId := 0;
    }

    /** `Update`; `roll` is the spawn position the engine would draw. */
    method Update(running: bool, roll: Roll)
      requires Valid() && area.HasRoll(roll)
      modifies this
      ensures Valid()
      ensures Snapshot() == Tick(old(Snapshot()), Config(), running, roll)
    {
      if running && |activeSnowmen| == 0 {
        SpawnSnowman(roll);
      }
    }

    /** `SpawnSnowman`; `roll` is the drawn spawn position. */
    method SpawnSnowman(roll: Roll)
      requires Valid() && area.HasRoll(roll)
      modifies this
      ensures Valid()
      ensures Snapshot() == Spawn(old(Snapshot()), Config(), roll)
    {
      if |activeSnowmen| >= maxSnowmen {
        return;
      }
      var spawnPos := Vec3(roll.x, SpawnDepth, roll.z);
      var newSnowman := Snowman(nextId, spawnPos, None);
      alive := alive + {nextId};
      nextId := nextId + 1;
      if prefabHasController {
        newSnowman := newSnowman.(speed := Some(currentGlobalSpeed));
      }
      activeSnowmen := activeSnowmen + [newSnowman];
    }

    /** `IncreaseGlobalSpeed(amount)`: raise the shared speed, then push it to
        every active snowman, one at a time. */
    method IncreaseGlobalSpeed(amount: real)
      requires Valid()
      modifies this
      ensures Valid()
      ensures Snapshot() == SpeedUp(old(Snapshot()), amount)
    {
      currentGlobalSpeed := currentGlobalSpeed + amount;
      ghost var target := WithSpeed(activeSnowmen, currentGlobalSpeed);
      var i := 0;
      while i < |activeSnowmen|
        invariant 0 <= i <= |activeSnowmen| == |target|
        invariant forall k :: 0 <= k < i ==> activeSnowmen[k] == target[k]
        invariant forall k :: i <= k < |activeSnowmen| ==> activeSnowmen[k] == old(activeSnowmen)[k]
        invariant currentGlobalSpeed == old(currentGlobalSpeed) + amount
        invariant alive == old(alive) && nextId == old(nextId)
      {
        var snowman := activeSnowmen[i];
        if snowman.speed.Some? {
          activeSnowmen := activeSnowmen[i := snowman.(speed := Some(currentGlobalSpeed))];
        }
        i := i + 1;
      }
      assert activeSnowmen == target;
    }

    /** `ResetSpawner`: destroy every listed snowman, one at a time, then
        clear the list and restore the initial speed. */
    method ResetSpawner()
      requires Valid()
      modifies this
      ensures Valid()
      ensures Snapshot() == Reset(old(Snapshot()), Config())
    {
      var i := 0;
      while i < |activeSnowmen|
        invariant 0 <= i <= |activeSnowmen|
        invariant alive == old(alive) - Ids(activeSnowmen[..i])
        invariant activeSnowmen == old(activeSnowmen) && nextId == old(nextId)
        invariant currentGlobalSpeed == old(currentGlobalSpeed)
      {
        assert activeSnowmen[..i + 1][..i] == activeSnowmen[..i];
        alive := alive - {activeSnowmen[i].id};
        i := i + 1;
      }
      assert activeSnowmen[..i] == activeSnowmen;
      activeSnowmen := [];
      currentGlobalSpeed := initialSpeed;
    }
  }
}
