/** The gift spawner (`GiftSpawner`): every `spawnInterval` seconds of
    running game time one gift is placed at a random arena position, and the
    kind alternates A, B, A, B, ... starting with A. */
module GiftSpawning {
  import opened Arena
  import opened Optional

  datatype Kind = A | B

  /** A gift the spawner instantiated: its kind and where it was placed. */
  datatype SpawnedGift = SpawnedGift(kind: Kind, pos: Vec3)

  /** The kind the alternation flag `spawnNextTypeA` selects. */
  function KindFor(nextIsA: bool): Kind {
    if nextIsA then A else B
  }

  /** The kind of the `n`-th spawn attempt (counting from 0) of a spawner
      that starts with A. */
  function KindAt(n: nat): Kind {
    if n % 2 == 0 then A else B
  }

  /** The kinds chosen by `n` consecutive spawn attempts when the flag
      starts at `nextIsA`; the flag flips after each one. */
  function Emitted(nextIsA: bool, n: nat): seq<Kind>
    decreases n
  {
    if n == 0 then [] else [KindFor(nextIsA)] + Emitted(!nextIsA, n - 1)
  }

  /** Consecutive attempts alternate, whatever the flag starts at. */
  lemma {:induction false} EmittedAlternates(nextIsA: bool, n: nat)
    ensures |Emitted(nextIsA, n)| == n
    ensures forall i :: 0 <= i < n ==> Emitted(nextIsA, n)[i] == KindFor((i % 2 == 0) == nextIsA)
    decreases n
  {
    if n > 0 {
      EmittedAlternates(!nextIsA, n - 1);
      var tail := Emitted(!nextIsA, n - 1);
      forall i | 0 <= i < n
        ensures Emitted(nextIsA, n)[i] == KindFor((i % 2 == 0) == nextIsA)
      {
        if i > 0 {
          assert Emitted(nextIsA, n)[i] == tail[i - 1];
          assert ((i - 1) % 2 == 0) == !(i % 2 == 0);
        }
      }
    }
  }

  /** From a fresh spawner (flag at A) the `i`-th attempt picks `KindAt(i)`. */
  lemma FreshSpawnerAlternates(n: nat)
    ensures |Emitted(true, n)| == n
    ensures forall i :: 0 <= i < n ==> Emitted(true, n)[i] == KindAt(i)
  {
    EmittedAlternates(true, n);
  }

  /** The interval timer of `Update`: accumulate `dt`; fire once `spawnInterval`
      is reached, and then restart from 0. */
  function TimerStep(timer: real, dt: real, spawnInterval: real): (r: (real, bool))
    ensures r.1 <==> timer + dt >= spawnInterval
    ensures r.1 ==> r.0 == 0.0
    ensures !r.1 ==> r.0 == timer + dt && r.0 < spawnInterval
    ensures spawnInterval > 0.0 ==> 0.0 <= r.0 < spawnInterval || (!r.1 && r.0 < 0.0)
  {
    var accumulated := timer + dt;
    if accumulated >= spawnInterval then (0.0, true) else (accumulated, false)
  }

  /** The spawner object. `hasPrefabA`/`hasPrefabB` say whether each prefab
      slot is assigned; `attempts` counts the spawn attempts so far. */
  class GiftSpawner {
    const spawnInterval: real
    const spawnY: real
    const area: Bounds
    const hasPrefabA: bool
    const hasPrefabB: bool

    var timer: real
    var spawnNextTypeA: bool
    ghost var attempts: nat

    ghost predicate Valid()
      reads this
    {
      area.WellFormed() && spawnNextTypeA == (attempts % 2 == 0)
    }

    constructor (spawnInterval: real, spawnY: real, area: Bounds, hasPrefabA: bool, hasPrefabB: bool)
      requires area.WellFormed()
      ensures Valid()
      ensures this.spawnInterval == spawnInterval && this.spawnY == spawnY && this.area == area
      ensures this.hasPrefabA == hasPrefabA && this.hasPrefabB == hasPrefabB
      ensures timer == 0.0 && spawnNextTypeA && attempts == 0
    {
      this.spawnInterval := spawnInterval;
      this.spawnY := spawnY;
      this.area := area;
      this.hasPrefabA := hasPrefabA;
      this.hasPrefabB := hasPrefabB;
      timer := 0.0;
      spawnNextTypeA := true;
      attempts := 0;
    }

    /** `Update`: `dt` is the frame time and `roll` the random position a
        spawn this frame would use. Nothing advances while the game is not
        running. */
    method Update(running: bool, dt: real, roll: Roll) returns (spawned: Option<SpawnedGift>)
      requires Valid() && area.HasRoll(roll)
      modifies this
      ensures Valid()
      ensures !running ==> unchanged(this) && spawned == None
      ensures running ==> (timer, attempts == old(attempts) + 1) == TimerStep(old(timer), dt, spawnInterval)
      ensures running && attempts == old(attempts) + 1 ==>
                && (spawned.Some? <==> (if KindAt(old(attempts)) == A then hasPrefabA else hasPrefabB))
                && spawnNextTypeA == !old(spawnNextTypeA)
      ensures attempts == old(attempts) || attempts == old(attempts) + 1
      ensures attempts == old(attempts) ==> spawned == None && spawnNextTypeA == old(spawnNextTypeA)
      ensures spawned.Some? ==> spawned.value == SpawnedGift(KindAt(old(attempts)), Vec3(roll.x, spawnY, roll.z))
      ensures spawned.Some? ==> area.Contains(spawned.value.pos.x, spawned.value.pos.z)
    {
      spawned := None;
      if !running {
        return;
      }
      timer := timer + dt;
      if timer >= spawnInterval {
        spawned := SpawnAlternatingGift(roll);
        timer := 0.0;
      }
    }

    /** `SpawnAlternatingGift`: the flag picks the prefab; a missing prefab
        instantiates nothing, but the flag flips either way. */
    method SpawnAlternatingGift(roll: Roll) returns (spawned: Option<SpawnedGift>)
      requires Valid() && area.HasRoll(roll)
      modifies this`spawnNextTypeA, this`attempts
      ensures Valid()
      ensures attempts == old(attempts) + 1 && spawnNextTypeA == !old(spawnNextTypeA)
      ensures spawned.Some? <==> (if old(spawnNextTypeA) then hasPrefabA else hasPrefabB)
      ensures spawned.Some? ==> spawned.value == SpawnedGift(KindAt(old(attempts)), Vec3(roll.x, spawnY, roll.z))
    {
      var spawnPos := Vec3(roll.x, spawnY, roll.z);
      var prefabToSpawn := if spawnNextTypeA then hasPrefabA else hasPrefabB;
      spawned := None;
      if prefabToSpawn {
        spawned := Some(SpawnedGift(KindFor(spawnNextTypeA), spawnPos));
      }
      spawnNextTypeA := !spawnNextTypeA;
      attempts := attempts + 1;
    }
  }
}
