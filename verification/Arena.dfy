/** Shared geometry of the play field: positions, the rectangular arena on the
    ground plane, and the clamp every movable entity goes through. Unity's
    single-precision floats are modelled as reals. */
module Arena {

  /** A world position (x across, y up, z depth). */
  datatype Vec3 = Vec3(x: real, y: real, z: real)

  /** A random ground-plane pick, as drawn by `Random.Range(minX, maxX)` and
      `Random.Range(minZ, maxZ)`; the engine's generator is not modelled, only
      the range it draws from. */
  datatype Roll = Roll(x: real, z: real)

  /** The axis-aligned rectangle `[minX, maxX] x [minZ, maxZ]` on the ground plane. */
  datatype Bounds = Bounds(minX: real, maxX: real, minZ: real, maxZ: real) {

    predicate WellFormed() {
      minX <= maxX && minZ <= maxZ
    }

    predicate Contains(x: real, z: real) {
      minX <= x <= maxX && minZ <= z <= maxZ
    }

    predicate HasRoll(r: Roll) {
      Contains(r.x, r.z)
    }
  }

  /** The default arena used by the player, the gift spawner and the snowman
      spawner alike. */
  const DefaultArena := Bounds(-30.0, 30.0, -13.0, 9.0)

  /** `Mathf.Min` on integers. */
  function Min(a: int, b: int): (r: int)
    ensures r <= a && r <= b
    ensures r == a || r == b
  {
    if a < b then a else b
  }

  function Max(a: int, b: int): int {
    if a < b then b else a
  }

  function MinReal(a: real, b: real): real {
    if a < b then a else b
  }

  function MaxReal(a: real, b: real): real {
    if a < b then b else a
  }

  function Abs(v: real): real {
    if v < 0.0 then -v else v
  }

  /** `Mathf.Clamp`: `lo` below the range, `hi` above it, `v` itself inside it. */
  function Clamp(v: real, lo: real, hi: real): (r: real)
    ensures lo <= hi ==> lo <= r <= hi
    ensures lo <= v <= hi ==> r == v
    ensures lo <= hi ==> (r == v || (v < lo && r == lo) || (hi < v && r == hi))
  {
    if v < lo then lo else if v > hi then hi else v
  }

  /** A clamped point lies in the arena, whatever point was clamped. */
  function ClampInto(b: Bounds, x: real, z: real): (r: Roll)
    ensures b.WellFormed() ==> b.HasRoll(r)
    ensures b.Contains(x, z) ==> r == Roll(x, z)
  {
    Roll(Clamp(x, b.minX, b.maxX), Clamp(z, b.minZ, b.maxZ))
  }

  /** Clamping is idempotent: a clamped point is not moved by a second clamp. */
  lemma ClampIdempotent(b: Bounds, x: real, z: real)
    requires b.WellFormed()
    ensures ClampInto(b, ClampInto(b, x, z).x, ClampInto(b, x, z).z) == ClampInto(b, x, z)
  {
    var r := ClampInto(b, x, z);
    assert b.Contains(r.x, r.z);
  }
}
