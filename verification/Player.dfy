/** The collector (`PlayerController`): a bounded LIFO stack of carried gifts,
    a movement speed derived from how full the stack is, and the arena clamp
    applied after every move. */
module Player {
  import opened Arena

  /** A gift object as the collector sees it. `pickable` is whether its
      collider is enabled (a carried gift's is not); `decaying` is whether it
      carries a `GiftDespawner` component (a carried gift does not). */
  datatype Gift = Gift(id: nat, pos: Vec3, pickable: bool, decaying: bool)

  /** What the collector's trigger touched (`OnTriggerEnter`): a gift, a
      snowman, or anything else. */
  datatype Contact = GiftContact(gift: Gift) | SnowmanContact | OtherContact

  /** Vertical offset of a dropped gift above the collector's position. */
  const DropLift := 0.5

  /** The speed factor `1 - 0.5 * count / capacity`: full speed when empty,
      half speed when full. */
  function SpeedFactor(count: int, capacity: int): (f: real)
    requires capacity > 0
    ensures 0 <= count <= capacity ==> 0.5 <= f <= 1.0
    ensures count == 0 ==> f == 1.0
    ensures count == capacity ==> f == 0.5
  {
    var fullness := (count as real) / (capacity as real);
    assert 0 <= count <= capacity ==> 0.0 <= fullness <= 1.0 by {
      if 0 <= count <= capacity {
        assert fullness * (capacity as real) == count as real;
      }
    }
    1.0 - 0.5 * fullness
  }

  /** Carrying more never makes the collector faster. */
  lemma SpeedFactorAntitone(c1: int, c2: int, capacity: int)
    requires capacity > 0 && c1 <= c2
    ensures SpeedFactor(c2, capacity) <= SpeedFactor(c1, capacity)
  {
    var k := capacity as real;
    assert (c2 as real) / k - (c1 as real) / k == ((c2 - c1) as real) / k;
    assert ((c2 - c1) as real) / k >= 0.0;
  }

  /** The outcome of handing gifts over: what stays on the stack and the count
      returned to the caller. */
  datatype Handover = Handover(remaining: seq<Gift>, given: int)

  /** `GiveGifts(neededAmount)` on a stack: `min(count, neededAmount)` gifts
      leave from the top. A negative request moves nothing and is returned
      as it is. */
  function Give(stack: seq<Gift>, needed: int): (r: Handover)
    ensures r.given <= needed && r.given <= |stack|
    ensures r.given == needed || r.given == |stack|
    ensures needed >= 0 ==> r.given >= 0 && |r.remaining| == |stack| - r.given
    ensures needed < 0 ==> r.given == needed && r.remaining == stack
    ensures r.remaining <= stack
  {
    var amount := Min(|stack|, needed);
    if amount > 0 then Handover(stack[..|stack| - amount], amount) else Handover(stack, amount)
  }

  /** Where one carried gift lands when the collector is hit: the collector's
      position plus a random offset, lifted by `DropLift`, clamped into the
      arena on x and z, with its collider back on and a despawner attached. */
  function DroppedGift(g: Gift, from: Vec3, offset: Roll, arena: Bounds): (d: Gift)
    ensures d.id == g.id && d.pickable && d.decaying
    ensures arena.WellFormed() ==> arena.Contains(d.pos.x, d.pos.z)
    ensures d.pos.y == from.y + DropLift
    ensures arena.Contains(from.x + offset.x, from.z + offset.z) ==>
              d.pos.x == from.x + offset.x && d.pos.z == from.z + offset.z
  {
    var p := ClampInto(arena, from.x + offset.x, from.z + offset.z);
    Gift(g.id, Vec3(p.x, from.y + DropLift, p.z), true, true)
  }

  /** Every carried gift, dropped around `from`, one random offset per gift. */
  function Scatter(stack: seq<Gift>, from: Vec3, offsets: seq<Roll>, arena: Bounds): (r: seq<Gift>)
    requires |offsets| == |stack|
    ensures |r| == |stack|
    ensures forall i :: 0 <= i < |r| ==> r[i].id == stack[i].id && r[i].pickable && r[i].decaying
    ensures arena.WellFormed() ==> forall i :: 0 <= i < |r| ==> arena.Contains(r[i].pos.x, r[i].pos.z)
  {
    seq(|stack|, i requires 0 <= i < |stack| => DroppedGift(stack[i], from, offsets[i], arena))
  }

  /** The collector. `stack` is `currentStack`, most recently collected gift last. */
  class Collector {
    const baseMoveSpeed: real
    const maxStackSize: int
    const arena: Bounds
    const fixedY: real

    var stack: seq<Gift>
    var currentSpeed: real
    var pos: Vec3

    ghost predicate Valid()
      reads this
    {
      && maxStackSize > 0
      && arena.WellFormed()
      && |stack| <= maxStackSize
      && currentSpeed == baseMoveSpeed * SpeedFactor(|stack|, maxStackSize)
    }

    /** The object with an empty stack, as after `Start` (which computes the
        initial speed). */
    constructor (baseMoveSpeed: real, maxStackSize: int, arena: Bounds, fixedY: real, start: Vec3)
      requires maxStackSize > 0 && arena.WellFormed()
      ensures Valid()
      ensures this.baseMoveSpeed == baseMoveSpeed && this.maxStackSize == maxStackSize
      ensures this.arena == arena && this.fixedY == fixedY
      ensures stack == [] && currentSpeed == baseMoveSpeed && pos == start
    {
      this.baseMoveSpeed := baseMoveSpeed;
      this.maxStackSize := maxStackSize;
      this.arena := arena;
      this.fixedY := fixedY;
      stack := [];
      pos := start;
      currentSpeed := baseMoveSpeed * SpeedFactor(0, maxStackSize);
    }

    /** `UpdateSpeedAndUI` without the UI: recompute the speed from the stack. */
    method UpdateSpeed()
      requires maxStackSize > 0
      modifies this`currentSpeed
      ensures currentSpeed == baseMoveSpeed * SpeedFactor(|stack|, maxStackSize)
    {
      var fullness := (|stack| as real) / (maxStackSize as real);
      var speedFactor := 1.0 - 0.5 * fullness;
      currentSpeed := baseMoveSpeed * speedFactor;
    }

    /** `Move` after the character controller has moved: `moved` is the
        engine's position; x and z are clamped, y is pinned to `fixedY`. */
    method Move(moved: Vec3)
      requires Valid()
      modifies this`pos
      ensures Valid()
      ensures pos == Vec3(Clamp(moved.x, arena.minX, arena.maxX), fixedY, Clamp(moved.z, arena.minZ, arena.maxZ))
      ensures arena.Contains(pos.x, pos.z) && pos.y == fixedY
      ensures arena.Contains(moved.x, moved.z) ==> pos.x == moved.x && pos.z == moved.z
    {
      var finalPos := moved;
      finalPos := finalPos.(x := Clamp(finalPos.x, arena.minX, arena.maxX));
      finalPos := finalPos.(z := Clamp(finalPos.z, arena.minZ, arena.maxZ));
      finalPos := finalPos.(y := fixedY);
      pos := finalPos;
    }

    /** `Update`: nothing moves while the game is not running. */
    method Update(running: bool, moved: Vec3)
      requires Valid()
      modifies this`pos
      ensures Valid()
      ensures !running ==> pos == old(pos)
      ensures running ==> pos == Vec3(Clamp(moved.x, arena.minX, arena.maxX), fixedY, Clamp(moved.z, arena.minZ, arena.maxZ))
      ensures running ==> arena.Contains(pos.x, pos.z) && pos.y == fixedY
    {
      if !running {
        return;
      }
      Move(moved);
    }

    /** `CollectGift`: the gift goes on top of the stack with its collider
        off and its despawner removed, so a carried gift never decays. */
    method CollectGift(g: Gift)
      requires Valid() && |stack| < maxStackSize
      modifies this`stack, this`currentSpeed
      ensures Valid()
      ensures stack == old(stack) + [g.(pickable := false, decaying := false)]
    {
      var held := g.(pickable := false);
      held := held.(decaying := false);
      stack := stack + [held];
      UpdateSpeed();
    }

    /** `DropAllGifts`: every carried gift is released around the collector
        (see `Scatter`) and the stack is left empty; nothing happens when the
        stack is already empty. `offsets` are the random scatter offsets, one
        per carried gift. */
    method DropAllGifts(offsets: seq<Roll>) returns (dropped: seq<Gift>)
      requires Valid() && |offsets| == |stack|
      modifies this`stack, this`currentSpeed
      ensures Valid()
      ensures stack == []
      ensures dropped == Scatter(old(stack), pos, offsets, arena)
    {
      dropped := [];
      if |stack| == 0 {
        return;
      }
      var i := 0;
      while i < |stack|
        invariant 0 <= i <= |stack|
        invariant dropped == Scatter(stack[..i], pos, offsets[..i], arena)
      {
        dropped := dropped + [DroppedGift(stack[i], pos, offsets[i], arena)];
        i := i + 1;
      }
      assert stack[..i] == stack && offsets[..i] == offsets;
      stack := [];
      UpdateSpeed();
    }

    /** `GiveGifts(neededAmount)`: removes gifts one at a time from the top
        (each is destroyed) and returns how many left; see `Give`. */
    method GiveGifts(neededAmount: int) returns (amountToGive: int)
      requires Valid()
      modifies this`stack, this`currentSpeed
      ensures Valid()
      ensures Handover(stack, amountToGive) == Give(old(stack), neededAmount)
    {
      amountToGive := Min(|stack|, neededAmount);
      ghost var before := stack;
      var i := 0;
      while i < amountToGive
        invariant 0 <= i <= if amountToGive < 0 then 0 else amountToGive
        invariant |stack| == |before| - i
        invariant stack == before[..|stack|]
      {
        var lastIndex := |stack| - 1;
        stack := stack[..lastIndex];
        i := i + 1;
      }
      assert amountToGive <= 0 ==> stack == before;
      UpdateSpeed();
    }

    /** `OnTriggerEnter`: a gift is collected only while the stack holds fewer
        than `maxStackSize` gifts; a snowman makes the collector drop
        everything. */
    method OnTriggerEnter(c: Contact, offsets: seq<Roll>) returns (collected: bool, dropped: seq<Gift>)
      requires Valid() && |offsets| == |stack|
      modifies this`stack, this`currentSpeed
      ensures Valid()
      ensures collected <==> c.GiftContact? && |old(stack)| < maxStackSize
      ensures collected ==> stack == old(stack) + [c.gift.(pickable := false, decaying := false)]
      ensures c.SnowmanContact? ==> stack == [] && dropped == Scatter(old(stack), pos, offsets, arena)
      ensures !collected && !c.SnowmanContact? ==> stack == old(stack) && dropped == []
    {
      collected, dropped := false, [];
      match c
      case GiftContact(g) =>
        if |stack| < maxStackSize {
          CollectGift(g);
          collected := true;
        }
      case SnowmanContact =>
        dropped := DropAllGifts(offsets);
      case OtherContact =>
    }
  }
}
