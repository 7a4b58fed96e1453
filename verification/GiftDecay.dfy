/** Gift decay (`GiftDespawner`): a gift on the ground ages with running game
    time, is destroyed when its lifetime is used up, and in its last
    `startBlinkingAt` seconds blinks, faster and faster as the end nears. */
module GiftDecay {
  import opened Arena

  datatype DecayConfig = DecayConfig(lifetime: real, startBlinkingAt: real,
                                     slowBlinkInterval: real, fastBlinkInterval: real)

  /** The despawner's fields, plus `alive`: false once the gift object has
      been destroyed. */
  datatype DecayState = DecayState(age: real, blinkTimer: real, visible: bool, alive: bool)

  /** `Mathf.Clamp01`. */
  function Clamp01(t: real): (u: real)
    ensures 0.0 <= u <= 1.0
    ensures 0.0 <= t <= 1.0 ==> u == t
    ensures t <= 0.0 ==> u == 0.0
    ensures t >= 1.0 ==> u == 1.0
  {
    if t < 0.0 then 0.0 else if t > 1.0 then 1.0 else t
  }

  /** `d` scaled by a fraction in [0, 1] lies between 0 and `d`. */
  function Scaled(d: real, u: real): (s: real)
    requires 0.0 <= u <= 1.0
    ensures d >= 0.0 ==> 0.0 <= s <= d
    ensures d < 0.0 ==> d <= s <= 0.0
    ensures u == 0.0 ==> s == 0.0
    ensures u == 1.0 ==> s == d
  {
    NonNegativeProduct(if d >= 0.0 then d else -d, u);
    NonNegativeProduct(if d >= 0.0 then d else -d, 1.0 - u);
    d * u
  }

  lemma NonNegativeProduct(x: real, y: real)
    requires x >= 0.0 && y >= 0.0
    ensures x * y >= 0.0
  {
  }

  /** `Mathf.Lerp`: from `a` at 0 to `b` at 1, the parameter clamped to [0, 1]. */
  function Lerp(a: real, b: real, t: real): (r: real)
    ensures MinReal(a, b) <= r <= MaxReal(a, b)
    ensures t <= 0.0 ==> r == a
    ensures t >= 1.0 ==> r == b
  {
    a + Scaled(b - a, Clamp01(t))
  }

  /** The blink interval in `HandleBlinking`: from `slowBlinkInterval` when
      blinking starts to `fastBlinkInterval` at the end of life, by the
      fraction of the blinking period still remaining. */
  function BlinkInterval(remaining: real, cfg: DecayConfig): (r: real)
    requires 0.0 < remaining <= cfg.startBlinkingAt
    ensures MinReal(cfg.fastBlinkInterval, cfg.slowBlinkInterval) <= r <= MaxReal(cfg.fastBlinkInterval, cfg.slowBlinkInterval)
    ensures remaining == cfg.startBlinkingAt ==> r == cfg.slowBlinkInterval
  {
    var progress := remaining / cfg.startBlinkingAt;
    Lerp(cfg.fastBlinkInterval, cfg.slowBlinkInterval, progress)
  }

  /** With the usual settings (fast interval no longer than the slow one) the
      blinking only speeds up as the end approaches. */
  lemma BlinkIntervalShrinks(r1: real, r2: real, cfg: DecayConfig)
    requires 0.0 < r1 <= r2 <= cfg.startBlinkingAt
    requires cfg.fastBlinkInterval <= cfg.slowBlinkInterval
    ensures BlinkInterval(r1, cfg) <= BlinkInterval(r2, cfg)
  {
    var k := cfg.startBlinkingAt;
    var p1, p2 := r1 / k, r2 / k;
    FractionsOrdered(r1, r2, k);
    var d := cfg.slowBlinkInterval - cfg.fastBlinkInterval;
    NonNegativeProduct(d, p2 - p1);
    assert d * p2 - d * p1 == d * (p2 - p1);
  }

  lemma FractionsOrdered(r1: real, r2: real, k: real)
    requires 0.0 < r1 <= r2 <= k
    ensures 0.0 <= r1 / k <= r2 / k <= 1.0
  {
    assert r2 / k - r1 / k == (r2 - r1) / k;
  }

  /** The blinking step: the blink timer accumulates `dt`; once it reaches
      `interval` the visibility flips and the timer restarts from 0. */
  function Blink(s: DecayState, dt: real, interval: real): (r: DecayState)
    ensures r.age == s.age && r.alive == s.alive
    ensures s.blinkTimer + dt >= interval ==> r.visible == !s.visible && r.blinkTimer == 0.0
    ensures s.blinkTimer + dt < interval ==> r.visible == s.visible && r.blinkTimer == s.blinkTimer + dt
  {
    var accumulated := s.blinkTimer + dt;
    if accumulated >= interval then s.(visible := !s.visible, blinkTimer := 0.0)
    else s.(blinkTimer := accumulated)
  }

  /** One running frame of `Update` on a live gift: age by `dt`; destroy it
      when no time remains (visible or not, and without blinking); otherwise
      blink only within the last `startBlinkingAt` seconds. */
  function DecayTick(s: DecayState, cfg: DecayConfig, dt: real): (r: DecayState)
    requires s.alive
    ensures r.age == s.age + dt
    ensures !r.alive <==> cfg.lifetime - r.age <= 0.0
    ensures !r.alive ==> r.blinkTimer == s.blinkTimer && r.visible == s.visible
    ensures r.alive && !(cfg.lifetime - r.age <= cfg.startBlinkingAt) ==> r == s.(age := r.age)
    ensures r.alive && cfg.lifetime - r.age <= cfg.startBlinkingAt ==>
              r == Blink(s.(age := r.age), dt, BlinkInterval(cfg.lifetime - r.age, cfg))
    ensures r.visible != s.visible ==> 0.0 < cfg.lifetime - r.age <= cfg.startBlinkingAt
  {
    var aged := s.(age := s.age + dt);
    var remainingTime := cfg.lifetime - aged.age;
    if remainingTime <= 0.0 then aged.(alive := false)
    else if remainingTime <= cfg.startBlinkingAt then Blink(aged, dt, BlinkInterval(remainingTime, cfg))
    else aged
  }

  function Sum(dts: seq<real>): real
    decreases |dts|
  {
    if dts == [] then 0.0 else dts[0] + Sum(dts[1..])
  }

  lemma {:induction false} SumNonNegative(dts: seq<real>)
    requires forall i :: 0 <= i < |dts| ==> dts[i] >= 0.0
    ensures Sum(dts) >= 0.0
    decreases |dts|
  {
    if dts != [] {
      SumNonNegative(dts[1..]);
    }
  }

  /** A gift after a sequence of running frames; a destroyed gift is no
      longer updated. */
  function Run(s: DecayState, cfg: DecayConfig, dts: seq<real>): DecayState
    decreases |dts|
  {
    if dts == [] || !s.alive then s else Run(DecayTick(s, cfg, dts[0]), cfg, dts[1..])
  }

  /** A gift with time left survives a sequence of frames exactly when those
      frames add up to less than the time it had left. */
  lemma {:induction false} ExpiresOnTime(s: DecayState, cfg: DecayConfig, dts: seq<real>)
    requires s.alive && s.age < cfg.lifetime
    requires forall i :: 0 <= i < |dts| ==> dts[i] >= 0.0
    ensures Run(s, cfg, dts).alive <==> s.age + Sum(dts) < cfg.lifetime
    decreases |dts|
  {
    if dts != [] {
      var next := DecayTick(s, cfg, dts[0]);
      if next.alive {
        ExpiresOnTime(next, cfg, dts[1..]);
      } else {
        SumNonNegative(dts[1..]);
        assert Run(next, cfg, dts[1..]) == next;
      }
    }
  }

  /** The despawner object. `alive` is false once `Destroy(gameObject)` ran. */
  class GiftDespawner {
    const lifetime: real
    const startBlinkingAt: real
    const slowBlinkInterval: real
    const fastBlinkInterval: real

    var age: real
    var blinkTimer: real
    var isVisible: bool
    var alive: bool

    function Config(): DecayConfig {
      DecayConfig(lifetime, startBlinkingAt, slowBlinkInterval, fastBlinkInterval)
    }

    function Snapshot(): DecayState
      reads this
    {
      DecayState(age, blinkTimer, isVisible, alive)
    }

    /** A fresh despawner, as attached to a new or a dropped gift. */
    constructor (lifetime: real, startBlinkingAt: real, slowBlinkInterval: real, fastBlinkInterval: real)
      ensures Config() == DecayConfig(lifetime, startBlinkingAt, slowBlinkInterval, fastBlinkInterval)
      ensures Snapshot() == DecayState(0.0, 0.0, true, true)
    {
      this.lifetime := lifetime;
      this.startBlinkingAt := startBlinkingAt;
      this.slowBlinkInterval := slowBlinkInterval;
      this.fastBlinkInterval := fastBlinkInterval;
      age, blinkTimer := 0.0, 0.0;
      isVisible, alive := true, true;
    }

    /** `Update`; the engine calls it only on a gift that still exists. */
    method Update(running: bool, dt: real)
      requires alive
      modifies this
      ensures !running ==> unchanged(this)
      ensures running ==> Snapshot() == DecayTick(old(Snapshot()), Config(), dt)
    {
      if !running {
        return;
      }
      age := age + dt;
      var remainingTime := lifetime - age;
      if remainingTime <= 0.0 {
        alive := false;
        return;
      }
      if remainingTime <= startBlinkingAt {
        HandleBlinking(remainingTime, dt);
      }
    }

    method HandleBlinking(remainingTime: real, dt: real)
      requires 0.0 < remainingTime <= startBlinkingAt
      modifies this`blinkTimer, this`isVisible
      ensures Snapshot() == Blink(old(Snapshot()), dt, BlinkInterval(remainingTime, Config()))
    {
      var progress := remainingTime / startBlinkingAt;
      var currentInterval := Lerp(fastBlinkInterval, slowBlinkInterval, progress);
      blinkTimer := blinkTimer + dt;
      if blinkTimer >= currentInterval {
        ToggleVisuals();
        blinkTimer := 0.0;
      }
    }

    /** `ToggleVisuals`, without the renderers it switches. */
    method ToggleVisuals()
      modifies this`isVisible
      ensures isVisible == !old(isVisible)
    {
      isVisible := !isVisible;
    }
  }
}
