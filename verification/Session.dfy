/** The session controller (`GameManager`): the screen state machine
    Splash -> Menu -> Game -> Results, and the round, lives and best-round
    bookkeeping driven by each train's departure. */
module Session {
  import opened Arena
  import opened Optional
  import Snowmen

  datatype GameState = Splash | Menu | Game | Results

  /** What a departure asks of the snowman spawner. */
  datatype Request = NoRequest | SpawnOne | SpeedUp(amount: real)

  /** The last round whose start still adds a snowman; later rounds speed
      every snowman up instead. */
  const LastSpawnRound := 7
  /** The speed added to every snowman after a successful round past
      `LastSpawnRound`. */
  const SpeedStep := 1.0
  /** The best round read when nothing has been stored yet. */
  const DefaultBest := 1

  /** The session's fields: `state` is `CurrentState`, `best` is
      `highestRound`, `saved` is the stored "HighestRound" preference
      (`None` when nothing was ever stored). */
  datatype Session = Session(state: GameState, round: int, lives: int, best: int,
                             saved: Option<int>, paused: bool, timer: real)

  /** `IsGameRunning`. */
  predicate Running(s: Session) {
    s.state == Game
  }

  /** `ChangeState` without the panels: entering the splash screen restarts
      its timer. */
  function WithState(s: Session, to: GameState): (r: Session)
    ensures r.state == to
    ensures r.timer == (if to == Splash then 0.0 else s.timer)
    ensures r.(state := s.state, timer := s.timer) == s
  {
    if to == Splash then s.(state := to, timer := 0.0) else s.(state := to)
  }

  /** `TogglePause`. */
  function PauseToggled(s: Session): (r: Session)
    ensures r.paused != s.paused
    ensures r.(paused := s.paused) == s
  {
    s.(paused := !s.paused)
  }

  /** Pausing twice restores the session as it was. */
  lemma PauseToggledTwice(s: Session)
    ensures PauseToggled(PauseToggled(s)) == s
  {
  }

  /** `SkipSplash`: leaves the splash screen for the menu; anywhere else it
      does nothing. */
  function SplashSkipped(s: Session): (r: Session)
    ensures s.state == Splash ==> r == s.(state := Menu)
    ensures s.state != Splash ==> r == s
  {
    if s.state == Splash then WithState(s, Menu) else s
  }

  /** `StartGame`: full lives, round 1, unpaused, in the game. The best round
      and the stored preference are kept. */
  function NewGame(s: Session, maxLives: int): (r: Session)
    ensures Running(r) && r.round == 1 && r.lives == maxLives && !r.paused
    ensures r.best == s.best && r.saved == s.saved && r.timer == s.timer
  {
    WithState(s.(lives := maxLives, round := 1, paused := false), Game)
  }

  /** `Start`: the best round is read from the stored preference; then either
      straight into a game (after a restart) or onto the splash screen. */
  function Started(s: Session, restartDirectly: bool, maxLives: int): (r: Session)
    ensures r.best == s.saved.GetOr(DefaultBest) && r.saved == s.saved
    ensures restartDirectly ==> Running(r) && r.round == 1 && r.lives == maxLives
    ensures !restartDirectly ==> r.state == Splash && r.timer == 0.0
  {
    var loaded := s.(best := s.saved.GetOr(DefaultBest));
    if restartDirectly then NewGame(loaded, maxLives) else WithState(loaded, Splash)
  }

  /** `OnTrainDeparted(wasFull)`. Outside a game nothing happens. A full
      train advances the round by one, records a new best round (and stores
      it) when one is set, and asks for a snowman (up to `LastSpawnRound`) or
      for faster snowmen. An unfilled train costs a life and ends the game
      when none is left, without advancing the round. */
  function Departure(s: Session, wasFull: bool): (r: (Session, Request))
    ensures !Running(s) ==> r == (s, NoRequest)
    ensures Running(s) && wasFull ==>
              && r.0.round == s.round + 1 && r.0.lives == s.lives && Running(r.0)
              && r.0.best == Max(s.best, r.0.round)
              && r.1 == (if r.0.round <= LastSpawnRound then SpawnOne else SpeedUp(SpeedStep))
    ensures Running(s) && !wasFull ==>
              && r.0.lives == s.lives - 1 && r.0.round == s.round && r.0.best == s.best
              && r.1 == NoRequest
              && (r.0.state == Results <==> r.0.lives <= 0)
              && (Running(r.0) <==> r.0.lives > 0)
    ensures r.0.best >= s.best && r.0.paused == s.paused
    ensures r.0.saved != s.saved ==> r.0.best > s.best && r.0.saved == Some(r.0.best)
    ensures r.0.best > s.best ==> r.0.saved == Some(r.0.best)
  {
    if !Running(s) then (s, NoRequest)
    else if wasFull then
      var next := s.round + 1;
      var recorded := if next > s.best then s.(round := next, best := next, saved := Some(next))
                      else s.(round := next);
      (recorded, if next <= LastSpawnRound then SpawnOne else SpeedUp(SpeedStep))
    else
      var hurt := s.(lives := s.lives - 1);
      if hurt.lives <= 0 then (WithState(hurt, Results), NoRequest) else (hurt, NoRequest)
  }

  /** `Update`: on the splash screen the timer advances by `dt` and the splash
      ends once it reaches `splashDuration` or any input arrives; in the game
      the pause key toggles the pause. */
  function Tick(s: Session, splashDuration: real, dt: real, anyInput: bool, pausePressed: bool): (r: Session)
    ensures s.state == Splash ==>
              && r.timer == s.timer + dt
              && (r.state == Menu <==> s.timer + dt >= splashDuration || anyInput)
              && (r.state == Splash <==> !(s.timer + dt >= splashDuration || anyInput))
    ensures s.state != Splash ==> r.state == s.state && r.timer == s.timer
    ensures r.paused == (if s.state == Game && pausePressed then !s.paused else s.paused)
    ensures r.round == s.round && r.lives == s.lives && r.best == s.best && r.saved == s.saved
  {
    var afterSplash :=
      if s.state == Splash then
        var waited := s.(timer := s.timer + dt);
        if waited.timer >= splashDuration || anyInput then SplashSkipped(waited) else waited
      else s;
    if afterSplash.state == Game && pausePressed then PauseToggled(afterSplash) else afterSplash
  }

  /** What the spawner does with a departure's request: one spawn (a no-op
      at the cap), a speed increase for every snowman, or nothing. */
  function Serve(st: Snowmen.SpawnerState, cfg: Snowmen.SpawnerConfig, req: Request, roll: Roll): (r: Snowmen.SpawnerState)
    ensures req.NoRequest? ==> r == st
    ensures req.SpawnOne? ==>
              && |r.active| == (if |st.active| < cfg.maxSnowmen then |st.active| + 1 else |st.active|)
              && r.active[..|st.active|] == st.active && r.speed == st.speed
    ensures req.SpeedUp? ==> r.speed == st.speed + req.amount && |r.active| == |st.active|
    ensures Snowmen.Inv(st, cfg) ==> Snowmen.Inv(r, cfg)
  {
    match req
    case NoRequest => st
    case SpawnOne => Snowmen.Spawn(st, cfg, roll)
    case SpeedUp(amount) => Snowmen.SpeedUp(st, amount)
  }

  /** The session after a sequence of train departures. */
  function Play(s: Session, outcomes: seq<bool>): Session
    decreases |outcomes|
  {
    if outcomes == [] then s else Play(Departure(s, outcomes[0]).0, outcomes[1..])
  }

  /** The highest round the session passes through during those departures. */
  function PeakRound(s: Session, outcomes: seq<bool>): int
    decreases |outcomes|
  {
    if outcomes == [] then s.round else Max(s.round, PeakRound(Departure(s, outcomes[0]).0, outcomes[1..]))
  }

  /** The stored preference always holds the best round, once loaded. */
  ghost predicate Persisted(s: Session) {
    s.best == s.saved.GetOr(DefaultBest)
  }

  /** Over any sequence of departures the best round never decreases, stays
      stored, and ends as the highest round reached. */
  lemma {:induction false} PlayTracksBest(s: Session, outcomes: seq<bool>)
    requires s.round <= s.best
    ensures Play(s, outcomes).best >= s.best
    ensures Play(s, outcomes).best == Max(s.best, PeakRound(s, outcomes))
    ensures Play(s, outcomes).round <= Play(s, outcomes).best
    ensures Persisted(s) ==> Persisted(Play(s, outcomes))
    decreases |outcomes|
  {
    if outcomes != [] {
      var next := Departure(s, outcomes[0]).0;
      assert next.round <= next.best;
      PlayTracksBest(next, outcomes[1..]);
    }
  }

  function Misses(n: nat): (r: seq<bool>)
    ensures |r| == n && forall i :: 0 <= i < n ==> !r[i]
  {
    seq(n, _ => false)
  }

  function Fulls(n: nat): (r: seq<bool>)
    ensures |r| == n && forall i :: 0 <= i < n ==> r[i]
  {
    seq(n, _ => true)
  }

  /** With `lives` lives left, that many unfilled trains (or more) end the
      game with no life left and the round where it was. */
  lemma {:induction false} MissesEndGame(s: Session, n: nat)
    requires Running(s) && 1 <= s.lives <= n
    ensures Play(s, Misses(n)).state == Results
    ensures Play(s, Misses(n)).lives == 0 && Play(s, Misses(n)).round == s.round
    decreases n
  {
    var next := Departure(s, false).0;
    assert Misses(n)[1..] == Misses(n - 1);
    if s.lives == 1 {
      assert next.state == Results && next.lives == 0;
      AfterGameOver(next, Misses(n - 1));
    } else {
      MissesEndGame(next, n - 1);
    }
  }

  /** Once outside the game, departures change nothing. */
  lemma {:induction false} AfterGameOver(s: Session, outcomes: seq<bool>)
    requires !Running(s)
    ensures Play(s, outcomes) == s
    decreases |outcomes|
  {
    if outcomes != [] {
      AfterGameOver(s, outcomes[1..]);
    }
  }

  /** `n` filled trains in a row advance the round by exactly `n` and cost
      no life. */
  lemma {:induction false} FullsAdvanceRounds(s: Session, n: nat)
    requires Running(s)
    ensures Running(Play(s, Fulls(n)))
    ensures Play(s, Fulls(n)).round == s.round + n && Play(s, Fulls(n)).lives == s.lives
    decreases n
  {
    if n > 0 {
      assert Fulls(n)[1..] == Fulls(n - 1);
      FullsAdvanceRounds(Departure(s, true).0, n - 1);
    }
  }

  /** Three lives, three unfilled trains: the game is over. */
  lemma ThreeMissesAfterStart(s: Session)
    ensures Play(NewGame(s, 3), [false, false, false]).state == Results
    ensures Play(NewGame(s, 3), [false, false, false]).lives == 0
  {
    assert [false, false, false] == Misses(3);
    MissesEndGame(NewGame(s, 3), 3);
  }

  /** The game manager object. `spawner` is the snowman spawner instance it
      talks to, if there is one. */
  class GameManager {
    const maxLives: int
    const splashDuration: real
    const spawner: Snowmen.SnowmanSpawner?

    var currentState: GameState
    var currentRound: int
    var highestRound: int
    var currentLives: int
    var timer: real
    var isPaused: bool
    /** The stored "HighestRound" preference. */
    var savedHighestRound: Option<int>

    function Snapshot(): Session
      reads this
    {
      Session(currentState, currentRound, currentLives, highestRound, savedHighestRound, isPaused, timer)
    }

    ghost predicate Valid()
      reads this, spawner
    {
      spawner != null ==> spawner.Valid()
    }

    /** The object as the engine creates it, before `Start`; `saved` is what
        the preference store holds. */
    constructor (maxLives: int, splashDuration: real, spawner: Snowmen.SnowmanSpawner?, saved: Option<int>)
      requires spawner != null ==> spawner.Valid()
      ensures Valid()
      ensures this.maxLives == maxLives && this.splashDuration == splashDuration && this.spawner == spawner
      ensures Snapshot() == Session(Splash, 0, 0, 0, saved, false, 0.0)
    {
      this.maxLives := maxLives;
      this.splashDuration := splashDuration;
      this.spawner := spawner;
      currentState := Splash;
      currentRound, highestRound, currentLives := 0, 0, 0;
      timer := 0.0;
      isPaused := false;
      savedHighestRound := saved;
    }

    function IsGameRunning(): (b: bool)
      reads this
      ensures b <==> Running(Snapshot())
    {
      currentState == Game
    }

    /** `Start`. */
    method Start(restartDirectly: bool)
      requires Valid()
      modifies this, spawner
      ensures Valid()
      ensures Snapshot() == Started(old(Snapshot()), restartDirectly, maxLives)
      ensures spawner != null ==>
                spawner.Snapshot() == if restartDirectly then Snowmen.Reset(old(spawner.Snapshot()), spawner.Config())
                                      else old(spawner.Snapshot())
    {
      highestRound := savedHighestRound.GetOr(DefaultBest);
      if restartDirectly {
        StartGame();
      } else {
        ChangeState(Splash);
      }
    }

    /** `ChangeState` without the panels and the music. */
    method ChangeState(newState: GameState)
      modifies this`currentState, this`timer
      ensures Snapshot() == WithState(old(Snapshot()), newState)
    {
      currentState := newState;
      if newState == Splash {
        timer := 0.0;
      }
    }

    method TogglePause()
      modifies this`isPaused
      ensures Snapshot() == PauseToggled(old(Snapshot()))
    {
      isPaused := !isPaused;
    }

    method SkipSplash()
      modifies this`currentState, this`timer
      ensures Snapshot() == SplashSkipped(old(Snapshot()))
    {
      if currentState == Splash {
        ChangeState(Menu);
      }
    }

    /** `Update`: `dt` is the frame time, `anyInput` whether a click, key or
        gamepad button came this frame, `pausePressed` whether it was P. */
    method Update(dt: real, anyInput: bool, pausePressed: bool)
      modifies this`currentState, this`timer, this`isPaused
      ensures Snapshot() == Tick(old(Snapshot()), splashDuration, dt, anyInput, pausePressed)
    {
      if currentState == Splash {
        timer := timer + dt;
        var inputDetected := anyInput;
        if timer >= splashDuration || inputDetected {
          SkipSplash();
        }
      }
      if currentState == Game {
        if pausePressed {
          TogglePause();
        }
      }
    }

    /** `StartGame`: also resets the snowman spawner, speed included. */
    method StartGame()
      requires Valid()
      modifies this, spawner
      ensures Valid()
      ensures Snapshot() == NewGame(old(Snapshot()), maxLives)
      ensures spawner != null ==> spawner.Snapshot() == Snowmen.Reset(old(spawner.Snapshot()), spawner.Config())
    {
      currentLives := maxLives;
      currentRound := 1;
      isPaused := false;
      if spawner != null {
        spawner.ResetSpawner();
      }
      ChangeState(Game);
    }

    method TriggerGameOver()
      modifies this`currentState, this`timer
      ensures Snapshot() == WithState(old(Snapshot()), Results)
    {
      ChangeState(Results);
    }

    /** `OnTrainDeparted(wasFull)`; `roll` is the position a requested
        snowman would spawn at. */
    method OnTrainDeparted(wasFull: bool, roll: Roll)
      requires Valid() && (spawner != null ==> spawner.area.HasRoll(roll))
      modifies this, spawner
      ensures Valid()
      ensures Snapshot() == Departure(old(Snapshot()), wasFull).0
      ensures spawner != null ==>
                spawner.Snapshot() == Serve(old(spawner.Snapshot()), spawner.Config(), Departure(old(Snapshot()), wasFull).1, roll)
    {
      if currentState != Game {
        return;
      }
      if wasFull {
        currentRound := currentRound + 1;
        if currentRound > highestRound {
          highestRound := currentRound;
          savedHighestRound := Some(highestRound);
        }
        if spawner != null {
          if currentRound <= LastSpawnRound {
            spawner.SpawnSnowman(roll);
          } else {
            spawner.IncreaseGlobalSpeed(SpeedStep);
          }
        }
      } else {
        currentLives := currentLives - 1;
        if currentLives <= 0 {
          TriggerGameOver();
          return;
        }
      }
    }
  }
}
