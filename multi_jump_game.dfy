/**
 * The "game" scene of js/main.js, the multi-jump variant. Its spawner has no
 * kong and no check for live entities of the same tag, and eating food turns
 * on multi-jump for seven seconds.
 */
module MultiJumpGame {
  import opened Rules

  /** One row of the spawner's guard table: may `tag` be picked for draw `r`? */
  predicate Eligible(tag: Tag, score: nat, r: real, isUpsideDown: bool, isDark: bool) {
    match tag
    case Bolt => score > 4000 && r > 0.95 && !isUpsideDown && !isDark
    case Food => score > 2000 && r > 0.92
    case Kong => false
    case Tree => true
  }

  /**
   * The tag spawnItem picks for the random draw `r`: the first eligible tag
   * in the order bolt, food, tree. It is never a kong, never a bolt while
   * upside down or dark, does not depend on what is live, and a draw of at
   * most 0.92 always gives a tree.
   */
  function ChooseItem(score: nat, r: real, isUpsideDown: bool, isDark: bool): (t: Tag)
    ensures Eligible(t, score, r, isUpsideDown, isDark)
    ensures Priority(t) > Priority(Bolt) ==> !Eligible(Bolt, score, r, isUpsideDown, isDark)
    ensures Priority(t) > Priority(Food) ==> !Eligible(Food, score, r, isUpsideDown, isDark)
    ensures t != Kong
    ensures t == Bolt ==> !isUpsideDown && !isDark && score > 4000
    ensures t == Food ==> score > 2000
    ensures r <= 0.92 ==> t == Tree
  {
    if score > 4000 && r > 0.95 && !isUpsideDown && !isDark then Bolt
    else if score > 2000 && r > 0.92 then Food
    else Tree
  }

  /** The timer callbacks still to come. */
  datatype Pending = Pending(
    spawn: bool,    // the spawner's next wait(rand(1, 2), spawnItem)
    flipEnds: nat,  // wait(rand(8, 15), …) callbacks that end upside-down mode
    jumpEnds: nat,  // wait(7, …) callbacks that turn multi-jump off
    onsets: nat)    // wait(2, …) callbacks that follow a "night is falling" banner

  /** The scene state as a value: what one handler call may change. */
  datatype State = State(
    score: nat,
    boosts: nat,
    isGameOver: bool,
    isDark: bool,
    isUpsideDown: bool,
    multiJumpEnabled: bool,
    highScore: nat,
    scenery: Scenery,
    items: Census,
    pending: Pending)

  /**
   * The run invariant: the scenery settled for the orientation, with one
   * pending flip-back exactly while upside down; no bolt while upside down;
   * never dark and upside down at once; never a kong; multi-jump on only
   * while a timer to turn it off is pending; one boost per thousand points
   * and the spawner scheduled while the run lasts; after game over never
   * dark and the high score at least the final score.
   */
  ghost predicate Inv(s: State) {
    && Settled(s.scenery, s.isUpsideDown)
    && s.pending.flipEnds == (if s.isUpsideDown then 1 else 0)
    && (s.isUpsideDown ==> s.items.Count(Bolt) == 0)
    && !(s.isDark && s.isUpsideDown)
    && s.items.Count(Kong) == 0
    && (s.multiJumpEnabled ==> s.pending.jumpEnds > 0)
    && s.boosts >= Thousands(s.score)
    && (!s.isGameOver ==> s.boosts == Thousands(s.score) && s.pending.spawn)
    && (s.isGameOver ==> !s.isDark && s.score <= s.highScore)
  }

  /*
   * The handlers as transitions of the scene state. Each method of Run below
   * is proved to move its snapshot along exactly one of these.
   */

  /**
   * spawnItem(): after game over nothing is added and the spawner is not
   * rescheduled; otherwise one item of the tag ChooseItem picks is added and
   * the next call is scheduled.
   */
  function Spawned(s: State, r: real): State {
    if s.isGameOver then s.(pending := s.pending.(spawn := false))
    else s.(items := s.items.Add(ChooseItem(s.score, r, s.isUpsideDown, s.isDark)),
            pending := s.pending.(spawn := true))
  }

  /** The tree collision: game over, darkness and post-effect cleared, the better score kept. */
  function TreeHit(s: State): State {
    s.(isGameOver := true, isDark := false, scenery := s.scenery.(effect := Plain),
       highScore := Max(s.highScore, s.score))
  }

  /** The food collision: that food is destroyed, multi-jump is on and its 7-second timer starts. */
  function FoodEaten(s: State): State {
    s.(items := s.items.Remove(Food), multiJumpEnabled := true,
       pending := s.pending.(jumpEnds := s.pending.jumpEnds + 1))
  }

  /** A multi-jump timer: multi-jump is off, whatever other timers are still pending. */
  function MultiJumpEnded(s: State): State
    requires s.pending.jumpEnds > 0
  {
    s.(multiJumpEnabled := false, pending := s.pending.(jumpEnds := s.pending.jumpEnds - 1))
  }

  /**
   * The bolt collision: the bolt is destroyed; in the dark nothing else
   * happens. Otherwise destroyAll runs on food, bolt and tree (nothing is
   * left, as no kong is ever live; see DestroyAllButKong), the scenery turns
   * over and the flip-back timer is started.
   */
  function BoltHit(s: State): State {
    if s.isDark then s.(items := s.items.Remove(Bolt))
    else s.(items := Empty, scenery := TurnOver(s.scenery), isUpsideDown := true,
            pending := s.pending.(flipEnds := s.pending.flipEnds + 1))
  }

  /** The flip-back timer: every item is destroyed and the scenery turns back. */
  function FlippedBack(s: State): State
    requires s.pending.flipEnds > 0
  {
    s.(pending := s.pending.(flipEnds := s.pending.flipEnds - 1), items := Empty,
       scenery := TurnBack(s.scenery), isUpsideDown := false)
  }

  /**
   * The 10-second night check with draw `r`: when night falls the onset is
   * scheduled; otherwise, unless upside down, it is day again.
   */
  function NightChecked(s: State, r: real): State {
    if NightFalls(s.isGameOver, s.isDark, s.isUpsideDown, s.score, r) then
      s.(pending := s.pending.(onsets := s.pending.onsets + 1))
    else if !s.isUpsideDown then s.(scenery := s.scenery.(effect := Plain), isDark := false)
    else s
  }

  /** The onset, two seconds after the banner: dark only if still running and not upside down. */
  function NightBegun(s: State): State
    requires s.pending.onsets > 0
  {
    s.(pending := s.pending.(onsets := s.pending.onsets - 1),
       isDark := if !s.isGameOver && !s.isUpsideDown then true else s.isDark)
  }

  /**
   * One frame: a point more unless the run is over; a boost whenever the
   * resulting score is a multiple of 1000; the light effect in the dark.
   */
  function Ticked(s: State): State {
    var score := if s.isGameOver then s.score else s.score + 1;
    s.(score := score, boosts := if score % 1000 == 0 then s.boosts + 1 else s.boosts,
       scenery := if s.isDark then s.scenery.(effect := Light) else s.scenery)
  }

  /** Does the frame from `s` play the new-high-score celebration? */
  predicate Celebrates(s: State) {
    !s.isGameOver && s.highScore != 0 && s.score + 1 == s.highScore + 1
  }

  /** The engine destroys an item of `tag` that has left the screen. */
  function WentOffscreen(s: State, tag: Tag): State {
    s.(items := s.items.Remove(tag))
  }

  /*
   * Every transition keeps the run invariant, given what the host
   * guarantees: a collision involves a live entity, a timer fires only
   * while pending.
   */

  lemma SpawnedKeepsInv(s: State, r: real)
    requires Inv(s) && s.pending.spawn
    ensures Inv(Spawned(s, r))
  {
  }

  lemma TreeHitKeepsInv(s: State)
    requires Inv(s)
    ensures Inv(TreeHit(s))
  {
  }

  lemma FoodEatenKeepsInv(s: State)
    requires Inv(s)
    ensures Inv(FoodEaten(s))
  {
  }

  lemma MultiJumpEndedKeepsInv(s: State)
    requires Inv(s) && s.pending.jumpEnds > 0
    ensures Inv(MultiJumpEnded(s))
  {
  }

  lemma BoltHitKeepsInv(s: State)
    requires Inv(s) && s.items.Count(Bolt) > 0
    ensures Inv(BoltHit(s))
  {
  }

  lemma FlippedBackKeepsInv(s: State)
    requires Inv(s) && s.pending.flipEnds > 0
    ensures Inv(FlippedBack(s))
  {
  }

  lemma NightCheckedKeepsInv(s: State, r: real)
    requires Inv(s)
    ensures Inv(NightChecked(s, r))
  {
  }

  lemma NightBegunKeepsInv(s: State)
    requires Inv(s) && s.pending.onsets > 0
    ensures Inv(NightBegun(s))
  {
  }

  lemma TickedKeepsInv(s: State)
    requires Inv(s)
    ensures Inv(Ticked(s))
  {
    ThousandsStep(s.score);
  }

  lemma WentOffscreenKeepsInv(s: State, tag: Tag)
    requires Inv(s)
    ensures Inv(WentOffscreen(s, tag))
  {
  }

  /*
   * What the transitions promise.
   */

  /**
   * A spawn adds exactly one entity, of the chosen tag and never a kong,
   * while the run lasts, and after game over adds none and stops the
   * spawner.
   */
  lemma SpawnAddsExactlyOne(s: State, r: real)
    ensures !s.isGameOver ==>
      var t := ChooseItem(s.score, r, s.isUpsideDown, s.isDark);
      && Total(Spawned(s, r).items) == Total(s.items) + 1
      && Spawned(s, r).items.Count(t) == s.items.Count(t) + 1
      && Spawned(s, r).items.Count(Kong) == s.items.Count(Kong)
      && Spawned(s, r).pending.spawn
    ensures s.isGameOver ==> Spawned(s, r).items == s.items && !Spawned(s, r).pending.spawn
  {
  }

  /**
   * With no live-entity check, a draw that passes the food guard always adds
   * a food, however many are already live.
   */
  lemma FoodSpawnIgnoresLive(s: State, r: real)
    requires !s.isGameOver && s.score > 2000 && r > 0.92
    requires !Eligible(Bolt, s.score, r, s.isUpsideDown, s.isDark)
    ensures Spawned(s, r).items.Count(Food) == s.items.Count(Food) + 1
  {
  }

  /**
   * In particular a spawn can add a second food: one live food, a score
   * above 2000 and a draw of 0.93 give two.
   */
  lemma SecondFoodPossible(s: State)
    requires !s.isGameOver && s.score == 3000 && s.items.Count(Food) == 1
    ensures Spawned(s, 0.93).items.Count(Food) == 2
  {
    FoodSpawnIgnoresLive(s, 0.93);
  }

  /**
   * Two foods eaten in a row, then the first pickup's timer fires:
   * multi-jump is off although the second pickup's timer is still pending,
   * so the later window is cut short.
   */
  lemma EarlierTimerEndsLaterWindow(s: State)
    requires s.items.Count(Food) >= 2
    ensures FoodEaten(FoodEaten(s)).pending.jumpEnds > 0
    ensures !MultiJumpEnded(FoodEaten(FoodEaten(s))).multiJumpEnabled
    ensures MultiJumpEnded(FoodEaten(FoodEaten(s))).pending.jumpEnds == s.pending.jumpEnds + 1
  {
  }

  /**
   * A bolt hit in daylight followed by its flip-back leaves the run as it
   * was, except that every item is gone and the picture is plain.
   */
  lemma BoltThenFlipBack(s: State)
    requires Inv(s) && s.items.Count(Bolt) > 0 && !s.isDark
    ensures BoltHit(s).pending.flipEnds > 0
    ensures FlippedBack(BoltHit(s)) == s.(items := Empty, scenery := s.scenery.(effect := Plain))
  {
    TurnOverAndBack(s.scenery);
  }

  /** In every reachable state there is exactly one floor, at the top iff upside down. */
  lemma ExactlyOneFloor(s: State)
    requires Inv(s)
    ensures s.scenery.bottomFloors + s.scenery.topFloors == 1
    ensures s.scenery.topFloors == 1 <==> s.isUpsideDown
  {
  }

  /**
   * The night check schedules an onset exactly when all five conditions
   * hold; without one, it clears the darkness unless upside down, and
   * upside down it changes nothing.
   */
  lemma NightCheckGuards(s: State, r: real)
    ensures NightChecked(s, r).pending.onsets == s.pending.onsets + 1
            <==> NightFalls(s.isGameOver, s.isDark, s.isUpsideDown, s.score, r)
    ensures !NightFalls(s.isGameOver, s.isDark, s.isUpsideDown, s.score, r) && !s.isUpsideDown ==>
              !NightChecked(s, r).isDark
    ensures !NightFalls(s.isGameOver, s.isDark, s.isUpsideDown, s.score, r) && s.isUpsideDown ==>
              NightChecked(s, r) == s
  {
  }

  /** `n` frames in a row. */
  function Frames(s: State, n: nat): State {
    if n == 0 then s else Ticked(Frames(s, n - 1))
  }

  /**
   * While the run lasts, `n` frames add `n` points, and the boosts keep
   * counting the thousands reached.
   */
  lemma {:induction false} FramesWhileRunning(s: State, n: nat)
    requires !s.isGameOver && s.boosts == Thousands(s.score)
    ensures !Frames(s, n).isGameOver
    ensures Frames(s, n).score == s.score + n
    ensures Frames(s, n).boosts == Thousands(s.score + n)
  {
    if n > 0 {
      FramesWhileRunning(s, n - 1);
      ThousandsStep(s.score + n - 1);
    }
  }

  /**
   * After game over the score is frozen, yet the boost check still runs
   * every frame: a run that ended on a multiple of 1000 gains one boost per
   * frame, any other gains none.
   */
  lemma {:induction false} FramesAfterGameOver(s: State, n: nat)
    requires s.isGameOver
    ensures Frames(s, n).isGameOver && Frames(s, n).score == s.score
    ensures Frames(s, n).boosts == s.boosts + (if s.score % 1000 == 0 then n else 0)
  {
    if n > 0 {
      FramesAfterGameOver(s, n - 1);
    }
  }

  /**
   * One play-through. The fields are the scene's closed-over variables, the
   * engine state its handlers set (the scenery and the live tagged
   * entities) and the timers still pending. The speed is 480 times 1.1 to
   * the power `boosts`.
   */
  class Run {
    var score: nat
    var boosts: nat
    var isGameOver: bool
    var isDark: bool
    var isUpsideDown: bool
    var multiJumpEnabled: bool
    var highScore: nat
    var scenery: Scenery
    var items: Census
    var pending: Pending
    /** how many times the new-high-score celebration has played in this run */
    ghost var celebrations: nat

    function Snapshot(): State
      reads this
    {
      State(score, boosts, isGameOver, isDark, isUpsideDown, multiJumpEnabled, highScore, scenery, items, pending)
    }

    /**
     * The current speed: while the run lasts, 480 compounded by 10% for
     * every whole thousand points of score.
     */
    function Speed(): (v: real)
      reads this
      requires Valid()
      ensures !isGameOver ==> v == Rules.Speed(Thousands(score))
      ensures v >= Rules.Speed(Thousands(score))
    {
      SpeedMonotone(Thousands(score), boosts);
      Rules.Speed(boosts)
    }

    /**
     * Inv on the current state, plus the celebration count: none until the
     * score passes a nonzero carried high score, then exactly one.
     */
    ghost predicate Valid()
      reads this
    {
      && Inv(Snapshot())
      && celebrations <= 1
      && (!isGameOver ==> celebrations == (if highScore != 0 && score > highScore then 1 else 0))
    }

    /**
     * Entering the scene with the carried high score `best`: a fresh run on
     * the bottom floor, and the first spawnItem() with draw `r`.
     */
    constructor (best: nat, r: real, screenHeight: int)
      ensures score == 0 && boosts == 0 && highScore == best && celebrations == 0
      ensures !isGameOver && !isDark && !isUpsideDown && !multiJumpEnabled && scenery == Upright
      ensures items == Empty.Add(ChooseItem(0, r, false, false))
      ensures pending == Pending(true, 0, 0, 0)
      ensures Valid()
    {
      score, boosts := 0, 0;
      isGameOver, isDark, isUpsideDown, multiJumpEnabled := false, false, false, false;
      highScore := best;
      scenery := Upright;
      items := Empty;
      pending := Pending(true, 0, 0, 0);
      celebrations := 0;
      new;
      var _ := SpawnItem(r, screenHeight);
    }

    /**
     * The jump input. After game over it restarts the scene carrying the high
     * score; upside down it leaps away from the top floor with multi-jump on
     * or when neither falling nor rising; otherwise it leaps up from the
     * ground or with multi-jump on. With multi-jump on, every press during
     * the run leaps.
     */
    function Jump(body: Body): (o: JumpOutcome)
      reads this
      ensures o.Restart? <==> isGameOver
      ensures o.Restart? ==> o.best == highScore
      ensures o == Leap(-JumpForce) <==>
        !isGameOver && isUpsideDown && (multiJumpEnabled || (!body.falling && !body.jumping))
      ensures o == Leap(JumpForce) <==>
        && !isGameOver
        && !(isUpsideDown && (multiJumpEnabled || (!body.falling && !body.jumping)))
        && (body.grounded || multiJumpEnabled)
      ensures !isGameOver && multiJumpEnabled ==> o.Leap?
      ensures o == Ignore <==>
        && !isGameOver
        && !(isUpsideDown && (multiJumpEnabled || (!body.falling && !body.jumping)))
        && !(body.grounded || multiJumpEnabled)
      ensures o.Leap? ==> o.impulse == JumpForce || o.impulse == -JumpForce
    {
      if isGameOver then Restart(highScore)
      else if isUpsideDown && (multiJumpEnabled || (!body.falling && !body.jumping)) then Leap(-JumpForce)
      else if body.grounded || multiJumpEnabled then Leap(JumpForce)
      else Ignore
    }

    /**
     * The spawner's timer fires with draw `r`. After game over it spawns
     * nothing; otherwise it spawns the item ChooseItem picks, placed against
     * the current floor.
     */
    method SpawnItem(r: real, screenHeight: int) returns (spawned: Option<Placement>)
      requires Valid() && pending.spawn
      modifies this
      ensures spawned == if old(isGameOver) then None
                         else Some(Place(ChooseItem(old(score), r, old(isUpsideDown), old(isDark)),
                                         old(isUpsideDown), screenHeight))
      ensures Snapshot() == Spawned(old(Snapshot()), r)
      ensures Valid() && celebrations == old(celebrations)
    {
      SpawnedKeepsInv(Snapshot(), r);
      if isGameOver {
        pending := pending.(spawn := false);
        return None;
      }
      var tag := ChooseItem(score, r, isUpsideDown, isDark);
      items := items.Add(tag);
      spawned := Some(Place(tag, isUpsideDown, screenHeight));
      pending := pending.(spawn := true);
    }

    /** The player hits a tree. */
    method CollideTree()
      requires Valid() && items.Count(Tree) > 0
      modifies this
      ensures Snapshot() == TreeHit(old(Snapshot()))
      ensures Valid() && celebrations == old(celebrations)
    {
      TreeHitKeepsInv(Snapshot());
      isGameOver := true;
      isDark := false;
      scenery := scenery.(effect := Plain);
      if score > highScore {
        highScore := score;
      }
    }

    /** The player eats a food. */
    method CollideFood()
      requires Valid() && items.Count(Food) > 0
      modifies this
      ensures Snapshot() == FoodEaten(old(Snapshot()))
      ensures Valid() && celebrations == old(celebrations)
    {
      FoodEatenKeepsInv(Snapshot());
      items := items.Remove(Food);
      multiJumpEnabled := true;
      pending := pending.(jumpEnds := pending.jumpEnds + 1);
    }

    /** A multi-jump timer fires. */
    method MultiJumpEnd()
      requires Valid() && pending.jumpEnds > 0
      modifies this
      ensures Snapshot() == MultiJumpEnded(old(Snapshot()))
      ensures Valid() && celebrations == old(celebrations)
    {
      MultiJumpEndedKeepsInv(Snapshot());
      pending := pending.(jumpEnds := pending.jumpEnds - 1);
      multiJumpEnabled := false;
    }

    /** The player touches a bolt. */
    method CollideBolt()
      requires Valid() && items.Count(Bolt) > 0
      modifies this
      ensures Snapshot() == BoltHit(old(Snapshot()))
      ensures Valid() && celebrations == old(celebrations)
    {
      BoltHitKeepsInv(Snapshot());
      items := items.Remove(Bolt);
      if isDark {
        return;
      }
      // destroyAll of food, bolt and tree in turn leaves nothing, as no kong is live (DestroyAllButKong)
      items := Empty;
      scenery := TurnOver(scenery);
      isUpsideDown := true;
      pending := pending.(flipEnds := pending.flipEnds + 1);
    }

    /** The upside-down timer fires. */
    method FlipEnd()
      requires Valid() && pending.flipEnds > 0
      modifies this
      ensures Snapshot() == FlippedBack(old(Snapshot()))
      ensures Valid() && celebrations == old(celebrations)
    {
      FlippedBackKeepsInv(Snapshot());
      pending := pending.(flipEnds := pending.flipEnds - 1);
      // destroyAll of food, bolt and tree in turn leaves nothing, as no kong is live (DestroyAllButKong)
      items := Empty;
      scenery := TurnBack(scenery);
      isUpsideDown := false;
    }

    /** The 10-second night check with draw `r`. */
    method NightCheck(r: real)
      requires Valid()
      modifies this
      ensures Snapshot() == NightChecked(old(Snapshot()), r)
      ensures Valid() && celebrations == old(celebrations)
    {
      NightCheckedKeepsInv(Snapshot(), r);
      if NightFalls(isGameOver, isDark, isUpsideDown, score, r) {
        pending := pending.(onsets := pending.onsets + 1);
      } else if !isUpsideDown {
        scenery := scenery.(effect := Plain);
        isDark := false;
      }
    }

    /** The banner's two-second timer fires. */
    method NightOnset()
      requires Valid() && pending.onsets > 0
      modifies this
      ensures Snapshot() == NightBegun(old(Snapshot()))
      ensures Valid() && celebrations == old(celebrations)
    {
      NightBegunKeepsInv(Snapshot());
      pending := pending.(onsets := pending.onsets - 1);
      if !isGameOver && !isUpsideDown {
        isDark := true;
      }
    }

    /**
     * One frame; `celebrate` says whether the new-high-score celebration
     * plays, which happens at most once in a run.
     */
    method Tick() returns (celebrate: bool)
      requires Valid()
      modifies this
      ensures celebrate == Celebrates(old(Snapshot()))
      ensures celebrations == old(celebrations) + (if celebrate then 1 else 0)
      ensures Snapshot() == Ticked(old(Snapshot()))
      ensures Valid()
    {
      TickedKeepsInv(Snapshot());
      celebrate := false;
      if !isGameOver {
        celebrate := ScorePoint();
      }
      BoostAndLight();
    }

    /** The guarded part of a frame: one point more, celebrating when it passes a nonzero high score. */
    method ScorePoint() returns (celebrate: bool)
      modifies this
      ensures celebrate == (old(highScore) != 0 && old(score) + 1 == old(highScore) + 1)
      ensures Snapshot() == old(Snapshot()).(score := old(score) + 1)
      ensures celebrations == old(celebrations) + (if celebrate then 1 else 0)
    {
      score := score + 1;
      celebrate := false;
      if highScore != 0 && score == highScore + 1 {
        celebrate := true;
        celebrations := celebrations + 1;
      }
    }

    /** The unguarded part of a frame: the boost on a multiple of 1000, the light effect in the dark. */
    method BoostAndLight()
      modifies this
      ensures Snapshot() == old(Snapshot()).(boosts := if score % 1000 == 0 then old(boosts) + 1 else old(boosts),
                                             scenery := if isDark then old(scenery).(effect := Light) else old(scenery))
      ensures celebrations == old(celebrations)
    {
      if score % 1000 == 0 {
        boosts := boosts + 1;
      }
      if isDark {
        scenery := scenery.(effect := Light);
      }
    }

    /** The engine removes an item that has left the screen. */
    method Offscreen(tag: Tag)
      requires Valid() && items.Count(tag) > 0
      modifies this
      ensures Snapshot() == WentOffscreen(old(Snapshot()), tag)
      ensures Valid() && celebrations == old(celebrations)
    {
      WentOffscreenKeepsInv(Snapshot(), tag);
      items := items.Remove(tag);
    }
  }
}
