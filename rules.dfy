/**
 * Rules that both variants of the "game" scene share: the scene constants,
 * the tags of the entities the spawner creates, the geometry of the floor
 * and of a freshly spawned item, the speed schedule and the night-fall guard.
 */
module Rules {

  /** Thickness of a floor, in pixels. */
  const FloorHeight: int := 48
  /** Magnitude of the impulse a jump gives the player. */
  const JumpForce: int := 800
  /** Magnitude of the gravity the scene sets. */
  const Gravity: int := 1800
  /** Speed every run starts with, in pixels per second. */
  const BaseSpeed: real := 480.0

  datatype Option<T> = None | Some(value: T)

  /** The tags the spawner gives to obstacles and pickups. */
  datatype Tag = Tree | Food | Bolt | Kong

  /** A screen edge: where a floor is anchored, or which edge of an item its position names. */
  datatype Edge = Bottom | Top

  /** The full-screen post-processing effect in use ("" | "invert" | "light"). */
  datatype PostEffect = Plain | Invert | Light

  /** What the physics engine reports about the player when the jump input arrives. */
  datatype Body = Body(grounded: bool, falling: bool, jumping: bool)

  /** What one press of the jump input does. */
  datatype JumpOutcome =
    | Restart(best: nat)   // leave the scene and enter a fresh one carrying `best` as its high score
    | Leap(impulse: int)   // give the player a vertical impulse (and play the jump sound)
    | Ignore

  /**
   * The live tagged entities, as a count per tag (a multiset of tags). Only
   * the spawner adds to it; collisions, timers and the engine's off-screen
   * clean-up take from it.
   */
  datatype Census = Census(trees: nat, foods: nat, bolts: nat, kongs: nat) {

    /** get(tag).length */
    function Count(tag: Tag): nat {
      match tag
      case Tree => trees
      case Food => foods
      case Bolt => bolts
      case Kong => kongs
    }

    /** The census after one more entity of `tag` is added. */
    function Add(tag: Tag): (c: Census)
      ensures c.Count(tag) == Count(tag) + 1
      ensures forall u :: u != tag ==> c.Count(u) == Count(u)
    {
      match tag
      case Tree => this.(trees := trees + 1)
      case Food => this.(foods := foods + 1)
      case Bolt => this.(bolts := bolts + 1)
      case Kong => this.(kongs := kongs + 1)
    }

    /** The census after one live entity of `tag` is destroyed (none to destroy: unchanged). */
    function Remove(tag: Tag): (c: Census)
      ensures c.Count(tag) == if Count(tag) == 0 then 0 else Count(tag) - 1
      ensures forall u :: u != tag ==> c.Count(u) == Count(u)
    {
      match tag
      case Tree => this.(trees := if trees == 0 then 0 else trees - 1)
      case Food => this.(foods := if foods == 0 then 0 else foods - 1)
      case Bolt => this.(bolts := if bolts == 0 then 0 else bolts - 1)
      case Kong => this.(kongs := if kongs == 0 then 0 else kongs - 1)
    }

    /** destroyAll(tag): no entity of `tag` is left, the others stay. */
    function DestroyAll(tag: Tag): (c: Census)
      ensures c.Count(tag) == 0
      ensures forall u :: u != tag ==> c.Count(u) == Count(u)
    {
      match tag
      case Tree => this.(trees := 0)
      case Food => this.(foods := 0)
      case Bolt => this.(bolts := 0)
      case Kong => this.(kongs := 0)
    }
  }

  /** How many tagged entities are live. */
  function Total(c: Census): nat { c.trees + c.foods + c.bolts + c.kongs }

  /** No live entity at all. */
  const Empty: Census := Census(0, 0, 0, 0)

  /** Destroying every entity of each of the four tags leaves none. */
  lemma DestroyEveryTag(c: Census)
    ensures c.DestroyAll(Food).DestroyAll(Kong).DestroyAll(Bolt).DestroyAll(Tree) == Empty
  {
  }

  /** Without a live kong, destroying every food, bolt and tree leaves none. */
  lemma DestroyAllButKong(c: Census)
    requires c.Count(Kong) == 0
    ensures c.DestroyAll(Food).DestroyAll(Bolt).DestroyAll(Tree) == Empty
  {
  }

  /** Where a spawned item enters: its tag, the y of its anchored edge, and that edge. */
  datatype Placement = Placement(tag: Tag, y: int, edge: Edge)

  /**
   * What the engine shows around the player: the live floors at each edge,
   * the gravity, whether the player's sprite is flipped, and the post-effect.
   */
  datatype Scenery = Scenery(bottomFloors: nat, topFloors: nat, gravity: int, playerFlipped: bool, effect: PostEffect)

  /** The scenery a run starts in: one bottom floor, downward gravity, no flip, no effect. */
  const Upright: Scenery := Scenery(1, 0, Gravity, false, Plain)

  /**
   * Exactly one floor, at the top edge iff `upsideDown`, with the gravity and
   * the player's flip that go with it.
   */
  predicate Settled(w: Scenery, upsideDown: bool) {
    && w.bottomFloors == (if upsideDown then 0 else 1)
    && w.topFloors == (if upsideDown then 1 else 0)
    && w.gravity == (if upsideDown then -Gravity else Gravity)
    && w.playerFlipped == upsideDown
  }

  /**
   * Entering upside-down mode: the inverted picture, gravity pointing up, the
   * bottom floor destroyed, the player flipped and a floor added at the top.
   */
  function TurnOver(w: Scenery): (v: Scenery)
    ensures Settled(w, false) ==> Settled(v, true)
    ensures v.effect == Invert
  {
    w.(effect := Invert, gravity := -Gravity, bottomFloors := Drop(w.bottomFloors), playerFlipped := true,
       topFloors := w.topFloors + 1)
  }

  /**
   * Leaving upside-down mode: the player unflipped, the top floor destroyed,
   * gravity pointing down, the plain picture and a floor added at the bottom.
   */
  function TurnBack(w: Scenery): (v: Scenery)
    ensures Settled(w, true) ==> Settled(v, false)
    ensures v.effect == Plain
  {
    w.(playerFlipped := false, topFloors := Drop(w.topFloors), gravity := Gravity, effect := Plain,
       bottomFloors := w.bottomFloors + 1)
  }

  /** Turning over and back restores an upright scenery, with the picture plain. */
  lemma TurnOverAndBack(w: Scenery)
    requires Settled(w, false)
    ensures TurnBack(TurnOver(w)) == w.(effect := Plain)
  {
  }

  /** One fewer, but never below zero: destroying an entity that is not there changes nothing. */
  function Drop(n: nat): nat { if n == 0 then 0 else n - 1 }

  function Max(a: nat, b: nat): nat { if a < b then b else a }

  function Distance(a: int, b: int): nat { if a < b then b - a else a - b }

  /** The edge the floor is anchored to: the top while gravity is inverted. */
  function FloorEdge(upsideDown: bool): Edge { if upsideDown then Top else Bottom }

  /** The y coordinate of the face of the floor at `edge` that the player runs on. */
  function FloorFace(edge: Edge, screenHeight: int): int {
    match edge
    // a FloorHeight-tall rectangle whose bottom-left corner is at (0, height())
    case Bottom => screenHeight - FloorHeight
    // a FloorHeight-tall rectangle whose top-left corner is at (0, 0)
    case Top => FloorHeight
  }

  /** The gap the spawner leaves between an item and the floor face. */
  function Clearance(tag: Tag): nat {
    match tag
    case Bolt => 5
    case Food => 10
    case Kong => 0
    case Tree => 0
  }

  /** Position in the spawner's cascade: the first eligible tag in this order wins. */
  function Priority(tag: Tag): nat {
    match tag
    case Bolt => 0
    case Food => 1
    case Kong => 2
    case Tree => 3
  }

  /**
   * The vertical coordinate the spawner gives an item `offset` pixels clear
   * of the floor: it lies on the playfield side of the current floor's face,
   * exactly `offset` away from it.
   */
  function ItemHeight(upsideDown: bool, offset: nat, screenHeight: int): (y: int)
    ensures Distance(y, FloorFace(FloorEdge(upsideDown), screenHeight)) == offset
    ensures upsideDown ==> y >= FloorFace(Top, screenHeight)
    ensures !upsideDown ==> y <= FloorFace(Bottom, screenHeight)
  {
    if upsideDown then FloorHeight + offset else screenHeight - FloorHeight - offset
  }

  /** The two orientations place an item at mirror-image heights. */
  lemma ItemHeightMirror(offset: nat, screenHeight: int)
    ensures ItemHeight(true, offset, screenHeight) + ItemHeight(false, offset, screenHeight) == screenHeight
  {
  }

  /**
   * Where the spawner puts an item of `tag`: anchored by the edge that faces
   * the floor, its tag's clearance away from the floor face.
   */
  function Place(tag: Tag, upsideDown: bool, screenHeight: int): (p: Placement)
    ensures p.tag == tag && p.edge == FloorEdge(upsideDown)
    ensures Distance(p.y, FloorFace(p.edge, screenHeight)) == Clearance(tag)
    ensures upsideDown ==> p.y >= FloorFace(Top, screenHeight)
    ensures !upsideDown ==> p.y <= FloorFace(Bottom, screenHeight)
  {
    Placement(tag, ItemHeight(upsideDown, Clearance(tag), screenHeight), FloorEdge(upsideDown))
  }

  /**
   * The speed after `boosts` boosts of 10% each, as an exact real: it never
   * falls below the starting speed.
   */
  function Speed(boosts: nat): (v: real)
    ensures v >= BaseSpeed
  {
    if boosts == 0 then BaseSpeed else Speed(boosts - 1) * 1.1
  }

  /** More boosts never mean a lower speed. */
  lemma {:induction false} SpeedMonotone(i: nat, j: nat)
    requires i <= j
    ensures Speed(i) <= Speed(j)
    decreases j
  {
    if i < j {
      SpeedMonotone(i, j - 1);
    }
  }

  /** How many whole thousands `score` holds: the number of speed boosts a run has earned. */
  function Thousands(score: nat): nat { score / 1000 }

  /** One more point of score reaches a new thousand exactly when it is a multiple of 1000. */
  lemma ThousandsStep(score: nat)
    ensures Thousands(score + 1) == Thousands(score) + (if (score + 1) % 1000 == 0 then 1 else 0)
  {
  }

  /** The guard of the 10-second night check: only then is the "night falling" banner shown. */
  predicate NightFalls(isGameOver: bool, isDark: bool, isUpsideDown: bool, score: nat, r: real) {
    !isGameOver && !isDark && !isUpsideDown && score > 1000 && r > 0.6
  }
}
