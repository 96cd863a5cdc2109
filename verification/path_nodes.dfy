/** Records shared by the pathfinder rule: fixed-width arithmetic, path nodes,
    the node arena owned by the node storage, and the per-edge descriptors
    the search engine hands to a rule. */
module PathNodes {
  import opened Optional

  /** One more than the largest value of a C++ `uint64_t`. */
  const U64Modulus: int := 0x1_0000_0000_0000_0000

  /** Values of a C++ `uint64_t`. */
  type u64 = x: int | 0 <= x < 0x1_0000_0000_0000_0000

  /** `uint64_t` subtraction: wraps around modulo 2^64 when `b > a`. */
  function Sub64(a: u64, b: u64): (r: u64)
    ensures b <= a ==> r == a - b
    ensures a < b ==> r == a - b + U64Modulus
  {
    (a - b) % U64Modulus
  }

  /** `uint64_t` addition: wraps around modulo 2^64 on overflow. */
  function Add64(a: u64, b: u64): (r: u64)
    ensures a + b < U64Modulus ==> r == a + b
    ensures U64Modulus <= a + b ==> r == a + b - U64Modulus
  {
    (a + b) % U64Modulus
  }

  function Max(a: u64, b: u64): u64
  {
    if a < b then b else a
  }

  datatype Coord = Coord(x: int, y: int, z: int)

  /** The movement domain a node lives in; part of a node's identity. */
  datatype Layer = Land | Sail | Water | Air

  /** Stable handle of a node in the node arena. */
  type NodeRef = nat
  type ActorRef = nat
  type HeroRef = nat
  type ObjRef = nat

  /** The chain actor a node belongs to: the hero (if any), the army value it
      moves with, whether it may fight at all, and the actor that stands for
      "this army after a fight" (`battleActor`). */
  datatype Actor = Actor(
    id: ActorRef,
    hero: Option<HeroRef>,
    armyValue: u64,
    allowBattle: bool,
    battleActor: ActorRef)

  /** Quest mission kinds; only "no mission" is singled out by the rule. */
  datatype MissionType = MissionNone | MissionOther(code: nat)

  datatype Quest = Quest(id: nat, mission: MissionType)

  /** The map objects that carry a quest. */
  datatype GateKind = QuestGuard | BorderGuard | BorderGate

  /** Tagged object kind replacing the run-time cast to a quest object. */
  datatype ObjectKind =
    | QuestGate(gate: GateKind, quest: Quest)
    | OtherObject(typeId: nat)

  /** An object standing on the destination tile. `visited` is whether the
      searching hero's owner has visited it, `questCompleted` whether the
      searching hero passes its quest check. */
  datatype MapObject = MapObject(
    id: ObjRef,
    kind: ObjectKind,
    visited: bool,
    questCompleted: bool)

  /** An action the turn executor performs when it reaches a node. */
  datatype SpecialAction =
    | QuestAction(quest: Quest, obj: ObjRef, at: Coord)
    | BattleAction(target: Coord)

  datatype PathNode = PathNode(
    coord: Coord,
    layer: Layer,
    actor: Actor,
    locked: bool,
    armyLoss: u64,
    danger: u64,
    specialAction: Option<SpecialAction>)

  /** The node storage's arena: every node addressed by its handle. */
  type Arena = map<NodeRef, PathNode>

  /** The node being expanded from. */
  datatype Source = Source(node: NodeRef, coord: Coord)

  datatype PlayerRelations = Enemies | Allies | SamePlayer

  /** The candidate destination of the edge: its node (which a rule may
      redirect), its tile, whether the move is blocked, and what stands there. */
  datatype Destination = Destination(
    node: NodeRef,
    coord: Coord,
    blocked: bool,
    nodeObject: Option<MapObject>,
    nodeHero: Option<HeroRef>,
    heroRelations: PlayerRelations)

  /** A hero of a hostile player stands on the destination tile. */
  predicate EnemyHeroAt(dest: Destination)
  {
    dest.nodeHero.Some? && dest.heroRelations == Enemies
  }
}
