/** Properties of the movement-after-destination rule that relate several
    calls or pin down concrete situations. */
module MovementRuleProperties {
  import opened Optional
  import opened PathNodes
  import opened MovementAfterDestinationRule
  import Guards

  /** Erasing the source guards a second time erases nothing more. */
  lemma {:induction false} RemainingIdempotent(dest: seq<ObjRef>, src: seq<ObjRef>)
    ensures Guards.Remaining(Guards.Remaining(dest, src), src) == Guards.Remaining(dest, src)
  {
    if |dest| > 0 {
      RemainingIdempotent(dest[1..], src);
    }
  }

  /** With no guard at the source, every destination guard remains, in order. */
  lemma {:induction false} RemainingWithoutSourceGuards(dest: seq<ObjRef>)
    ensures Guards.Remaining(dest, []) == dest
  {
    if |dest| > 0 {
      RemainingWithoutSourceGuards(dest[1..]);
    }
  }

  /** Guards already fought at the source: the edge is resolved without a
      fight, so no loss or danger is recorded anywhere and the destination
      node is not redirected; it is merely unlocked. */
  lemma GuardsFoughtAtSourcePassFree(env: Env, nodes: Arena, source: Source, dest: Destination)
    requires Valid(env, nodes, source, dest)
    requires !env.isMovementIneficient(nodes, source, dest)
    requires env.blockingReason(nodes, source, dest) == DestinationGuarded
    requires |env.guardingCreatures(dest.coord)| > 0
    requires Guards.AlreadyBypassed(env.guardingCreatures(dest.coord), env.guardingCreatures(source.coord))
    requires nodes[source.node].actor.allowBattle
    ensures var r := Process(env, nodes, source, dest);
      && r.decision == Resolved(true)
      && r.dest.node == dest.node
      && r.nodes == nodes[dest.node := nodes[dest.node].(locked := false)]
      && r.dest.blocked == env.isDistanceLimitReached(nodes, source, dest)
  {
  }

  /** A projected total wipe-out is never accepted: equality denies. */
  lemma EqualLossDenied(env: Env, nodes: Arena, source: Source, dest: Destination)
    requires Valid(env, nodes, source, dest)
    requires ProjectedLoss(env, nodes, source, dest) == ActualArmyValue(nodes, source)
    ensures !BypassBattle(env, nodes, source, dest).allow
    ensures BypassBattle(env, nodes, source, dest) == Outcome(false, nodes, dest)
  {
  }

  /** While the path's recorded loss does not exceed the army value, the
      acceptance rule reads as plain arithmetic: the loss so far plus the
      projected loss must stay strictly below the army value. */
  lemma AcceptanceWithoutWrapAround(env: Env, nodes: Arena, source: Source, dest: Destination)
    requires Valid(env, nodes, source, dest)
    requires nodes[source.node].armyLoss <= nodes[source.node].actor.armyValue
    ensures BypassBattle(env, nodes, source, dest).allow <==>
      && BattleNodeRef(env, nodes, dest).Some?
      && !nodes[BattleNodeRef(env, nodes, dest).value].locked
      && nodes[source.node].armyLoss + ProjectedLoss(env, nodes, source, dest) < nodes[source.node].actor.armyValue
  {
  }

  /** Once the path's recorded loss exceeds the army value, the `uint64_t`
      subtraction wraps and the army left reads as at least 2^64 minus the
      recorded loss, so any projected loss below that is accepted. */
  lemma AcceptanceAfterWrapAround(env: Env, nodes: Arena, source: Source, dest: Destination)
    requires Valid(env, nodes, source, dest)
    requires nodes[source.node].actor.armyValue < nodes[source.node].armyLoss
    requires BattleNodeRef(env, nodes, dest).Some? && !nodes[BattleNodeRef(env, nodes, dest).value].locked
    requires ProjectedLoss(env, nodes, source, dest) < U64Modulus - nodes[source.node].armyLoss
    ensures BypassBattle(env, nodes, source, dest).allow
  {
  }

  /** An accepted fight leaves its battle node unlocked, so a later fight
      along another path into the same node is not refused as settled. */
  lemma BattleNodeStaysOpen(env: Env, nodes: Arena, source: Source, dest: Destination)
    requires Valid(env, nodes, source, dest)
    requires BypassBattle(env, nodes, source, dest).allow
    ensures var r := BypassBattle(env, nodes, source, dest);
      !r.nodes[r.dest.node].locked && BattleNodeRef(env, nodes, dest) == Some(r.dest.node)
  {
  }

  /** Two accepted fights into the same battle node: the losses add up and
      the recorded danger is the worst of the two and of what was there.
      The sum relies on the edge commit and the predecessor rule leaving the
      battle node's record as it is; a commit that copied path fields into
      the node would change it. */
  lemma RepeatedBattlesAccumulate(
    env: Env, nodes: Arena, s1: Source, d1: Destination, s2: Source, d2: Destination)
    requires Valid(env, nodes, s1, d1)
    requires BypassBattle(env, nodes, s1, d1).allow
    requires Valid(env, BypassBattle(env, nodes, s1, d1).nodes, s2, d2)
    requires BypassBattle(env, BypassBattle(env, nodes, s1, d1).nodes, s2, d2).allow
    requires BypassBattle(env, BypassBattle(env, nodes, s1, d1).nodes, s2, d2).dest.node
             == BypassBattle(env, nodes, s1, d1).dest.node
    ensures
      var r1 := BypassBattle(env, nodes, s1, d1);
      var r2 := BypassBattle(env, r1.nodes, s2, d2);
      var h := r1.dest.node;
      var l1 := ProjectedLoss(env, nodes, s1, d1);
      var l2 := ProjectedLoss(env, r1.nodes, s2, d2);
      && (nodes[h].armyLoss + l1 + l2 < U64Modulus ==> r2.nodes[h].armyLoss == nodes[h].armyLoss + l1 + l2)
      && r2.nodes[h].danger == Max(Max(nodes[h].danger, BattleDanger(env, nodes, s1, d1)),
                                   BattleDanger(env, r1.nodes, s2, d2))
      && r2.nodes[h].specialAction == Some(BattleAction(d2.coord))
  {
  }

  /** The lock is not monotonic: a locked destination that is merely visited
      is unlocked again, since the lock is rewritten from the decision. */
  lemma LockIsRewritten(env: Env, nodes: Arena, source: Source, dest: Destination)
    requires Valid(env, nodes, source, dest)
    requires nodes[dest.node].locked
    requires !env.isMovementIneficient(nodes, source, dest)
    requires env.blockingReason(nodes, source, dest) == DestinationVisit
    ensures !Process(env, nodes, source, dest).nodes[dest.node].locked
  {
  }

  /** For a guarded destination, a redirect to a battle node leaves the
      original node exactly as it was: it is neither locked nor charged. */
  lemma RedirectKeepsOriginalNode(env: Env, nodes: Arena, source: Source, dest: Destination)
    requires Valid(env, nodes, source, dest)
    requires env.blockingReason(nodes, source, dest) == DestinationGuarded
    requires Process(env, nodes, source, dest).dest.node != dest.node
    ensures Process(env, nodes, source, dest).nodes[dest.node] == nodes[dest.node]
    ensures Process(env, nodes, source, dest).decision == Resolved(true)
  {
  }

  // A concrete edge: hero 1 with an army worth 200 moves from node 0 at
  // (0,0,0) to node 1 at (1,0,0), which one guard (object 7) protects; the
  // storage offers node 2 for the battle actor 5; danger there is 40.

  const SrcCoord := Coord(0, 0, 0)
  const DstCoord := Coord(1, 0, 0)
  const Hero := Actor(3, Some(1), 200, true, 5)
  const Fresh := PathNode(DstCoord, Land, Actor(5, Some(1), 200, true, 5), false, 0, 0, None)

  function ScenarioNodes(): Arena
  {
    map[0 := PathNode(SrcCoord, Land, Hero, false, 0, 0, None),
        1 := PathNode(DstCoord, Land, Hero, false, 0, 0, None),
        2 := Fresh]
  }

  /** The scenario's collaborators, with the projected loss as a parameter. */
  function ScenarioEnv(loss: u64): Env
  {
    Env((n: Arena, s: Source, d: Destination) => false,
        (n: Arena, s: Source, d: Destination) => DestinationGuarded,
        (n: Arena, s: Source, d: Destination) => false,
        (c: Coord) => if c == DstCoord then [7] else [],
        (o: MapObject) => false,
        (c: Coord, l: Layer, a: ActorRef) => if a == 5 then Some(2) else None,
        (c: Coord, h: Option<HeroRef>) => 40,
        (h: Option<HeroRef>, v: u64, d: u64) => loss)
  }

  const ScenarioSource := Source(0, SrcCoord)
  const ScenarioDest := Destination(1, DstCoord, false, None, None, Allies)

  lemma ScenarioValid(loss: u64)
    ensures Valid(ScenarioEnv(loss), ScenarioNodes(), ScenarioSource, ScenarioDest)
  {
  }

  /** A loss of 50 out of 200: the fight is accepted, the edge goes to the
      battle node with loss 50, danger 40 and a battle action at the guarded
      tile, the edge is open and the original node stays unlocked. */
  lemma ScenarioFightAccepted()
    ensures Valid(ScenarioEnv(50), ScenarioNodes(), ScenarioSource, ScenarioDest)
    ensures var r := Process(ScenarioEnv(50), ScenarioNodes(), ScenarioSource, ScenarioDest);
      && r.decision == Resolved(true)
      && r.dest.node == 2
      && r.nodes[2].armyLoss == 50
      && r.nodes[2].danger == 40
      && r.nodes[2].specialAction == Some(BattleAction(DstCoord))
      && !r.dest.blocked
      && !r.nodes[1].locked
  {
    ScenarioValid(50);
  }

  /** A projected loss of the whole army (200 of 200) is refused: the edge is
      blocked, the destination node locked and not redirected. */
  lemma ScenarioTotalLossDenied()
    ensures Valid(ScenarioEnv(200), ScenarioNodes(), ScenarioSource, ScenarioDest)
    ensures var r := Process(ScenarioEnv(200), ScenarioNodes(), ScenarioSource, ScenarioDest);
      && r.decision == Resolved(false)
      && r.dest.node == 1
      && r.dest.blocked
      && r.nodes[1].locked
      && r.nodes[2] == Fresh
  {
    ScenarioValid(200);
  }

  /** One short of the whole army is accepted. */
  lemma ScenarioNearTotalLossAccepted()
    ensures Valid(ScenarioEnv(199), ScenarioNodes(), ScenarioSource, ScenarioDest)
    ensures Process(ScenarioEnv(199), ScenarioNodes(), ScenarioSource, ScenarioDest).decision == Resolved(true)
  {
    ScenarioValid(199);
  }

  /** A quest guard with no mission is refused whether or not it was visited
      and whatever the quest check says. */
  lemma TrivialQuestGuardDenied(env: Env, nodes: Arena, source: Source, dest: Destination, q: Quest)
    requires Valid(env, nodes, source, dest)
    requires dest.nodeObject.Some? && dest.nodeObject.value.kind == QuestGate(QuestGuard, q)
    requires q.mission == MissionNone
    requires !env.isMovementIneficient(nodes, source, dest)
    requires env.blockingReason(nodes, source, dest) == DestinationBlockVis
    ensures var r := Process(env, nodes, source, dest);
      && r.decision == Resolved(false)
      && r.dest.blocked
      && r.nodes == nodes[dest.node := nodes[dest.node].(locked := true)]
  {
  }
}
