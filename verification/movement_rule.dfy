/** The Nullkiller AI's "movement after destination" pathfinder rule. For one
    candidate edge it decides whether the obstacle at the destination may be
    bypassed (by fighting, by a quest, or because the guards were already
    fought), forks a battle node when it decides to fight, and marks the
    destination blocked and locked accordingly. */
module MovementAfterDestinationRule {
  import opened Optional
  import opened PathNodes
  import Guards

  datatype BlockingReason =
    | NoBlocking
    | DestinationGuarded
    | DestinationBlockVis
    | DestinationVisit
    | DestinationBlocked

  /** The collaborators the rule consults and cannot see into: the world
      query layer, the node storage's evaluations, and the combat predictor. */
  datatype Env = Env(
    isMovementIneficient: (Arena, Source, Destination) -> bool,
    blockingReason: (Arena, Source, Destination) -> BlockingReason,
    isDistanceLimitReached: (Arena, Source, Destination) -> bool,
    guardingCreatures: Coord -> seq<ObjRef>,
    isObjectRemovable: MapObject -> bool,
    getOrCreateNode: (Coord, Layer, ActorRef) -> Option<NodeRef>,
    evaluateDanger: (Coord, Option<HeroRef>) -> u64,
    evaluateArmyLoss: (Option<HeroRef>, u64, u64) -> u64)

  /** The node storage only hands out handles of its own arena. */
  ghost predicate StorageClosed(env: Env, nodes: Arena)
  {
    forall c, l, a :: env.getOrCreateNode(c, l, a).Some? ==> env.getOrCreateNode(c, l, a).value in nodes
  }

  /** The source and destination nodes are live nodes of the arena. */
  ghost predicate Valid(env: Env, nodes: Arena, source: Source, dest: Destination)
  {
    && source.node in nodes
    && dest.node in nodes
    && StorageClosed(env, nodes)
  }

  /** What a bypass resolver returns: its decision, the arena after its
      writes, and the (possibly redirected) destination. */
  datatype Outcome = Outcome(allow: bool, nodes: Arena, dest: Destination)

  /** The node the storage offers for "the destination's actor after a fight
      here", if it can allocate one. */
  function BattleNodeRef(env: Env, nodes: Arena, dest: Destination): Option<NodeRef>
    requires dest.node in nodes
  {
    env.getOrCreateNode(dest.coord, nodes[dest.node].layer, nodes[dest.node].actor.battleActor)
  }

  /** Army value left to the source actor: `armyValue - armyLoss` in `uint64_t`. */
  function ActualArmyValue(nodes: Arena, source: Source): u64
    requires source.node in nodes
  {
    Sub64(nodes[source.node].actor.armyValue, nodes[source.node].armyLoss)
  }

  function BattleDanger(env: Env, nodes: Arena, source: Source, dest: Destination): u64
    requires source.node in nodes
  {
    env.evaluateDanger(dest.coord, nodes[source.node].actor.hero)
  }

  function ProjectedLoss(env: Env, nodes: Arena, source: Source, dest: Destination): u64
    requires source.node in nodes
  {
    env.evaluateArmyLoss(nodes[source.node].actor.hero, ActualArmyValue(nodes, source), BattleDanger(env, nodes, source, dest))
  }

  /** The fight is worth it: the battle node exists, is not settled yet, and
      the projected loss is strictly below the army value left. */
  ghost predicate BattleAccepted(env: Env, nodes: Arena, source: Source, dest: Destination)
    requires Valid(env, nodes, source, dest)
  {
    var h := BattleNodeRef(env, nodes, dest);
    && h.Some?
    && !nodes[h.value].locked
    && ProjectedLoss(env, nodes, source, dest) < ActualArmyValue(nodes, source)
  }

  /** Combat bypass: fork the destination into its battle node when the fight
      is accepted. A refused fight changes nothing. An accepted one redirects
      the destination to the battle node, adds the loss to it, raises its
      danger to the worst seen and attaches a battle action at the
      destination tile; every other node is untouched. */
  function BypassBattle(env: Env, nodes: Arena, source: Source, dest: Destination): (r: Outcome)
    requires Valid(env, nodes, source, dest)
    ensures r.nodes.Keys == nodes.Keys && r.dest.node in nodes
    ensures r.allow <==> BattleAccepted(env, nodes, source, dest)
    ensures !r.allow ==> r.nodes == nodes && r.dest == dest
    ensures r.allow ==> r.dest == dest.(node := BattleNodeRef(env, nodes, dest).value)
    ensures r.allow ==>
      var h := r.dest.node;
      var loss := ProjectedLoss(env, nodes, source, dest);
      && r.nodes[h].armyLoss == Add64(nodes[h].armyLoss, loss)
      && r.nodes[h].danger == Max(nodes[h].danger, BattleDanger(env, nodes, source, dest))
      && r.nodes[h].specialAction == Some(BattleAction(dest.coord))
      && r.nodes[h].(armyLoss := nodes[h].armyLoss, danger := nodes[h].danger, specialAction := nodes[h].specialAction) == nodes[h]
    ensures r.allow ==> forall k :: k in nodes && k != r.dest.node ==> r.nodes[k] == nodes[k]
  {
    match BattleNodeRef(env, nodes, dest)
    case None => Outcome(false, nodes, dest)
    case Some(h) =>
      var battleNode := nodes[h];
      if battleNode.locked then Outcome(false, nodes, dest)
      else
        var danger := BattleDanger(env, nodes, source, dest);
        var actualArmyValue := ActualArmyValue(nodes, source);
        var loss := env.evaluateArmyLoss(nodes[source.node].actor.hero, actualArmyValue, danger);
        if loss < actualArmyValue then
          // commit and the predecessor rule leave the node record as it is
          var won := battleNode.(
            armyLoss := Add64(battleNode.armyLoss, loss),
            danger := Max(battleNode.danger, danger),
            specialAction := Some(BattleAction(dest.coord)));
          Outcome(true, nodes[h := won], dest.(node := h))
        else
          Outcome(false, nodes, dest)
  }

  /** Guard resolution. No destination guard denies. When every destination
      guard was already met at the (guarded) source and the actor may fight,
      the bypass is free and nothing is written. Otherwise the fight decides. */
  function BypassDestinationGuards(
    env: Env, nodes: Arena, source: Source, dest: Destination, destGuards: seq<ObjRef>): (r: Outcome)
    requires Valid(env, nodes, source, dest)
    ensures r.nodes.Keys == nodes.Keys && r.dest.node in nodes
    ensures |destGuards| == 0 ==> r == Outcome(false, nodes, dest)
    ensures |destGuards| > 0
            && Guards.AlreadyBypassed(destGuards, env.guardingCreatures(source.coord))
            && nodes[source.node].actor.allowBattle
            ==> r == Outcome(true, nodes, dest)
    ensures |destGuards| > 0
            && !(Guards.AlreadyBypassed(destGuards, env.guardingCreatures(source.coord))
                 && nodes[source.node].actor.allowBattle)
            ==> r == BypassBattle(env, nodes, source, dest)
  {
    var srcGuards := env.guardingCreatures(source.coord);
    if |destGuards| == 0 then
      Outcome(false, nodes, dest)
    else
      var remaining := Guards.Remaining(destGuards, srcGuards);
      Guards.RemainingEmptyIff(destGuards, srcGuards);
      var guardsAlreadyBypassed := |remaining| == 0 && |srcGuards| > 0;
      if guardsAlreadyBypassed && nodes[source.node].actor.allowBattle then
        Outcome(true, nodes, dest)
      else
        BypassBattle(env, nodes, source, dest)
  }

  /** Quest gates and other visitable blockers. A quest guard without a
      mission denies. Any other quest gate allows, recording a pending quest
      check on the destination node when the hero has not visited it or does
      not pass the quest yet. A non-removable object with no enemy hero on it
      allows only when the node's hero is the hero standing there. */
  function BypassRemovableObject(env: Env, nodes: Arena, source: Source, dest: Destination): (r: Outcome)
    requires Valid(env, nodes, source, dest)
    requires dest.nodeObject.Some?
    ensures r.dest == dest && r.nodes.Keys == nodes.Keys
    ensures forall k :: k in nodes && k != dest.node ==> r.nodes[k] == nodes[k]
    ensures r.nodes[dest.node] != nodes[dest.node] ==>
              r.nodes[dest.node] == nodes[dest.node].(specialAction := r.nodes[dest.node].specialAction)
    ensures match dest.nodeObject.value.kind
      case QuestGate(gate, quest) =>
        && (r.allow <==> !(gate == QuestGuard && quest.mission == MissionNone))
        && (r.allow && (!dest.nodeObject.value.visited || !dest.nodeObject.value.questCompleted)
            ==> r.nodes[dest.node].specialAction == Some(QuestAction(quest, dest.nodeObject.value.id, dest.coord)))
        && (!r.allow || (dest.nodeObject.value.visited && dest.nodeObject.value.questCompleted)
            ==> r.nodes == nodes)
      case OtherObject(_) =>
        && r.nodes == nodes
        && (r.allow <==> EnemyHeroAt(dest)
                         || env.isObjectRemovable(dest.nodeObject.value)
                         || nodes[dest.node].actor.hero == dest.nodeHero)
  {
    var obj := dest.nodeObject.value;
    match obj.kind
    case QuestGate(gate, quest) =>
      if gate == QuestGuard && quest.mission == MissionNone then
        Outcome(false, nodes, dest)
      else if !obj.visited || !obj.questCompleted then
        var node := nodes[dest.node].(specialAction := Some(QuestAction(quest, obj.id, dest.coord)));
        Outcome(true, nodes[dest.node := node], dest)
      else
        Outcome(true, nodes, dest)
    case OtherObject(_) =>
      if !EnemyHeroAt(dest) && !env.isObjectRemovable(obj) then
        Outcome(nodes[dest.node].actor.hero == dest.nodeHero, nodes, dest)
      else
        Outcome(true, nodes, dest)
  }

  /** A hard blocker can only be passed by fighting an enemy hero standing on it. */
  function BypassBlocker(env: Env, nodes: Arena, source: Source, dest: Destination): (r: Outcome)
    requires Valid(env, nodes, source, dest)
    ensures r.nodes.Keys == nodes.Keys && r.dest.node in nodes
    ensures r.allow <==> EnemyHeroAt(dest) && BattleAccepted(env, nodes, source, dest)
    ensures !EnemyHeroAt(dest) ==> r.nodes == nodes && r.dest == dest
    ensures EnemyHeroAt(dest) ==> r == BypassBattle(env, nodes, source, dest)
  {
    if EnemyHeroAt(dest) then BypassBattle(env, nodes, source, dest)
    else Outcome(false, nodes, dest)
  }

  /** The resolver chosen by the blocking reason. Visiting always allows;
      a hard blocker needs an enemy hero and an accepted fight; a visitable
      blocker needs an object that can be bypassed and, when guards stand at
      the destination, the guards to be bypassed as well. */
  function Resolve(env: Env, nodes: Arena, source: Source, dest: Destination): (r: Outcome)
    requires Valid(env, nodes, source, dest)
    ensures r.nodes.Keys == nodes.Keys && r.dest.node in nodes
    ensures var reason := env.blockingReason(nodes, source, dest);
            var destGuards := env.guardingCreatures(dest.coord);
      match reason
      case NoBlocking => r == Outcome(false, nodes, dest)
      case DestinationVisit => r == Outcome(true, nodes, dest)
      case DestinationBlocked =>
        && (r.allow <==> EnemyHeroAt(dest) && BypassBattle(env, nodes, source, dest).allow)
        && r == BypassBlocker(env, nodes, source, dest)
      case DestinationGuarded => r == BypassDestinationGuards(env, nodes, source, dest, destGuards)
      case DestinationBlockVis =>
        if dest.nodeObject.None? then r == Outcome(false, nodes, dest)
        else
          var o := BypassRemovableObject(env, nodes, source, dest);
          && (r.allow ==> o.allow)
          && (!o.allow || |destGuards| == 0 ==> r == o)
          && (o.allow && |destGuards| > 0 ==> r == BypassDestinationGuards(env, o.nodes, source, o.dest, destGuards))
  {
    var destGuards := env.guardingCreatures(dest.coord);
    match env.blockingReason(nodes, source, dest)
    case NoBlocking => Outcome(false, nodes, dest)
    case DestinationGuarded => BypassDestinationGuards(env, nodes, source, dest, destGuards)
    case DestinationBlockVis =>
      if dest.nodeObject.None? then Outcome(false, nodes, dest)
      else
        var o := BypassRemovableObject(env, nodes, source, dest);
        if o.allow && |destGuards| > 0 then
          BypassDestinationGuards(env, o.nodes, source, o.dest, destGuards)
        else o
    case DestinationVisit => Outcome(true, nodes, dest)
    case DestinationBlocked => BypassBlocker(env, nodes, source, dest)
  }

  /** Which way one expansion ended. */
  datatype Decision = Inefficient | Unblocked | Resolved(allowBypass: bool)

  datatype Expansion = Expansion(decision: Decision, nodes: Arena, dest: Destination)

  /** The rule's entry point for one candidate edge. An inefficient move locks
      and blocks the destination without classifying it. A free destination is
      left untouched. Otherwise the resolver decides, and the (possibly
      redirected) destination node ends locked exactly when the bypass was
      refused, and blocked when refused or out of reach. */
  function Process(env: Env, nodes: Arena, source: Source, dest: Destination): (r: Expansion)
    requires Valid(env, nodes, source, dest)
    ensures r.nodes.Keys == nodes.Keys && r.dest.node in r.nodes
    ensures r.decision == Inefficient <==> env.isMovementIneficient(nodes, source, dest)
    ensures r.decision == Inefficient ==>
              r.dest == dest.(blocked := true) && r.nodes == nodes[dest.node := nodes[dest.node].(locked := true)]
    ensures r.decision == Unblocked <==>
              !env.isMovementIneficient(nodes, source, dest) && env.blockingReason(nodes, source, dest) == NoBlocking
    ensures r.decision == Unblocked ==> r.nodes == nodes && r.dest == dest
    ensures r.decision.Resolved? ==>
      var o := Resolve(env, nodes, source, dest);
      && r.decision.allowBypass == o.allow
      && r.dest == o.dest.(blocked := !o.allow || env.isDistanceLimitReached(o.nodes, source, o.dest))
      && r.nodes[r.dest.node] == o.nodes[r.dest.node].(locked := !o.allow)
      && forall k :: k in nodes && k != r.dest.node ==> r.nodes[k] == o.nodes[k]
    ensures r.decision != Unblocked ==> (r.nodes[r.dest.node].locked ==> r.dest.blocked)
  {
    if env.isMovementIneficient(nodes, source, dest) then
      Expansion(Inefficient, nodes[dest.node := nodes[dest.node].(locked := true)], dest.(blocked := true))
    else if env.blockingReason(nodes, source, dest) == NoBlocking then
      Expansion(Unblocked, nodes, dest)
    else
      var o := Resolve(env, nodes, source, dest);
      var blocked := !o.allow || env.isDistanceLimitReached(o.nodes, source, o.dest);
      var dest' := o.dest.(blocked := blocked);
      Expansion(Resolved(o.allow), o.nodes[dest'.node := o.nodes[dest'.node].(locked := !o.allow)], dest')
  }
}
