/** The server's turn and battle timer handler: per player, four countdown
    counters (base, turn, battle, creature) driven by game callbacks. Each
    callback is a transition of the timer table that also returns what it
    sends out: timer broadcasts, forced ends of turn and forced DEFEND
    actions. */
module TurnTimerHandler {
  import opened Optional

  /** A player colour; only real players are valid (`isValidPlayer`). */
  datatype PlayerColor = Player(num: nat) | Neutral

  predicate IsValidPlayer(p: PlayerColor)
  {
    p.Player?
  }

  /** All four counters are C++ `int` milliseconds and may go negative. */
  datatype TurnTimerInfo = TurnTimerInfo(turnTimer: int, baseTimer: int, battleTimer: int, creatureTimer: int)

  /** The value `std::map::operator[]` creates for a player never seen. */
  const NoTimer := TurnTimerInfo(0, 0, 0, 0)

  /** The game's start options: the configured timer and whether adventure
      map and battle timers are switched on. */
  datatype StartInfo = StartInfo(turnTimerInfo: TurnTimerInfo, isEnabled: bool, isBattleEnabled: bool)

  datatype PlayerStatus = Wrong | InGame | Loser | Winner

  datatype PlayerState = PlayerState(color: PlayerColor, human: bool, status: PlayerStatus)

  datatype BattleSide = Attacker | Defender

  datatype Stack = Stack(unitId: nat, unitSide: BattleSide, owner: PlayerColor)

  /** The current battle: the players on each side and the active stack,
      if the battle can find it. */
  datatype Battle = Battle(attacker: PlayerColor, defender: PlayerColor, activeStack: Option<Stack>)

  function SidePlayer(b: Battle, side: BattleSide): PlayerColor
  {
    if side == Attacker then b.attacker else b.defender
  }

  datatype GameState = GameState(players: map<PlayerColor, PlayerState>, curB: Option<Battle>)

  /** Broadcast throttling constants of the handler. */
  datatype Throttle = Throttle(threshold: int, frequency: int, frequencyCrit: int)

  predicate ValidThrottle(th: Throttle)
  {
    th.frequency > 0 && th.frequencyCrit > 0
  }

  datatype Event =
    | Broadcast(player: PlayerColor, timer: TurnTimerInfo)
    | EndTurn(player: PlayerColor)
    | Defend(player: PlayerColor, side: BattleSide, stackNumber: nat)

  type Timers = map<PlayerColor, TurnTimerInfo>

  datatype Transition = Transition(timers: Timers, events: seq<Event>)

  /** The timer of a player as `timers[player]` reads it. */
  function Timer(timers: Timers, p: PlayerColor): TurnTimerInfo
  {
    if p in timers then timers[p] else NoTimer
  }

  /** Frequency for the turn counter: critical at or below the threshold. */
  function TurnFrequency(th: Throttle, turnTimer: int): int
  {
    if turnTimer > th.threshold then th.frequency else th.frequencyCrit
  }

  /** Frequency for the creature counter: normal only while the counter is
      above the threshold and more than the threshold has elapsed. */
  function CreatureFrequency(th: Throttle, configured: int, creatureTimer: int): int
  {
    if creatureTimer > th.threshold && configured - creatureTimer > th.threshold
    then th.frequency else th.frequencyCrit
  }

  /** Only an active player is told, and only on a multiple of the frequency. */
  predicate ShouldBroadcast(status: PlayerStatus, value: int, frequency: int)
    requires frequency > 0
  {
    status == InGame && value % frequency == 0
  }

  /** At game start the player's timer becomes the configured one with an
      empty turn counter; nothing happens when timers are off. */
  function OnGameplayStart(timers: Timers, si: Option<StartInfo>, player: PlayerColor): (r: Timers)
    ensures si.Some? && si.value.isEnabled ==>
      var cfg := si.value.turnTimerInfo;
      var t := Timer(r, player);
      && t.turnTimer == 0
      && t.baseTimer == cfg.baseTimer
      && t.battleTimer == cfg.battleTimer
      && t.creatureTimer == cfg.creatureTimer
    ensures !(si.Some? && si.value.isEnabled) ==> r == timers
    ensures forall q :: q != player ==> Timer(r, q) == Timer(timers, q)
  {
    if si.Some? && si.value.isEnabled then
      timers[player := si.value.turnTimerInfo.(turnTimer := 0)]
    else timers
  }

  /** A new turn: the leftover of the last turn (possibly negative) is added
      to the base counter, the turn counter restarts from the configured
      value, battle counters stay, and the new timer is broadcast. */
  function OnPlayerGetTurn(timers: Timers, si: Option<StartInfo>, player: PlayerColor): (r: Transition)
    ensures si.Some? && si.value.isEnabled ==>
      var t := Timer(timers, player);
      var t' := Timer(r.timers, player);
      && t'.baseTimer + t'.turnTimer == t.baseTimer + t.turnTimer + si.value.turnTimerInfo.turnTimer
      && t'.turnTimer == si.value.turnTimerInfo.turnTimer
      && t'.battleTimer == t.battleTimer
      && t'.creatureTimer == t.creatureTimer
      && r.events == [Broadcast(player, t')]
    ensures !(si.Some? && si.value.isEnabled) ==> r == Transition(timers, [])
    ensures forall q :: q != player ==> Timer(r.timers, q) == Timer(timers, q)
  {
    if si.Some? && si.value.isEnabled then
      var t := Timer(timers, player);
      var t' := t.(baseTimer := t.baseTimer + t.turnTimer, turnTimer := si.value.turnTimerInfo.turnTimer);
      Transition(timers[player := t'], [Broadcast(player, t')])
    else Transition(timers, [])
  }

  /** The adventure-map timer runs: start info and game state exist, the
      player is human, timers are on and no battle is going on. */
  predicate TurnTimerRuns(si: Option<StartInfo>, gs: Option<GameState>, player: PlayerColor)
  {
    && si.Some? && gs.Some?
    && player in gs.value.players
    && gs.value.players[player].human
    && si.value.isEnabled
    && gs.value.curB.None?
  }

  /** A tick of `waitTime` ms while the player makes a turn. A running turn
      counter is decreased by exactly `waitTime`; a spent one is refilled
      from the whole base counter; when both are spent the turn is forcibly
      ended unless a query is pending. */
  function OnPlayerMakingTurn(
    timers: Timers, si: Option<StartInfo>, gs: Option<GameState>, player: PlayerColor,
    waitTime: int, th: Throttle, pendingQuery: bool): (r: Transition)
    requires ValidThrottle(th)
    requires si.Some? && gs.Some? ==> player in gs.value.players
    ensures !TurnTimerRuns(si, gs, player) ==> r == Transition(timers, [])
    ensures forall q :: q != player ==> Timer(r.timers, q) == Timer(timers, q)
    ensures TurnTimerRuns(si, gs, player) ==>
      var state := gs.value.players[player];
      var t := Timer(timers, player);
      var t' := Timer(r.timers, player);
      && (t.turnTimer > 0 ==>
            && t' == t.(turnTimer := t.turnTimer - waitTime)
            && r.events == if ShouldBroadcast(state.status, t'.turnTimer, TurnFrequency(th, t'.turnTimer))
                           then [Broadcast(state.color, t')] else [])
      && (t.turnTimer <= 0 && t.baseTimer > 0 ==>
            && t'.turnTimer == t.baseTimer && t'.baseTimer == 0
            && t'.battleTimer == t.battleTimer && t'.creatureTimer == t.creatureTimer
            && r.events == if ShouldBroadcast(state.status, t.baseTimer, TurnFrequency(th, t.baseTimer))
                           then [Broadcast(state.color, t')] else [])
      && (t.turnTimer <= 0 && t.baseTimer <= 0 ==>
            && r.timers == timers
            && r.events == if pendingQuery then [] else [EndTurn(state.color)])
    ensures forall e :: e in r.events && e.EndTurn? ==>
      && TurnTimerRuns(si, gs, player)
      && Timer(timers, player).turnTimer <= 0
      && Timer(timers, player).baseTimer <= 0
      && !pendingQuery
    decreases if Timer(timers, player).turnTimer <= 0 && Timer(timers, player).baseTimer > 0 then 1 else 0
  {
    if si.None? || gs.None? then Transition(timers, [])
    else
      var state := gs.value.players[player];
      if state.human && si.value.isEnabled && gs.value.curB.None? then
        var t := Timer(timers, player);
        if t.turnTimer > 0 then
          var t' := t.(turnTimer := t.turnTimer - waitTime);
          var frequency := TurnFrequency(th, t'.turnTimer);
          Transition(timers[player := t'],
                     if ShouldBroadcast(state.status, t'.turnTimer, frequency) then [Broadcast(state.color, t')] else [])
        else if t.baseTimer > 0 then
          OnPlayerMakingTurn(timers[player := t.(turnTimer := t.baseTimer, baseTimer := 0)],
                             si, gs, player, 0, th, pendingQuery)
        else if !pendingQuery then
          Transition(timers, [EndTurn(state.color)])
        else
          Transition(timers, [])
      else Transition(timers, [])
  }

  /** The battle timer runs: start info, game state and a battle exist, and
      battle timers are on. */
  predicate BattleTimerRuns(si: Option<StartInfo>, gs: Option<GameState>)
  {
    si.Some? && gs.Some? && gs.value.curB.Some? && si.value.isBattleEnabled
  }

  /** Resets the battle and creature counters of one side's player, when it is
      a valid player, and broadcasts them. */
  function ResetBattleTimers(tr: Transition, cfg: TurnTimerInfo, p: PlayerColor): (r: Transition)
    ensures !IsValidPlayer(p) ==> r == tr
    ensures IsValidPlayer(p) ==>
      var t := Timer(tr.timers, p);
      var t' := Timer(r.timers, p);
      && t' == t.(battleTimer := cfg.battleTimer, creatureTimer := cfg.creatureTimer)
      && r.events == tr.events + [Broadcast(p, t')]
    ensures forall q :: q != p ==> Timer(r.timers, q) == Timer(tr.timers, q)
  {
    if IsValidPlayer(p) then
      var t := Timer(tr.timers, p).(battleTimer := cfg.battleTimer, creatureTimer := cfg.creatureTimer);
      Transition(tr.timers[p := t], tr.events + [Broadcast(p, t)])
    else tr
  }

  /** At battle start both sides' valid players get the configured battle
      and creature counters, and their adventure-map counters are kept. */
  function OnBattleStart(timers: Timers, si: Option<StartInfo>, gs: Option<GameState>): (r: Transition)
    ensures !BattleTimerRuns(si, gs) ==> r == Transition(timers, [])
    ensures BattleTimerRuns(si, gs) ==>
      var b := gs.value.curB.value;
      var cfg := si.value.turnTimerInfo;
      && (forall p :: p in [b.attacker, b.defender] && IsValidPlayer(p) ==>
            var t := Timer(timers, p);
            Timer(r.timers, p) == t.(battleTimer := cfg.battleTimer, creatureTimer := cfg.creatureTimer))
      && (forall q :: q !in [b.attacker, b.defender] ==> Timer(r.timers, q) == Timer(timers, q))
      && |r.events| == (if IsValidPlayer(b.attacker) then 1 else 0) + (if IsValidPlayer(b.defender) then 1 else 0)
      && (forall e :: e in r.events ==> e.Broadcast? && e.timer == Timer(r.timers, e.player))
      && r.events == (if IsValidPlayer(b.attacker) then [Broadcast(b.attacker, Timer(r.timers, b.attacker))] else [])
                     + (if IsValidPlayer(b.defender) then [Broadcast(b.defender, Timer(r.timers, b.defender))] else [])
  {
    if !BattleTimerRuns(si, gs) then Transition(timers, [])
    else
      var b := gs.value.curB.value;
      var cfg := si.value.turnTimerInfo;
      var afterAttacker := ResetBattleTimers(Transition(timers, []), cfg, b.attacker);
      ResetBattleTimers(afterAttacker, cfg, b.defender)
  }

  /** A new stack gets to act. If the player's battle counter is below the
      configured one, the unused creature time becomes the battle counter;
      the creature counter always restarts from the configured value. */
  function OnBattleNextStack(timers: Timers, si: Option<StartInfo>, gs: Option<GameState>, stack: Stack): (r: Transition)
    ensures !(BattleTimerRuns(si, gs) && IsValidPlayer(stack.owner)) ==> r == Transition(timers, [])
    ensures BattleTimerRuns(si, gs) && IsValidPlayer(stack.owner) ==>
      var cfg := si.value.turnTimerInfo;
      var t := Timer(timers, stack.owner);
      var t' := Timer(r.timers, stack.owner);
      && t'.battleTimer == (if t.battleTimer < cfg.battleTimer then t.creatureTimer else t.battleTimer)
      && t'.creatureTimer == cfg.creatureTimer
      && t'.turnTimer == t.turnTimer && t'.baseTimer == t.baseTimer
      && r.events == [Broadcast(stack.owner, t')]
    ensures forall q :: q != stack.owner ==> Timer(r.timers, q) == Timer(timers, q)
  {
    if !BattleTimerRuns(si, gs) || !IsValidPlayer(stack.owner) then Transition(timers, [])
    else
      var cfg := si.value.turnTimerInfo;
      var t := Timer(timers, stack.owner);
      var t1 := if t.battleTimer < cfg.battleTimer then t.(battleTimer := t.creatureTimer) else t;
      var t2 := t1.(creatureTimer := cfg.creatureTimer);
      Transition(timers[stack.owner := t2], [Broadcast(stack.owner, t2)])
  }

  /** The update applier for a running creature counter: decrease it by
      `waitTime` and broadcast it when the throttle says so. */
  function ApplyCreatureWait(
    t: TurnTimerInfo, waitTime: int, configured: int, th: Throttle, state: PlayerState): (r: (TurnTimerInfo, seq<Event>))
    requires ValidThrottle(th)
    requires t.creatureTimer > 0
    ensures r.0 == t.(creatureTimer := t.creatureTimer - waitTime)
    ensures r.1 == [] || r.1 == [Broadcast(state.color, r.0)]
    ensures r.1 != [] <==> ShouldBroadcast(state.status, r.0.creatureTimer, CreatureFrequency(th, configured, r.0.creatureTimer))
  {
    var t' := t.(creatureTimer := t.creatureTimer - waitTime);
    var frequency := CreatureFrequency(th, configured, t'.creatureTimer);
    (t', if ShouldBroadcast(state.status, t'.creatureTimer, frequency) then [Broadcast(state.color, t')] else [])
  }

  /** The battle timer runs for the active stack: there is one, it has a
      valid owner, its side's player is human and battle timers are on. */
  predicate BattleLoopRuns(si: Option<StartInfo>, gs: Option<GameState>)
  {
    && si.Some? && gs.Some? && gs.value.curB.Some?
    && gs.value.curB.value.activeStack.Some?
    && IsValidPlayer(gs.value.curB.value.activeStack.value.owner)
    && SidePlayer(gs.value.curB.value, gs.value.curB.value.activeStack.value.unitSide) in gs.value.players
    && gs.value.players[SidePlayer(gs.value.curB.value, gs.value.curB.value.activeStack.value.unitSide)].human
    && si.value.isBattleEnabled
  }

  /** The player state of the side whose stack is acting. */
  function ActingPlayer(gs: GameState): PlayerState
    requires gs.curB.Some? && gs.curB.value.activeStack.Some?
    requires SidePlayer(gs.curB.value, gs.curB.value.activeStack.value.unitSide) in gs.players
  {
    gs.players[SidePlayer(gs.curB.value, gs.curB.value.activeStack.value.unitSide)]
  }

  /** A battle tick of `waitTime` ms. A running creature counter is decreased
      by exactly `waitTime`; a spent one is refilled from the whole battle
      counter; when both are spent exactly one DEFEND action is issued for
      the active stack. */
  function OnBattleLoop(
    timers: Timers, si: Option<StartInfo>, gs: Option<GameState>, waitTime: int, th: Throttle): (r: Transition)
    requires ValidThrottle(th)
    requires si.Some? && gs.Some? && gs.value.curB.Some? && gs.value.curB.value.activeStack.Some?
             && IsValidPlayer(gs.value.curB.value.activeStack.value.owner)
             ==> SidePlayer(gs.value.curB.value, gs.value.curB.value.activeStack.value.unitSide) in gs.value.players
    ensures !BattleLoopRuns(si, gs) ==> r == Transition(timers, [])
    ensures BattleLoopRuns(si, gs) ==>
      var state := ActingPlayer(gs.value);
      var stack := gs.value.curB.value.activeStack.value;
      var cfg := si.value.turnTimerInfo;
      var t := Timer(timers, state.color);
      var t' := Timer(r.timers, state.color);
      && (forall q :: q != state.color ==> Timer(r.timers, q) == Timer(timers, q))
      && (t.creatureTimer > 0 ==>
            && t' == t.(creatureTimer := t.creatureTimer - waitTime)
            && (r.events == [] || r.events == [Broadcast(state.color, t')])
            && (r.events != [] <==> ShouldBroadcast(state.status, t'.creatureTimer,
                                                    CreatureFrequency(th, cfg.creatureTimer, t'.creatureTimer))))
      && (t.creatureTimer <= 0 && t.battleTimer > 0 ==>
            && t' == t.(creatureTimer := t.battleTimer, battleTimer := 0)
            && (r.events == [] || r.events == [Broadcast(state.color, t')])
            && (r.events != [] <==> ShouldBroadcast(state.status, t.battleTimer,
                                                    CreatureFrequency(th, cfg.creatureTimer, t.battleTimer))))
      && (t.creatureTimer <= 0 && t.battleTimer <= 0 ==>
            && r.timers == timers
            && r.events == [Defend(state.color, stack.unitSide, stack.unitId)])
  {
    if si.None? || gs.None? || gs.value.curB.None? then Transition(timers, [])
    else
      var b := gs.value.curB.value;
      match b.activeStack
      case None => Transition(timers, [])
      case Some(stack) =>
        if !IsValidPlayer(stack.owner) then Transition(timers, [])
        else
          var state := gs.value.players[SidePlayer(b, stack.unitSide)];
          var configured := si.value.turnTimerInfo.creatureTimer;
          if state.human && si.value.isBattleEnabled then
            var t := Timer(timers, state.color);
            if t.creatureTimer > 0 then
              var (t', events) := ApplyCreatureWait(t, waitTime, configured, th, state);
              Transition(timers[state.color := t'], events)
            else if t.battleTimer > 0 then
              var refilled := t.(creatureTimer := t.battleTimer, battleTimer := 0);
              var (t', events) := ApplyCreatureWait(refilled, 0, configured, th, state);
              Transition(timers[state.color := t'], events)
            else
              Transition(timers, [Defend(state.color, stack.unitSide, stack.unitId)])
          else Transition(timers, [])
  }
}
