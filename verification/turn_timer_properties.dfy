/** Properties of the timer handler that relate several callbacks: the first
    turn's budget, the guarantee that a running clock eventually forces the
    end of a turn or a DEFEND, and the return of unused battle time. */
module TurnTimerProperties {
  import opened Optional
  import opened TurnTimerHandler

  /** Starting the game and then the first turn gives the player exactly the
      configured timer. */
  lemma FirstTurnGetsConfiguredTimer(timers: Timers, si: Option<StartInfo>, player: PlayerColor)
    requires si.Some? && si.value.isEnabled
    ensures Timer(OnPlayerGetTurn(OnGameplayStart(timers, si, player), si, player).timers, player)
            == si.value.turnTimerInfo
  {
  }

  /** Time left to the player on the adventure map, counting only positive
      counters. */
  function TurnBudget(t: TurnTimerInfo): nat
  {
    (if t.turnTimer > 0 then t.turnTimer else 0) + (if t.baseTimer > 0 then t.baseTimer else 0)
  }

  /** A tick never adds time, and a tick of a running turn counter removes
      some. */
  lemma TurnTickNeverRaisesBudget(
    timers: Timers, si: Option<StartInfo>, gs: Option<GameState>, player: PlayerColor,
    waitTime: int, th: Throttle, pendingQuery: bool)
    requires ValidThrottle(th)
    requires si.Some? && gs.Some? ==> player in gs.value.players
    requires waitTime >= 0
    ensures var t' := Timer(OnPlayerMakingTurn(timers, si, gs, player, waitTime, th, pendingQuery).timers, player);
      && TurnBudget(t') <= TurnBudget(Timer(timers, player))
      && (TurnTimerRuns(si, gs, player) && Timer(timers, player).turnTimer > 0 && waitTime > 0
          ==> TurnBudget(t') < TurnBudget(Timer(timers, player)))
  {
  }

  /** `n` ticks of `waitTime` ms each, with everything else held fixed. */
  function RunTurnTicks(
    timers: Timers, si: Option<StartInfo>, gs: Option<GameState>, player: PlayerColor,
    waitTime: int, th: Throttle, pendingQuery: bool, n: nat): Transition
    requires ValidThrottle(th)
    requires si.Some? && gs.Some? ==> player in gs.value.players
    decreases n
  {
    if n == 0 then Transition(timers, [])
    else
      var step := OnPlayerMakingTurn(timers, si, gs, player, waitTime, th, pendingQuery);
      var rest := RunTurnTicks(step.timers, si, gs, player, waitTime, th, pendingQuery, n - 1);
      Transition(rest.timers, step.events + rest.events)
  }

  /** Ticks left before the turn counter and the base counter are both
      spent: each tick takes at least one, refilling from the base takes one. */
  function TurnTicksLeft(t: TurnTimerInfo): nat
  {
    TurnBudget(t) + (if t.baseTimer > 0 then 1 else 0)
  }

  /** A human player on a running clock with no pending query is forced to
      end the turn within the ticks its counters allow. */
  lemma {:induction false} TurnEventuallyForcedToEnd(
    timers: Timers, si: Option<StartInfo>, gs: Option<GameState>, player: PlayerColor,
    waitTime: int, th: Throttle, n: nat)
    requires ValidThrottle(th)
    requires TurnTimerRuns(si, gs, player)
    requires waitTime >= 1
    requires n >= TurnTicksLeft(Timer(timers, player)) + 1
    ensures EndTurn(gs.value.players[player].color) in RunTurnTicks(timers, si, gs, player, waitTime, th, false, n).events
    decreases n
  {
    var step := OnPlayerMakingTurn(timers, si, gs, player, waitTime, th, false);
    var rest := RunTurnTicks(step.timers, si, gs, player, waitTime, th, false, n - 1);
    assert RunTurnTicks(timers, si, gs, player, waitTime, th, false, n).events == step.events + rest.events;
    var t := Timer(timers, player);
    if t.turnTimer <= 0 && t.baseTimer <= 0 {
      assert step.events == [EndTurn(gs.value.players[player].color)];
    } else {
      assert TurnTicksLeft(Timer(step.timers, player)) < TurnTicksLeft(t);
      TurnEventuallyForcedToEnd(step.timers, si, gs, player, waitTime, th, n - 1);
    }
  }

  /** `n` battle ticks of `waitTime` ms each, with everything else held fixed. */
  function RunBattleTicks(
    timers: Timers, si: Option<StartInfo>, gs: Option<GameState>, waitTime: int, th: Throttle, n: nat): Transition
    requires ValidThrottle(th)
    requires BattleLoopRuns(si, gs)
    decreases n
  {
    if n == 0 then Transition(timers, [])
    else
      var step := OnBattleLoop(timers, si, gs, waitTime, th);
      var rest := RunBattleTicks(step.timers, si, gs, waitTime, th, n - 1);
      Transition(rest.timers, step.events + rest.events)
  }

  function BattleTicksLeft(t: TurnTimerInfo): nat
  {
    (if t.creatureTimer > 0 then t.creatureTimer else 0)
    + (if t.battleTimer > 0 then t.battleTimer + 1 else 0)
  }

  /** A human side whose clock runs is made to DEFEND with the active stack
      within the ticks its creature and battle counters allow. */
  lemma {:induction false} BattleEventuallyDefends(
    timers: Timers, si: Option<StartInfo>, gs: Option<GameState>, waitTime: int, th: Throttle, n: nat)
    requires ValidThrottle(th)
    requires BattleLoopRuns(si, gs)
    requires waitTime >= 1
    requires n >= BattleTicksLeft(Timer(timers, ActingPlayer(gs.value).color)) + 1
    ensures var stack := gs.value.curB.value.activeStack.value;
      Defend(ActingPlayer(gs.value).color, stack.unitSide, stack.unitId) in RunBattleTicks(timers, si, gs, waitTime, th, n).events
    decreases n
  {
    var c := ActingPlayer(gs.value).color;
    var stack := gs.value.curB.value.activeStack.value;
    var step := OnBattleLoop(timers, si, gs, waitTime, th);
    var rest := RunBattleTicks(step.timers, si, gs, waitTime, th, n - 1);
    assert RunBattleTicks(timers, si, gs, waitTime, th, n).events == step.events + rest.events;
    var t := Timer(timers, c);
    if t.creatureTimer <= 0 && t.battleTimer <= 0 {
      assert step.events == [Defend(c, stack.unitSide, stack.unitId)];
    } else {
      assert BattleTicksLeft(Timer(step.timers, c)) < BattleTicksLeft(t);
      BattleEventuallyDefends(step.timers, si, gs, waitTime, th, n - 1);
    }
  }

  /** Battle time moved into a spent creature counter is handed back to the
      battle counter when the next stack acts: no battle time is lost when a
      stack finishes right after the refill. */
  lemma RefillThenNextStackKeepsBattleTime(
    timers: Timers, si: Option<StartInfo>, gs: Option<GameState>, waitTime: int, th: Throttle)
    requires ValidThrottle(th)
    requires BattleLoopRuns(si, gs)
    requires gs.value.curB.value.activeStack.value.owner == ActingPlayer(gs.value).color
    requires si.value.turnTimerInfo.battleTimer > 0
    requires Timer(timers, ActingPlayer(gs.value).color).creatureTimer <= 0
    requires Timer(timers, ActingPlayer(gs.value).color).battleTimer > 0
    ensures
      var c := ActingPlayer(gs.value).color;
      var r := OnBattleNextStack(OnBattleLoop(timers, si, gs, waitTime, th).timers, si, gs,
                                 gs.value.curB.value.activeStack.value);
      && Timer(r.timers, c).battleTimer == Timer(timers, c).battleTimer
      && Timer(r.timers, c).creatureTimer == si.value.turnTimerInfo.creatureTimer
  {
  }

  /** The throttle tests divisibility of the new counter only, so a tick
      longer than the frequency can step over a multiple unannounced:
      1500 ms down by 1000 ms passes 1000 without a broadcast. */
  lemma BroadcastSkippedWhenTickExceedsFrequency()
    ensures
      var p := Player(0);
      var gs := GameState(map[p := PlayerState(p, true, InGame)], None);
      var si := StartInfo(TurnTimerInfo(120000, 0, 0, 0), true, false);
      var r := OnPlayerMakingTurn(map[p := TurnTimerInfo(1500, 0, 0, 0)], Some(si), Some(gs), p,
                                  1000, Throttle(3000, 5000, 1000), false);
      && Timer(r.timers, p).turnTimer == 500
      && r.events == []
  {
  }
}
