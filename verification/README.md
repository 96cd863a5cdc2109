# VCMI: Nullkiller edge-expansion rule and turn timer handler, in Dafny

This project models two independent decision components of the VCMI engine.

1. **`AIMovementAfterDestinationRule`** is the Nullkiller AI's pathfinder rule.
   The search engine calls it once for each candidate edge. The rule asks why the
   destination blocks the move (guarded, visitable blocker, visit, hard blocker).
   It then picks a bypass resolver:
   - a free pass past guards already fought at the source;
   - a quest gate that only records a pending quest check;
   - a fight.

   For a fight, it forks the destination into a *battle node*. It accepts the fight
   only when the projected loss is strictly below the army value left. Finally it
   writes `blocked` and `locked` on the (possibly redirected) destination.
2. **`TurnTimerHandler`** is the server's per-player countdown. It keeps four
   counters per player (base, turn, battle, creature) and drives them from game
   callbacks. The handler broadcasts the timers at a throttled rate, forces the end
   of a turn, and forces a DEFEND when a clock runs out.

Both components are pure transition functions over immutable records:

- The node storage's arena is a `map<NodeRef, PathNode>`.
- The timer table is a `map<PlayerColor, TurnTimerInfo>`.
- Every callback returns the new state together with what it emitted.

Collaborators the code calls but does not define are parameters. For the AI rule
they are function-valued fields of `Env`: `getBlockingReason`, `isMovementIneficient`,
`isDistanceLimitReached`, `getGuardingCreatures`, `isObjectRemovable`,
`getOrCreateNode`, `evaluateDanger` and `evaluateArmyLoss`. For the timers they are
the start info, game state, pending-query flag and throttle constants.

Files:

- `optional.dfy`: the optional type.
- `path_nodes.dfy`: `uint64_t` arithmetic, nodes and edge descriptors.
- `guards.dfy`: guard de-duplication.
- `movement_rule.dfy`: the rule.
- `movement_rule_properties.dfy`: multi-call lemmas and concrete scenarios for the rule.
- `turn_timer.dfy`: the handler.
- `turn_timer_properties.dfy`: multi-call lemmas for the handler.

Three behaviours of the code that are easy to misread:

- **The lock is not monotonic.** Line 73 of the rule assigns `locked = !allowBypass`,
  so a locked destination that resolves to "allow" is unlocked again
  (`MovementRuleProperties.LockIsRewritten`).
- **`onBattleNextStack` tests the battle counter, not the creature counter.** It
  copies the creature counter into the battle counter when the *battle* counter is
  below its configured value (which is how the battle time lent to a creature comes
  back, `RefillThenNextStackKeepsBattleTime`). It does not test whether the creature
  counter was spent.
- **The distance-limit test sees the resolver's state.** It runs on the resolver's
  arena and the possibly redirected destination, before the lock is written.

## Model

| member | source | states |
|---|---|---|
| MovementAfterDestinationRule.Process | AI/Nullkiller/Pathfinding/Rules/AIMovementAfterDestinationRule.cpp:25-74 | An inefficient move exactly locks the destination node and blocks the edge, and nothing else changes (the reason is not consulted). Reason NONE leaves everything untouched. Otherwise the final (possibly redirected) destination node is locked iff the bypass was refused, the edge is blocked iff refused or the distance limit is reached, and locked implies blocked |
| MovementAfterDestinationRule.Resolve | AI/Nullkiller/Pathfinding/Rules/AIMovementAfterDestinationRule.cpp:43-70 | VISIT always allows with no write. BLOCKED allows iff an enemy hero stands there and the fight is accepted. BLOCKVIS without an object denies. BLOCKVIS allows only if the object is bypassed, and the guards are re-checked exactly when the object was bypassed and guards are present |
| MovementAfterDestinationRule.BypassBlocker | AI/Nullkiller/Pathfinding/Rules/AIMovementAfterDestinationRule.cpp:76-90 | A hard blocker is passed iff the hero there is an enemy and the fight is accepted; without an enemy hero nothing is written |
| MovementAfterDestinationRule.BypassRemovableObject | AI/Nullkiller/Pathfinding/Rules/AIMovementAfterDestinationRule.cpp:92-135 | A quest guard with mission NONE denies. Other quest gates (quest guard, border guard, border gate) allow, and attach a quest action for this object at this tile exactly when the object is unvisited or the quest check fails. A non-gate object allows iff an enemy hero is there, or it is removable, or the node's hero is the hero standing there. Only the destination node's special action can change |
| MovementAfterDestinationRule.BypassDestinationGuards | AI/Nullkiller/Pathfinding/Rules/AIMovementAfterDestinationRule.cpp:137-173 | No destination guard denies. Every destination guard already guarding the non-empty source, with an actor allowed to fight, allows with no write. Every other case is decided by the fight |
| MovementAfterDestinationRule.BypassBattle | AI/Nullkiller/Pathfinding/Rules/AIMovementAfterDestinationRule.cpp:175-241 | Accepted iff the battle node exists, is unlocked, and the projected loss is strictly below `armyValue - armyLoss` (wrapping `uint64_t`). A refusal writes nothing. An acceptance redirects the destination to the battle node, adds the loss to its army loss (`uint64_t`), raises its danger to the maximum, attaches a battle action at the destination tile, and leaves every other field and node as it was |
| Guards.Remaining | AI/Nullkiller/Pathfinding/Rules/AIMovementAfterDestinationRule.cpp:153-156 | Erasing the source guards keeps exactly the destination guards that are not source guards, each as often as it occurred |
| Guards.RemainingEmptyIff | AI/Nullkiller/Pathfinding/Rules/AIMovementAfterDestinationRule.cpp:153-158 | Nothing remains after erasure iff every destination guard is a source guard |
| MovementRuleProperties.RemainingIdempotent | AI/Nullkiller/Pathfinding/Rules/AIMovementAfterDestinationRule.cpp:153-156 | Erasing the source guards twice is the same as erasing them once |
| MovementRuleProperties.RemainingWithoutSourceGuards | AI/Nullkiller/Pathfinding/Rules/AIMovementAfterDestinationRule.cpp:153-156 | With an unguarded source every destination guard remains, in order |
| MovementRuleProperties.GuardsFoughtAtSourcePassFree | AI/Nullkiller/Pathfinding/Rules/AIMovementAfterDestinationRule.cpp:158-170 | Guards already fought at the source let the edge through with no redirect and no loss or danger recorded; only the lock is cleared |
| MovementRuleProperties.EqualLossDenied | AI/Nullkiller/Pathfinding/Rules/AIMovementAfterDestinationRule.cpp:217 | A projected loss equal to the army left is refused and writes nothing |
| MovementRuleProperties.AcceptanceWithoutWrapAround | AI/Nullkiller/Pathfinding/Rules/AIMovementAfterDestinationRule.cpp:212-217 | While the path's loss does not exceed the army value, a fight is accepted iff loss so far plus projected loss is strictly below the army value |
| MovementRuleProperties.AcceptanceAfterWrapAround | AI/Nullkiller/Pathfinding/Rules/AIMovementAfterDestinationRule.cpp:214-217 | Once the path's loss exceeds the army value the subtraction wraps, and any projected loss below 2^64 minus the path's loss is accepted |
| MovementRuleProperties.BattleNodeStaysOpen | AI/Nullkiller/Pathfinding/Rules/AIMovementAfterDestinationRule.cpp:199-228 | An accepted fight leaves the battle node unlocked, so another path may fight into it again |
| MovementRuleProperties.RepeatedBattlesAccumulate | AI/Nullkiller/Pathfinding/Rules/AIMovementAfterDestinationRule.cpp:222-224 | Two accepted fights into one battle node add their losses (absent overflow) and keep the worst danger, and the later battle action wins; the sum relies on `commit` and the predecessor rule leaving the node record as it is (see Left out) |
| MovementRuleProperties.LockIsRewritten | AI/Nullkiller/Pathfinding/Rules/AIMovementAfterDestinationRule.cpp:61-73 | A locked destination that is merely visited ends unlocked: the lock is not monotonic |
| MovementRuleProperties.RedirectKeepsOriginalNode | AI/Nullkiller/Pathfinding/Rules/AIMovementAfterDestinationRule.cpp:48-73 | When a guarded edge is redirected to a battle node, the bypass was allowed and the original node is left exactly as it was |
| MovementRuleProperties.ScenarioFightAccepted | AI/Nullkiller/Pathfinding/Rules/AIMovementAfterDestinationRule.cpp:43-73 | Army 200, danger 40, loss 50, one new guard: the fight is accepted into a battle node with loss 50, danger 40 and a battle action at the tile; the edge is open and the original node unlocked |
| MovementRuleProperties.ScenarioTotalLossDenied | AI/Nullkiller/Pathfinding/Rules/AIMovementAfterDestinationRule.cpp:213-240 | Army 200 and projected loss 200: refused, the edge is blocked, the destination locked and not redirected, and the battle node untouched |
| MovementRuleProperties.ScenarioNearTotalLossAccepted | AI/Nullkiller/Pathfinding/Rules/AIMovementAfterDestinationRule.cpp:217 | Army 200 and projected loss 199: accepted |
| MovementRuleProperties.TrivialQuestGuardDenied | AI/Nullkiller/Pathfinding/Rules/AIMovementAfterDestinationRule.cpp:105-108 | A quest guard with no mission blocks and locks the edge, whatever its visit and quest state |
| TurnTimerHandler.OnGameplayStart | server/TurnTimerHandler.cpp:29-39 | With timers on, the player's timer becomes the configured one with an empty turn counter. With timers off or no start info nothing changes. Other players are untouched |
| TurnTimerHandler.OnPlayerGetTurn | server/TurnTimerHandler.cpp:41-56 | The base counter absorbs the leftover (possibly negative) turn counter, so base plus turn grows by exactly the configured turn time. The turn counter restarts from the configured value, the battle counters are kept, and one broadcast of the new timer goes out |
| TurnTimerHandler.OnPlayerMakingTurn | server/TurnTimerHandler.cpp:58-92 | A no-op unless the player is human, timers are on and no battle runs. A running turn counter drops by exactly `waitTime` with nothing else changed. A spent turn counter takes the whole base counter and the base becomes 0. A broadcast happens only when in game and the new counter is a multiple of the frequency (critical at or below the threshold). An end of turn is forced only with both counters spent and no pending query |
| TurnTimerHandler.ResetBattleTimers | server/TurnTimerHandler.cpp:104-116 | A valid side player's battle and creature counters are set to the configured values and broadcast; an invalid one changes nothing |
| TurnTimerHandler.OnBattleStart | server/TurnTimerHandler.cpp:94-117 | With battle timers on, each valid side player gets the configured battle and creature counters and keeps its other counters. The events are exactly one broadcast to the attacker (if valid) then one to the defender (if valid), each carrying that player's new timer. No other player changes |
| TurnTimerHandler.OnBattleNextStack | server/TurnTimerHandler.cpp:119-139 | For a valid owner, the battle counter becomes the creature counter exactly when it is below its configured value. The creature counter always restarts from its configured value, the turn counters are kept, and one broadcast goes out |
| TurnTimerHandler.ApplyCreatureWait | server/TurnTimerHandler.cpp:154-174 | A running creature counter drops by exactly `waitTime`. It is broadcast iff in game and it is a multiple of the frequency, which is normal only above the threshold with more than the threshold elapsed |
| TurnTimerHandler.OnBattleLoop | server/TurnTimerHandler.cpp:141-196 | For a human side with battle timers on, a running creature counter drops by `waitTime`. A spent one takes the whole battle counter and the battle counter becomes 0. Either way a broadcast happens iff in game and the new creature counter is a multiple of the creature frequency. With both spent, exactly one DEFEND is issued for the active stack and nothing changes. Other players are untouched |
| TurnTimerProperties.FirstTurnGetsConfiguredTimer | server/TurnTimerHandler.cpp:29-56 | Game start followed by the first turn leaves the player with exactly the configured timer |
| TurnTimerProperties.TurnTickNeverRaisesBudget | server/TurnTimerHandler.cpp:62-88 | A tick never adds adventure-map time, and a tick of a running turn counter removes some |
| TurnTimerProperties.TurnEventuallyForcedToEnd | server/TurnTimerHandler.cpp:62-90 | With a running clock and no pending query, ticks of at least 1 ms force the end of the turn within the ticks the counters allow |
| TurnTimerProperties.BattleEventuallyDefends | server/TurnTimerHandler.cpp:154-193 | With a running battle clock, ticks of at least 1 ms force a DEFEND of the active stack within the ticks the counters allow |
| TurnTimerProperties.RefillThenNextStackKeepsBattleTime | server/TurnTimerHandler.cpp:131-133 | Battle time moved into a spent creature counter comes back to the battle counter when the next stack acts |
| TurnTimerProperties.BroadcastSkippedWhenTickExceedsFrequency | server/TurnTimerHandler.cpp:71-75 | The throttle tests only the new counter: 1500 ms down by 1000 ms passes a multiple of 1000 without a broadcast |

## Left out

- Trace logging under `PATHFINDER_TRACE_LEVEL`: it has no effect on behaviour.
- `nodeStorage->commit` and `AIPreviousNodeRule::process` are modelled as leaving the battle node record as it is. They are search-engine bookkeeping (predecessor and cost) outside these files.
- `getBlockingReason`, `isMovementIneficient`, `isDistanceLimitReached`, `getGuardingCreatures`, `isObjectRemovable`, `getOrCreateNode`, `evaluateDanger` and `evaluateArmyLoss` are not defined in these files. They are opaque functions supplied in `Env`.
- `getOrCreateNode` is taken to hand out handles of the arena only (`StorageClosed`). This matches a node storage whose nodes are preallocated.
- The cast to a quest object, `wasVisited` and `checkQuest` are replaced by a tagged object kind and two flags of the object record. The flags are as seen by the searching hero.
- `gameHandler.sendAndApply`, `turnOrder->onPlayerEndsTurn` and `battles->makePlayerBattleAction` appear only as emitted `Broadcast`, `EndTurn` and `Defend` events. `queries->topQuery` is a boolean input.
- Game-state lookups (`gs->players.at`, `curB`, stack by ID, side player) are plain inputs. A missing player entry, which throws `std::out_of_range` in the code, is excluded by `requires`.
- `TurnTimerInfo::isEnabled` and `isBattleEnabled` are not defined in these files. They are flags of the start info.
- `std::map::operator[]` inserting a zero timer on first read is not reproduced. Reads of an absent player yield the zero timer instead, which is observably the same.
- TurnTimerHandler.OnPlayerMakingTurn: does not model 32-bit `int` wrap-around of the counters. Millisecond budgets are taken to stay within range.
- TurnTimerHandler.OnPlayerGetTurn: does not model 32-bit `int` wrap-around of `baseTimer += turnTimer`.
- TurnTimerHandler.OnBattleLoop: does not model 32-bit `int` wrap-around of the creature counter.
- The throttle constants `turnTimePropagateThreshold`, `turnTimePropagateFrequency` and `turnTimePropagateFrequencyCrit` are defined outside these files. They are a `Throttle` parameter with positive frequencies.
