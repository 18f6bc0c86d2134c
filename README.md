# Borean Tundra scripted controllers

A model of the tick-driven state machines in the Borean Tundra zone script
of a World of Warcraft server emulator. Each of these controllers keeps a
phase counter and a `uint32` countdown, or an `EventMap` of delayed events.
The engine advances them by an elapsed-time `diff` once per `UpdateAI`, and
other actors can poke them through hooks such as `MovementInform`,
`SetGUID` and `SpellHit`.

- **Thassarian** (quest "Last Rites", `thassarian.dfy`):
  - a 17-row phase table with sequences 1→…→6→0, 7→…→15→0 and 16→17→0;
  - the countdown rule "fire when `phaseTimer <= diff`, else subtract";
  - two gates that open when pairs of peer actors have reported in position.
- **The peers** (`peers.dfy`): the Image of the Lich King, General Arlos
  and Counselor Talbot. Each one reports its arrival by writing a flag into
  Thassarian's controller. Talbot's death also releases Leryssa.
- **Leryssa** (`leryssa.dfy`): a two-stage `MovementInform` and a
  seven-phase dialogue whose last step writes phase 16 into Thassarian.
- **Cross-actor scenarios** (`last_rites.dfy`): clients that drive several
  controllers through their contracts alone.
- **The hidden cultists** (`cultist.dfy`): a three-branch phase machine that
  depends on the creature's entry, behind a "non-zero countdown" guard.
- **The caribou trap** (`caribou_trap.dfy`): armed once by a player's spell,
  then a linear chain of eight delayed events, drained by a `while` loop.
- **Bloodmage Laurith** (`laurith.dfy`): a "first caller wins" latch and a
  two-event chain, with at most one event executed per tick.
- **Neural needles** (`neural_needle.dfy`): pure maps from aura stack count
  to whisper line.

**How the engine appears in the model** (`engine.dfy`):
- Every call the controllers make into the engine (talk, cast, summon, move,
  despawn, faction and flag setters) is appended as an `Action` tag to the
  controller's `log`.
- An object lookup is `Resolve(guid, live)` against a set of live object ids.
- A summon's result is an `ObjectGuid` parameter, where `Empty` means the
  summon failed.
- A peer's `GetSummonerUnit` is a nullable reference to the Thassarian
  controller.

**How the controllers are modelled:**
- Each controller is a `class` whose methods update its fields in place.
- Each such method is specified by a pure function of the old state
  (`Tick` and its state part `TickState`, `DialogueTick`, `CultistTick`, `TrapUpdate`, `LaurithUpdate`).
- The lemmas about those functions state what the script promises:
  - which sequences the phases run through, and how long they take;
  - that single flags wait;
  - that the latch holds;
  - that the trap chain fires once, in order;
  - that one event fires per tick.

`EventMap` is defined in a file that is not part of this model. The model
(`event_map.dfy`) gives it the contract its callers here rely on:
- a running clock;
- pending events kept in deadline order;
- `ExecuteEvent` hands out the earliest ready event once, or 0 when none is
  ready.

## Model

| member | source | states |
|---|---|---|
| Engine.Sub32 | src/server/scripts/Northrend/zone_borean_tundra.cpp:1261 | `uint32` subtraction: exact when `b <= a`, otherwise wraps to 2^32 + a - b |
| EventMaps.InsertPos | src/server/scripts/Northrend/zone_borean_tundra.cpp:85 | the insertion point: every event before it is due no later than the new one, and the event at it is due strictly later |
| EventMaps.Insert | src/server/scripts/Northrend/zone_borean_tundra.cpp:85 | scheduling grows the queue by exactly one entry |
| EventMaps.InsertAddsEntry | src/server/scripts/Northrend/zone_borean_tundra.cpp:85 | scheduling adds exactly the new event (as a multiset) and loses none |
| EventMaps.InsertIsFifo | src/server/scripts/Northrend/zone_borean_tundra.cpp:1412 | a new event goes after every pending event due no later than it, so equal deadlines run in scheduling order |
| EventMaps.InsertKeepsSorted | src/server/scripts/Northrend/zone_borean_tundra.cpp:1391 | scheduling keeps the queue in deadline order; the new head is the new event or the old head |
| EventMaps.ReadyCount | src/server/scripts/Northrend/zone_borean_tundra.cpp:96 | the number of ready events is at most the number pending |
| EventMaps.InsertLaterKeepsReady | src/server/scripts/Northrend/zone_borean_tundra.cpp:103 | an event scheduled for later than now adds nothing to what is ready now |
| EventMaps.ReadyIffHeadReady | src/server/scripts/Northrend/zone_borean_tundra.cpp:1404 | in a sorted queue something is ready exactly when the head is |
| EventMaps.NothingReadyBeforeHead | src/server/scripts/Northrend/zone_borean_tundra.cpp:1404 | when every pending deadline is in the future, nothing is ready |
| EventMaps.ReadyMonotone | src/server/scripts/Northrend/zone_borean_tundra.cpp:94 | advancing the clock never makes a ready event unready |
| EventMaps.EventMap.constructor | src/server/scripts/Northrend/zone_borean_tundra.cpp:65 | a new queue is empty with its clock at 0 |
| EventMaps.EventMap.Reset | src/server/scripts/Northrend/zone_borean_tundra.cpp:1377 | `Reset` drops every pending event |
| EventMaps.EventMap.ScheduleEvent | src/server/scripts/Northrend/zone_borean_tundra.cpp:85 | the event is inserted due `delay` after the current clock, in FIFO deadline order; the queue stays sorted |
| EventMaps.EventMap.Update | src/server/scripts/Northrend/zone_borean_tundra.cpp:94 | the clock advances by `diff`; nothing pending changes |
| EventMaps.EventMap.ExecuteEvent | src/server/scripts/Northrend/zone_borean_tundra.cpp:96 | returns and removes the head exactly when it is ready, otherwise returns 0 and changes nothing; the ready count drops by one per event returned |
| ThassarianScript.PhaseStep | src/server/scripts/Northrend/zone_borean_tundra.cpp:352-498 | phases 1..17 have a step; 6, 15 and 17 return to 0 and every other step goes to the next phase; only 13 and 15 leave the countdown alone |
| ThassarianScript.Chain | src/server/scripts/Northrend/zone_borean_tundra.cpp:352-498 | the phases a sequence runs through from `p` are consecutive, and their number is given in closed form; the last of them steps back to 0 |
| ThassarianScript.StagingSequence | src/server/scripts/Northrend/zone_borean_tundra.cpp:354-411 | staging runs 1, 2, 3, 4, 5, 6 and then is back at 0 |
| ThassarianScript.ConfrontationSequence | src/server/scripts/Northrend/zone_borean_tundra.cpp:413-479 | the confrontation runs 7 through 15 and then is back at 0 |
| ThassarianScript.ClosingSequence | src/server/scripts/Northrend/zone_borean_tundra.cpp:481-498 | the closing runs 16, 17 and then is back at 0 |
| ThassarianScript.Gates | src/server/scripts/Northrend/zone_borean_tundra.cpp:333-346 | the Arthas+Talbot pair enters phase 1 and clears both flags; the Arlos+Leryssa pair clears both, is the only source of a call (Thassarian's line) and resumes the escort; a single flag stays set; the countdown is untouched |
| ThassarianScript.FireState | src/server/scripts/Northrend/zone_borean_tundra.cpp:350-498 | the step of a table phase moves to its next phase and sets its countdown (phases 13 and 15 keep the old one); phase 0 and unknown phases change nothing; no flag changes and the escort can only be resumed |
| ThassarianScript.Fire | src/server/scripts/Northrend/zone_borean_tundra.cpp:350-498 | a phase without a table step neither moves nor calls the engine |
| ThassarianScript.CountdownState | src/server/scripts/Northrend/zone_borean_tundra.cpp:348-499 | a countdown above `diff` loses exactly `diff` with the phase unchanged; otherwise the table step is taken; no flag changes |
| ThassarianScript.Countdown | src/server/scripts/Northrend/zone_borean_tundra.cpp:348-499 | a countdown above `diff` makes no call, and only a table phase makes calls |
| ThassarianScript.TickState | src/server/scripts/Northrend/zone_borean_tundra.cpp:329-499 | the controller never raises a flag; the Arthas+Talbot pair enters phase 1 and clears both; a single flag stays set; the Arlos+Leryssa pair clears both and resumes the escort; a countdown above `diff` loses exactly `diff` with the gated phase; otherwise the table step is taken, and an idle phase does not move |
| ThassarianScript.Tick | src/server/scripts/Northrend/zone_borean_tundra.cpp:329-499 | when the Arlos+Leryssa gate opens Thassarian's line is the tick's first call; a tick that does not open that gate and whose countdown has not run out makes no call |
| ThassarianScript.ArlosLeryssaGateKeepsPhase | src/server/scripts/Northrend/zone_borean_tundra.cpp:340-346 | the Arlos+Leryssa gate does not touch the phase engine: the tick runs as if both flags had been clear |
| ThassarianScript.HalfOpenGateWaits | src/server/scripts/Northrend/zone_borean_tundra.cpp:333-338 | with only the Lich King in position, any number of ticks leaves Thassarian idle with the flag still raised |
| ThassarianScript.DeadlineTick | src/server/scripts/Northrend/zone_borean_tundra.cpp:348-499 | with no flag raised, a tick exactly at the deadline takes the table step of its phase and raises no flag |
| ThassarianScript.DeadlineRunPhases | src/server/scripts/Northrend/zone_borean_tundra.cpp:348-499 | ticked at each deadline, a sequence passes through the phases of `Chain` one per tick and is then back at 0 |
| ThassarianScript.DeadlineRunTime | src/server/scripts/Northrend/zone_borean_tundra.cpp:348-499 | ticked at each deadline, a sequence takes `ChainTime` to get back to 0 |
| ThassarianScript.DeadlineRunFollowsChain | src/server/scripts/Northrend/zone_borean_tundra.cpp:348-499 | ticked at each deadline, a sequence goes through exactly the phases of `Chain`, ends idle, and takes `ChainTime` |
| ThassarianScript.SequenceDurations | src/server/scripts/Northrend/zone_borean_tundra.cpp:354-498 | ticked at each deadline, staging takes 23 s, the confrontation 30.5 s (phase 12's 2 s countdown counted again after phase 13, which sets none) and the closing 20 s |
| ThassarianScript.StaleCountdownFiresNextTick | src/server/scripts/Northrend/zone_borean_tundra.cpp:446-470 | phase 13 sets no countdown, so with ticks of one length phase 14 runs on the tick right after it and phase 15 is then 1.5 s out |
| ThassarianScript.Thassarian.constructor | src/server/scripts/Northrend/zone_borean_tundra.cpp:254-273 | a new controller is in the initial state with no flags raised |
| ThassarianScript.Thassarian.Reset | src/server/scripts/Northrend/zone_borean_tundra.cpp:288-294 | restores faction and stance, then clears the guids and all four flags and sets phase and countdown to 0 |
| ThassarianScript.Thassarian.WaypointReached | src/server/scripts/Northrend/zone_borean_tundra.cpp:296-327 | nothing happens without a player; waypoint 3 pauses and summons the Lich King (made non-attackable and passive, walking to its mark) and Talbot, keeping the guids of the summons that succeeded; waypoint 4 pauses and enters phase 7 |
| ThassarianScript.Thassarian.SummonPair | src/server/scripts/Northrend/zone_borean_tundra.cpp:306-318 | the Lich King and Talbot are summoned in that order; each summon that succeeds has its guid kept and its set-up calls made, the Lich King's including the non-attackable flag |
| ThassarianScript.Thassarian.CheckGates | src/server/scripts/Northrend/zone_borean_tundra.cpp:333-346 | the two flag-pair gates, in source order |
| ThassarianScript.Thassarian.RunPhase | src/server/scripts/Northrend/zone_borean_tundra.cpp:350-498 | performs the table step of the current phase with its engine calls, including the non-attackable flag on Valanar in phase 2 and on Leryssa in phase 6 and its removal in phase 14 |
| ThassarianScript.Thassarian.RunCountdown | src/server/scripts/Northrend/zone_borean_tundra.cpp:348-499 | the countdown half of a tick is exactly `Countdown` |
| ThassarianScript.Thassarian.UpdateAI | src/server/scripts/Northrend/zone_borean_tundra.cpp:329-499 | one tick is exactly `Tick`, and so has all of its properties |
| ThassarianScript.Thassarian.JustDied | src/server/scripts/Northrend/zone_borean_tundra.cpp:507-520 | every summoned peer that still resolves is removed from the world; the state is unchanged |
| LastRitesPeers.LichKing.MovementInform | src/server/scripts/Northrend/zone_borean_tundra.cpp:573-581 | a point arrival raises only the summoner's `arthasInPosition`; any other movement changes nothing |
| LastRitesPeers.Arlos.MovementInform | src/server/scripts/Northrend/zone_borean_tundra.cpp:603-613 | a point arrival stuns Arlos and raises only the summoner's `arlosInPosition` |
| LastRitesPeers.Talbot.constructor | src/server/scripts/Northrend/zone_borean_tundra.cpp:639-652 | no lookup is requested and both guids are clear |
| LastRitesPeers.Talbot.Reset | src/server/scripts/Northrend/zone_borean_tundra.cpp:663-666 | clears both guids and the lookup request |
| LastRitesPeers.Talbot.MovementInform | src/server/scripts/Northrend/zone_borean_tundra.cpp:667-675 | a point arrival raises only the summoner's `talbotInPosition` |
| LastRitesPeers.Talbot.UpdateAI | src/server/scripts/Northrend/zone_borean_tundra.cpp:679-686 | a requested lookup remembers whichever of Leryssa and Arlos is found and is then consumed |
| LastRitesPeers.Talbot.JustDied | src/server/scripts/Northrend/zone_borean_tundra.cpp:721-742 | only when both guids resolve: Arlos and Leryssa speak, Arlos dies, Leryssa is freed and sent walking, and a player killer gets Valanar's credit |
| LeryssaScript.DialogueTick | src/server/scripts/Northrend/zone_borean_tundra.cpp:805-865 | a countdown above `diff` loses exactly `diff`; otherwise a dialogue phase advances with a 5 s countdown and an idle phase stays put |
| LeryssaScript.DialogueHandsOffOnce | src/server/scripts/Northrend/zone_borean_tundra.cpp:809-865 | ticked at each deadline from phase `p`, the dialogue reaches phase 7 without handing off; one tick later it is idle, has handed off exactly once when Thassarian is there, and `timer + 5000 * (7 - p)` ms have passed |
| LeryssaScript.Leryssa.constructor | src/server/scripts/Northrend/zone_borean_tundra.cpp:762-769 | not done, idle, and standing |
| LeryssaScript.Leryssa.MovementInform | src/server/scripts/Northrend/zone_borean_tundra.cpp:776-803 | first point arrival: sets `bDone`, asks a nearby Valanar to look her up, stuns herself and raises only Thassarian's `leryssaInPosition`; every later one: sits (with Thassarian) and starts the dialogue at phase 1 in 1.5 s |
| LeryssaScript.Leryssa.UpdateAI | src/server/scripts/Northrend/zone_borean_tundra.cpp:805-865 | one tick is exactly `DialogueTick`, and the only change to Thassarian is phase 16 on the hand-off tick |
| LastRites.ArrivalHandshake | src/server/scripts/Northrend/zone_borean_tundra.cpp:333-338 | with only the Lich King arrived Thassarian stays idle with the flag kept; once Talbot arrives the next tick consumes both flags and is in phase 2 with 3 s to go |
| LastRites.SecondGate | src/server/scripts/Northrend/zone_borean_tundra.cpp:340-346 | once Arlos and Leryssa have arrived the next tick consumes both flags and resumes the escort while Thassarian stays idle |
| LastRites.Converse | src/server/scripts/Northrend/zone_borean_tundra.cpp:805-865 | seven deadline ticks of the dialogue leave Leryssa idle, and the only change to Thassarian is phase 16 |
| LastRites.DialogueHandOff | src/server/scripts/Northrend/zone_borean_tundra.cpp:853-862 | after her second arrival and the dialogue, Thassarian's next tick is in phase 17 with 20 s to go |
| HiddenCultistScript.CultistStep | src/server/scripts/Northrend/zone_borean_tundra.cpp:1211-1259 | all three cultists advance from 1 to 2 with 5 s; in phase 2 Salty John advances to 3 with 3 s and the other two attack; in phase 3 Salty John attacks; nothing else has a step |
| HiddenCultistScript.CultistTick | src/server/scripts/Northrend/zone_borean_tundra.cpp:1209-1261 | no transition while the countdown is 0 or above `diff`; then the countdown is subtracted modulo 2^32, and a zero countdown wraps to 2^32 - diff; an attack returns to phase 0 with the countdown untouched |
| HiddenCultistScript.ConfrontedIsConsistent | src/server/scripts/Northrend/zone_borean_tundra.cpp:1160-1199 | the initial and the just-confronted states are consistent |
| HiddenCultistScript.TickKeepsConsistent | src/server/scripts/Northrend/zone_borean_tundra.cpp:1209-1261 | every tick keeps the phase at most 3 and a pending phase always on a running countdown |
| HiddenCultistScript.WrapOnlyWhenIdle | src/server/scripts/Northrend/zone_borean_tundra.cpp:1261 | in a consistent state the zero-countdown wrap-around only happens in phase 0 and leaves it in phase 0 |
| HiddenCultistScript.IdleStaysIdle | src/server/scripts/Northrend/zone_borean_tundra.cpp:1211-1259 | phase 0 is idle for every entry |
| HiddenCultistScript.SaltyJohnInterrogation | src/server/scripts/Northrend/zone_borean_tundra.cpp:1213-1257 | Salty John speaks at 3 s and again at 8 s, attacks once at 11 s, and is then idle |
| HiddenCultistScript.GuardInterrogation | src/server/scripts/Northrend/zone_borean_tundra.cpp:1213-1250 | Guard Mitchells and Tom Hegger speak at 3 s, attack once at 8 s, and are then idle |
| HiddenCultistScript.HiddenCultist.constructor | src/server/scripts/Northrend/zone_borean_tundra.cpp:1153-1166 | idle, no player held; the creature's emote state and NPC flags are captured |
| HiddenCultistScript.HiddenCultist.Reset | src/server/scripts/Northrend/zone_borean_tundra.cpp:1176-1189 | restores the captured emote and flags when non-zero, clears the interrogation and the player, re-casts the shroud and restores the faction |
| HiddenCultistScript.HiddenCultist.DoAction | src/server/scripts/Northrend/zone_borean_tundra.cpp:1191-1200 | always 3 s to phase 1 after dropping the disguise, facing the player if present |
| HiddenCultistScript.HiddenCultist.Confront | src/server/scripts/Northrend/zone_borean_tundra.cpp:1308-1313 | the confronting gossip choice holds the player and then starts the interrogation |
| HiddenCultistScript.HiddenCultist.UpdateAI | src/server/scripts/Northrend/zone_borean_tundra.cpp:1209-1261 | one tick is exactly `CultistTick` and keeps the state consistent |
| CaribouTrapScript.Successor | src/server/scripts/Northrend/zone_borean_tundra.cpp:100-152 | events 1..7 each schedule only the next event, after a positive delay; event 8 schedules nothing |
| CaribouTrapScript.Next | src/server/scripts/Northrend/zone_borean_tundra.cpp:100-152 | what an event leaves pending is empty or the next event, due strictly after now |
| CaribouTrapScript.Arm | src/server/scripts/Northrend/zone_borean_tundra.cpp:72-87 | the trap changes exactly when it is not yet armed and a player casts the fake-fur spell; then it holds the caster and schedules the fur spawn 1 s out |
| CaribouTrapScript.ArmsOnce | src/server/scripts/Northrend/zone_borean_tundra.cpp:74-75 | once armed, no later hit changes anything |
| CaribouTrapScript.ArmKeepsInvariant | src/server/scripts/Northrend/zone_borean_tundra.cpp:82-85 | arming leaves exactly the fur-spawn event pending |
| CaribouTrapScript.Queued | src/server/scripts/Northrend/zone_borean_tundra.cpp:100-152 | an event without a successor leaves the queue as it was, and on an empty queue what is left is exactly `Next` |
| CaribouTrapScript.TrapFire | src/server/scripts/Northrend/zone_borean_tundra.cpp:98-151 | an event remembers a summoned fur or trapper, performs its calls, and leaves only its successor pending |
| CaribouTrapScript.TrapUpdate | src/server/scripts/Northrend/zone_borean_tundra.cpp:89-153 | an unarmed trap does nothing at all; an armed one advances its clock and fires the pending event if it is ready; at most one event fires per tick, and the invariant is kept |
| CaribouTrapScript.ChainFrom | src/server/scripts/Northrend/zone_borean_tundra.cpp:100-152 | the rest of the chain is empty exactly for ids outside 1..8 |
| CaribouTrapScript.DeadlineRunFiresChain | src/server/scripts/Northrend/zone_borean_tundra.cpp:89-153 | ticked at each deadline, an armed trap fires exactly the rest of the chain, in order, and ends with nothing pending, `ChainDelay` after the first event |
| CaribouTrapScript.WholeChain | src/server/scripts/Northrend/zone_borean_tundra.cpp:100-152 | the chain is events 1..8, and the last one fires 12 s after the fur appears |
| CaribouTrapScript.FinishedTrapIsQuiet | src/server/scripts/Northrend/zone_borean_tundra.cpp:148-151 | after the chain ends, ticks make no calls and schedule nothing |
| CaribouTrapScript.CaribouTrap.constructor | src/server/scripts/Northrend/zone_borean_tundra.cpp:65 | not armed, nothing pending |
| CaribouTrapScript.CaribouTrap.Reset | src/server/scripts/Northrend/zone_borean_tundra.cpp:67-70 | readies the trap object and does not disarm it |
| CaribouTrapScript.CaribouTrap.SpellHit | src/server/scripts/Northrend/zone_borean_tundra.cpp:72-87 | exactly `Arm` |
| CaribouTrapScript.CaribouTrap.Fire | src/server/scripts/Northrend/zone_borean_tundra.cpp:98-151 | one iteration of the drain loop is exactly `TrapFire` |
| CaribouTrapScript.CaribouTrap.ScheduleSuccessor | src/server/scripts/Northrend/zone_borean_tundra.cpp:100-152 | the `ScheduleEvent` each case of the switch makes is exactly `Queued` |
| CaribouTrapScript.CaribouTrap.UpdateAI | src/server/scripts/Northrend/zone_borean_tundra.cpp:89-153 | the drain loop as a whole is exactly `TrapUpdate`, and the invariant is kept |
| BloodmageLaurithScript.LaurithSetGuid | src/server/scripts/Northrend/zone_borean_tundra.cpp:1381-1392 | a held player shuts out every other caller; a free Laurith holds the caller, adds exactly the talk to her queue without moving her clock, and turns to the caller exactly when they are still in the world |
| BloodmageLaurithScript.LaurithFire | src/server/scripts/Northrend/zone_borean_tundra.cpp:1406-1417 | only the talk changes state: it releases the held player and adds exactly the turn home to the queue; at most one engine call, the line exactly when the talk finds the player present, the turn home exactly for its own event |
| BloodmageLaurithScript.LaurithUpdate | src/server/scripts/Northrend/zone_borean_tundra.cpp:1394-1418 | fighting freezes the events; otherwise the clock advances by `diff`, a tick with nothing ready changes nothing else, a ready tick runs the head event: the queue becomes the rest plus, after the talk only, the turn home 5 s later; the tick turns home exactly when that event is the reset and talks to the player exactly when it is the talk and the player resolves; a tick never takes a new player, and at most one engine call is made |
| BloodmageLaurithScript.FirstCallerWins | src/server/scripts/Northrend/zone_borean_tundra.cpp:1383-1384 | while a player is held, no caller changes anything |
| BloodmageLaurithScript.CombatFreezesEvents | src/server/scripts/Northrend/zone_borean_tundra.cpp:1396-1400 | in combat the clock stands still and no event runs |
| BloodmageLaurithScript.OneEventPerTick | src/server/scripts/Northrend/zone_borean_tundra.cpp:1404 | when events are ready, a tick consumes exactly one of them: one fewer is ready afterwards |
| BloodmageLaurithScript.FireSchedulesLater | src/server/scripts/Northrend/zone_borean_tundra.cpp:1406-1413 | the turn home the talk schedules is 5 s out, so it is never ready in the talk's own tick |
| BloodmageLaurithScript.TalkWaits | src/server/scripts/Northrend/zone_borean_tundra.cpp:1390 | the talk a caller sets off is 1 s out, never ready in the tick that scheduled it |
| BloodmageLaurithScript.TalkReleasesLatch | src/server/scripts/Northrend/zone_borean_tundra.cpp:1408-1413 | once the talk runs, the held player is released |
| BloodmageLaurithScript.Exchange | src/server/scripts/Northrend/zone_borean_tundra.cpp:1381-1417 | from idle, a caller is faced, spoken to 1 s later and released, and 5 s after that she faces home with nothing pending |
| BloodmageLaurithScript.Laurith.constructor | src/server/scripts/Northrend/zone_borean_tundra.cpp:1373 | no player held, nothing pending |
| BloodmageLaurithScript.Laurith.Reset | src/server/scripts/Northrend/zone_borean_tundra.cpp:1375-1379 | drops every event and releases the player |
| BloodmageLaurithScript.Laurith.SetGUID | src/server/scripts/Northrend/zone_borean_tundra.cpp:1381-1392 | exactly `LaurithSetGuid` |
| BloodmageLaurithScript.Laurith.UpdateAI | src/server/scripts/Northrend/zone_borean_tundra.cpp:1394-1418 | exactly `LaurithUpdate` |
| BloodmageLaurithScript.Laurith.Fire | src/server/scripts/Northrend/zone_borean_tundra.cpp:1404-1417 | the switch over the executed event is exactly `LaurithFire` |
| NeuralNeedleScripts.NeedleWhisper | src/server/scripts/Northrend/zone_borean_tundra.cpp:1693-1718 | a whisper exactly for stacks 1..6: stacks 1..5 pick whispers 1..5, and stack 6 picks one of the three random whispers |
| NeuralNeedleScripts.PrototypeWhisper | src/server/scripts/Northrend/zone_borean_tundra.cpp:1748-1763 | a whisper exactly for stacks 1..10, and stack k picks prototype whisper k |
| NeuralNeedleScripts.NeedleWhispersDistinct | src/server/scripts/Northrend/zone_borean_tundra.cpp:1695-1714 | stacks 1..5 and 6 never produce the same whisper |
| NeuralNeedleScripts.PrototypeWhispersDistinct | src/server/scripts/Northrend/zone_borean_tundra.cpp:1750-1763 | different stacks produce different prototype whispers |
| NeuralNeedleScripts.NeedlesShareNoWhisper | src/server/scripts/Northrend/zone_borean_tundra.cpp:1648-1668 | the basic and prototype needles share no whisper |
| NeuralNeedleScripts.NeedleHit | src/server/scripts/Northrend/zone_borean_tundra.cpp:1684-1718 | nothing unless the caster is a player and the target a creature; then the impact spell first, next the whisper the stack selects (a fixed line for stacks 1-5, the picked random line for 6, none otherwise) to the caster, and kill credit exactly at stack 5 |
| NeuralNeedleScripts.PrototypeHit | src/server/scripts/Northrend/zone_borean_tundra.cpp:1738-1767 | nothing unless the caster is a player and the target a creature; then the impact spell first, next the whisper the stack selects to the caster, and never credit |
| NeuralNeedleScripts.PersuasionInFiveHits | src/server/scripts/Northrend/zone_borean_tundra.cpp:1695-1711 | hits at stacks 1..5 whisper the five fixed lines in order, and only the fifth grants credit |

## Left out

- `EventMap`'s own implementation is not part of this model. Its modelled
  tie-break (first scheduled, first served among equal deadlines) is an
  assumption, not checked against that implementation.
- EventMaps.EventMap: its clock is an unbounded `nat`. The `uint32`
  millisecond clock and its wrap after about 49 days are not modelled.
- The escort engine is not modelled: `EscortAI`'s own `UpdateAI`, waypoint
  movement and the gossip option that starts the escort. Only the escort's
  pause flag, which the script sets, is kept.
- `UpdateVictim` and `DoMeleeAttackIfReady` are engine combat. They are left
  out of every tick, except Laurith's "in combat" branch, which is a
  parameter.
- Counselor Talbot's combat spells re-arm their timers with `urand`. These
  random timers are left out.
- LastRitesPeers.Talbot.UpdateAI: models only the `bCheck` lookup request.
- SequenceDurations: states durations under ticks that each last exactly
  the pending countdown. There the confrontation takes 30.5 s, because
  phase 13 sets no countdown and the next deadline tick waits for the 2 s
  left standing. With ticks of one fixed length phase 14 follows on the very
  next tick, as `StaleCountdownFiresNextTick` states, so the confrontation
  takes 28.5 s and one tick. No duration is stated for other tick patterns.
- Randomness:
  - `RAND` in the basic needle's stack-6 whisper is a `pick` parameter in
    0..2.
  - `FindNearestCreature` results are parameters.
- Float geometry is left out: coordinates, quaternions, collision positions
  and orientations. The model keeps only the fact that a move or turn was
  issued.
- The check on the movement type (`POINT_MOTION_TYPE`) is a boolean
  parameter. Its value is defined in an engine header that is not part of
  this model.
- Trapper AI: whether the trapper's AI is enabled before it talks is folded
  into whether the trapper resolves.
- The trap's own despawn and respawn (`DespawnOrUnsummon(0s, 50s)`) is only
  recorded. Whether a respawned trap keeps its armed flag depends on engine
  object lifetime and is not modelled.
- Gossip and vendor menus are left out (`OnGossipHello`, and `OnGossipSelect`
  beyond the confronting choice).
- Pure side-effect scripts and engine-state queries in the same file are not
  modelled: red dragonblood, windsoul totem, Beryl sorcerer, mammoth calf,
  Valiance Keep cannoneer, shortening blaster, nerubar web, kodo delivery
  and arcane prisoner.
- Spell validation hooks (`Validate`) and script registration are left out.
- Wrap-around: Thassarian's and Leryssa's countdowns only subtract when
  `phaseTimer > diff`, so their `uint32` arithmetic never wraps. The cultist
  subtracts from a zero countdown, and that wrap is modelled explicitly.
