/**
 * Thassarian's escort in quest 12019 "Last Rites": a phase counter and a
 * `uint32` countdown advanced once per `UpdateAI`, two gates that open when
 * pairs of peer actors report "in position", and a hand-written table of
 * phase steps (1..6 stage the Lich King and Valanar, 7..15 play the
 * confrontation, 16..17 close the quest). Every sequence routes back to the
 * idle phase 0.
 */
module ThassarianScript {
  import opened Engine

  const NPC_IMAGE_LICH_KING: nat := 26203
  const NPC_COUNSELOR_TALBOT: nat := 25301
  const NPC_PRINCE_VALANAR: nat := 28189
  const NPC_GENERAL_ARLOS: nat := 25250
  const NPC_LERYSSA: nat := 25251
  const SPELL_SHADOW_BOLT: nat := 15537

  const SAY_THASSARIAN_1: nat := 0
  const SAY_THASSARIAN_2: nat := 1
  const SAY_THASSARIAN_3: nat := 2
  const SAY_TALBOT_1: nat := 0
  const SAY_TALBOT_2: nat := 1
  const SAY_TALBOT_3: nat := 2
  const SAY_TALBOT_4: nat := 3
  const SAY_LICH_1: nat := 0
  const SAY_LICH_2: nat := 1
  const SAY_LICH_3: nat := 2

  /** One row of the phase table: the next phase and the countdown it sets (`None`: left as it is). */
  datatype Step = Step(next: u32, timer: Option<u32>)

  /** The `switch (phase)` of `UpdateAI` as a table; phases without a case have no step. */
  function PhaseStep(phase: u32): (r: Option<Step>)
    ensures r.Some? <==> 1 <= phase <= 17
    ensures r.Some? ==> (r.value.next == 0 <==> phase == 6 || phase == 15 || phase == 17)
    ensures r.Some? && r.value.next != 0 ==> r.value.next == phase + 1
    ensures r.Some? ==> (r.value.timer.None? <==> phase == 13 || phase == 15)
  {
    match phase
    case 1 => Some(Step(2, Some(3000)))
    case 2 => Some(Step(3, Some(5000)))
    case 3 => Some(Step(4, Some(5000)))
    case 4 => Some(Step(5, Some(5000)))
    case 5 => Some(Step(6, Some(5000)))
    case 6 => Some(Step(0, Some(2000)))
    case 7 => Some(Step(8, Some(5000)))
    case 8 => Some(Step(9, Some(5000)))
    case 9 => Some(Step(10, Some(5000)))
    case 10 => Some(Step(11, Some(5000)))
    case 11 => Some(Step(12, Some(5000)))
    case 12 => Some(Step(13, Some(2000)))
    case 13 => Some(Step(14, None))
    case 14 => Some(Step(15, Some(1500)))
    case 15 => Some(Step(0, None))
    case 16 => Some(Step(17, Some(20000)))
    case 17 => Some(Step(0, Some(0)))
    case _ => None
  }

  /** The phases a sequence entered at `p` runs through before it is back at 0. */
  function Chain(p: u32): (c: seq<u32>)
    ensures PhaseStep(p).Some? <==> c != []
    ensures |c| == if p == 0 || p > 17 then 0 else if p <= 6 then 7 - p else if p <= 15 then 16 - p else 18 - p
    ensures forall i :: 0 <= i < |c| ==> c[i] == p + i
    ensures c != [] ==> PhaseStep(c[|c| - 1]).value.next == 0
    decreases 18 - p
  {
    match PhaseStep(p)
    case None => []
    case Some(step) => [p] + (if step.next == 0 then [] else Chain(step.next))
  }

  /** Staging: 1 → 2 → 3 → 4 → 5 → 6 → 0. */
  lemma StagingSequence()
    ensures Chain(1) == [1, 2, 3, 4, 5, 6]
  {
  }

  /** Confrontation, entered at waypoint 4: 7 → 8 → … → 15 → 0. */
  lemma ConfrontationSequence()
    ensures Chain(7) == [7, 8, 9, 10, 11, 12, 13, 14, 15]
  {
    ConfrontationFrom(7);
  }

  /**
   * The same fact for a phase variable: stated this way the verifier reads
   * the chain off `Chain`'s contract instead of evaluating it call by call.
   */
  lemma ConfrontationFrom(p: u32)
    requires p == 7
    ensures Chain(p) == [7, 8, 9, 10, 11, 12, 13, 14, 15]
  {
  }

  /** Closing, entered from Leryssa's dialogue: 16 → 17 → 0. */
  lemma ClosingSequence()
    ensures Chain(16) == [16, 17]
  {
  }

  /** Everything the controller holds: peer guids, the four completion flags, the phase engine. */
  datatype State = State(
    arthasGuid: ObjectGuid, talbotGuid: ObjectGuid, leryssaGuid: ObjectGuid, arlosGuid: ObjectGuid,
    arthasInPosition: bool, arlosInPosition: bool, leryssaInPosition: bool, talbotInPosition: bool,
    phase: u32, phaseTimer: u32,
    escortPaused: bool)

  /** `Initialize`: guids and flags cleared, phase and countdown 0; the escort's pause is not its business. */
  function Initial(escortPaused: bool): State
  {
    State(Empty, Empty, Empty, Empty, false, false, false, false, 0, 0, escortPaused)
  }

  predicate NoFlags(s: State)
  {
    !s.arthasInPosition && !s.arlosInPosition && !s.leryssaInPosition && !s.talbotInPosition
  }

  /** What a tick sees of the world: which guids resolve, and what the phase 6 summons return. */
  datatype World = World(live: set<nat>, arlosSummon: ObjectGuid, leryssaSummon: ObjectGuid)

  /** The two flag-pair gates, polled at the start of every tick before the countdown. */
  function Gates(s: State): (r: (State, seq<Action>))
    // a complete pair is consumed, an incomplete one waits
    ensures r.0.arthasInPosition == (s.arthasInPosition && !s.talbotInPosition)
    ensures r.0.talbotInPosition == (s.talbotInPosition && !s.arthasInPosition)
    ensures r.0.arlosInPosition == (s.arlosInPosition && !s.leryssaInPosition)
    ensures r.0.leryssaInPosition == (s.leryssaInPosition && !s.arlosInPosition)
    // only the Lich King/Talbot pair moves the phase engine, and only to phase 1
    ensures r.0.phase == (if s.arthasInPosition && s.talbotInPosition then 1 else s.phase)
    ensures r.0.phaseTimer == s.phaseTimer
    // only the Arlos/Leryssa pair speaks, and it resumes the escort
    ensures r.1 != [] <==> s.arlosInPosition && s.leryssaInPosition
    ensures r.1 != [] ==> r.1 == [Talk(Me, SAY_THASSARIAN_1)] && !r.0.escortPaused
    ensures r.1 == [] ==> r.0.escortPaused == s.escortPaused
  {
    var s1 :=
      if s.arthasInPosition && s.talbotInPosition
      then s.(phase := 1, arthasInPosition := false, talbotInPosition := false)
      else s;
    if s1.arlosInPosition && s1.leryssaInPosition
    then (s1.(arlosInPosition := false, leryssaInPosition := false, escortPaused := false),
          [Talk(Me, SAY_THASSARIAN_1)])
    else (s1, [])
  }

  /** The engine calls the phase step for `s.phase` issues. */
  function PhaseActions(s: State, w: World): seq<Action>
  {
    var talbot := Resolve(s.talbotGuid, w.live);
    var arthas := Resolve(s.arthasGuid, w.live);
    match s.phase
    case 1 => if talbot then [SetStand(Talbot, Kneeling)] else []
    case 2 => if talbot then [Transform(Talbot, NPC_PRINCE_VALANAR), MakeHostile(Talbot), MakeNonAttackable(Talbot), MakePassive(Talbot)] else []
    case 3 => if talbot then [Talk(Talbot, SAY_TALBOT_1)] else []
    case 4 => if arthas then [Talk(Arthas, SAY_LICH_1)] else []
    case 5 => if talbot then [Talk(Talbot, SAY_TALBOT_2)] else []
    case 6 =>
      [SummonCreature(NPC_GENERAL_ARLOS)]
      + (if w.arlosSummon.Id? then [SetWalk(Arlos, true), MovePoint(Arlos)] else [])
      + [SummonCreature(NPC_LERYSSA)]
      + (if w.leryssaSummon.Id? then [SetWalk(Leryssa, false), MakePassive(Leryssa), MakeNonAttackable(Leryssa), MovePoint(Leryssa)] else [])
    case 7 => [Talk(Me, SAY_THASSARIAN_2)]
    case 8 => if arthas && talbot then [FaceTo(Arthas, Me), SetStand(Talbot, Standing), Talk(Arthas, SAY_LICH_2)] else []
    case 9 => [Talk(Me, SAY_THASSARIAN_3)]
    case 10 => if talbot then [Talk(Talbot, SAY_TALBOT_3)] else []
    case 11 => if arthas then [Talk(Arthas, SAY_LICH_3)] else []
    case 12 => if talbot then [Talk(Talbot, SAY_TALBOT_4)] else []
    case 13 => if arthas then [RemoveFromWorld(Arthas)] else []
    case 14 => [MakeAttackable(Me)] + (if talbot then [MakeAttackable(Talbot), Aggressive(Talbot), Cast(Talbot, SPELL_SHADOW_BOLT)] else [])
    case 15 => [Aggressive(Me)] + (if talbot then [AttackStart(Me, Talbot)] else [])
    case 16 => [QuestGiver(Me)]
    case 17 =>
      (if Resolve(s.leryssaGuid, w.live) then [RemoveFromWorld(Leryssa)] else [])
      + (if Resolve(s.arlosGuid, w.live) then [RemoveFromWorld(Arlos)] else [])
      + (if talbot then [RemoveFromWorld(Talbot)] else [])
      + [SetStand(Me, Standing)]
    case _ => []
  }

  /**
   * The countdown has run out: the state the step for the current phase
   * leaves (phase 0 and unknown phases do nothing).
   */
  function FireState(s: State, w: World): (r: State)
    ensures r.arthasInPosition == s.arthasInPosition && r.talbotInPosition == s.talbotInPosition
    ensures r.arlosInPosition == s.arlosInPosition && r.leryssaInPosition == s.leryssaInPosition
    ensures r.escortPaused ==> s.escortPaused
    ensures PhaseStep(s.phase).None? ==> r == s
    ensures PhaseStep(s.phase).Some? ==>
      r.phase == PhaseStep(s.phase).value.next &&
      r.phaseTimer == (if PhaseStep(s.phase).value.timer.Some? then PhaseStep(s.phase).value.timer.value else s.phaseTimer)
  {
    match PhaseStep(s.phase)
    case None => s
    case Some(step) =>
      var s1 := s.(phase := step.next,
                   phaseTimer := if step.timer.Some? then step.timer.value else s.phaseTimer);
      if s.phase == 6 then
        s1.(arlosGuid := if w.arlosSummon.Id? then w.arlosSummon else s.arlosGuid,
            leryssaGuid := if w.leryssaSummon.Id? then w.leryssaSummon else s.leryssaGuid)
      else if s.phase == 17 then s1.(escortPaused := false)
      else s1
  }

  /** The step for the current phase: its new state and its engine calls. */
  function Fire(s: State, w: World): (r: (State, seq<Action>))
    ensures PhaseStep(s.phase).None? ==> r == (s, [])
    ensures r.0.phase != s.phase || r.0.phaseTimer != s.phaseTimer || r.1 != [] ==> PhaseStep(s.phase).Some?
  {
    (FireState(s, w), PhaseActions(s, w))
  }

  /** The state the countdown half of a tick leaves: fire if `phaseTimer <= diff`, else subtract `diff`. */
  function CountdownState(s: State, diff: u32, w: World): (r: State)
    // the countdown never touches a completion flag, and can only resume the escort
    ensures r.arthasInPosition == s.arthasInPosition && r.talbotInPosition == s.talbotInPosition
    ensures r.arlosInPosition == s.arlosInPosition && r.leryssaInPosition == s.leryssaInPosition
    ensures r.escortPaused ==> s.escortPaused
    ensures s.phaseTimer > diff ==> r.phase == s.phase && r.phaseTimer == s.phaseTimer - diff
    ensures s.phaseTimer <= diff && PhaseStep(s.phase).None? ==> r.phase == s.phase && r.phaseTimer == s.phaseTimer
    ensures s.phaseTimer <= diff && PhaseStep(s.phase).Some? ==>
      r.phase == PhaseStep(s.phase).value.next &&
      r.phaseTimer == (if PhaseStep(s.phase).value.timer.Some? then PhaseStep(s.phase).value.timer.value else s.phaseTimer)
  {
    if s.phaseTimer <= diff then FireState(s, w) else s.(phaseTimer := s.phaseTimer - diff)
  }

  /** The countdown half of a tick: its new state, and the step's calls when it fires. */
  function Countdown(s: State, diff: u32, w: World): (r: (State, seq<Action>))
    ensures s.phaseTimer > diff ==> r.1 == []
    ensures r.1 != [] ==> PhaseStep(s.phase).Some?
  {
    (CountdownState(s, diff, w), if s.phaseTimer <= diff then PhaseActions(s, w) else [])
  }

  /** The state one `UpdateAI(diff)` leaves: gates, then the countdown. */
  function TickState(s: State, diff: u32, w: World): (r: State)
    // the controller never raises a completion flag itself
    ensures r.arthasInPosition ==> s.arthasInPosition
    ensures r.talbotInPosition ==> s.talbotInPosition
    ensures r.arlosInPosition ==> s.arlosInPosition
    ensures r.leryssaInPosition ==> s.leryssaInPosition
    // Lich King and Talbot both in position: both flags consumed, phase 1 entered
    // (and, if the countdown has already run out, phase 1's step taken at once)
    ensures s.arthasInPosition && s.talbotInPosition ==>
      !r.arthasInPosition && !r.talbotInPosition &&
      r.phase == (if s.phaseTimer <= diff then 2 else 1)
    // one flag of a pair on its own stays set
    ensures s.arthasInPosition && !s.talbotInPosition ==> r.arthasInPosition
    ensures !s.arthasInPosition && s.talbotInPosition ==> r.talbotInPosition
    ensures s.arlosInPosition && !s.leryssaInPosition ==> r.arlosInPosition
    ensures !s.arlosInPosition && s.leryssaInPosition ==> r.leryssaInPosition
    // Arlos and Leryssa both in position: both consumed and the escort resumed
    ensures s.arlosInPosition && s.leryssaInPosition ==>
      !r.arlosInPosition && !r.leryssaInPosition && !r.escortPaused
    // countdown not run out: exactly `diff` is subtracted and the phase is the gated one
    ensures s.phaseTimer > diff ==>
      r.phaseTimer == s.phaseTimer - diff &&
      r.phase == (if s.arthasInPosition && s.talbotInPosition then 1 else s.phase)
    // countdown run out in idle phase 0 (or an unknown phase): nothing moves
    ensures s.phaseTimer <= diff && !(s.arthasInPosition && s.talbotInPosition) && PhaseStep(s.phase).None? ==>
      r.phase == s.phase && r.phaseTimer == s.phaseTimer
    // countdown run out in a table phase: the table's step is taken
    ensures s.phaseTimer <= diff && !(s.arthasInPosition && s.talbotInPosition) && PhaseStep(s.phase).Some? ==>
      r.phase == PhaseStep(s.phase).value.next &&
      r.phaseTimer == (if PhaseStep(s.phase).value.timer.Some? then PhaseStep(s.phase).value.timer.value else s.phaseTimer)
  {
    CountdownState(Gates(s).0, diff, w)
  }

  /** One `UpdateAI(diff)`: the gates' calls, then the countdown's. */
  function Tick(s: State, diff: u32, w: World): (r: (State, seq<Action>))
    // Arlos and Leryssa both in position: Thassarian speaks first
    ensures s.arlosInPosition && s.leryssaInPosition ==> |r.1| > 0 && r.1[0] == Talk(Me, SAY_THASSARIAN_1)
    // a tick that neither opens a gate nor runs out the countdown is silent
    ensures !(s.arlosInPosition && s.leryssaInPosition) && s.phaseTimer > diff ==> r.1 == []
  {
    var (g, gateActs) := Gates(s);
    (TickState(s, diff, w), gateActs + Countdown(g, diff, w).1)
  }

  /** The Arlos/Leryssa gate resumes the escort but leaves the phase engine as it would have been. */
  lemma ArlosLeryssaGateKeepsPhase(s: State, diff: u32, w: World)
    requires s.arlosInPosition && s.leryssaInPosition
    ensures var quiet := s.(arlosInPosition := false, leryssaInPosition := false);
      Tick(s, diff, w).0.phase == Tick(quiet, diff, w).0.phase &&
      Tick(s, diff, w).0.phaseTimer == Tick(quiet, diff, w).0.phaseTimer &&
      Tick(s, diff, w).1 == [Talk(Me, SAY_THASSARIAN_1)] + Tick(quiet, diff, w).1
  {
    var quiet := s.(arlosInPosition := false, leryssaInPosition := false);
    CountdownIgnoresEscort(Gates(quiet).0, diff, w);
    assert Gates(s).0 == Gates(quiet).0.(escortPaused := false);
  }

  /** Whether the escort is paused decides nothing in the countdown: same phase, same countdown, same calls. */
  lemma CountdownIgnoresEscort(h: State, diff: u32, w: World)
    ensures CountdownState(h.(escortPaused := false), diff, w).phase == CountdownState(h, diff, w).phase
    ensures CountdownState(h.(escortPaused := false), diff, w).phaseTimer == CountdownState(h, diff, w).phaseTimer
    ensures Countdown(h.(escortPaused := false), diff, w).1 == Countdown(h, diff, w).1
  {
  }

  /** A sequence of ticks with no peer activity in between. */
  function Run(s: State, diffs: seq<u32>, w: World): State
    decreases |diffs|
  {
    if diffs == [] then s else Run(TickState(s, diffs[0], w), diffs[1..], w)
  }

  /**
   * A gate with only one of its two flags set never opens by itself, however
   * long the controller ticks: the flag stays raised and an idle controller
   * stays idle.
   */
  lemma {:induction false} HalfOpenGateWaits(s: State, diffs: seq<u32>, w: World)
    requires s.phase == 0
    requires s.arthasInPosition && !s.talbotInPosition
    ensures Run(s, diffs, w).phase == 0 && Run(s, diffs, w).arthasInPosition
    decreases |diffs|
  {
    if diffs != [] {
      HalfOpenGateWaits(TickState(s, diffs[0], w), diffs[1..], w);
    }
  }

  /**
   * `n` ticks with no peer activity, each exactly as long as the countdown
   * then pending; returns the final state and the total time elapsed.
   */
  function RunAtDeadlines(s: State, n: nat, w: World): (State, nat)
    decreases n
  {
    if n == 0 then (s, 0)
    else
      var (t, elapsed) := RunAtDeadlines(TickState(s, s.phaseTimer, w), n - 1, w);
      (t, s.phaseTimer + elapsed)
  }

  /**
   * The time a sequence entered at `p` takes when its first countdown is
   * `left`: each step waits for the countdown the previous one set (a step
   * that sets none, phase 13, leaves the last one standing).
   */
  function ChainTime(p: u32, left: u32): nat
    decreases 18 - p
  {
    match PhaseStep(p)
    case None => 0
    case Some(step) =>
      left + (if step.next == 0 then 0
              else ChainTime(step.next, if step.timer.Some? then step.timer.value else left))
  }

  /** A tick at the deadline takes the table step and raises no flag. */
  lemma DeadlineTick(s: State, w: World)
    requires NoFlags(s) && 1 <= s.phase <= 17
    ensures NoFlags(TickState(s, s.phaseTimer, w))
    ensures TickState(s, s.phaseTimer, w).phase == PhaseStep(s.phase).value.next
    ensures TickState(s, s.phaseTimer, w).phaseTimer ==
      if PhaseStep(s.phase).value.timer.Some? then PhaseStep(s.phase).value.timer.value else s.phaseTimer
  {
  }

  /**
   * Started in phase `k` of a sequence with no flags raised, and ticked at
   * each deadline, the controller passes through the remaining phases of the
   * sequence one per tick, in order, and is back in phase 0 after exactly
   * `ChainTime` milliseconds.
   */
  lemma DeadlineRunFollowsChain(s: State, w: World)
    requires NoFlags(s) && 1 <= s.phase <= 17
    ensures forall k :: 0 <= k < |Chain(s.phase)| ==>
      RunAtDeadlines(s, k, w).0.phase == Chain(s.phase)[k]
    ensures RunAtDeadlines(s, |Chain(s.phase)|, w).0.phase == 0
    ensures RunAtDeadlines(s, |Chain(s.phase)|, w).1 == ChainTime(s.phase, s.phaseTimer)
  {
    DeadlineRunPhases(s, w);
    DeadlineRunTime(s, w);
  }

  /** The phases a deadline run goes through, and where it ends. */
  lemma {:induction false} DeadlineRunPhases(s: State, w: World)
    requires NoFlags(s) && 1 <= s.phase <= 17
    ensures forall k :: 0 <= k < |Chain(s.phase)| ==>
      RunAtDeadlines(s, k, w).0.phase == Chain(s.phase)[k]
    ensures RunAtDeadlines(s, |Chain(s.phase)|, w).0.phase == 0
    decreases 18 - s.phase
  {
    DeadlineTick(s, w);
    var t := TickState(s, s.phaseTimer, w);
    ChainUnrolls(s.phase);
    DeadlineRunShifts(s, w);
    if t.phase != 0 {
      DeadlineRunPhases(t, w);
    }
  }

  /** A sequence is its entry phase followed by the sequence of the phase it steps to. */
  lemma ChainUnrolls(p: u32)
    requires 1 <= p <= 17
    ensures PhaseStep(p).value.next == 0 ==> Chain(p) == [p]
    ensures PhaseStep(p).value.next != 0 ==> Chain(p) == [p] + Chain(PhaseStep(p).value.next)
  {
  }

  /**
   * A deadline run of `k` ticks is its first tick followed by a run of
   * `k - 1`, and takes the first countdown longer.
   */
  lemma DeadlineRunShifts(s: State, w: World)
    ensures forall k: nat | 0 < k ::
      RunAtDeadlines(s, k, w).0 == RunAtDeadlines(TickState(s, s.phaseTimer, w), k - 1, w).0 &&
      RunAtDeadlines(s, k, w).1 == s.phaseTimer + RunAtDeadlines(TickState(s, s.phaseTimer, w), k - 1, w).1
  {
  }

  /** The time a deadline run takes to get back to phase 0. */
  lemma {:induction false} DeadlineRunTime(s: State, w: World)
    requires NoFlags(s) && 1 <= s.phase <= 17
    ensures RunAtDeadlines(s, |Chain(s.phase)|, w).1 == ChainTime(s.phase, s.phaseTimer)
    decreases 18 - s.phase
  {
    DeadlineTick(s, w);
    var t := TickState(s, s.phaseTimer, w);
    ChainUnrolls(s.phase);
    DeadlineRunShifts(s, w);
    if t.phase != 0 {
      DeadlineRunTime(t, w);
    }
  }

  /**
   * Ticked at each deadline, the three sequences, started at a zero
   * countdown, take 23 s, 30.5 s and 20 s. The confrontation's figure counts
   * phase 12's 2 s countdown twice, because phase 13 sets none and a
   * deadline tick waits for the one left standing; with ticks of a fixed
   * length it is 28.5 s and one tick (`StaleCountdownFiresNextTick`).
   */
  lemma SequenceDurations()
    ensures ChainTime(1, 0) == 23000
    ensures ChainTime(7, 0) == 30500
    ensures ChainTime(16, 0) == 20000
  {
    assert ChainTime(6, 5000) == 5000;
    assert ChainTime(5, 5000) == 10000;
    assert ChainTime(4, 5000) == 15000;
    assert ChainTime(3, 5000) == 20000;
    assert ChainTime(2, 3000) == 23000;
    assert ChainTime(15, 1500) == 1500;
    assert ChainTime(14, 2000) == 3500;
    assert ChainTime(13, 2000) == 5500;
    assert ChainTime(12, 5000) == 10500;
    assert ChainTime(11, 5000) == 15500;
    assert ChainTime(10, 5000) == 20500;
    assert ChainTime(9, 5000) == 25500;
    assert ChainTime(8, 5000) == 30500;
    assert ChainTime(17, 20000) == 20000;
  }

  /**
   * Phase 13 sets no countdown: what is left of the countdown that fired it
   * is at most `diff`, so a next tick of the same length fires phase 14 at
   * once, and phase 15 is then 1.5 s out.
   */
  lemma StaleCountdownFiresNextTick(s: State, diff: u32, w: World)
    requires NoFlags(s) && s.phase == 13 && s.phaseTimer <= diff
    ensures TickState(s, diff, w).phase == 14 && TickState(s, diff, w).phaseTimer <= diff
    ensures TickState(TickState(s, diff, w), diff, w).phase == 15
    ensures TickState(TickState(s, diff, w), diff, w).phaseTimer == 1500
  {
  }

  class Thassarian {
    var arthasGuid: ObjectGuid
    var talbotGuid: ObjectGuid
    var leryssaGuid: ObjectGuid
    var arlosGuid: ObjectGuid
    var arthasInPosition: bool
    var arlosInPosition: bool
    var leryssaInPosition: bool
    var talbotInPosition: bool
    var phase: u32
    var phaseTimer: u32
    /** `SetEscortPaused`, the one piece of escort state the script drives. */
    var escortPaused: bool
    /** Engine calls issued so far. */
    var log: seq<Action>

    function Snapshot(): State
      reads this
    {
      State(arthasGuid, talbotGuid, leryssaGuid, arlosGuid,
            arthasInPosition, arlosInPosition, leryssaInPosition, talbotInPosition,
            phase, phaseTimer, escortPaused)
    }

    constructor ()
      ensures Snapshot() == Initial(false) && log == []
    {
      arthasGuid, talbotGuid, leryssaGuid, arlosGuid := Empty, Empty, Empty, Empty;
      arthasInPosition, arlosInPosition, leryssaInPosition, talbotInPosition := false, false, false, false;
      phase, phaseTimer := 0, 0;
      escortPaused := false;
      log := [];
    }

    method Reset()
      modifies this
      ensures Snapshot() == Initial(old(escortPaused))
      ensures log == old(log) + [RestoreFaction(Me), SetStand(Me, Standing)]
    {
      log := log + [RestoreFaction(Me), SetStand(Me, Standing)];
      arthasGuid, talbotGuid, leryssaGuid, arlosGuid := Empty, Empty, Empty, Empty;
      arthasInPosition, arlosInPosition, leryssaInPosition, talbotInPosition := false, false, false, false;
      phase, phaseTimer := 0, 0;
    }

    /**
     * Escort waypoints: 3 pauses and summons the Lich King and Talbot (each
     * summon may fail, `Empty`), 4 pauses and enters phase 7; nothing at all
     * happens without an escorting player.
     */
    method WaypointReached(waypointId: nat, playerPresent: bool, arthasSummon: ObjectGuid, talbotSummon: ObjectGuid)
      modifies this
      ensures !playerPresent || (waypointId != 3 && waypointId != 4) ==>
        Snapshot() == old(Snapshot()) && log == old(log)
      ensures playerPresent && waypointId == 4 ==>
        Snapshot() == old(Snapshot()).(escortPaused := true, phase := 7) && log == old(log)
      ensures playerPresent && waypointId == 3 ==>
        Snapshot() == old(Snapshot()).(escortPaused := true,
          arthasGuid := if arthasSummon.Id? then arthasSummon else old(arthasGuid),
          talbotGuid := if talbotSummon.Id? then talbotSummon else old(talbotGuid)) &&
        log == old(log)
          + [SummonCreature(NPC_IMAGE_LICH_KING)]
          + (if arthasSummon.Id? then [MakeNonAttackable(Arthas), MakePassive(Arthas), SetWalk(Arthas, true), MovePoint(Arthas)] else [])
          + [SummonCreature(NPC_COUNSELOR_TALBOT)]
          + (if talbotSummon.Id? then [SetWalk(Talbot, true), MovePoint(Talbot)] else [])
          + [SetWalk(Me, false)]
    {
      if !playerPresent {
        return;
      }
      if waypointId == 3 {
        escortPaused := true;
        SummonPair(arthasSummon, talbotSummon);
        log := log + [SetWalk(Me, false)];
      } else if waypointId == 4 {
        escortPaused := true;
        phase := 7;
      }
    }

    /** Waypoint 3's two summons, each set walking to its mark when it succeeds. */
    method SummonPair(arthasSummon: ObjectGuid, talbotSummon: ObjectGuid)
      modifies this
      ensures Snapshot() == old(Snapshot()).(
        arthasGuid := if arthasSummon.Id? then arthasSummon else old(arthasGuid),
        talbotGuid := if talbotSummon.Id? then talbotSummon else old(talbotGuid))
      ensures log == old(log)
        + [SummonCreature(NPC_IMAGE_LICH_KING)]
        + (if arthasSummon.Id? then [MakeNonAttackable(Arthas), MakePassive(Arthas), SetWalk(Arthas, true), MovePoint(Arthas)] else [])
        + [SummonCreature(NPC_COUNSELOR_TALBOT)]
        + (if talbotSummon.Id? then [SetWalk(Talbot, true), MovePoint(Talbot)] else [])
    {
      log := log + [SummonCreature(NPC_IMAGE_LICH_KING)];
      if arthasSummon.Id? {
        arthasGuid := arthasSummon;
        log := log + [MakeNonAttackable(Arthas), MakePassive(Arthas), SetWalk(Arthas, true), MovePoint(Arthas)];
      }
      log := log + [SummonCreature(NPC_COUNSELOR_TALBOT)];
      if talbotSummon.Id? {
        talbotGuid := talbotSummon;
        log := log + [SetWalk(Talbot, true), MovePoint(Talbot)];
      }
    }

    /** The gate half of `UpdateAI`. */
    method CheckGates()
      modifies this
      ensures Snapshot() == Gates(old(Snapshot())).0
      ensures log == old(log) + Gates(old(Snapshot())).1
    {
      if arthasInPosition && talbotInPosition {
        phase := 1;
        arthasInPosition := false;
        talbotInPosition := false;
      }
      if arlosInPosition && leryssaInPosition {
        arlosInPosition := false;
        leryssaInPosition := false;
        log := log + [Talk(Me, SAY_THASSARIAN_1)];
        escortPaused := false;
      }
    }

    /** The `switch (phase)` half of `UpdateAI`, run once the countdown has run out. */
    method RunPhase(w: World)
      modifies this
      ensures Snapshot() == Fire(old(Snapshot()), w).0
      ensures log == old(log) + Fire(old(Snapshot()), w).1
    {
      log := log + PhaseActions(Snapshot(), w);
      var step := PhaseStep(phase);
      if step.Some? {
        if phase == 6 {
          if w.arlosSummon.Id? {
            arlosGuid := w.arlosSummon;
          }
          if w.leryssaSummon.Id? {
            leryssaGuid := w.leryssaSummon;
          }
        } else if phase == 17 {
          escortPaused := false;
        }
        if step.value.timer.Some? {
          phaseTimer := step.value.timer.value;
        }
        phase := step.value.next;
      }
    }

    method UpdateAI(diff: u32, w: World)
      modifies this
      ensures Snapshot() == Tick(old(Snapshot()), diff, w).0
      ensures log == old(log) + Tick(old(Snapshot()), diff, w).1
    {
      ghost var s, l := Snapshot(), log;
      CheckGates();
      RunCountdown(diff, w);
      AppendAssociates(l, Gates(s).1, Countdown(Gates(s).0, diff, w).1);
    }

    /** The countdown half of `UpdateAI`. */
    method RunCountdown(diff: u32, w: World)
      modifies this
      ensures Snapshot() == Countdown(old(Snapshot()), diff, w).0
      ensures log == old(log) + Countdown(old(Snapshot()), diff, w).1
    {
      if phaseTimer <= diff {
        RunPhase(w);
      } else {
        phaseTimer := phaseTimer - diff;
      }
    }

    /** On death every summoned peer that still resolves is removed from the world. */
    method JustDied(live: set<nat>)
      modifies this
      ensures Snapshot() == old(Snapshot())
      ensures log == old(log)
        + (if Resolve(talbotGuid, live) then [RemoveFromWorld(Talbot)] else [])
        + (if Resolve(leryssaGuid, live) then [RemoveFromWorld(Leryssa)] else [])
        + (if Resolve(arlosGuid, live) then [RemoveFromWorld(Arlos)] else [])
        + (if Resolve(arthasGuid, live) then [RemoveFromWorld(Arthas)] else [])
    {
      if Resolve(talbotGuid, live) {
        log := log + [RemoveFromWorld(Talbot)];
      }
      if Resolve(leryssaGuid, live) {
        log := log + [RemoveFromWorld(Leryssa)];
      }
      if Resolve(arlosGuid, live) {
        log := log + [RemoveFromWorld(Arlos)];
      }
      if Resolve(arthasGuid, live) {
        log := log + [RemoveFromWorld(Arthas)];
      }
    }
  }
}
