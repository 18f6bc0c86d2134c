/**
 * Leryssa in "Last Rites". Her first point arrival reports "in position" to
 * Thassarian (and asks Valanar to look her up); her second, after Valanar's
 * death frees her, starts a seven-phase dialogue with Thassarian whose last
 * step hands the scene back to him by writing phase 16 into his controller.
 */
module LeryssaScript {
  import opened Engine
  import opened ThassarianScript
  import opened LastRitesPeers

  const SAY_THASSARIAN_4: nat := 3
  const SAY_THASSARIAN_5: nat := 4
  const SAY_THASSARIAN_6: nat := 5
  const SAY_THASSARIAN_7: nat := 6
  const SAY_LERYSSA_2: nat := 1
  const SAY_LERYSSA_3: nat := 2
  const SAY_LERYSSA_4: nat := 3

  /** The phase Leryssa's last dialogue step writes into Thassarian's controller. */
  const CLOSING_PHASE: u32 := 16

  datatype DialogueState = DialogueState(bDone: bool, phase: u32, phaseTimer: u32)

  /** The dialogue table: phases 1..6 advance by one, 7 ends; each step sets a 5 s countdown. */
  function DialogueStep(phase: u32): Option<u32>
  {
    if 1 <= phase <= 6 then Some(phase + 1)
    else if phase == 7 then Some(0)
    else None
  }

  /** Odd phases make Thassarian speak (only if he is still her summoner), even ones Leryssa. */
  function DialogueActions(phase: u32, hasSummoner: bool): seq<Action>
  {
    match phase
    case 1 => if hasSummoner then [Talk(Summoner, SAY_THASSARIAN_4)] else []
    case 2 => [Talk(Me, SAY_LERYSSA_2)]
    case 3 => if hasSummoner then [Talk(Summoner, SAY_THASSARIAN_5)] else []
    case 4 => [Talk(Me, SAY_LERYSSA_3)]
    case 5 => if hasSummoner then [Talk(Summoner, SAY_THASSARIAN_6)] else []
    case 6 => [Talk(Me, SAY_LERYSSA_4)]
    case 7 => if hasSummoner then [Talk(Summoner, SAY_THASSARIAN_7)] else []
    case _ => []
  }

  /** Whether this tick writes phase 16 into the summoner's controller. */
  predicate HandsOff(s: DialogueState, diff: u32, hasSummoner: bool)
  {
    s.phaseTimer <= diff && s.phase == 7 && hasSummoner
  }

  /** One `UpdateAI(diff)` of Leryssa's own state: "fire if `phaseTimer <= diff`, else subtract". */
  function DialogueTick(s: DialogueState, diff: u32, hasSummoner: bool): (r: (DialogueState, seq<Action>))
    ensures r.0.bDone == s.bDone
    ensures s.phaseTimer > diff ==> r.0 == s.(phaseTimer := s.phaseTimer - diff) && r.1 == []
    ensures s.phaseTimer <= diff && 1 <= s.phase <= 7 ==>
      r.0.phaseTimer == 5000 && r.0.phase == (if s.phase == 7 then 0 else s.phase + 1)
    ensures s.phaseTimer <= diff && !(1 <= s.phase <= 7) ==> r.0 == s && r.1 == []
  {
    if s.phaseTimer <= diff then
      match DialogueStep(s.phase)
      case None => (s, [])
      case Some(next) => (s.(phase := next, phaseTimer := 5000), DialogueActions(s.phase, hasSummoner))
    else
      (s.(phaseTimer := s.phaseTimer - diff), [])
  }

  /**
   * `n` ticks, each exactly as long as the countdown then pending; returns
   * the final state, how many of the ticks handed off to Thassarian, and the
   * time elapsed.
   */
  function DialogueAtDeadlines(s: DialogueState, n: nat, hasSummoner: bool): (DialogueState, nat, nat)
    decreases n
  {
    if n == 0 then (s, 0, 0)
    else
      var (t, handoffs, elapsed) := DialogueAtDeadlines(DialogueTick(s, s.phaseTimer, hasSummoner).0, n - 1, hasSummoner);
      (t, handoffs + (if HandsOff(s, s.phaseTimer, hasSummoner) then 1 else 0), s.phaseTimer + elapsed)
  }

  /**
   * From phase `p` of the dialogue, ticked at each deadline: after `7 - p`
   * ticks she is in phase 7 without having handed off; one tick more and she
   * is idle, has handed off exactly once (when her summoner is still there),
   * and `s.phaseTimer + 5000 * (7 - p)` milliseconds have passed.
   */
  lemma {:induction false} DialogueHandsOffOnce(s: DialogueState, hasSummoner: bool)
    requires 1 <= s.phase <= 7
    ensures DialogueAtDeadlines(s, 7 - s.phase, hasSummoner).0.phase == 7
    ensures DialogueAtDeadlines(s, 7 - s.phase, hasSummoner).1 == 0
    ensures DialogueAtDeadlines(s, 8 - s.phase, hasSummoner).0.phase == 0
    ensures DialogueAtDeadlines(s, 8 - s.phase, hasSummoner).1 == (if hasSummoner then 1 else 0)
    ensures DialogueAtDeadlines(s, 8 - s.phase, hasSummoner).2 == s.phaseTimer + 5000 * (7 - s.phase)
    decreases 7 - s.phase
  {
    var t := DialogueTick(s, s.phaseTimer, hasSummoner).0;
    if s.phase < 7 {
      DialogueHandsOffOnce(t, hasSummoner);
    } else {
      assert DialogueAtDeadlines(t, 0, hasSummoner) == (t, 0, 0);
    }
  }

  class Leryssa {
    var summoner: Thassarian?
    var bDone: bool
    var phase: u32
    var phaseTimer: u32
    var log: seq<Action>

    function Snapshot(): DialogueState
      reads this
    {
      DialogueState(bDone, phase, phaseTimer)
    }

    constructor (summoner: Thassarian?)
      ensures this.summoner == summoner
      ensures Snapshot() == DialogueState(false, 0, 0) && log == [SetStand(Me, Standing)]
    {
      this.summoner := summoner;
      bDone := false;
      phase := 0;
      phaseTimer := 0;
      log := [SetStand(Me, Standing)];
    }

    /**
     * First point arrival: ask a nearby Valanar to look her up, stun herself
     * and raise the summoner's `leryssaInPosition`. Every later arrival: sit
     * down (with the summoner) and start the dialogue at phase 1 in 1.5 s.
     */
    method MovementInform(isPoint: bool, nearbyValanar: Talbot?)
      modifies this, summoner, nearbyValanar
      ensures summoner == old(summoner)
      ensures !isPoint ==> Snapshot() == old(Snapshot()) && log == old(log)
      ensures isPoint && !old(bDone) ==>
        Snapshot() == old(Snapshot()).(bDone := true) &&
        log == old(log) + [Stun(Me), Cast(Me, SPELL_STUN)]
      ensures nearbyValanar != null ==>
        nearbyValanar.bCheck == (old(nearbyValanar.bCheck) || (isPoint && !old(bDone))) &&
        nearbyValanar.leryssaGuid == old(nearbyValanar.leryssaGuid) &&
        nearbyValanar.arlosGuid == old(nearbyValanar.arlosGuid) &&
        nearbyValanar.summoner == old(nearbyValanar.summoner) &&
        nearbyValanar.log == old(nearbyValanar.log)
      ensures isPoint && old(bDone) ==>
        Snapshot() == DialogueState(true, 1, 1500) &&
        log == old(log) + [SetStand(Me, Sitting)] + (if summoner != null then [SetStand(Summoner, Sitting)] else [])
      ensures summoner != null ==>
        summoner.Snapshot() ==
          (if isPoint && !old(bDone) then old(summoner.Snapshot()).(leryssaInPosition := true)
           else old(summoner.Snapshot())) &&
        summoner.log == old(summoner.log)
    {
      if !isPoint {
        return;
      }
      if !bDone {
        if nearbyValanar != null {
          nearbyValanar.bCheck := true;
        }
        log := log + [Stun(Me), Cast(Me, SPELL_STUN)];
        if summoner != null {
          summoner.leryssaInPosition := true;
        }
        bDone := true;
      } else {
        log := log + [SetStand(Me, Sitting)];
        if summoner != null {
          log := log + [SetStand(Summoner, Sitting)];
        }
        phaseTimer := 1500;
        phase := 1;
      }
    }

    /** One tick of the dialogue; its last step writes phase 16 into the summoner's controller. */
    method UpdateAI(diff: u32)
      modifies this, summoner
      ensures summoner == old(summoner)
      ensures Snapshot() == DialogueTick(old(Snapshot()), diff, summoner != null).0
      ensures log == old(log) + DialogueTick(old(Snapshot()), diff, summoner != null).1
      ensures summoner != null ==>
        summoner.Snapshot() ==
          (if HandsOff(old(Snapshot()), diff, true) then old(summoner.Snapshot()).(phase := CLOSING_PHASE)
           else old(summoner.Snapshot())) &&
        summoner.log == old(summoner.log)
    {
      if phaseTimer <= diff {
        var step := DialogueStep(phase);
        if step.Some? {
          log := log + DialogueActions(phase, summoner != null);
          if phase == 7 && summoner != null {
            summoner.phase := CLOSING_PHASE;
          }
          phaseTimer := 5000;
          phase := step.value;
        }
      } else {
        phaseTimer := phaseTimer - diff;
      }
    }
  }
}
