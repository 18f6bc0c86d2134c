/**
 * "Last Rites" as the actors play it together: peers raise Thassarian's
 * completion flags from their own handlers, Thassarian consumes them on his
 * next tick, and Leryssa's last dialogue step writes his closing phase.
 * These clients use only the contracts of the controllers.
 */
module LastRites {
  import opened Engine
  import opened ThassarianScript
  import opened LastRitesPeers
  import opened LeryssaScript

  /**
   * The Lich King arrives first: Thassarian's next tick leaves him idle with
   * the flag still raised. Talbot arrives: the tick after that consumes both
   * flags, enters phase 1 and, its countdown being 0, takes phase 1's step
   * at once (phase 2, 3 s).
   */
  method ArrivalHandshake(diff: u32) returns (afterOne: u32, flagKept: bool, afterBoth: u32, timer: u32, consumed: bool)
    ensures afterOne == 0 && flagKept
    ensures afterBoth == 2 && timer == 3000 && consumed
  {
    var thassarian := new Thassarian();
    var lichKing := new LichKing(thassarian);
    var talbot := new Talbot(thassarian);
    var world := World({}, Empty, Empty);

    lichKing.MovementInform(true);
    thassarian.UpdateAI(diff, world);
    afterOne, flagKept := thassarian.phase, thassarian.arthasInPosition;

    talbot.MovementInform(true);
    thassarian.UpdateAI(diff, world);
    afterBoth, timer := thassarian.phase, thassarian.phaseTimer;
    consumed := !thassarian.arthasInPosition && !thassarian.talbotInPosition;
  }

  /**
   * Arlos and Leryssa both arrive: the next tick consumes both flags and
   * resumes the escort, leaving the (idle) phase engine alone.
   */
  method SecondGate(diff: u32) returns (paused: bool, phase: u32, consumed: bool)
    ensures !paused && phase == 0 && consumed
  {
    var thassarian := new Thassarian();
    thassarian.WaypointReached(3, true, Empty, Empty);
    var arlos := new Arlos(thassarian);
    var leryssa := new Leryssa(thassarian);

    arlos.MovementInform(true);
    leryssa.MovementInform(true, null);
    thassarian.UpdateAI(diff, World({}, Empty, Empty));
    paused, phase := thassarian.escortPaused, thassarian.phase;
    consumed := !thassarian.arlosInPosition && !thassarian.leryssaInPosition;
  }

  /**
   * Leryssa in phase 1 of her dialogue, ticked at each deadline: after the
   * seventh tick she is idle and the only change to her summoner is phase 16.
   */
  method Converse(leryssa: Leryssa)
    requires leryssa.summoner != null && leryssa.phase == 1
    modifies leryssa, leryssa.summoner
    ensures leryssa.summoner == old(leryssa.summoner)
    ensures leryssa.phase == 0
    ensures leryssa.summoner.Snapshot() == old(leryssa.summoner.Snapshot()).(phase := CLOSING_PHASE)
    ensures leryssa.summoner.log == old(leryssa.summoner.log)
  {
    var i := 1;
    while i <= 7
      invariant 1 <= i <= 8
      invariant leryssa.summoner == old(leryssa.summoner)
      invariant leryssa.phase == (if i == 8 then 0 else i)
      invariant leryssa.summoner.Snapshot() ==
        (if i == 8 then old(leryssa.summoner.Snapshot()).(phase := CLOSING_PHASE) else old(leryssa.summoner.Snapshot()))
      invariant leryssa.summoner.log == old(leryssa.summoner.log)
    {
      leryssa.UpdateAI(leryssa.phaseTimer);
      i := i + 1;
    }
  }

  /**
   * Leryssa's second arrival starts her dialogue; its seventh step writes
   * phase 16 into Thassarian, whose next tick makes him a quest giver again
   * and sets the 20 s countdown to phase 17.
   */
  method DialogueHandOff() returns (leryssaPhase: u32, thassarianPhase: u32, thassarianTimer: u32)
    ensures leryssaPhase == 0
    ensures thassarianPhase == 17 && thassarianTimer == 20000
  {
    var thassarian := new Thassarian();
    var leryssa := new Leryssa(thassarian);
    leryssa.MovementInform(true, null);
    leryssa.MovementInform(true, null);
    Converse(leryssa);
    thassarian.UpdateAI(0, World({}, Empty, Empty));
    leryssaPhase, thassarianPhase, thassarianTimer := leryssa.phase, thassarian.phase, thassarian.phaseTimer;
  }
}
