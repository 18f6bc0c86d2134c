/**
 * The actors Thassarian summons for "Last Rites". Each one, on arriving at
 * the point it was sent to, reports back by raising one of its summoner's
 * completion flags; the summoner consumes the flags on its own tick. The
 * peer reaches its summoner through `GetSummonerUnit`, modelled as a
 * reference that is `null` when the actor is not a summon or its summoner
 * is gone.
 */
module LastRitesPeers {
  import opened Engine
  import opened ThassarianScript

  const SPELL_STUN: nat := 46957
  const SAY_ARLOS_1: nat := 0
  const SAY_ARLOS_2: nat := 1
  const SAY_LERYSSA_1: nat := 0

  /** The Image of the Lich King. */
  class LichKing {
    var summoner: Thassarian?

    constructor (summoner: Thassarian?)
      ensures this.summoner == summoner
    {
      this.summoner := summoner;
    }

    /** A point arrival raises the summoner's `arthasInPosition`; nothing else of it changes. */
    method MovementInform(isPoint: bool)
      modifies summoner
      ensures isPoint && summoner != null ==>
        summoner.Snapshot() == old(summoner.Snapshot()).(arthasInPosition := true) &&
        summoner.log == old(summoner.log)
      ensures !isPoint && summoner != null ==>
        summoner.Snapshot() == old(summoner.Snapshot()) && summoner.log == old(summoner.log)
    {
      if !isPoint {
        return;
      }
      if summoner != null {
        summoner.arthasInPosition := true;
      }
    }
  }

  /** General Arlos. */
  class Arlos {
    var summoner: Thassarian?
    var log: seq<Action>

    constructor (summoner: Thassarian?)
      ensures this.summoner == summoner && log == []
    {
      this.summoner := summoner;
      log := [];
    }

    /** A point arrival stuns Arlos and raises the summoner's `arlosInPosition`. */
    method MovementInform(isPoint: bool)
      modifies this, summoner
      ensures summoner == old(summoner)
      ensures log == old(log) + (if isPoint then [Stun(Me), Cast(Me, SPELL_STUN)] else [])
      ensures isPoint && summoner != null ==>
        summoner.Snapshot() == old(summoner.Snapshot()).(arlosInPosition := true) &&
        summoner.log == old(summoner.log)
      ensures !isPoint && summoner != null ==>
        summoner.Snapshot() == old(summoner.Snapshot()) && summoner.log == old(summoner.log)
    {
      if !isPoint {
        return;
      }
      log := log + [Stun(Me), Cast(Me, SPELL_STUN)];
      if summoner != null {
        summoner.arlosInPosition := true;
      }
    }
  }

  /**
   * Counselor Talbot (Prince Valanar once transformed). Besides reporting
   * its own arrival it holds a one-shot `bCheck` request, raised by Leryssa,
   * to look up Leryssa and Arlos nearby on its next tick; its death releases
   * Leryssa for her second walk. Its spell rotation is left out.
   */
  class Talbot {
    var summoner: Thassarian?
    var bCheck: bool
    var leryssaGuid: ObjectGuid
    var arlosGuid: ObjectGuid
    var log: seq<Action>

    constructor (summoner: Thassarian?)
      ensures this.summoner == summoner && !bCheck && leryssaGuid == Empty && arlosGuid == Empty && log == []
    {
      this.summoner := summoner;
      bCheck := false;
      leryssaGuid, arlosGuid := Empty, Empty;
      log := [];
    }

    /** `Initialize`: guids and the lookup request cleared. */
    method Reset()
      modifies this
      ensures summoner == old(summoner) && log == old(log)
      ensures !bCheck && leryssaGuid == Empty && arlosGuid == Empty
    {
      bCheck := false;
      leryssaGuid, arlosGuid := Empty, Empty;
    }

    /** A point arrival raises the summoner's `talbotInPosition`. */
    method MovementInform(isPoint: bool)
      modifies summoner
      ensures isPoint && summoner != null ==>
        summoner.Snapshot() == old(summoner.Snapshot()).(talbotInPosition := true) &&
        summoner.log == old(summoner.log)
      ensures !isPoint && summoner != null ==>
        summoner.Snapshot() == old(summoner.Snapshot()) && summoner.log == old(summoner.log)
    {
      if !isPoint {
        return;
      }
      if summoner != null {
        summoner.talbotInPosition := true;
      }
    }

    /**
     * The `bCheck` part of `UpdateAI`: when requested, remember Leryssa and
     * Arlos if found nearby (`Empty`: not found, the old guid stays) and drop
     * the request.
     */
    method UpdateAI(nearbyLeryssa: ObjectGuid, nearbyArlos: ObjectGuid)
      modifies this
      ensures summoner == old(summoner) && log == old(log) && !bCheck
      ensures leryssaGuid == if old(bCheck) && nearbyLeryssa.Id? then nearbyLeryssa else old(leryssaGuid)
      ensures arlosGuid == if old(bCheck) && nearbyArlos.Id? then nearbyArlos else old(arlosGuid)
    {
      if bCheck {
        if nearbyLeryssa.Id? {
          leryssaGuid := nearbyLeryssa;
        }
        if nearbyArlos.Id? {
          arlosGuid := nearbyArlos;
        }
        bCheck := false;
      }
    }

    /**
     * Death: only when both guids are set and both resolve, Arlos and
     * Leryssa speak, Arlos dies and Leryssa is freed and sent walking; a
     * player killer's group gets credit for Prince Valanar.
     */
    method JustDied(live: set<nat>, killerIsPlayer: bool)
      modifies this
      ensures summoner == old(summoner) && bCheck == old(bCheck)
      ensures leryssaGuid == old(leryssaGuid) && arlosGuid == old(arlosGuid)
      ensures log == old(log) +
        if Resolve(leryssaGuid, live) && Resolve(arlosGuid, live) then
          [Talk(Arlos, SAY_ARLOS_1), Talk(Arlos, SAY_ARLOS_2), Talk(Leryssa, SAY_LERYSSA_1),
           Kill(Arlos), Unstun(Leryssa), SetWalk(Leryssa, false), MovePoint(Leryssa)]
          + (if killerIsPlayer then [KillCredit(Player, NPC_PRINCE_VALANAR)] else [])
        else []
    {
      if leryssaGuid.Empty? || arlosGuid.Empty? {
        return;
      }
      if !Resolve(leryssaGuid, live) || !Resolve(arlosGuid, live) {
        return;
      }
      log := log + [Talk(Arlos, SAY_ARLOS_1), Talk(Arlos, SAY_ARLOS_2), Talk(Leryssa, SAY_LERYSSA_1),
                    Kill(Arlos), Unstun(Leryssa), SetWalk(Leryssa, false), MovePoint(Leryssa)];
      if killerIsPlayer {
        log := log + [KillCredit(Player, NPC_PRINCE_VALANAR)];
      }
    }
  }
}
