/**
 * The hidden cultists of "The Hunt Is On" (Salty John Thorpe, Guard
 * Mitchells, Tom Hegger). Confronted by a player, a cultist drops its
 * disguise and, on a countdown, speaks its lines and finally turns on the
 * player; what it says and when it attacks depends on which of the three it
 * is. A transition fires only when the countdown is non-zero and has run
 * out; otherwise the tick subtracts, which on a zero countdown wraps around.
 */
module HiddenCultistScript {
  import opened Engine

  const SPELL_SHROUD_OF_THE_DEATH_CULTIST: nat := 46077
  const NPC_TOM_HEGGER: nat := 25827
  const NPC_SALTY_JOHN_THORPE: nat := 25248
  const NPC_GUARD_MITCHELLS: nat := 25828
  const SAY_HIDDEN_CULTIST_1: nat := 0
  const SAY_HIDDEN_CULTIST_2: nat := 1
  const SAY_HIDDEN_CULTIST_3: nat := 2
  const SAY_HIDDEN_CULTIST_4: nat := 3
  const UNIT_NPC_FLAG_NONE: nat := 0
  const EMOTE_ONESHOT_NONE: nat := 0

  /** `uiEventTimer` and `uiEventPhase`. */
  datatype Interrogation = Interrogation(timer: u32, phase: u8)

  /** What the phase table does when the countdown fires. */
  datatype Outcome =
    | Advance(next: u8, timer: u32)  // speak, go to `next`, count down `timer`
    | Attack                         // turn hostile, go to phase 0, countdown untouched
    | Stay                           // nothing: the entry has no case in this phase

  predicate IsCultist(entry: nat)
  {
    entry == NPC_SALTY_JOHN_THORPE || entry == NPC_GUARD_MITCHELLS || entry == NPC_TOM_HEGGER
  }

  /**
   * The per-entry phase table: all three speak in phase 1 and count 5 s to
   * phase 2; in phase 2 Salty John speaks again and counts 3 s to phase 3,
   * the other two attack; in phase 3 Salty John attacks.
   */
  function CultistStep(entry: nat, phase: u8): (r: Outcome)
    ensures r.Advance? <==> (phase == 1 && IsCultist(entry)) || (phase == 2 && entry == NPC_SALTY_JOHN_THORPE)
    ensures r.Advance? ==> r.next == phase + 1 && r.timer == (if phase == 1 then 5000 else 3000)
    ensures r.Attack? <==>
      (phase == 2 && (entry == NPC_GUARD_MITCHELLS || entry == NPC_TOM_HEGGER)) ||
      (phase == 3 && entry == NPC_SALTY_JOHN_THORPE)
  {
    if phase == 1 then
      if IsCultist(entry) then Advance(2, 5000) else Stay
    else if phase == 2 then
      if entry == NPC_SALTY_JOHN_THORPE then Advance(3, 3000)
      else if entry == NPC_GUARD_MITCHELLS || entry == NPC_TOM_HEGGER then Attack
      else Stay
    else if phase == 3 && entry == NPC_SALTY_JOHN_THORPE then Attack
    else Stay
  }

  /** `AttackPlayer`: hostile faction, then attack the player if still in the world. */
  function AttackActions(playerHere: bool): seq<Action>
  {
    [MakeHostile(Me)] + (if playerHere then [AttackStart(Me, Player)] else [])
  }

  /** The engine calls of a firing transition. */
  function CultistActions(entry: nat, phase: u8, playerHere: bool): seq<Action>
  {
    if phase == 1 then
      if entry == NPC_SALTY_JOHN_THORPE then [Talk(Me, SAY_HIDDEN_CULTIST_1)]
      else if entry == NPC_GUARD_MITCHELLS then [Talk(Me, SAY_HIDDEN_CULTIST_2)]
      else if entry == NPC_TOM_HEGGER && playerHere then [TalkTo(Me, SAY_HIDDEN_CULTIST_3, Player)]
      else []
    else match CultistStep(entry, phase)
      case Advance(_, _) => [Talk(Me, SAY_HIDDEN_CULTIST_4)] + (if playerHere then [FaceTo(Me, Player)] else [])
      case Attack => AttackActions(playerHere)
      case Stay => []
  }

  /** Whether a tick of length `diff` fires the phase table. */
  predicate Fires(s: Interrogation, diff: u32)
  {
    s.timer != 0 && s.timer <= diff
  }

  /** One `UpdateAI(uiDiff)` of the interrogation state. */
  function CultistTick(s: Interrogation, entry: nat, diff: u32): (r: Interrogation)
    ensures !Fires(s, diff) ==> r.phase == s.phase && r.timer == Sub32(s.timer, diff)
    ensures s.timer == 0 && diff > 0 ==> r.timer == U32_MODULUS - diff
    ensures Fires(s, diff) && CultistStep(entry, s.phase).Advance? ==>
      r.phase == s.phase + 1 && r.timer == CultistStep(entry, s.phase).timer
    ensures Fires(s, diff) && CultistStep(entry, s.phase).Attack? ==> r == s.(phase := 0)
    ensures Fires(s, diff) && CultistStep(entry, s.phase).Stay? ==> r == s
  {
    if Fires(s, diff) then
      match CultistStep(entry, s.phase)
      case Advance(next, timer) => Interrogation(timer, next)
      case Attack => s.(phase := 0)
      case Stay => s
    else
      s.(timer := Sub32(s.timer, diff))
  }

  /** The state `DoAction` leaves: 3 s to phase 1. */
  const CONFRONTED := Interrogation(3000, 1)

  /**
   * What every reachable state satisfies: the phase is at most 3, and a
   * pending phase always has a running (non-zero) countdown.
   */
  predicate Consistent(s: Interrogation)
  {
    s.phase <= 3 && (s.phase != 0 ==> s.timer != 0)
  }

  lemma ConfrontedIsConsistent()
    ensures Consistent(CONFRONTED)
    ensures Consistent(Interrogation(0, 0))
  {
  }

  /** Every tick keeps the state consistent. */
  lemma TickKeepsConsistent(s: Interrogation, entry: nat, diff: u32)
    requires Consistent(s)
    ensures Consistent(CultistTick(s, entry, diff))
  {
  }

  /**
   * The zero-countdown wrap-around of the subtraction is harmless: in a
   * consistent state it only happens in phase 0, which it leaves at phase 0,
   * and a tick from phase 0 never does anything but count.
   */
  lemma WrapOnlyWhenIdle(s: Interrogation, entry: nat, diff: u32)
    requires Consistent(s) && s.timer == 0
    ensures s.phase == 0 && CultistTick(s, entry, diff).phase == 0
  {
  }

  /** Phase 0 is idle for every entry: firing there changes nothing. */
  lemma IdleStaysIdle(s: Interrogation, entry: nat, diff: u32)
    requires s.phase == 0
    ensures CultistTick(s, entry, diff).phase == 0
    ensures Fires(s, diff) ==> CultistTick(s, entry, diff) == s
  {
  }

  /**
   * `n` ticks, each exactly as long as the countdown then pending; returns
   * the final state, the number of ticks that attacked, and the time elapsed.
   */
  function CultistAtDeadlines(s: Interrogation, entry: nat, n: nat): (Interrogation, nat, nat)
    decreases n
  {
    if n == 0 then (s, 0, 0)
    else
      var (t, attacks, elapsed) := CultistAtDeadlines(CultistTick(s, entry, s.timer), entry, n - 1);
      (t, attacks + (if Fires(s, s.timer) && CultistStep(entry, s.phase).Attack? then 1 else 0), s.timer + elapsed)
  }

  /**
   * Salty John, confronted: speaks after 3 s, again after 5 s more, attacks
   * 3 s after that (11 s in all) and is then idle in phase 0.
   */
  lemma SaltyJohnInterrogation()
    ensures CultistAtDeadlines(CONFRONTED, NPC_SALTY_JOHN_THORPE, 2).0 == Interrogation(3000, 3)
    ensures CultistAtDeadlines(CONFRONTED, NPC_SALTY_JOHN_THORPE, 2).1 == 0
    ensures CultistAtDeadlines(CONFRONTED, NPC_SALTY_JOHN_THORPE, 3) == (Interrogation(3000, 0), 1, 11000)
  {
    var s1 := CultistTick(CONFRONTED, NPC_SALTY_JOHN_THORPE, 3000);
    var s2 := CultistTick(s1, NPC_SALTY_JOHN_THORPE, 5000);
    var s3 := CultistTick(s2, NPC_SALTY_JOHN_THORPE, 3000);
    assert s1 == Interrogation(5000, 2);
    assert s2 == Interrogation(3000, 3);
    assert s3 == Interrogation(3000, 0);
    assert CultistAtDeadlines(s3, NPC_SALTY_JOHN_THORPE, 0) == (s3, 0, 0);
  }

  /**
   * Guard Mitchells and Tom Hegger, confronted: speak after 3 s, attack 5 s
   * later (8 s in all) and are then idle in phase 0.
   */
  lemma GuardInterrogation(entry: nat)
    requires entry == NPC_GUARD_MITCHELLS || entry == NPC_TOM_HEGGER
    ensures CultistAtDeadlines(CONFRONTED, entry, 1).0 == Interrogation(5000, 2)
    ensures CultistAtDeadlines(CONFRONTED, entry, 2) == (Interrogation(5000, 0), 1, 8000)
  {
    var s1 := CultistTick(CONFRONTED, entry, 3000);
    var s2 := CultistTick(s1, entry, 5000);
    assert s1 == Interrogation(5000, 2);
    assert s2 == Interrogation(5000, 0);
    assert CultistAtDeadlines(s2, entry, 0) == (s2, 0, 0);
    assert CultistAtDeadlines(s1, entry, 0) == (s1, 0, 0);
  }

  class HiddenCultist {
    const entry: nat
    /** The emote state and NPC flags the creature had when the script attached to it. */
    const emoteState: nat
    const npcFlags: nat
    var timer: u32
    var phase: u8
    var playerGuid: ObjectGuid
    var log: seq<Action>

    function Snapshot(): Interrogation
      reads this
    {
      Interrogation(timer, phase)
    }

    predicate Valid()
      reads this
    {
      Consistent(Snapshot())
    }

    constructor (entry: nat, emoteState: nat, npcFlags: nat)
      ensures this.entry == entry && this.emoteState == emoteState && this.npcFlags == npcFlags
      ensures Snapshot() == Interrogation(0, 0) && playerGuid == Empty && log == []
      ensures Valid()
    {
      this.entry, this.emoteState, this.npcFlags := entry, emoteState, npcFlags;
      timer, phase, playerGuid := 0, 0, Empty;
      log := [];
    }

    /** `Reset`: restore the disguise that was captured, clear the interrogation, re-cast the shroud. */
    method Reset()
      modifies this
      ensures Snapshot() == Interrogation(0, 0) && playerGuid == Empty && Valid()
      ensures log == old(log)
        + (if emoteState != 0 then [Emote(Me, emoteState)] else [])
        + (if npcFlags != 0 then [ReplaceNpcFlags(Me, npcFlags)] else [])
        + [Cast(Me, SPELL_SHROUD_OF_THE_DEATH_CULTIST), RestoreFaction(Me)]
    {
      if emoteState != 0 {
        log := log + [Emote(Me, emoteState)];
      }
      if npcFlags != 0 {
        log := log + [ReplaceNpcFlags(Me, npcFlags)];
      }
      timer, phase, playerGuid := 0, 0, Empty;
      log := log + [Cast(Me, SPELL_SHROUD_OF_THE_DEATH_CULTIST), RestoreFaction(Me)];
    }

    /** `DoAction`: stop, drop the disguise, face the player if present, and start the 3 s countdown to phase 1. */
    method DoAction(live: set<nat>)
      modifies this
      ensures Snapshot() == CONFRONTED && Valid() && playerGuid == old(playerGuid)
      ensures log == old(log)
        + [StopMoving(Me), ReplaceNpcFlags(Me, UNIT_NPC_FLAG_NONE), Emote(Me, EMOTE_ONESHOT_NONE)]
        + (if Resolve(playerGuid, live) then [FaceTo(Me, Player)] else [])
    {
      log := log + [StopMoving(Me), ReplaceNpcFlags(Me, UNIT_NPC_FLAG_NONE), Emote(Me, EMOTE_ONESHOT_NONE)];
      if Resolve(playerGuid, live) {
        log := log + [FaceTo(Me, Player)];
      }
      timer := 3000;
      phase := 1;
    }

    /** The confronting gossip choice: remember the player, then `DoAction`. */
    method Confront(player: ObjectGuid, live: set<nat>)
      modifies this
      ensures Snapshot() == CONFRONTED && Valid() && playerGuid == player
      ensures log == old(log)
        + [StopMoving(Me), ReplaceNpcFlags(Me, UNIT_NPC_FLAG_NONE), Emote(Me, EMOTE_ONESHOT_NONE)]
        + (if Resolve(player, live) then [FaceTo(Me, Player)] else [])
    {
      playerGuid := player;
      DoAction(live);
    }

    /** The interrogation part of `UpdateAI(uiDiff)`. */
    method UpdateAI(diff: u32, live: set<nat>)
      modifies this
      ensures old(Valid()) ==> Valid()
      ensures playerGuid == old(playerGuid)
      ensures Snapshot() == CultistTick(old(Snapshot()), entry, diff)
      ensures log == old(log) +
        (if Fires(old(Snapshot()), diff) then CultistActions(entry, old(phase), Resolve(playerGuid, live)) else [])
    {
      if Valid() {
        TickKeepsConsistent(Snapshot(), entry, diff);
      }
      if timer != 0 && timer <= diff {
        var playerHere := Resolve(playerGuid, live);
        log := log + CultistActions(entry, phase, playerHere);
        match CultistStep(entry, phase)
        case Advance(next, t) =>
          timer, phase := t, next;
        case Attack =>
          phase := 0;
        case Stay =>
      } else {
        timer := Sub32(timer, diff);
      }
    }
  }
}
