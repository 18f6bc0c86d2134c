/**
 * Bloodmage Laurith of "Bloodspore Ruination". The quest spell hands her
 * the caster's guid; the first caller is held until she has spoken to them
 * (any other caller meanwhile is ignored), and 5 s after speaking she turns
 * back to her home orientation. Her events do not advance while she fights,
 * and each tick executes at most one of them.
 */
module BloodmageLaurithScript {
  import opened Engine
  import opened EventMaps

  const SAY_BLOODMAGE_LAURITH: nat := 0
  const EVENT_TALK: nat := 1
  const EVENT_RESET_ORIENTATION: nat := 2
  const TALK_DELAY: nat := 1000
  const RESET_ORIENTATION_DELAY: nat := 5000

  /** `_playerGUID` and the event queue (clock and pending events). */
  datatype LaurithState = LaurithState(playerGuid: ObjectGuid, now: nat, pending: seq<Scheduled>)

  /**
   * `SetGUID`: ignored while a player is held; otherwise hold `guid`, face
   * the player if present, and schedule the talk 1 s out.
   */
  function LaurithSetGuid(s: LaurithState, guid: ObjectGuid, live: set<nat>): (r: (LaurithState, seq<Action>))
    // the latch: a held player shuts out every other caller
    ensures s.playerGuid.Id? ==> r == (s, [])
    // a free Laurith holds the caller and adds exactly the talk to her queue, her clock untouched
    ensures s.playerGuid.Empty? ==>
      r.0.playerGuid == guid && r.0.now == s.now &&
      multiset(r.0.pending) == multiset(s.pending) + multiset{Scheduled(EVENT_TALK, s.now + TALK_DELAY)}
    // she turns to the caller exactly when she takes them and they are still in the world
    ensures r.1 == [FaceTo(Me, Player)] <==> s.playerGuid.Empty? && Resolve(guid, live)
    ensures r.1 != [FaceTo(Me, Player)] ==> r.1 == []
  {
    if s.playerGuid.Id? then (s, [])
    else
      InsertAddsEntry(s.pending, Scheduled(EVENT_TALK, s.now + TALK_DELAY));
      (s.(playerGuid := guid, pending := Insert(s.pending, Scheduled(EVENT_TALK, s.now + TALK_DELAY))),
       if Resolve(guid, live) then [FaceTo(Me, Player)] else [])
  }

  /** Whether a tick of length `diff` out of combat finds an event ready. */
  predicate EventReady(s: LaurithState, diff: nat)
  {
    s.pending != [] && s.pending[0].due <= s.now + diff
  }

  /** One event taken off the queue, at clock `s.now`. */
  function LaurithFire(s: LaurithState, id: nat, live: set<nat>): (r: (LaurithState, seq<Action>))
    ensures r.0.now == s.now
    // only the talk changes anything: it releases the player and adds the turn home to the queue
    ensures id != EVENT_TALK ==> r.0 == s
    ensures id == EVENT_TALK ==>
      r.0.playerGuid == Empty &&
      multiset(r.0.pending) == multiset(s.pending) + multiset{Scheduled(EVENT_RESET_ORIENTATION, s.now + RESET_ORIENTATION_DELAY)}
    // one engine call at most: the line to a present player, or the turn home
    ensures r.1 == [TalkTo(Me, SAY_BLOODMAGE_LAURITH, Player)] <==> id == EVENT_TALK && Resolve(s.playerGuid, live)
    ensures r.1 == [FaceHome(Me)] <==> id == EVENT_RESET_ORIENTATION
    ensures |r.1| <= 1
  {
    if id == EVENT_TALK then
      InsertAddsEntry(s.pending, Scheduled(EVENT_RESET_ORIENTATION, s.now + RESET_ORIENTATION_DELAY));
      (s.(playerGuid := Empty,
          pending := Insert(s.pending, Scheduled(EVENT_RESET_ORIENTATION, s.now + RESET_ORIENTATION_DELAY))),
       if Resolve(s.playerGuid, live) then [TalkTo(Me, SAY_BLOODMAGE_LAURITH, Player)] else [])
    else if id == EVENT_RESET_ORIENTATION then (s, [FaceHome(Me)])
    else (s, [])
  }

  /**
   * One `UpdateAI(diff)`: in combat, only melee; otherwise the clock
   * advances and the earliest event, if ready, executes (one at most).
   */
  function LaurithUpdate(s: LaurithState, diff: nat, inCombat: bool, live: set<nat>): (r: (LaurithState, seq<Action>))
    // fighting freezes the events
    ensures inCombat ==> r.0 == s && r.1 == [MeleeIfReady(Me)]
    // out of combat the clock advances by `diff`; the earliest ready event leaves the queue, and only the talk adds one
    ensures !inCombat ==> r.0.now == s.now + diff
    ensures !inCombat && EventReady(s, diff) ==>
      |r.0.pending| == |s.pending| - (if s.pending[0].id == EVENT_TALK then 0 else 1)
    // the head is the event that runs: it leaves the queue, and only the talk adds the turn home
    ensures !inCombat && EventReady(s, diff) ==>
      multiset(r.0.pending) == multiset(s.pending[1..]) +
        (if s.pending[0].id == EVENT_TALK
         then multiset{Scheduled(EVENT_RESET_ORIENTATION, s.now + diff + RESET_ORIENTATION_DELAY)}
         else multiset{})
    ensures !inCombat && EventReady(s, diff) ==>
      (r.1 == [FaceHome(Me)] <==> s.pending[0].id == EVENT_RESET_ORIENTATION)
    ensures !inCombat && EventReady(s, diff) ==>
      (r.1 == [TalkTo(Me, SAY_BLOODMAGE_LAURITH, Player)] <==>
        s.pending[0].id == EVENT_TALK && Resolve(s.playerGuid, live))
    // a tick with nothing ready changes nothing but the clock
    ensures !inCombat && !EventReady(s, diff) ==> r.0.pending == s.pending && r.0.playerGuid == s.playerGuid && r.1 == []
    // a tick can only release the held player, never take a new one
    ensures r.0.playerGuid != s.playerGuid ==> r.0.playerGuid == Empty
    ensures |r.1| <= 1
  {
    if inCombat then (s, [MeleeIfReady(Me)])
    else if EventReady(s, diff) then
      LaurithFire(LaurithState(s.playerGuid, s.now + diff, s.pending[1..]), s.pending[0].id, live)
    else (s.(now := s.now + diff), [])
  }

  /** First caller wins: while a player is held, no caller changes anything. */
  lemma FirstCallerWins(s: LaurithState, guid: ObjectGuid, live: set<nat>, other: ObjectGuid)
    requires s.playerGuid.Id?
    ensures LaurithSetGuid(s, other, live).0 == s
    ensures LaurithSetGuid(LaurithSetGuid(s, guid, live).0, other, live).0 == s
  {
  }

  /** Fighting freezes the events: the clock does not move and nothing executes. */
  lemma CombatFreezesEvents(s: LaurithState, diff: nat, live: set<nat>)
    ensures LaurithUpdate(s, diff, true, live).0 == s
    ensures forall a :: a in LaurithUpdate(s, diff, true, live).1 ==> a == MeleeIfReady(Me)
  {
  }

  /**
   * At most one event per tick: when events are ready, exactly one of them
   * is consumed and what it schedules is not ready yet, so one fewer is ready.
   */
  lemma OneEventPerTick(s: LaurithState, diff: nat, live: set<nat>)
    requires EventReady(s, diff)
    ensures ReadyCount(LaurithUpdate(s, diff, false, live).0.pending, s.now + diff) ==
      ReadyCount(s.pending, s.now + diff) - 1
  {
    var t := LaurithState(s.playerGuid, s.now + diff, s.pending[1..]);
    FireSchedulesLater(t, s.pending[0].id, live);
    assert LaurithUpdate(s, diff, false, live) == LaurithFire(t, s.pending[0].id, live);
    assert ReadyCount(s.pending, s.now + diff) == 1 + ReadyCount(t.pending, t.now);
  }

  /** What an event schedules is not ready in the tick that runs it. */
  lemma FireSchedulesLater(t: LaurithState, id: nat, live: set<nat>)
    ensures ReadyCount(LaurithFire(t, id, live).0.pending, t.now) == ReadyCount(t.pending, t.now)
  {
    if id == EVENT_TALK {
      InsertLaterKeepsReady(t.pending, Scheduled(EVENT_RESET_ORIENTATION, t.now + RESET_ORIENTATION_DELAY), t.now);
    }
  }

  /** The talk a caller sets off is never ready in the tick that scheduled it. */
  lemma TalkWaits(s: LaurithState, guid: ObjectGuid, live: set<nat>)
    ensures ReadyCount(LaurithSetGuid(s, guid, live).0.pending, s.now) == ReadyCount(s.pending, s.now)
  {
    if s.playerGuid.Empty? {
      InsertLaterKeepsReady(s.pending, Scheduled(EVENT_TALK, s.now + TALK_DELAY), s.now);
    }
  }

  /** Speaking releases the latch: after the talk executes, a new caller is accepted. */
  lemma TalkReleasesLatch(s: LaurithState, diff: nat, live: set<nat>)
    requires EventReady(s, diff) && s.pending[0].id == EVENT_TALK
    ensures LaurithUpdate(s, diff, false, live).0.playerGuid == Empty
  {
  }

  /**
   * The whole exchange from an idle Laurith: a caller is held and faced,
   * spoken to 1 s later and released, and 5 s after that she faces home
   * with nothing left pending.
   */
  lemma Exchange(now: nat, player: nat, live: set<nat>)
    requires player in live
    ensures var (s1, a1) := LaurithSetGuid(LaurithState(Empty, now, []), Id(player), live);
      s1 == LaurithState(Id(player), now, [Scheduled(EVENT_TALK, now + 1000)]) && a1 == [FaceTo(Me, Player)]
    ensures var (s2, a2) := LaurithUpdate(LaurithState(Id(player), now, [Scheduled(EVENT_TALK, now + 1000)]), 1000, false, live);
      s2 == LaurithState(Empty, now + 1000, [Scheduled(EVENT_RESET_ORIENTATION, now + 6000)]) &&
      a2 == [TalkTo(Me, SAY_BLOODMAGE_LAURITH, Player)]
    ensures var (s3, a3) := LaurithUpdate(LaurithState(Empty, now + 1000, [Scheduled(EVENT_RESET_ORIENTATION, now + 6000)]), 5000, false, live);
      s3 == LaurithState(Empty, now + 6000, []) && a3 == [FaceHome(Me)]
  {
  }

  class Laurith {
    var playerGuid: ObjectGuid
    const events: EventMap
    var log: seq<Action>

    function Snapshot(): LaurithState
      reads this, events
    {
      LaurithState(playerGuid, events.now, events.pending)
    }

    ghost predicate Valid()
      reads this, events
    {
      events.Valid()
    }

    constructor ()
      ensures Valid() && fresh(events)
      ensures Snapshot() == LaurithState(Empty, 0, []) && log == []
    {
      playerGuid := Empty;
      events := new EventMap();
      log := [];
    }

    /** `Reset`: every pending event dropped, the held player released. */
    method Reset()
      modifies this, events
      ensures Valid() && log == old(log)
      ensures Snapshot() == LaurithState(Empty, 0, [])
    {
      events.Reset();
      playerGuid := Empty;
    }

    method SetGUID(guid: ObjectGuid, live: set<nat>)
      requires Valid()
      modifies this, events
      ensures Valid()
      ensures Snapshot() == LaurithSetGuid(old(Snapshot()), guid, live).0
      ensures log == old(log) + LaurithSetGuid(old(Snapshot()), guid, live).1
    {
      if playerGuid.Id? {
        return;
      }
      ghost var r := LaurithSetGuid(Snapshot(), guid, live);
      playerGuid := guid;
      if Resolve(playerGuid, live) {
        log := log + [FaceTo(Me, Player)];
      }
      events.ScheduleEvent(EVENT_TALK, TALK_DELAY);
      assert events.pending == r.0.pending;
    }

    method UpdateAI(diff: nat, inCombat: bool, live: set<nat>)
      requires Valid()
      modifies this, events
      ensures Valid()
      ensures Snapshot() == LaurithUpdate(old(Snapshot()), diff, inCombat, live).0
      ensures log == old(log) + LaurithUpdate(old(Snapshot()), diff, inCombat, live).1
    {
      if inCombat {
        log := log + [MeleeIfReady(Me)];
        return;
      }
      ghost var r := LaurithUpdate(Snapshot(), diff, inCombat, live);
      events.Update(diff);
      var id := events.ExecuteEvent();
      ghost var taken := Snapshot();
      assert r == if id == 0 then (taken, []) else LaurithFire(taken, id, live);
      if id != 0 {
        Fire(id, live);
      }
    }

    /** The switch over the event taken off the queue. */
    method Fire(id: nat, live: set<nat>)
      requires Valid()
      modifies this, events
      ensures Valid()
      ensures Snapshot() == LaurithFire(old(Snapshot()), id, live).0
      ensures log == old(log) + LaurithFire(old(Snapshot()), id, live).1
    {
      if id == EVENT_TALK {
        if Resolve(playerGuid, live) {
          log := log + [TalkTo(Me, SAY_BLOODMAGE_LAURITH, Player)];
        }
        playerGuid := Empty;
        events.ScheduleEvent(EVENT_RESET_ORIENTATION, RESET_ORIENTATION_DELAY);
      } else if id == EVENT_RESET_ORIENTATION {
        log := log + [FaceHome(Me)];
      }
    }
  }
}
