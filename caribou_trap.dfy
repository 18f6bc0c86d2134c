/**
 * The caribou trap of "Trapping the Light Fantastic". A player's fake-fur
 * spell arms the trap once and for all; from then on each tick drains the
 * trap's event queue, and each event does its part of the little scene (fur
 * appears, a Nesingwary trapper walks up, talks, loots, is trapped) and
 * schedules only its successor.
 */
module CaribouTrapScript {
  import opened Engine
  import opened EventMaps

  const EVENT_FUR_SPAWN: nat := 1
  const EVENT_SPAWN_TRAPPER: nat := 2
  const EVENT_TRAPPER_MOVE: nat := 3
  const EVENT_TRAPPER_TEXT: nat := 4
  const EVENT_TRAPPER_LOOT: nat := 5
  const EVENT_FUR_DESPAWN: nat := 6
  const EVENT_TRAPPER_DIE: nat := 7
  const EVENT_DESPAWN_ALL: nat := 8

  const GO_HIGH_QUALITY_FUR: nat := 187983
  const NPC_NESINGWARY_TRAPPER: nat := 25835
  const SAY_NESINGWARY_1: nat := 0
  const SPELL_PLACE_FAKE_FUR: nat := 46085
  const SPELL_TRAPPED: nat := 46104
  /** The loot emote; its value comes from the engine's shared emote enumeration. */
  const EMOTE_ONESHOT_LOOT: nat := 50

  /** The delay before the first event once the fur is placed. */
  const ARM_DELAY: nat := 1000

  /** The event an event schedules, and after how many milliseconds. */
  datatype Follow = Follow(next: nat, delay: nat)

  /**
   * The chain: fur 1 s→ trapper spawns 1 s→ trapper moves 5 s→ trapper
   * talks 2 s→ trapper loots 1 s→ fur despawns 1 s→ trapper dies 1 s→
   * everything despawns, which schedules nothing.
   */
  function Successor(id: nat): (r: Option<Follow>)
    ensures r.Some? <==> 1 <= id <= 7
    ensures r.Some? ==> r.value.next == id + 1 && r.value.delay > 0
  {
    match id
    case 1 => Some(Follow(EVENT_SPAWN_TRAPPER, 1000))
    case 2 => Some(Follow(EVENT_TRAPPER_MOVE, 1000))
    case 3 => Some(Follow(EVENT_TRAPPER_TEXT, 5000))
    case 4 => Some(Follow(EVENT_TRAPPER_LOOT, 2000))
    case 5 => Some(Follow(EVENT_FUR_DESPAWN, 1000))
    case 6 => Some(Follow(EVENT_TRAPPER_DIE, 1000))
    case 7 => Some(Follow(EVENT_DESPAWN_ALL, 1000))
    case _ => None
  }

  /** The queue entry an event at clock `now` leaves behind. */
  function Next(id: nat, now: nat): (q: seq<Scheduled>)
    ensures |q| <= 1
    ensures q != [] ==> q[0].id == id + 1 && now < q[0].due && 2 <= q[0].id <= 8
    ensures q == [] <==> Successor(id).None?
  {
    match Successor(id)
    case None => []
    case Some(f) => [Scheduled(f.next, now + f.delay)]
  }

  /** The queue `q` once event `id`, run at clock `now`, has scheduled its successor. */
  function Queued(q: seq<Scheduled>, id: nat, now: nat): (r: seq<Scheduled>)
    ensures Successor(id).None? ==> r == q
    ensures q == [] ==> r == Next(id, now)
  {
    match Successor(id)
    case None => q
    case Some(f) => Insert(q, Scheduled(f.next, now + f.delay))
  }

  /** `_placedFur`, the three remembered guids, and the event queue (clock and pending events). */
  datatype TrapState = TrapState(
    placedFur: bool, playerGuid: ObjectGuid, furGuid: ObjectGuid, trapperGuid: ObjectGuid,
    now: nat, pending: seq<Scheduled>)

  /** What a tick sees of the world: live objects and the results of the two summons. */
  datatype TrapWorld = TrapWorld(live: set<nat>, furSummon: ObjectGuid, trapperSummon: ObjectGuid)

  /**
   * The reachable states: at most one event pending, a chain event, and
   * nothing pending before the fur is placed.
   */
  predicate TrapInvariant(s: TrapState)
  {
    |s.pending| <= 1 &&
    (s.pending != [] ==> 1 <= s.pending[0].id <= 8) &&
    (!s.placedFur ==> s.pending == [])
  }

  /** `SpellHit`: only the first fake-fur spell from a player arms the trap. */
  function Arm(s: TrapState, casterIsPlayer: bool, caster: ObjectGuid, spellId: nat): (r: TrapState)
    ensures r != s <==> !s.placedFur && casterIsPlayer && spellId == SPELL_PLACE_FAKE_FUR
    ensures r != s ==>
      r.placedFur && r.playerGuid == caster && r.furGuid == s.furGuid &&
      r.trapperGuid == s.trapperGuid && r.now == s.now &&
      r.pending == Insert(s.pending, Scheduled(EVENT_FUR_SPAWN, s.now + ARM_DELAY))
  {
    if !s.placedFur && casterIsPlayer && spellId == SPELL_PLACE_FAKE_FUR then
      s.(placedFur := true, playerGuid := caster,
         pending := Insert(s.pending, Scheduled(EVENT_FUR_SPAWN, s.now + ARM_DELAY)))
    else s
  }

  /** Once armed, no later hit changes anything, whoever casts what. */
  lemma ArmsOnce(s: TrapState, casterIsPlayer: bool, caster: ObjectGuid, spellId: nat)
    requires s.placedFur
    ensures Arm(s, casterIsPlayer, caster, spellId) == s
  {
  }

  /** Arming keeps the invariant and leaves exactly the fur-spawn event pending, 1 s out. */
  lemma ArmKeepsInvariant(s: TrapState, casterIsPlayer: bool, caster: ObjectGuid, spellId: nat)
    requires TrapInvariant(s)
    ensures TrapInvariant(Arm(s, casterIsPlayer, caster, spellId))
    ensures !s.placedFur && casterIsPlayer && spellId == SPELL_PLACE_FAKE_FUR ==>
      Arm(s, casterIsPlayer, caster, spellId).pending == [Scheduled(EVENT_FUR_SPAWN, s.now + ARM_DELAY)]
  {
  }

  /** The engine calls of one event. */
  function EventActions(s: TrapState, id: nat, w: TrapWorld): seq<Action>
  {
    var trapperHere := Resolve(s.trapperGuid, w.live);
    match id
    case 1 => [SummonObject(GO_HIGH_QUALITY_FUR)]
    case 2 => [SummonCreature(NPC_NESINGWARY_TRAPPER)] + (if w.trapperSummon.Id? then [FaceTo(Trapper, Me)] else [])
    case 3 => if trapperHere then [MovePoint(Trapper)] else []
    case 4 => if trapperHere then [Talk(Trapper, SAY_NESINGWARY_1)] else []
    case 5 => if trapperHere then [Emote(Trapper, EMOTE_ONESHOT_LOOT)] else []
    case 6 => if Resolve(s.furGuid, w.live) then [RemoveFromWorld(Fur)] else []
    case 7 =>
      [SetGoActive(true)] +
      (if trapperHere then
         (if Resolve(s.playerGuid, w.live) then [KillCredit(Player, NPC_NESINGWARY_TRAPPER)] else []) +
         [Cast(Trapper, SPELL_TRAPPED)]
       else [])
    case 8 => (if trapperHere then [Despawn(Trapper)] else []) + [Despawn(Me)]
    case _ => []
  }

  /**
   * One event taken off the queue: remember a summoned fur or trapper,
   * perform the event's calls, and schedule its successor.
   */
  function TrapFire(s: TrapState, id: nat, w: TrapWorld): (r: (TrapState, seq<Action>))
    ensures r.0.placedFur == s.placedFur && r.0.playerGuid == s.playerGuid && r.0.now == s.now
    ensures r.0.furGuid == (if id == EVENT_FUR_SPAWN && w.furSummon.Id? then w.furSummon else s.furGuid)
    ensures r.0.trapperGuid == (if id == EVENT_SPAWN_TRAPPER && w.trapperSummon.Id? then w.trapperSummon else s.trapperGuid)
    ensures s.pending == [] ==> r.0.pending == Next(id, s.now)
    ensures r.1 == EventActions(s, id, w)
  {
    var furGuid := if id == EVENT_FUR_SPAWN && w.furSummon.Id? then w.furSummon else s.furGuid;
    var trapperGuid := if id == EVENT_SPAWN_TRAPPER && w.trapperSummon.Id? then w.trapperSummon else s.trapperGuid;
    (s.(furGuid := furGuid, trapperGuid := trapperGuid, pending := Queued(s.pending, id, s.now)), EventActions(s, id, w))
  }

  /** Whether the tick of length `diff` finds the pending event ready. */
  predicate Ready(s: TrapState, diff: nat)
  {
    s.placedFur && s.pending != [] && s.pending[0].due <= s.now + diff
  }

  /**
   * One `UpdateAI(diff)`: nothing at all while unarmed; otherwise the clock
   * advances and the pending event, if now ready, fires. Its successor is
   * due strictly later, so at most one event fires per tick.
   */
  function TrapUpdate(s: TrapState, diff: nat, w: TrapWorld): (r: (TrapState, seq<Action>))
    requires TrapInvariant(s)
    ensures TrapInvariant(r.0)
    ensures !s.placedFur ==> r == (s, [])
    ensures s.placedFur && !Ready(s, diff) ==> r == (s.(now := s.now + diff), [])
    ensures Ready(s, diff) ==>
      r.0.now == s.now + diff && r.0.pending == Next(s.pending[0].id, s.now + diff) &&
      r.1 == EventActions(s, s.pending[0].id, w)
  {
    if !s.placedFur then (s, [])
    else
      var t := s.(now := s.now + diff);
      if Ready(s, diff) then TrapFire(t.(pending := t.pending[1..]), t.pending[0].id, w)
      else (t, [])
  }

  /** The tick length that lands exactly on the pending deadline (0 when nothing is pending or it is overdue). */
  function ToDeadline(s: TrapState): nat
  {
    if s.pending != [] && s.now <= s.pending[0].due then s.pending[0].due - s.now else 0
  }

  /**
   * `n` ticks, each exactly as long as the pending countdown; returns the
   * final state, the ids of the events fired in order, and the time elapsed.
   */
  function TrapAtDeadlines(s: TrapState, n: nat, w: TrapWorld): (TrapState, seq<nat>, nat)
    requires TrapInvariant(s)
    decreases n
  {
    if n == 0 then (s, [], 0)
    else
      var diff := ToDeadline(s);
      var (t, fired, elapsed) := TrapAtDeadlines(TrapUpdate(s, diff, w).0, n - 1, w);
      ((t, (if Ready(s, diff) then [s.pending[0].id] else []) + fired, diff + elapsed))
  }

  /** The events that follow from `id` on, `id` included. */
  function ChainFrom(id: nat): (c: seq<nat>)
    ensures c == [] <==> !(1 <= id <= 8)
    decreases 9 - id
  {
    if 1 <= id <= 8 then
      [id] + match Successor(id) case None => [] case Some(f) => ChainFrom(f.next)
    else []
  }

  /** The time from event `id` firing to the last event of the chain firing. */
  function ChainDelay(id: nat): nat
    decreases 9 - id
  {
    match Successor(id)
    case None => 0
    case Some(f) => f.delay + ChainDelay(f.next)
  }

  /**
   * An armed trap with event `id` pending, ticked at each deadline, fires
   * exactly the rest of the chain, in order, and is left with nothing
   * pending, `ChainDelay(id)` after the first of them fired.
   */
  lemma {:induction false} DeadlineRunFiresChain(s: TrapState, w: TrapWorld)
    requires TrapInvariant(s) && s.placedFur && s.pending != [] && s.now <= s.pending[0].due
    ensures TrapAtDeadlines(s, 9 - s.pending[0].id, w).0.pending == []
    ensures TrapAtDeadlines(s, 9 - s.pending[0].id, w).1 == ChainFrom(s.pending[0].id)
    ensures TrapAtDeadlines(s, 9 - s.pending[0].id, w).2 == s.pending[0].due - s.now + ChainDelay(s.pending[0].id)
    decreases 9 - s.pending[0].id
  {
    var id := s.pending[0].id;
    var t := TrapUpdate(s, ToDeadline(s), w).0;
    assert Ready(s, ToDeadline(s));
    assert t.pending == Next(id, s.pending[0].due);
    if id < 8 {
      DeadlineRunFiresChain(t, w);
    } else {
      assert TrapAtDeadlines(t, 0, w) == (t, [], 0);
    }
  }

  /** The whole chain: eight events, the last one 12 s after the fur appears. */
  lemma WholeChain()
    ensures ChainFrom(EVENT_FUR_SPAWN) == [1, 2, 3, 4, 5, 6, 7, 8]
    ensures ChainDelay(EVENT_FUR_SPAWN) == 12000
  {
    assert ChainDelay(7) == 1000;
    assert ChainDelay(5) == 3000;
    assert ChainDelay(3) == 10000;
  }

  /** Once the chain is over, ticks only move the clock. */
  lemma FinishedTrapIsQuiet(s: TrapState, diff: nat, w: TrapWorld)
    requires TrapInvariant(s) && s.pending == []
    ensures TrapUpdate(s, diff, w).1 == []
    ensures TrapUpdate(s, diff, w).0.pending == []
  {
  }

  class CaribouTrap {
    var placedFur: bool
    var playerGuid: ObjectGuid
    var furGuid: ObjectGuid
    var trapperGuid: ObjectGuid
    const events: EventMap
    var log: seq<Action>

    function Snapshot(): TrapState
      reads this, events
    {
      TrapState(placedFur, playerGuid, furGuid, trapperGuid, events.now, events.pending)
    }

    ghost predicate Valid()
      reads this, events
    {
      events.Valid() && TrapInvariant(Snapshot())
    }

    constructor ()
      ensures Valid() && fresh(events)
      ensures Snapshot() == TrapState(false, Empty, Empty, Empty, 0, []) && log == []
    {
      placedFur := false;
      playerGuid, furGuid, trapperGuid := Empty, Empty, Empty;
      events := new EventMap();
      log := [];
    }

    /** `Reset` only readies the trap object again; `_placedFur` stays as it was. */
    method Reset()
      modifies this
      ensures Snapshot() == old(Snapshot()) && log == old(log) + [SetGoActive(false)]
    {
      log := log + [SetGoActive(false)];
    }

    method SpellHit(casterIsPlayer: bool, caster: ObjectGuid, spellId: nat)
      requires Valid()
      modifies this, events
      ensures Valid() && log == old(log)
      ensures Snapshot() == Arm(old(Snapshot()), casterIsPlayer, caster, spellId)
    {
      if placedFur {
        return;
      }
      if !casterIsPlayer {
        return;
      }
      if spellId == SPELL_PLACE_FAKE_FUR {
        playerGuid := caster;
        placedFur := true;
        events.ScheduleEvent(EVENT_FUR_SPAWN, ARM_DELAY);
      }
    }

    /** The body of the drain loop for one event. */
    method Fire(id: nat, w: TrapWorld)
      requires events.Valid() && id > 0
      modifies this, events
      ensures events.Valid() && events.now == old(events.now)
      ensures Snapshot() == TrapFire(old(Snapshot()), id, w).0
      ensures log == old(log) + TrapFire(old(Snapshot()), id, w).1
    {
      var actions := EventActions(Snapshot(), id, w);
      if id == EVENT_FUR_SPAWN && w.furSummon.Id? {
        furGuid := w.furSummon;
      }
      if id == EVENT_SPAWN_TRAPPER && w.trapperSummon.Id? {
        trapperGuid := w.trapperSummon;
      }
      ScheduleSuccessor(id);
      log := log + actions;
    }

    /** Schedules the successor of event `id`, if it has one. */
    method ScheduleSuccessor(id: nat)
      requires events.Valid()
      modifies events
      ensures events.Valid() && events.now == old(events.now)
      ensures events.pending == Queued(old(events.pending), id, events.now)
    {
      var follow := Successor(id);
      if follow.Some? {
        events.ScheduleEvent(follow.value.next, follow.value.delay);
      }
    }

    method UpdateAI(diff: nat, w: TrapWorld)
      requires Valid()
      modifies this, events
      ensures Valid()
      ensures Snapshot() == TrapUpdate(old(Snapshot()), diff, w).0
      ensures log == old(log) + TrapUpdate(old(Snapshot()), diff, w).1
    {
      if !placedFur {
        return;
      }
      events.Update(diff);
      ghost var s := old(Snapshot());
      ghost var started := Snapshot();
      ghost var fired := false;
      while true
        invariant events.Valid() && placedFur
        invariant !fired ==> Snapshot() == started && log == old(log)
        invariant fired ==>
          Ready(s, diff) && Snapshot() == TrapUpdate(s, diff, w).0 && log == old(log) + TrapUpdate(s, diff, w).1
        invariant fired ==> events.pending == [] || events.now < events.pending[0].due
        decreases if fired then 0 else 1
      {
        var id := events.ExecuteEvent();
        if id == 0 {
          break;
        }
        ghost var taken := Snapshot();
        assert taken == started.(pending := started.pending[1..]) && id == started.pending[0].id;
        assert TrapUpdate(s, diff, w) == TrapFire(taken, id, w);
        Fire(id, w);
        fired := true;
      }
    }
  }
}
