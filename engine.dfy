/**
 * The pieces of the game server that every scripted controller in the zone
 * leans on, reduced to what the controllers observe of them: unsigned
 * machine integers, object identifiers resolved against the live world, and
 * opaque tags for the engine calls (talk, cast, summon, move, despawn, ...)
 * that a controller issues and never reads back.
 */
module Engine {

  const U32_MODULUS: nat := 0x1_0000_0000

  /** `uint32`: timers, phases and elapsed-time deltas. */
  type u32 = x: int | 0 <= x < 0x1_0000_0000

  /** `uint8`: the cultist's event phase. */
  type u8 = x: int | 0 <= x < 0x100

  /** `a -= b` on `uint32`: subtraction that wraps around modulo 2^32. */
  function Sub32(a: u32, b: u32): (r: u32)
    ensures b <= a ==> r == a - b
    ensures a < b ==> r == U32_MODULUS + a - b
  {
    (a - b) % U32_MODULUS
  }

  datatype Option<T> = None | Some(value: T)

  /** `ObjectGuid`: a durable, weak reference to a world object; `Empty` is a cleared guid. */
  datatype ObjectGuid = Empty | Id(value: nat)

  /**
   * `ObjectAccessor::GetCreature/GetPlayer/GetGameObject`: a guid resolves
   * only when it is set and the object it names is still in the world.
   */
  predicate Resolve(g: ObjectGuid, live: set<nat>)
  {
    g.Id? && g.value in live
  }

  /** The object an engine call is addressed to, seen from the calling controller. */
  datatype Who =
    | Me | Summoner | Talbot | Arthas | Arlos | Leryssa
    | Trapper | Fur | Player | Target | Caster

  datatype StandState = Standing | Kneeling | Sitting

  /** One engine call, recorded as a tag; its effect on the world is not modelled. */
  datatype Action =
    | Talk(speaker: Who, line: nat)
    | TalkTo(speaker: Who, line: nat, listener: Who)
    | Cast(caster: Who, spell: nat)
    | SummonCreature(entry: nat)
    | SummonObject(entry: nat)
    | MovePoint(mover: Who)
    | SetWalk(who: Who, walk: bool)
    | SetStand(who: Who, state: StandState)
    | Stun(who: Who)
    | Transform(who: Who, entry: nat)
    | FaceTo(who: Who, target: Who)
    | FaceHome(who: Who)
    | MakePassive(who: Who)
    | MakeNonAttackable(who: Who)
    | MakeAttackable(who: Who)
    | Aggressive(who: Who)
    | AttackStart(attacker: Who, victim: Who)
    | MakeHostile(who: Who)
    | RestoreFaction(who: Who)
    | QuestGiver(who: Who)
    | Emote(who: Who, emote: nat)
    | ReplaceNpcFlags(who: Who, flags: nat)
    | StopMoving(who: Who)
    | KillCredit(player: Who, entry: nat)
    | SetGoActive(active: bool)
    | Kill(who: Who)
    | Unstun(who: Who)
    | RemoveFromWorld(who: Who)
    | Despawn(who: Who)
    | MeleeIfReady(who: Who)

  /** Two calls' worth of engine calls appended to a log in turn are the log plus both. */
  lemma AppendAssociates<T>(a: seq<T>, b: seq<T>, c: seq<T>)
    ensures (a + b) + c == a + (b + c)
  {
  }
}
