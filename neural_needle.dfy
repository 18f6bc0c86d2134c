/**
 * "The Art of Persuasion": the two neural-needle spells. Each hit makes the
 * target react, then picks the whisper it utters from the stack count of
 * the needle aura on the caster. The basic needle has five fixed whispers
 * (the fifth grants the quest credit) and a random one of three at stack 6;
 * the prototype needle has ten fixed whispers.
 */
module NeuralNeedleScripts {
  import opened Engine

  const WHISPER_TORTURE_1: nat := 0
  const WHISPER_TORTURE_RANDOM_1: nat := 5
  const WHISPER_TORTURE_PROTO_1: nat := 8
  const SPELL_NEURAL_NEEDLE_IMPACT: nat := 45702
  const SPELL_PROTOTYPE_NEURAL_NEEDLE_IMPACT: nat := 48254

  /** The stack at which the basic needle grants credit. */
  const CREDIT_STACK: nat := 5

  /**
   * The basic needle's whisper for an aura stack count (`None`: the caster
   * has no needle aura); `pick` in 0..2 is the random choice at stack 6.
   */
  function NeedleWhisper(stack: Option<nat>, pick: nat): (r: Option<nat>)
    requires pick < 3
    ensures r.Some? <==> stack.Some? && 1 <= stack.value <= 6
    ensures r.Some? && stack.value <= 5 ==> r.value == WHISPER_TORTURE_1 + stack.value - 1
    ensures r.Some? && stack.value == 6 ==> WHISPER_TORTURE_RANDOM_1 <= r.value < WHISPER_TORTURE_RANDOM_1 + 3
  {
    match stack
    case None => None
    case Some(n) =>
      if 1 <= n <= 5 then Some(WHISPER_TORTURE_1 + n - 1)
      else if n == 6 then Some(WHISPER_TORTURE_RANDOM_1 + pick)
      else None
  }

  /** The prototype needle's whisper for an aura stack count. */
  function PrototypeWhisper(stack: Option<nat>): (r: Option<nat>)
    ensures r.Some? <==> stack.Some? && 1 <= stack.value <= 10
    ensures r.Some? ==> r.value == WHISPER_TORTURE_PROTO_1 + stack.value - 1
  {
    match stack
    case None => None
    case Some(n) => if 1 <= n <= 10 then Some(WHISPER_TORTURE_PROTO_1 + n - 1) else None
  }

  /** The basic needle's whispers tell the first five stacks apart and never repeat a random line. */
  lemma NeedleWhispersDistinct(a: nat, b: nat, pick: nat)
    requires 1 <= a <= 5 && 1 <= b <= 6 && a != b && pick < 3
    ensures NeedleWhisper(Some(a), pick) != NeedleWhisper(Some(b), pick)
  {
  }

  /** Each whisper says which stack produced it: the prototype's selection is one-to-one. */
  lemma PrototypeWhispersDistinct(a: nat, b: nat)
    requires 1 <= a <= 10 && 1 <= b <= 10 && a != b
    ensures PrototypeWhisper(Some(a)) != PrototypeWhisper(Some(b))
  {
  }

  /** The two needles share no whisper. */
  lemma NeedlesShareNoWhisper(a: Option<nat>, b: Option<nat>, pick: nat)
    requires pick < 3 && NeedleWhisper(a, pick).Some? && PrototypeWhisper(b).Some?
    ensures NeedleWhisper(a, pick).value != PrototypeWhisper(b).value
  {
  }

  /**
   * `HandleWhisper` of the basic needle: nothing unless the caster is a
   * player and the target a creature; then the impact spell, the whisper
   * to the caster if the stack selects one, and credit for the target at
   * stack 5.
   */
  function NeedleHit(casterIsPlayer: bool, targetIsCreature: bool, stack: Option<nat>, pick: nat, targetEntry: nat): (r: seq<Action>)
    requires pick < 3
    ensures !(casterIsPlayer && targetIsCreature) <==> r == []
    ensures r != [] ==> r[0] == Cast(Target, SPELL_NEURAL_NEEDLE_IMPACT)
    ensures KillCredit(Caster, targetEntry) in r <==> casterIsPlayer && targetIsCreature && stack == Some(CREDIT_STACK)
    ensures |r| == if !(casterIsPlayer && targetIsCreature) then 0
      else 1 + (if NeedleWhisper(stack, pick).Some? then 1 else 0) + (if stack == Some(CREDIT_STACK) then 1 else 0)
    ensures casterIsPlayer && targetIsCreature && NeedleWhisper(stack, pick).Some? ==>
      r[1] == TalkTo(Target, NeedleWhisper(stack, pick).value, Caster)
  {
    if !casterIsPlayer || !targetIsCreature then []
    else
      [Cast(Target, SPELL_NEURAL_NEEDLE_IMPACT)] +
      (match NeedleWhisper(stack, pick) case None => [] case Some(line) => [TalkTo(Target, line, Caster)]) +
      (if stack == Some(CREDIT_STACK) then [KillCredit(Caster, targetEntry)] else [])
  }

  /** `HandleWhisper` of the prototype needle: the impact spell, then the whisper if the stack selects one. */
  function PrototypeHit(casterIsPlayer: bool, targetIsCreature: bool, stack: Option<nat>): (r: seq<Action>)
    ensures !(casterIsPlayer && targetIsCreature) <==> r == []
    ensures r != [] ==> r[0] == Cast(Target, SPELL_PROTOTYPE_NEURAL_NEEDLE_IMPACT)
    ensures |r| == if !(casterIsPlayer && targetIsCreature) then 0
      else 1 + (if PrototypeWhisper(stack).Some? then 1 else 0)
    ensures casterIsPlayer && targetIsCreature && PrototypeWhisper(stack).Some? ==>
      r[1] == TalkTo(Target, PrototypeWhisper(stack).value, Caster)
    ensures forall a :: a in r ==> !a.KillCredit?
  {
    if !casterIsPlayer || !targetIsCreature then []
    else
      [Cast(Target, SPELL_PROTOTYPE_NEURAL_NEEDLE_IMPACT)] +
      match PrototypeWhisper(stack) case None => [] case Some(line) => [TalkTo(Target, line, Caster)]
  }

  /**
   * Five hits of the basic needle, the aura stacking from 1 to 5, whisper
   * the five fixed lines in order and credit the target exactly once, on
   * the last hit.
   */
  lemma PersuasionInFiveHits(entry: nat, pick: nat)
    requires pick < 3
    ensures forall k :: 1 <= k <= 5 ==>
      NeedleHit(true, true, Some(k), pick, entry)[1] == TalkTo(Target, WHISPER_TORTURE_1 + k - 1, Caster)
    ensures forall k :: 1 <= k <= 4 ==> KillCredit(Caster, entry) !in NeedleHit(true, true, Some(k), pick, entry)
    ensures NeedleHit(true, true, Some(5), pick, entry)[2] == KillCredit(Caster, entry)
  {
  }
}
