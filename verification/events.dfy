/**
 * Combat-log events, the declarative filters analyzers subscribe with, and the
 * selected combatant whose talents and buffs the analyzers query.
 *
 * The combatant's queries (`hasTalent`, `hasBuff`, `isConvoking`) are answered
 * by code outside this model, so they are carried here as opaque data. Buff
 * and Convoke answers depend on the combatant's state when a handler runs,
 * which is keyed by the position in the log of the event being processed.
 * Two events with the same timestamp can therefore get different answers.
 */
module CombatEvents {

  /** A value that may be absent (an event field that can be `undefined`). */
  datatype Option<T> = None | Some(value: T) {
    /** `x || 0` on an optional number is `x.GetOr(0)`: absent and 0 both give 0. */
    function GetOr(default: T): T {
      if Some? then value else default
    }
  }

  /**
   * The spells the modelled analyzers refer to. Their numeric identifiers live
   * in spell tables outside this model; distinct constructors stand for
   * distinct identifiers.
   */
  datatype Spell =
    | FerociousBite
    | RampantFerocityDamage
    | ApexPredatorsCravingBuff
    | DemonBladesFury
    | FelBarrageDamage
    | FelBarrageCast
    | MetamorphosisHavocBuff
    | OtherSpell(id: nat)

  /** The talents whose presence switches an analyzer on. */
  datatype Talent =
    | RampantFerocityTalent
    | DemonBladesTalent
    | FelBarrageTalent
    | OtherTalent(id: nat)

  /** Kind-specific part of an event. */
  datatype EventBody =
    | Damage(amount: int, absorbed: Option<int>)
    | Cast
    | ResourceChange(resourceChange: int, waste: int)
    | BuffApply
    | BuffRemove

  datatype EventKind = DamageKind | CastKind | ResourceChangeKind | BuffApplyKind | BuffRemoveKind

  /** One timestamped record of the log; `bySelectedPlayer` says its source is the analysed player. */
  datatype Event = Event(timestamp: int, bySelectedPlayer: bool, spell: Spell, body: EventBody)

  function Kind(e: Event): EventKind {
    match e.body
    case Damage(_, _) => DamageKind
    case Cast => CastKind
    case ResourceChange(_, _) => ResourceChangeKind
    case BuffApply => BuffApplyKind
    case BuffRemove => BuffRemoveKind
  }

  /** `event.amount` of a damage event (0 for other kinds, which never reach a damage handler). */
  function DamageAmount(e: Event): int {
    if e.body.Damage? then e.body.amount else 0
  }

  /**
   * `Events.<kind>.by(SELECTED_PLAYER).spell(<spell>)`: an immutable predicate
   * over events. `bySelectedPlayer == false` stands for a filter without `.by`.
   */
  datatype Filter = Filter(kind: EventKind, bySelectedPlayer: bool, spell: Spell)

  /** Matching is conjunctive over kind, source and spell. */
  predicate Matches(f: Filter, e: Event) {
    && Kind(e) == f.kind
    && (f.bySelectedPlayer ==> e.bySelectedPlayer)
    && e.spell == f.spell
  }

  /** The common `Events.damage.by(SELECTED_PLAYER).spell(spell)` filter. */
  function DamageBy(spell: Spell): (f: Filter)
    ensures forall e :: Matches(f, e) <==> e.body.Damage? && e.bySelectedPlayer && e.spell == spell
  {
    Filter(DamageKind, true, spell)
  }

  /**
   * The selected combatant as seen by the analyzers.
   *  - `talents`: what `hasTalent` answers true for;
   *  - `hasBuff(buff, at, timestamp, buffer)`: whether `buff` counts as up at
   *    `timestamp` when asked while the event at log position `at` is being
   *    processed, `buffer` being the tolerance in milliseconds passed by the
   *    caller, or `None` when the caller passes none;
   *  - `isConvoking(at)`: whether Convoke the Spirits is being channelled while
   *    the event at log position `at` is being processed.
   */
  datatype Combatant = Combatant(
    talents: set<Talent>,
    hasBuff: (Spell, nat, int, Option<nat>) -> bool,
    isConvoking: nat -> bool)

  predicate HasTalent(c: Combatant, t: Talent) {
    t in c.talents
  }
}
