/**
 * Fel Barrage (Havoc demon hunter talent). The analyzer, active only with the
 * talent, sums the talent's damage and audits its casts: a cast made while
 * Metamorphosis is not up is a bad cast.
 */
module FelBarrage {
  import opened CombatEvents
  import opened EventDispatch
  import opened Thresholds

  datatype FbState = FbState(damage: int, casts: int, badCasts: int)

  function Init(): FbState {
    FbState(0, 0, 0)
  }

  /** `this.active`: the talent is selected. */
  predicate Active(c: Combatant) {
    HasTalent(c, FelBarrageTalent)
  }

  const DamageFilter: Filter := DamageBy(FelBarrageDamage)
  const CastFilter: Filter := Filter(CastKind, true, FelBarrageCast)

  /**
   * Metamorphosis is up at the cast's timestamp, as the combatant answers while
   * the cast at log position `at` is processed; the query passes no tolerance.
   */
  predicate MetaUp(c: Combatant, at: nat, e: Event) {
    c.hasBuff(MetamorphosisHavocBuff, at, e.timestamp, None)
  }

  function OnFelBarrage(s: FbState, e: Event): FbState {
    s.(damage := s.damage + DamageAmount(e))
  }

  function OnFelBarrageCast(c: Combatant, s: FbState, at: nat, e: Event): FbState {
    var s' := s.(casts := s.casts + 1);
    if !MetaUp(c, at, e) then s'.(badCasts := s'.badCasts + 1) else s'
  }

  /** The constructor returns before registering anything when the talent is missing. */
  function Subscriptions(c: Combatant): (subs: seq<Subscription<FbState>>)
    ensures |subs| == 0 <==> !Active(c)
  {
    if !Active(c) then []
    else
      [ Subscription(DamageFilter, (s: FbState, at: nat, e: Event) => OnFelBarrage(s, e)),
        Subscription(CastFilter, (s: FbState, at: nat, e: Event) => OnFelBarrageCast(c, s, at, e)) ]
  }

  /** The analyzer's counters after the session's events. */
  function Run(c: Combatant, events: seq<Event>): FbState {
    Replay(Subscriptions(c), Init(), events)
  }

  /**
   * The effect of delivering one event to an active analyzer: Fel Barrage
   * damage adds its amount and leaves the cast counters alone; a Fel Barrage
   * cast adds one cast, and one bad cast exactly when Metamorphosis is not up,
   * and leaves the damage alone; any other event changes nothing.
   */
  lemma StepEffect(c: Combatant, s: FbState, at: nat, e: Event)
    requires Active(c)
    ensures var s' := Dispatch(Subscriptions(c), s, at, e);
      && s'.damage == s.damage + (if Matches(DamageFilter, e) then e.body.amount else 0)
      && s'.casts == s.casts + (if Matches(CastFilter, e) then 1 else 0)
      && s'.badCasts == s.badCasts + (if Matches(CastFilter, e) && !MetaUp(c, at, e) then 1 else 0)
  {
    var subs := Subscriptions(c);
    DispatchPair(subs[0], subs[1], s, at, e);
  }

  /** Sum of the Fel Barrage damage in `events`. */
  function DamageSum(events: seq<Event>): int
    decreases |events|
  {
    if |events| == 0 then 0
    else
      var last := events[|events| - 1];
      DamageSum(events[..|events| - 1]) + (if Matches(DamageFilter, last) then DamageAmount(last) else 0)
  }

  /** Number of Fel Barrage casts in `events` made with (`metaUp`) or without Metamorphosis. */
  function CastsWhere(c: Combatant, metaUp: bool, events: seq<Event>): (n: nat)
    ensures n <= |Select(CastFilter, events)|
    decreases |events|
  {
    if |events| == 0 then 0
    else
      var last := events[|events| - 1];
      CastsWhere(c, metaUp, events[..|events| - 1])
        + (if Matches(CastFilter, last) && MetaUp(c, |events| - 1, last) == metaUp then 1 else 0)
  }

  /**
   * After any session, an active analyzer holds the Fel Barrage damage, the
   * number of casts, and the number of casts made without Metamorphosis; an
   * inactive one still holds zeros.
   */
  lemma {:induction false} RunTotals(c: Combatant, events: seq<Event>)
    ensures Run(c, events).damage == if Active(c) then DamageSum(events) else 0
    ensures Run(c, events).casts == if Active(c) then |Select(CastFilter, events)| else 0
    ensures Run(c, events).badCasts == if Active(c) then CastsWhere(c, false, events) else 0
    decreases |events|
  {
    if !Active(c) {
      ReplayWithoutSubscriptions(Subscriptions(c), Init(), events);
    } else if |events| != 0 {
      var init := events[..|events| - 1];
      RunTotals(c, init);
      StepEffect(c, Run(c, init), |init|, events[|events| - 1]);
    }
  }

  /** Every cast is made either with or without Metamorphosis. */
  lemma {:induction false} CastsSplitByMeta(c: Combatant, events: seq<Event>)
    ensures CastsWhere(c, true, events) + CastsWhere(c, false, events) == |Select(CastFilter, events)|
    decreases |events|
  {
    if |events| != 0 {
      CastsSplitByMeta(c, events[..|events| - 1]);
    }
  }

  /**
   * After any session, `0 <= badCasts <= casts`, and the casts that were not
   * bad are exactly those made while Metamorphosis was up.
   */
  lemma {:induction false} BadCastsBounded(c: Combatant, events: seq<Event>)
    ensures var s := Run(c, events);
      && 0 <= s.badCasts <= s.casts
      && s.casts - s.badCasts == if Active(c) then CastsWhere(c, true, events) else 0
  {
    RunTotals(c, events);
    CastsSplitByMeta(c, events);
  }

  /** The suggestion threshold: the number of bad casts, flagged above 0, 0 and 1. */
  function SuggestionThresholds(s: FbState): (t: Threshold)
    ensures t.actual == s.badCasts as real
    ensures t.comparison == IsGreaterThan && t.style == Number
    ensures TiersOrdered(t)
  {
    Threshold(s.badCasts as real, IsGreaterThan, Tiers(0.0, 0.0, 1.0), Number)
  }
}
