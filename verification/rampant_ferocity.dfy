/**
 * Rampant Ferocity (Feral druid talent): Ferocious Bite splashes onto nearby
 * enemies affected by Rip. The analyzer counts Bite hits and splash hits and
 * attributes each splash hit's damage to the source of the Bite that caused it:
 * Convoke the Spirits, an Apex Predator's Craving proc, or a hardcast.
 */
module RampantFerocity {
  import opened CombatEvents
  import opened EventDispatch

  /** Tolerance, in milliseconds, for the Apex Predator's Craving buff check. */
  const BUFFER_MS: nat := 50

  datatype RfState = RfState(
    totalBiteHits: int,
    totalRampantFerocityHits: int,
    hardcastRfDamage: int,
    apexRfDamage: int,
    convokeRfDamage: int)

  /** Which Bite a splash hit came from. */
  datatype BiteSource = Convoke | Apex | Hardcast

  /** Every counter starts at zero. */
  function Init(): RfState {
    RfState(0, 0, 0, 0, 0)
  }

  const BiteFilter: Filter := DamageBy(FerociousBite)
  const SplashFilter: Filter := DamageBy(RampantFerocityDamage)

  predicate IsBiteHit(e: Event) {
    Matches(BiteFilter, e)
  }

  predicate IsSplashHit(e: Event) {
    Matches(SplashFilter, e)
  }

  /** `event.amount + (event.absorbed || 0)`; only damage events reach the handler. */
  function SplashAmount(e: Event): int {
    match e.body
    case Damage(amount, absorbed) => amount + absorbed.GetOr(0)
    case _ => 0
  }

  /**
   * The attribution rule for the splash hit at log position `at`, first match
   * wins: Convoke while convoking, else Apex when the Apex buff counts as up at
   * the hit's timestamp (with `BUFFER_MS` tolerance), else hardcast. Both
   * questions are put to the combatant as it stands while that hit is processed.
   */
  function Attribute(c: Combatant, at: nat, e: Event): (b: BiteSource)
    ensures b == Convoke <==> c.isConvoking(at)
    ensures b == Apex <==>
      !c.isConvoking(at) && c.hasBuff(ApexPredatorsCravingBuff, at, e.timestamp, Some(BUFFER_MS))
    ensures b == Hardcast <==>
      !c.isConvoking(at) && !c.hasBuff(ApexPredatorsCravingBuff, at, e.timestamp, Some(BUFFER_MS))
  {
    if c.isConvoking(at) then Convoke
    else if c.hasBuff(ApexPredatorsCravingBuff, at, e.timestamp, Some(BUFFER_MS)) then Apex
    else Hardcast
  }

  function OnFbDamage(s: RfState): RfState {
    s.(totalBiteHits := s.totalBiteHits + 1)
  }

  function OnRfDamage(c: Combatant, s: RfState, at: nat, e: Event): RfState {
    var s' := s.(totalRampantFerocityHits := s.totalRampantFerocityHits + 1);
    var amount := SplashAmount(e);
    match Attribute(c, at, e)
    case Convoke => s'.(convokeRfDamage := s'.convokeRfDamage + amount)
    case Apex => s'.(apexRfDamage := s'.apexRfDamage + amount)
    case Hardcast => s'.(hardcastRfDamage := s'.hardcastRfDamage + amount)
  }

  /**
   * Both listeners are registered unconditionally: the constructor sets
   * `this.active` from the talent but calls `addEventListener` either way.
   */
  function Subscriptions(c: Combatant): seq<Subscription<RfState>> {
    [ Subscription(BiteFilter, (s: RfState, at: nat, e: Event) => OnFbDamage(s)),
      Subscription(SplashFilter, (s: RfState, at: nat, e: Event) => OnRfDamage(c, s, at, e)) ]
  }

  /** The analyzer's counters after the session's events. */
  function Run(c: Combatant, events: seq<Event>): RfState {
    Replay(Subscriptions(c), Init(), events)
  }

  function TotalDamage(s: RfState): int {
    s.hardcastRfDamage + s.apexRfDamage + s.convokeRfDamage
  }

  /** Splash hits per Bite hit, 0 when there was no Bite hit. */
  function AvgTargetsHit(s: RfState): (r: real)
    ensures s.totalBiteHits == 0 ==> r == 0.0
    ensures s.totalBiteHits != 0 ==> r * (s.totalBiteHits as real) == s.totalRampantFerocityHits as real
  {
    if s.totalBiteHits == 0 then 0.0
    else (s.totalRampantFerocityHits as real) / (s.totalBiteHits as real)
  }

  /**
   * The effect of delivering one event: a Bite hit adds one Bite hit and
   * nothing else; a splash hit adds one splash hit and its damage to exactly
   * the bucket `Attribute` picks; any other event changes nothing.
   */
  lemma StepEffect(c: Combatant, s: RfState, at: nat, e: Event)
    ensures var s' := Dispatch(Subscriptions(c), s, at, e);
      && s'.totalBiteHits == s.totalBiteHits + (if IsBiteHit(e) then 1 else 0)
      && s'.totalRampantFerocityHits == s.totalRampantFerocityHits + (if IsSplashHit(e) then 1 else 0)
      && s'.convokeRfDamage == s.convokeRfDamage + Share(c, Convoke, at, e)
      && s'.apexRfDamage == s.apexRfDamage + Share(c, Apex, at, e)
      && s'.hardcastRfDamage == s.hardcastRfDamage + Share(c, Hardcast, at, e)
  {
    var subs := Subscriptions(c);
    DispatchPair(subs[0], subs[1], s, at, e);
  }

  /** The damage the event at position `at` adds to `source`'s bucket: all of it if it is a splash hit attributed there, else none. */
  function Share(c: Combatant, source: BiteSource, at: nat, e: Event): int {
    if IsSplashHit(e) && Attribute(c, at, e) == source then SplashAmount(e) else 0
  }

  /** Total Rampant Ferocity damage of the splash hits in `events`. */
  function SplashDamage(events: seq<Event>): int
    decreases |events|
  {
    if |events| == 0 then 0
    else
      var last := events[|events| - 1];
      SplashDamage(events[..|events| - 1]) + (if IsSplashHit(last) then SplashAmount(last) else 0)
  }

  /** Damage of the splash hits in `events` that `Attribute` gives to `source`. */
  function SourceDamage(c: Combatant, source: BiteSource, events: seq<Event>): int
    decreases |events|
  {
    if |events| == 0 then 0
    else
      SourceDamage(c, source, events[..|events| - 1]) + Share(c, source, |events| - 1, events[|events| - 1])
  }

  /** After any session, the hit counters are the numbers of Bite hits and of splash hits. */
  lemma {:induction false} RunCountsHits(c: Combatant, events: seq<Event>)
    ensures Run(c, events).totalBiteHits == |Select(BiteFilter, events)|
    ensures Run(c, events).totalRampantFerocityHits == |Select(SplashFilter, events)|
    decreases |events|
  {
    if |events| != 0 {
      var init := events[..|events| - 1];
      RunCountsHits(c, init);
      StepEffect(c, Run(c, init), |init|, events[|events| - 1]);
    }
  }

  /** After any session, each bucket holds the damage of the splash hits attributed to it. */
  lemma {:induction false} RunFillsBuckets(c: Combatant, events: seq<Event>)
    ensures Run(c, events).convokeRfDamage == SourceDamage(c, Convoke, events)
    ensures Run(c, events).apexRfDamage == SourceDamage(c, Apex, events)
    ensures Run(c, events).hardcastRfDamage == SourceDamage(c, Hardcast, events)
    decreases |events|
  {
    if |events| != 0 {
      var init := events[..|events| - 1];
      RunFillsBuckets(c, init);
      StepEffect(c, Run(c, init), |init|, events[|events| - 1]);
    }
  }

  /** The three buckets partition the splash damage: each hit lands in exactly one. */
  lemma {:induction false} SourcesPartitionSplashDamage(c: Combatant, events: seq<Event>)
    ensures SourceDamage(c, Convoke, events) + SourceDamage(c, Apex, events) + SourceDamage(c, Hardcast, events)
         == SplashDamage(events)
    decreases |events|
  {
    if |events| != 0 {
      SourcesPartitionSplashDamage(c, events[..|events| - 1]);
    }
  }

  /** `totalDamage` is the sum of `amount + absorbed` over every splash hit processed. */
  lemma {:induction false} TotalDamageIsSplashDamage(c: Combatant, events: seq<Event>)
    ensures TotalDamage(Run(c, events)) == SplashDamage(events)
  {
    var s := Run(c, events);
    var convoke, apex, hardcast :=
      SourceDamage(c, Convoke, events), SourceDamage(c, Apex, events), SourceDamage(c, Hardcast, events);
    RunFillsBuckets(c, events);
    assert TotalDamage(s) == convoke + apex + hardcast;
    SourcesPartitionSplashDamage(c, events);
  }

  /** Every splash hit carries non-negative damage and absorption. */
  predicate NonNegativeSplashes(events: seq<Event>) {
    forall i :: 0 <= i < |events| && IsSplashHit(events[i]) ==>
      events[i].body.amount >= 0 && events[i].body.absorbed.GetOr(0) >= 0
  }

  lemma {:induction false} SourceDamageNonNegative(c: Combatant, source: BiteSource, events: seq<Event>)
    requires NonNegativeSplashes(events)
    ensures SourceDamage(c, source, events) >= 0
    decreases |events|
  {
    if |events| != 0 {
      var init := events[..|events| - 1];
      assert NonNegativeSplashes(init) by {
        forall i | 0 <= i < |init| && IsSplashHit(init[i])
          ensures init[i].body.amount >= 0 && init[i].body.absorbed.GetOr(0) >= 0
        {
          assert init[i] == events[i];
        }
      }
      SourceDamageNonNegative(c, source, init);
      var last := events[|events| - 1];
      if IsSplashHit(last) {
        assert last.body.amount >= 0 && last.body.absorbed.GetOr(0) >= 0;
      }
    }
  }

  /** With non-negative damage, the total is at least each bucket. */
  lemma {:induction false} TotalDamageBoundsBuckets(c: Combatant, events: seq<Event>)
    requires NonNegativeSplashes(events)
    ensures var s := Run(c, events);
      && 0 <= s.convokeRfDamage <= TotalDamage(s)
      && 0 <= s.apexRfDamage <= TotalDamage(s)
      && 0 <= s.hardcastRfDamage <= TotalDamage(s)
  {
    RunFillsBuckets(c, events);
    SourceDamageNonNegative(c, Convoke, events);
    SourceDamageNonNegative(c, Apex, events);
    SourceDamageNonNegative(c, Hardcast, events);
  }

  lemma {:induction false} SourceDamageIgnoresTalents(c: Combatant, talents: set<Talent>, source: BiteSource, events: seq<Event>)
    ensures SourceDamage(c.(talents := talents), source, events) == SourceDamage(c, source, events)
    decreases |events|
  {
    if |events| != 0 {
      SourceDamageIgnoresTalents(c, talents, source, events[..|events| - 1]);
    }
  }

  /**
   * Neither the listener list nor the handlers read the combatant's talents:
   * replaying a log for a combatant whose talents differ, with the same buff
   * and Convoke answers, gives the same counters.
   */
  lemma {:induction false} RunIgnoresTalents(c: Combatant, talents: set<Talent>, events: seq<Event>)
    ensures Run(c.(talents := talents), events) == Run(c, events)
  {
    var c' := c.(talents := talents);
    RunCountsHits(c, events);
    RunCountsHits(c', events);
    RunFillsBuckets(c, events);
    RunFillsBuckets(c', events);
    SourceDamageIgnoresTalents(c, talents, Convoke, events);
    SourceDamageIgnoresTalents(c, talents, Apex, events);
    SourceDamageIgnoresTalents(c, talents, Hardcast, events);
  }
}
