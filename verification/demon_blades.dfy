/**
 * Demon Blades (Havoc demon hunter talent): auto-attacks deal extra damage and
 * generate Fury. The analyzer, active only with the talent, keeps a Fury
 * ledger (gained and wasted) and the talent's damage.
 */
module DemonBlades {
  import opened CombatEvents
  import opened EventDispatch
  import opened Thresholds

  datatype DbState = DbState(furyGain: int, furyWaste: int, damage: int)

  function Init(): DbState {
    DbState(0, 0, 0)
  }

  /** `this.active`: the talent is selected. */
  predicate Active(c: Combatant) {
    HasTalent(c, DemonBladesTalent)
  }

  const EnergizeFilter: Filter := Filter(ResourceChangeKind, true, DemonBladesFury)
  const DamageFilter: Filter := DamageBy(DemonBladesFury)

  /** Fury gained and wasted by a resource-change event (0 for other kinds, which never reach the handler). */
  function Gain(e: Event): int {
    if e.body.ResourceChange? then e.body.resourceChange else 0
  }

  function Waste(e: Event): int {
    if e.body.ResourceChange? then e.body.waste else 0
  }

  function OnEnergizeEvent(s: DbState, e: Event): DbState {
    s.(furyGain := s.furyGain + Gain(e), furyWaste := s.furyWaste + Waste(e))
  }

  function OnDamageEvent(s: DbState, e: Event): DbState {
    s.(damage := s.damage + DamageAmount(e))
  }

  /** The constructor returns before registering anything when the talent is missing. */
  function Subscriptions(c: Combatant): (subs: seq<Subscription<DbState>>)
    ensures |subs| == 0 <==> !Active(c)
  {
    if !Active(c) then []
    else
      [ Subscription(EnergizeFilter, (s: DbState, at: nat, e: Event) => OnEnergizeEvent(s, e)),
        Subscription(DamageFilter, (s: DbState, at: nat, e: Event) => OnDamageEvent(s, e)) ]
  }

  /** The analyzer's counters after the session's events. */
  function Run(c: Combatant, events: seq<Event>): DbState {
    Replay(Subscriptions(c), Init(), events)
  }

  /**
   * The effect of delivering one event to an active analyzer: a Demon Blades
   * resource change adds its gain and waste to the Fury ledger and leaves the
   * damage alone; a Demon Blades damage event adds its amount to the damage and
   * leaves the ledger alone; any other event changes nothing.
   */
  lemma StepEffect(c: Combatant, s: DbState, at: nat, e: Event)
    requires Active(c)
    ensures var s' := Dispatch(Subscriptions(c), s, at, e);
      && s'.furyGain == s.furyGain + (if Matches(EnergizeFilter, e) then e.body.resourceChange else 0)
      && s'.furyWaste == s.furyWaste + (if Matches(EnergizeFilter, e) then e.body.waste else 0)
      && s'.damage == s.damage + (if Matches(DamageFilter, e) then e.body.amount else 0)
  {
    var subs := Subscriptions(c);
    DispatchPair(subs[0], subs[1], s, at, e);
  }

  /** Sum of the Fury gained by the Demon Blades resource changes in `events`. */
  function GainSum(events: seq<Event>): int
    decreases |events|
  {
    if |events| == 0 then 0
    else
      var last := events[|events| - 1];
      GainSum(events[..|events| - 1]) + (if Matches(EnergizeFilter, last) then Gain(last) else 0)
  }

  /** Sum of the Fury wasted by the Demon Blades resource changes in `events`. */
  function WasteSum(events: seq<Event>): int
    decreases |events|
  {
    if |events| == 0 then 0
    else
      var last := events[|events| - 1];
      WasteSum(events[..|events| - 1]) + (if Matches(EnergizeFilter, last) then Waste(last) else 0)
  }

  /** Sum of the Demon Blades damage in `events`. */
  function DamageSum(events: seq<Event>): int
    decreases |events|
  {
    if |events| == 0 then 0
    else
      var last := events[|events| - 1];
      DamageSum(events[..|events| - 1]) + (if Matches(DamageFilter, last) then DamageAmount(last) else 0)
  }

  /**
   * After any session, an active analyzer's ledger holds the totals of the
   * Demon Blades events, and an inactive one still holds zeros.
   */
  lemma {:induction false} RunTotals(c: Combatant, events: seq<Event>)
    ensures Run(c, events).furyGain == if Active(c) then GainSum(events) else 0
    ensures Run(c, events).furyWaste == if Active(c) then WasteSum(events) else 0
    ensures Run(c, events).damage == if Active(c) then DamageSum(events) else 0
    decreases |events|
  {
    if !Active(c) {
      ReplayWithoutSubscriptions(Subscriptions(c), Init(), events);
    } else if |events| != 0 {
      var init := events[..|events| - 1];
      RunTotals(c, init);
      StepEffect(c, Run(c, init), |init|, events[|events| - 1]);
    }
  }

  /** Fury actually gained: gained minus wasted. */
  function EffectiveFury(s: DbState): int {
    s.furyGain - s.furyWaste
  }

  /**
   * `furyPerMin` before formatting: effective Fury over the fight length in
   * minutes. The fight length comes from the owner and must be positive.
   */
  function FuryPerMin(s: DbState, fightDuration: int): (r: real)
    requires fightDuration > 0
    ensures r * (fightDuration as real) == (EffectiveFury(s) as real) * 60000.0
    ensures EffectiveFury(s) >= 0 ==> r >= 0.0
  {
    (EffectiveFury(s) as real) / ((fightDuration as real) / 60000.0)
  }

  /**
   * The suggestion threshold: the fraction of gained Fury that was wasted,
   * flagged above 3%, 7% and 10%. `suggestionThresholds` divides `furyWaste`
   * by `furyGain` without a guard, so a ledger with no Fury gained is excluded here.
   */
  function SuggestionThresholds(s: DbState): (t: Threshold)
    requires s.furyGain != 0
    ensures t.actual * (s.furyGain as real) == s.furyWaste as real
    ensures t.comparison == IsGreaterThan && t.style == Percentage
    ensures TiersOrdered(t)
  {
    Threshold((s.furyWaste as real) / (s.furyGain as real), IsGreaterThan, Tiers(0.03, 0.07, 0.1), Percentage)
  }

  /** Every Demon Blades resource change wastes at most what it gains, and nothing negative. */
  predicate WellFormedEnergizes(events: seq<Event>) {
    forall i :: 0 <= i < |events| && Matches(EnergizeFilter, events[i]) ==>
      0 <= events[i].body.waste <= events[i].body.resourceChange
  }

  lemma {:induction false} LedgerBounded(events: seq<Event>)
    requires WellFormedEnergizes(events)
    ensures 0 <= WasteSum(events) <= GainSum(events)
    decreases |events|
  {
    if |events| != 0 {
      var init := events[..|events| - 1];
      assert WellFormedEnergizes(init) by {
        forall i | 0 <= i < |init| && Matches(EnergizeFilter, init[i])
          ensures 0 <= init[i].body.waste <= init[i].body.resourceChange
        {
          assert init[i] == events[i];
        }
      }
      LedgerBounded(init);
      var last := events[|events| - 1];
      if Matches(EnergizeFilter, last) {
        assert 0 <= last.body.waste <= last.body.resourceChange;
      }
    }
  }

  /**
   * When every resource change wastes no more than it gains, the ledger keeps
   * `0 <= furyWaste <= furyGain`: effective Fury is never negative and the
   * waste ratio lies in [0, 1] whenever it is defined.
   */
  lemma {:induction false} WasteRatioBounded(c: Combatant, events: seq<Event>)
    requires WellFormedEnergizes(events)
    ensures var s := Run(c, events);
      && 0 <= s.furyWaste <= s.furyGain
      && EffectiveFury(s) >= 0
      && (s.furyGain != 0 ==> 0.0 <= SuggestionThresholds(s).actual <= 1.0)
  {
    RunTotals(c, events);
    LedgerBounded(events);
    var s := Run(c, events);
    if s.furyGain != 0 {
      var t := SuggestionThresholds(s);
      assert t.actual * (s.furyGain as real) == s.furyWaste as real;
      RatioInUnitInterval(s.furyWaste as real, s.furyGain as real, t.actual);
    }
  }

  /** `0 <= w <= g` and `r * g == w` with `g > 0` put `r` in [0, 1]. */
  lemma RatioInUnitInterval(w: real, g: real, r: real)
    requires 0.0 <= w <= g && g > 0.0
    requires r * g == w
    ensures 0.0 <= r <= 1.0
  {
  }
}
