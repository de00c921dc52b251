# Talent analyzers of a combat-log analyser, in Dafny

This project models four analysis modules of WoWAnalyzer, a tool that replays
a recorded combat log and turns it into coaching suggestions. Rampant
Ferocity, Demon Blades and Fel Barrage subscribe to a filtered part of the
event stream at construction time. They fold those events into module-local
counters and expose derived values and suggestion thresholds. Rage details
registers no listener: it reads the totals of the Rage tracker, another
module, and derives its values and thresholds from them:

- **Rampant Ferocity** (Feral druid) counts Ferocious Bite hits and Rampant
  Ferocity splash hits. It attributes each splash hit's damage to exactly one
  source: Convoke the Spirits, then an Apex Predator's Craving proc (a buff
  check with a 50 ms tolerance), then hardcast.
- **Demon Blades** (Havoc demon hunter) keeps a Fury ledger of Fury gained and
  Fury wasted, plus the talent's damage. It derives effective Fury, Fury per
  minute and a waste ratio threshold.
- **Fel Barrage** (Havoc demon hunter) sums damage and counts casts. A cast is
  bad when Metamorphosis is not up.
- **Rage details** (Fury warrior) turns the Rage tracker's totals into a
  waste fraction, its complement (efficiency), and two thresholds.

Layout, one module per file:

- `events.dfy` (`CombatEvents`): events and their kinds, filters
  (`Events.<kind>.by(SELECTED_PLAYER).spell(...)`), and the selected combatant.
  The combatant's talent, buff and Convoke queries are answered by code outside
  the model, so they are carried as opaque data: a talent set and two functions.
  The buff and Convoke answers are keyed by the log position of the event being
  processed, because they reflect the combatant's state when the handler runs.
- `dispatch.dfy` (`EventDispatch`): `addEventListener` registrations and the
  replay. Every event, in log order, reaches every matching listener in
  registration order, together with its log position. A module's state after a
  session is `Replay` of its listeners over the event sequence.
- `thresholds.dfy` (`Thresholds`): the threshold record handed to the
  suggestion evaluator, and the ordering its tiers must have.
- `rampant_ferocity.dfy`, `demon_blades.dfy`, `fel_barrage.dfy`: one module
  per event-driven analyzer. Each has a state record, its handlers as pure
  functions, its listener list, `Run` (the replay from all-zero counters), and
  lemmas that relate `Run` to independent definitions over the event sequence.
- `rage_details.dfy`: Rage details. It holds only functions of the Rage
  tracker's totals (`wasted`, `generated`) and lemmas about them.

Three facts about the code shape the model:

- Rampant Ferocity calls `addEventListener` whatever `this.active` is. Demon
  Blades and Fel Barrage return from the constructor before registering
  anything when their talent is missing.
- Demon Blades divides `furyWaste` by `furyGain` without a guard.
- Rage details divides `wasted` by `wasted + generated` and relies on `|| 0`
  to turn the 0/0 case into 0.

## Model

| member | source | states |
|---|---|---|
| CombatEvents.DamageBy | src/analysis/retail/druid/feral/modules/spells/RampantFerocity.tsx:35 | A damage filter for a spell matches exactly the damage events of that spell whose source is the selected player |
| EventDispatch.DispatchPair | src/analysis/retail/druid/feral/modules/spells/RampantFerocity.tsx:34-41 | With two listeners, an event goes to the first registered listener first, then to the second, each only if its filter matches |
| EventDispatch.ReplayWithoutSubscriptions | analysis/demonhunterhavoc/src/modules/talents/DemonBlades.tsx:25-27 | A module that registered no listeners keeps its initial state over any event sequence |
| EventDispatch.RecorderObservesInOrder | analysis/demonhunterhavoc/src/modules/talents/FelBarrage.tsx:28-35 | A registered listener receives exactly the events its filter selects, each once, in log order |
| RampantFerocity.Attribute | src/analysis/retail/druid/feral/modules/spells/RampantFerocity.tsx:52-64 | Fixed priority, first match wins: Convoke exactly when convoking; Apex exactly when not convoking and the Apex buff check at the hit's timestamp with a 50 ms buffer holds; hardcast exactly when neither. Both questions are asked of the combatant as it stands while that hit is handled, so two hits with the same timestamp can go to different buckets |
| RampantFerocity.StepEffect | src/analysis/retail/druid/feral/modules/spells/RampantFerocity.tsx:44-65 | A Bite hit adds 1 to the Bite count and changes nothing else. A splash hit adds 1 to the splash count and adds amount plus absorbed (0 when absent) to the one bucket `Attribute` picks; the other buckets are unchanged. Other events change nothing |
| RampantFerocity.RunCountsHits | src/analysis/retail/druid/feral/modules/spells/RampantFerocity.tsx:24-49 | After any event sequence, starting from zero, the Bite count is the number of selected-player Bite damage events, and the splash count is the number of splash damage events |
| RampantFerocity.RunFillsBuckets | src/analysis/retail/druid/feral/modules/spells/RampantFerocity.tsx:27-64 | After any event sequence, starting from zero, each bucket holds the summed damage of exactly the splash hits attributed to it |
| RampantFerocity.SourcesPartitionSplashDamage | src/analysis/retail/druid/feral/modules/spells/RampantFerocity.tsx:51-64 | The three per-source damage sums add up to the total splash damage: every hit lands in exactly one bucket |
| RampantFerocity.TotalDamageIsSplashDamage | src/analysis/retail/druid/feral/modules/spells/RampantFerocity.tsx:67-69 | `totalDamage` equals the sum of amount plus absorbed over every splash hit processed |
| RampantFerocity.TotalDamageBoundsBuckets | src/analysis/retail/druid/feral/modules/spells/RampantFerocity.tsx:67-69 | With non-negative splash damage, every bucket is non-negative and at most `totalDamage` |
| RampantFerocity.AvgTargetsHit | src/analysis/retail/druid/feral/modules/spells/RampantFerocity.tsx:71-73 | 0 when there was no Bite hit; otherwise the value that, multiplied by the Bite count, gives the splash count |
| RampantFerocity.RunIgnoresTalents | src/analysis/retail/druid/feral/modules/spells/RampantFerocity.tsx:31-42 | The listener list and the handlers never read the combatant's talents: replaying a log with the talents changed gives the same counters |
| DemonBlades.Subscriptions | analysis/demonhunterhavoc/src/modules/talents/DemonBlades.tsx:22-36 | The module registers no listener exactly when the Demon Blades talent is missing |
| DemonBlades.StepEffect | analysis/demonhunterhavoc/src/modules/talents/DemonBlades.tsx:54-61 | With the talent, a Demon Blades resource change adds `resourceChange` to Fury gained and `waste` to Fury wasted and leaves damage alone. A Demon Blades damage event adds `amount` to damage and leaves the ledger alone. Other events change nothing |
| DemonBlades.RunTotals | analysis/demonhunterhavoc/src/modules/talents/DemonBlades.tsx:18-61 | After any event sequence, Fury gained, Fury wasted and damage are the sums over the matching Demon Blades events when the talent is present, and all 0 without it |
| DemonBlades.FuryPerMin | analysis/demonhunterhavoc/src/modules/talents/DemonBlades.tsx:38-40 | Fury per minute times the fight length in ms equals effective Fury (gained minus wasted) times 60000. It is non-negative when effective Fury is |
| DemonBlades.SuggestionThresholds | analysis/demonhunterhavoc/src/modules/talents/DemonBlades.tsx:42-52 | The actual value times Fury gained equals Fury wasted. The comparison is "greater than" with percentage style, and the tiers (0.03, 0.07, 0.1) are non-decreasing |
| DemonBlades.LedgerBounded | analysis/demonhunterhavoc/src/modules/talents/DemonBlades.tsx:54-57 | If no resource change wastes more than it gains or wastes a negative amount, the wasted sum is between 0 and the gained sum |
| DemonBlades.WasteRatioBounded | analysis/demonhunterhavoc/src/modules/talents/DemonBlades.tsx:44 | Under the same condition, after any session `0 <= furyWaste <= furyGain`, effective Fury is non-negative, and the threshold's actual lies in [0, 1] whenever Fury was gained |
| FelBarrage.Subscriptions | analysis/demonhunterhavoc/src/modules/talents/FelBarrage.tsx:22-36 | The module registers no listener exactly when the Fel Barrage talent is missing |
| FelBarrage.StepEffect | analysis/demonhunterhavoc/src/modules/talents/FelBarrage.tsx:50-65 | With the talent, Fel Barrage damage adds `amount` to damage and leaves the cast counters alone. A Fel Barrage cast adds 1 to casts, adds 1 to bad casts exactly when Metamorphosis is not up at its timestamp (as the combatant answers while that cast is handled), and leaves damage alone. Other events change nothing |
| FelBarrage.CastsWhere | analysis/demonhunterhavoc/src/modules/talents/FelBarrage.tsx:57-64 | The number of casts made with (or without) Metamorphosis is at most the number of casts |
| FelBarrage.RunTotals | analysis/demonhunterhavoc/src/modules/talents/FelBarrage.tsx:18-65 | After any event sequence, with the talent: damage is the summed Fel Barrage damage, casts is the number of casts, and bad casts is the number of casts without Metamorphosis. Without the talent all three stay 0 |
| FelBarrage.CastsSplitByMeta | analysis/demonhunterhavoc/src/modules/talents/FelBarrage.tsx:57-64 | Casts with Metamorphosis plus casts without it add up to all casts |
| FelBarrage.BadCastsBounded | analysis/demonhunterhavoc/src/modules/talents/FelBarrage.tsx:54-65 | After any session `0 <= badCasts <= casts`, and `casts - badCasts` is the number of casts made while Metamorphosis was up (0 without the talent) |
| FelBarrage.SuggestionThresholds | analysis/demonhunterhavoc/src/modules/talents/FelBarrage.tsx:38-48 | The actual value is the bad-cast count. The comparison is "greater than" with number style, and the tiers (0, 0, 1) are non-decreasing |
| RageDetails.WastedPercent | src/analysis/retail/warrior/fury/modules/core/RageDetails.tsx:21-23 | In [0, 1]. It is 0 when there is no Rage at all; otherwise it times `wasted + generated` equals `wasted`. It is 0 exactly when nothing was wasted, and 1 exactly when Rage was wasted but none generated |
| RageDetails.EfficiencySuggestionThresholds | src/analysis/retail/warrior/fury/modules/core/RageDetails.tsx:25-35 | Efficiency plus the waste fraction is 1, and efficiency lies in [0, 1]. The comparison is "less than" with percentage style, and the tiers (0.95, 0.9, 0.85) are non-increasing |
| RageDetails.SuggestionThresholds | src/analysis/retail/warrior/fury/modules/core/RageDetails.tsx:37-47 | The actual value is the waste fraction. The comparison is "greater than" with percentage style, and the tiers (0.05, 0.1, 0.15) are non-decreasing |
| RageDetails.ThresholdsMirror | src/analysis/retail/warrior/fury/modules/core/RageDetails.tsx:25-47 | Efficiency falls below each of its tiers exactly when waste rises above the matching waste tier |

## Left out

- Rendering: `statistic()`, `tab()`, tooltips, `SpellLink` and the statistic widgets are presentation only.
- Text: suggestion wording, `formatPercentage`, `formatThousands`, lingui `t(...)`, and the `.icon/.actual/.recommended` chains are strings only. `furyPerMin`'s `toFixed(2)` is not modelled; `DemonBlades.FuryPerMin` returns the unrounded value.
- The suggestion evaluator `when(...)` and how it grades a value into a severity are not part of this model. Only the threshold data each module hands it is modelled.
- The internals of `hasTalent`, `hasBuff` (including what the 50 ms buffer window means), and `isConvoking` are not part of this model. They are inputs on the `Combatant` value. `hasBuff` and `isConvoking` take the log position of the event being handled, standing for the combatant's state at that moment; which positions give which answers (how the combatant's buff history is built from the log) is left open. Fel Barrage's `hasBuff` call passes no buffer; that appears as `None`, since the default lives in code outside the model.
- Numeric spell and talent identifiers live in spell tables outside the model. Distinct constructors of `Spell` and `Talent` stand for distinct identifiers.
- `owner.fightDuration`, `getPercentageOfTotalDamageDone`, `formatItemDamageDone`, and the Rage tracker's accounting are not part of this model. The fight length and the tracker's totals are parameters.
- Resolving module dependencies (`static dependencies`) is not modelled. Rage details receives the tracker's totals directly.
- JavaScript number behaviour is not modelled. Counters are unbounded integers and ratios are exact reals, with no floating-point rounding, NaN or Infinity.
- DemonBlades.SuggestionThresholds: requires `furyGain != 0`. The source divides without a guard, which gives NaN or Infinity in JavaScript.
- DemonBlades.FuryPerMin: requires a positive fight length, because the source divides by it.
- RageDetails.WastedPercent: takes the tracker's totals as natural numbers. Negative totals could make the division give values outside [0, 1], or ±Infinity when `wasted + generated` is 0 but `wasted` is not; `|| 0` catches neither. The `nat` fields exclude both.
- RampantFerocity.RunIgnoresTalents: whether the listeners of an analyzer whose `active` is false are called is decided by `addEventListener` and the event emitter, which are outside this model. The model calls them, so it promises nothing about what an inactive Rampant Ferocity analyzer reports.
- Handlers receive any event in the model; the filters deliver only the right kind. For other kinds, `SplashAmount`, `Gain`, `Waste` and `DamageAmount` return 0, and that case is never reached through a filter.
