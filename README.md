# Lyra Pulse scoring and screen-flow rules

Lyra Pulse is a front-end prototype of an organisational AI-adoption baseline
tool. It renders hard-coded survey results for one or two pulse cycles. Apart
from rendering, its computation is a handful of rules written inline in the
view components. There are also two small state machines. This project models
those rules and proves their properties:

- **Net value** (`NetValueGauge`). The net score is
  benefit − 0.35·friction − 0.30·risk − 0.35·intensification. It is bucketed
  into Positive, Marginal, Uncertain or Negative. The score is not clamped.
- **Friction tier** (`FrictionMap`). Each hotspot's intensity is shown as
  High (> 0.65), Medium (> 0.5) or Low.
- **Movement** (`MovementTracker`). For each dimension of the current cycle,
  the delta is current − previous, and a missing previous signal counts as 0.
  The delta is shown as up, down or stable, with a 0.03 dead band.
- **Signal band** (`SignalBar`). The band label is
  `labels[min(floor(signal·5), 4)]`, from Weak to Strong.
- **Screens** (`LyraPulseMVP`, `OrgSetup`, `PulseRunning`). The app goes from
  setup to running to results. Setup completes only when the organisation
  name and the context are both non-empty. On the running screen a timer
  advances a phase counter from 0, one stage per tick, and it stops at the
  last of five stages. "View results" appears only at that last stage.

All thresholds are modelled over exact `real` numbers. A cycle's dimension
signals are a sequence of (dimension, signal) entries in the object's key order. Modules:
`Wrappers` (Option), `Dimensions`, `NetValue`, `Friction`, `Signals`,
`Movement`, `Screens` (classes `PulseRunning`, `OrgSetup`, `LyraPulse`).

## Model

| member | source | states |
|---|---|---|
| `NetValue.Score` | lyra-pulse-baseline.jsx:346 | Benefit is exactly the net score plus the weighted costs (0.35·friction + 0.3·risk + 0.35·intensification), so with non-negative costs the score never exceeds benefit |
| `NetValue.GaugeLabel` | lyra-pulse-baseline.jsx:346-347 | The gauge's label is the label of the net score; it is Positive iff benefit exceeds the weighted costs by more than 0.15 |
| `NetValue.LabelOf` | lyra-pulse-baseline.jsx:347 | The label partitions all reals: Positive iff net > 0.15, Marginal iff 0 < net ≤ 0.15, Uncertain iff −0.1 < net ≤ 0, Negative iff net ≤ −0.1 |
| `NetValue.ScoreSensitivity` | lyra-pulse-baseline.jsx:346 | The score is linear: changing benefit by db and friction, risk, intensification by df, dr, di changes it by db − 0.35·df − 0.3·dr − 0.35·di |
| `NetValue.ScoreRange` | lyra-pulse-baseline.jsx:346 | With all four signals in [0,1] the unclamped score lies in [−1,1], and both −1 and 1 are reached |
| `NetValue.LabelMonotone` | lyra-pulse-baseline.jsx:347 | The label's rank (Negative < Uncertain < Marginal < Positive) never decreases as the net score grows |
| `NetValue.MoreBenefitNeverLowersLabel` | lyra-pulse-baseline.jsx:346-347 | Raising benefit with the other three fixed never lowers the gauge's label |
| `NetValue.MoreCostNeverRaisesLabel` | lyra-pulse-baseline.jsx:346-347 | Raising friction, risk or intensification with benefit fixed never raises the gauge's label |
| `NetValue.Cycle1Gauge` | lyra-pulse-baseline.jsx:102-107 | The cycle-1 signals 0.58/0.45/0.35/0.40 score exactly 0.1775 and are labelled Positive |
| `NetValue.NegativeScoresAreLabelled` | lyra-pulse-baseline.jsx:346-347 | Negative scores are kept, not clamped, and get the Uncertain or Negative label |
| `Friction.TierOf` | lyra-pulse-baseline.jsx:407-410 | The tier is High iff intensity > 0.65, Medium iff 0.5 < intensity ≤ 0.65, Low iff intensity ≤ 0.5 |
| `Friction.Tiers` | lyra-pulse-baseline.jsx:401-410 | The map shows one tier per hotspot, in the hotspots' order, each the tier of that hotspot's intensity |
| `Friction.TierMonotone` | lyra-pulse-baseline.jsx:407-410 | The tier never drops as intensity grows |
| `Friction.TierBoundaries` | lyra-pulse-baseline.jsx:410 | Intensity 0.5 is Low and 0.65 is Medium: each boundary belongs to the lower tier |
| `Friction.Cycle1Hotspots` | lyra-pulse-baseline.jsx:119-124 | The four cycle-1 hotspots (0.72, 0.58, 0.64, 0.45) are High, Medium, Medium, Low |
| `Signals.BandIndex` | lyra-pulse-baseline.jsx:292 | The index is at most 4, is non-negative iff the signal is, is 4 iff signal ≥ 0.8, and below 4 it is the whole number of fifths in the signal |
| `Signals.BandLabel` | lyra-pulse-baseline.jsx:291-292 | A label exists iff the signal is non-negative, and then it is the label at the band index |
| `Signals.BandIndexMonotone` | lyra-pulse-baseline.jsx:292 | The band index never decreases as the signal grows |
| `Signals.BandIndexExact` | lyra-pulse-baseline.jsx:292 | For k in 0..3 the index is k exactly for signals in [k/5, (k+1)/5) |
| `Signals.FullSignalIsStrong` | lyra-pulse-baseline.jsx:291-292 | A signal of 1.0, and any signal above it, gets index 4, "Strong" |
| `Signals.Cycle1Bands` | lyra-pulse-baseline.jsx:95-100 | The six cycle-1 signals get Developing, Emerging, Emerging, Early, Emerging, Early |
| `Movement.Delta` | lyra-pulse-baseline.jsx:434 | The delta is the current signal less the previous one, or the current signal itself when no previous signal exists |
| `Movement.DirectionOf` | lyra-pulse-baseline.jsx:435 | Up iff delta > 0.03, down iff delta < −0.03, stable iff −0.03 ≤ delta ≤ 0.03 |
| `Movement.SignalAtMeaning` | lyra-pulse-baseline.jsx:434 | A previous signal is absent iff the previous snapshot has no entry for the dimension; with unique keys it is that entry's signal |
| `Movement.Rows` | lyra-pulse-baseline.jsx:430-435 | One row per entry of the current snapshot, in the current snapshot's key order, each carrying that entry's dimension and the delta and direction against the previous signal (0 if absent) |
| `Movement.Track` | lyra-pulse-baseline.jsx:428-435 | The tracker shows nothing iff there is no previous snapshot, and otherwise shows exactly the rows of `Rows` for the two snapshots |
| `Movement.RowMeaning` | lyra-pulse-baseline.jsx:434-435 | Each row's delta is current − previous (0 if absent); it is up iff current exceeds previous by more than 0.03, down iff it falls short by more than 0.03 |
| `Movement.SelfComparisonIsStable` | lyra-pulse-baseline.jsx:434-435 | Comparing a snapshot (keys unique, as in any object) with itself gives delta 0 and "stable" for every dimension |
| `Movement.SwapIsOpposite` | lyra-pulse-baseline.jsx:434-435 | Swapping current and previous negates each shared dimension's delta and exchanges up and down, keeping stable, wherever that dimension's row sits in each snapshot |
| `Movement.Cycle1ToCycle2` | lyra-pulse-baseline.jsx:207-212 | From cycle 1 to cycle 2 the rows, in key order, carry the typed-in deltas (+0.06, +0.08, −0.03, +0.06, +0.04, +0.04), all up except flow, which is stable |
| `Screens.Step` | lyra-pulse-baseline.jsx:535-538 | A tick moves the phase forward by at most one, and leaves it unchanged exactly when it is already at the last stage (4) or beyond |
| `Screens.PhaseAfterTicks` | lyra-pulse-baseline.jsx:524-541 | After n ticks from phase 0 the phase is n for n < 4 and 4 from then on |
| `Screens.ResultsOffered` | lyra-pulse-baseline.jsx:587 | The button's condition holds only once a tick no longer advances the phase, and for any non-negative phase exactly then |
| `Screens.ResultsOfferedAfterLastTick` | lyra-pulse-baseline.jsx:587 | "View results" is offered iff at least 4 ticks have passed, and the phase always stays in 0..4 |
| `Screens.PulseRunning.constructor` | lyra-pulse-baseline.jsx:524 | A newly mounted running screen starts at phase 0 |
| `Screens.PulseRunning.Tick` | lyra-pulse-baseline.jsx:535-538 | A timer tick applies the phase step and counts one more tick |
| `Screens.PulseRunning.CanViewResults` | lyra-pulse-baseline.jsx:587 | The results button is shown iff the phase is the last stage, which is iff at least 4 ticks have passed |
| `Screens.OrgSetup.constructor` | lyra-pulse-baseline.jsx:464-467 | All four fields start empty, so the form is not ready |
| `Screens.OrgSetup.Ready` | lyra-pulse-baseline.jsx:506-508 | The button is enabled, and a click submits, iff the name and the context are both non-empty strings (JavaScript truthiness); size and sector play no part |
| `Screens.OrgSetup.Edit` | lyra-pulse-baseline.jsx:482-487 | Typing into one field of the form changes that field and no other |
| `Screens.OrgSetup.Submit` | lyra-pulse-baseline.jsx:506-507 | A click yields the organisation, with all four fields, iff the form is ready |
| `Screens.LyraPulse.constructor` | lyra-pulse-baseline.jsx:932-934 | The app starts on the setup screen with no organisation and cycle 1 shown |
| `Screens.LyraPulse.SubmitSetup` | lyra-pulse-baseline.jsx:971 | Setup moves to running, with a fresh counter at phase 0, iff the form is ready; otherwise the app stays on setup |
| `Screens.LyraPulse.Tick` | lyra-pulse-baseline.jsx:535-538 | On the running screen a tick steps the counter and changes nothing else |
| `Screens.LyraPulse.ViewResults` | lyra-pulse-baseline.jsx:972 | Running moves to results only when the counter is at the last stage; the screen never moves back |
| `Screens.LyraPulse.ShowCycle2` | lyra-pulse-baseline.jsx:978-980 | On the results screen the cycle toggle and "Run Cycle 2" set which cycle is shown, and nothing else |

## Left out

- Rendering is not modelled: JSX, CSS, colours, the SVG radar geometry (lines 245-286, which use `Math.cos` and `Math.sin`) and number formatting (`toFixed`, `Math.round`).
- `callClaude` (lines 223-241) is not modelled. It is a network request to an external API, and nothing calls it.
- Timers and React hooks are not modelled. The `setInterval` scheduling and `clearInterval` (lines 533-541) are replaced by explicit `Tick` calls, and `useState` by class fields.
- IEEE-754 doubles are not modelled; every threshold is over exact reals. In doubles, 0.52 − 0.55 is slightly below −0.03, so the running prototype shows "down" for flow from cycle 1 to cycle 2. `Movement.Cycle1ToCycle2` gives "stable" at that boundary. Products such as `signal * 5` near a band boundary can round the same way.
- The simulated data (lines 90-220) is used only for the example lemmas. This covers the pre-baked direction and confidence strings, the typed-in theme-movement lists, and the `net` field at line 107. That field is computed by a different formula (0.58 − 0.45 − 0.15 − 0.12 = −0.14, which would be "Negative"), but the gauge never reads it and recomputes the score itself.
- Anchor means, theme ranking, friction-observation merging, confidence tiers and theme persisting/emerging/declining classification are not modelled. The prototype contains no code for them, only typed-in results.
- The results screen's tab selection (line 601) is not modelled. It only chooses what is rendered.
- `Movement.Rows` cannot receive a key outside the six dimensions, because the `Dimension` type has no other values. The source would throw on such a key when it looks up its colour in `DIMENSIONS` (line 438).
- `Screens.LyraPulse.SubmitSetup` and `Screens.LyraPulse.ViewResults` require the app to be on the screen that shows their button, since the callback can only fire from that screen.
