# SimuVidaTech front end: impact rules, wizards, aggregation and routing

This project models the computational core of the SimuVidaTech React front end.
It is an educational simulator that estimates the environmental impact of a phone
or laptop: CO₂ in kg, water ("agua") in litres, e-waste ("residuos") in kg, and an
eco-score. The rules of the seven files below are lifted out as Dafny and proved:

- `DeviceData` (src/data/deviceData.js): the `BASE_DATA` table and
  `getAdjustedImpact`. An age penalty of 5 % per year, capped at +50 %, scales
  the three base magnitudes. The score is derived from the CO₂ ratio.
- `Results` (src/components/simulation/Results.jsx): the final impact. It
  starts from fixed per-type bases and a score of 100. The first stored decision
  of stage 1 and of stage 2 applies a multiplier and a score delta. Also
  modelled: the recommendations and the "No registrada" display.
- `DemoSimulation` (src/components/demo/DemoSimulation.jsx): the public demo.
  It uses a flat base score of 70, magnitudes derived from the score, and a
  stage counter kept within 1..5.
- `Decisions` (src/components/simulation/Decisions.jsx): the per-stage score
  table, the magnitudes derived from it, and the 1..3 decision wizard.
- `AdminDashboard` (src/components/admin/AdminDashboard.jsx): device counts by
  type, and per-model tallies keyed by the lower-cased, trimmed model name. It
  also covers the five most registered models of each kind and the per-type
  device views.
- `MyDevices` (src/components/devices/MyDevices.jsx): the type filter, the
  button counts, and deletion after confirmation.
- `App` (src/App.jsx): route resolution over (path, authenticated), the
  brand-link target and the footer visibility.
- `Common`: `Math.round` as ⌊x + ½⌋ on exact reals,
  `Math.max(lo, Math.min(hi, x))`, `Array.prototype.filter` with its
  order-preservation lemmas, and the device record the API returns.

The four impact estimators disagree with one another. Each one is modelled
as its own file writes it, and they are kept separate. The current year
(`new Date().getFullYear()`) is the parameter `now`. Every API call, and
`window.confirm`, becomes a boolean success input. React state becomes a class
(`DemoWizard`, `DecisionWizard`, `Dashboard`, `DeviceList`) whose methods state
the new state entirely. That includes `impact` of the decision wizard, which
keeps the previous stage's values while the decision is empty. The arithmetic of those methods is proved against pure
specification functions.

Facts about the code that the model keeps:

- No file combines the age adjustment of `getAdjustedImpact` with the decision
  multipliers of `Results.jsx`. Each estimator stands alone.
- For an unknown type, `getAdjustedImpact` returns only `{ score: 70 }`,
  because it spreads `undefined`. No baseline fields come back.
- The demo starts from "2 años" and "reciclar".
- "donar" has no rule in `Results.jsx`. It leaves the magnitudes unchanged and
  gets no recommendations there. The demo gives every decision other than
  desechar and reciclar the donation tips.

## Model

| member | source | states |
|---|---|---|
| `DeviceData.BaseData` | src/data/deviceData.js:2-21 | only telefono and laptop have an entry; every base magnitude is positive |
| `DeviceData.EfficiencyFactor` | src/data/deviceData.js:31-32 | the factor is 1 + 0.05·age below ten years and exactly 1.5 from ten years on; it is at least 1 for a past or current year and below 1 for a future year |
| `DeviceData.EfficiencyFactorMonotone` | src/data/deviceData.js:31-32 | an older device never gets a smaller factor |
| `DeviceData.GetAdjustedImpact` | src/data/deviceData.js:23-46 | the base record passes through unchanged; magnitudes are absent exactly when the type is unknown or the year is missing or 0, and then the score is 70; the score is always within [20, 100] |
| `DeviceData.SameFactorForAllMagnitudes` | src/data/deviceData.js:34-36 | all three magnitudes are their base times the same factor, each rounded on its own |
| `DeviceData.CappedAtTenYears` | src/data/deviceData.js:31-36 | ten or more years of age give 225/150/15 for telefono and 450/300/30 for laptop |
| `DeviceData.CurrentYearIsBaseline` | src/data/deviceData.js:31-37 | a device of the current year keeps its base CO₂ and scores exactly 50 |
| `DeviceData.FutureYearBelowBaseline` | src/data/deviceData.js:31-34 | the penalty has no lower cap, so a future year gives at most the base CO₂ |
| `DeviceData.OlderDeviceNoSmallerImpact` | src/data/deviceData.js:31-36 | for a fixed type, an older device has CO₂, agua and residuos at least as large as a newer one |
| `DeviceData.ScaledMonotone` | src/data/deviceData.js:34-36 | a larger factor never gives a smaller rounded CO₂, agua or residuos |
| `DeviceData.RoundAfterClamp` | src/data/deviceData.js:37-44 | rounding the score after the clamp to [20, 100] equals clamping the rounded score, for every real |
| `DeviceData.AdjustedNonNegative` | src/data/deviceData.js:31-36 | for every year up to twenty years after `now`, the adjusted CO₂, agua and residuos are all non-negative |
| `DeviceData.FarFutureYearNegative` | src/data/deviceData.js:31-36 | twenty-one years ahead the telefono estimate is −7 kg of CO₂, −5 L of agua and 0 residuos |
| `DeviceData.CorrectedFactor` | src/data/deviceData.js:31-32 | the corrected factor stays within [1, 1.5] and equals the source's factor for every year up to `now` |
| `DeviceData.GetCorrectedImpact` | src/data/deviceData.js:23-46 | the corrected estimate agrees with getAdjustedImpact whenever the year is missing, 0 or not after `now`, keeps the score in [20, 100], and never gives a negative magnitude |
| `Results.FindStage` | src/components/simulation/Results.jsx:35 | returns the index of the first record with the given stage, or None when no record has it |
| `Results.DecisionAt` | src/components/simulation/Results.jsx:35-43 | the decision of the first record of the stage; None when no record has the stage |
| `Results.BaseFor` | src/components/simulation/Results.jsx:25-27 | 150/100/10 for telefono and 300/200/20 for every other type |
| `Results.FinalImpact` | src/components/simulation/Results.jsx:29-56 | the final score always lies in [50, 100] |
| `Results.ComputeFinalImpact` | src/components/simulation/Results.jsx:25-57 | the step-by-step `*=` / `-=` computation equals one product of the two multipliers applied to every magnitude, with the clamped sum of the deltas as the score |
| `Results.NoDecisionIsBaseline` | src/components/simulation/Results.jsx:29-56 | when the usage decision is neither "1 año" nor "2 años" and the end-of-life decision is none of "desechar", "reparar" and "reciclar", the magnitudes are the base values and the score is 100 |
| `Results.EmptyDecisionsIsBaseline` | src/components/simulation/Results.jsx:29-56 | no stored decisions give the baseline and 100 |
| `Results.FirstRecordWins` | src/components/simulation/Results.jsx:35-43 | a later record for an already recorded stage does not change the decision used |
| `Results.WorkedExampleTelefono` | src/components/simulation/Results.jsx:36-56 | telefono with "1 año" and "desechar" gives 234 / 156 / 16 and score 50 |
| `Results.MagnitudesPositive` | src/components/simulation/Results.jsx:29-50 | every final magnitude is strictly positive |
| `Results.Recommendations` | src/components/simulation/Results.jsx:68-94 | the desechar, reciclar and reparar tips for those decisions; the empty list for a missing, empty or unrecognised stage-2 decision |
| `Results.RecommendationCounts` | src/components/simulation/Results.jsx:68-94 | exactly 3 tips for desechar, reciclar or reparar; none otherwise |
| `Results.DisplayedDecision` | src/components/simulation/Results.jsx:105-106 | a missing or empty decision is shown as "No registrada"; any other decision is shown as itself |
| `DemoSimulation.DeviceFor` | src/components/demo/DemoSimulation.jsx:37 | laptop gets the laptop entry and any other type falls back to the telefono entry |
| `DemoSimulation.DemoScore` | src/components/demo/DemoSimulation.jsx:41-51 | the score is always within [20, 95] |
| `DemoSimulation.DemoImpact` | src/components/demo/DemoSimulation.jsx:53-58 | the score lies in [20, 95]; CO₂, agua and residuos are strictly positive, and each is the base of the device entry scaled by (120 − score) / 70 and rounded |
| `DemoSimulation.ComputeDemoImpact` | src/components/demo/DemoSimulation.jsx:40-59 | the `let score = 70` adjustments with `-=`/`+=` and the clamp give the demo impact |
| `DemoSimulation.DemoScoreExtremes` | src/components/demo/DemoSimulation.jsx:41-51 | both ends of [20, 95] are reached: "1 año"+desechar gives 20 and "3+ años"+reciclar gives 95 |
| `DemoSimulation.MagnitudeNonIncreasing` | src/components/demo/DemoSimulation.jsx:54-56 | a higher score never gives a larger rounded magnitude |
| `DemoSimulation.MagnitudesAboveFloor` | src/components/demo/DemoSimulation.jsx:54-56 | for either device entry, every score up to 95 gives positive rounded magnitudes |
| `DemoSimulation.DefaultDecisionsTelefono` | src/components/demo/DemoSimulation.jsx:11-58 | the initial decisions give score 85 and 75 / 50 / 5 for telefono |
| `DemoSimulation.UnknownTypeIsTelefono` | src/components/demo/DemoSimulation.jsx:37-58 | an unknown type is simulated exactly as telefono |
| `DemoSimulation.Recommendations` | src/components/demo/DemoSimulation.jsx:133-152 | exactly 3 tips: the desechar tips, the reciclar tips, or the donation tips for anything else |
| `DemoSimulation.DemoWizard.constructor` | src/components/demo/DemoSimulation.jsx:10-12 | the wizard starts at stage 1 with "2 años" and "reciclar" |
| `DemoSimulation.DemoWizard.HandlePrev` | src/components/demo/DemoSimulation.jsx:72-74 | the stage decreases by one only above 1 and stays within 1..5; the decisions are unchanged; the stage stays put exactly when PrevDisabled held, the `disabled={currentStage === 1}` of the "← Anterior" button |
| `DemoSimulation.DemoWizard.HandleNext` | src/components/demo/DemoSimulation.jsx:76-83 | the stage increases by one below 5; at 5 it stays and the completion alert fires; the stage stays within 1..5 |
| `DemoSimulation.DemoWizard.ChooseUso` | src/components/demo/DemoSimulation.jsx:89-92 | a usage button sets decisionUso and nothing else |
| `DemoSimulation.DemoWizard.ChooseFin` | src/components/demo/DemoSimulation.jsx:109-116 | an end-of-life button sets decisionFin and nothing else |
| `DemoSimulation.DemoWizard.CurrentImpact` | src/components/demo/DemoSimulation.jsx:40-59 | the displayed score always lies in [20, 95] |
| `DemoSimulation.RecommendationsInsideImpactPanel` | src/components/demo/DemoSimulation.jsx:219-249 | the recommendations (stage 5) only show where the impact panel (stage ≥ 3) shows |
| `Decisions.StageScore` | src/components/simulation/Decisions.jsx:21-45 | the score is within [40, 100]; at stages 1 and 2 it is 100 exactly when the decision is not one of that stage's three options; stage 3 gives 50 |
| `Decisions.StageImpact` | src/components/simulation/Decisions.jsx:15-52 | nothing is recomputed exactly when the decision is empty |
| `Decisions.ComputeStageImpact` | src/components/simulation/Decisions.jsx:15-54 | the `switch` that overwrites `let score` gives the table's score and the magnitudes derived from it |
| `Decisions.StageImpactNonNegative` | src/components/simulation/Decisions.jsx:47-51 | for every reachable score the magnitudes are non-negative and at most 180/120/12; a score of 100 gives 0/0/0 |
| `Decisions.WorkedExampleOneYear` | src/components/simulation/Decisions.jsx:25-51 | "1 año" at stage 1 gives score 60 and 120 / 80 / 8 |
| `Decisions.StageOptions` | src/components/simulation/Decisions.jsx:70-94 | only stages 1 and 2 offer options, and none of them is empty |
| `Decisions.DecisionWizard.constructor` | src/components/simulation/Decisions.jsx:8-10 | the wizard starts at stage 1 with an empty decision and an all-zero impact |
| `Decisions.DecisionWizard.ChooseOption` | src/components/simulation/Decisions.jsx:15-54 | choosing an option of the current stage sets the decision, keeps the stage, and the effect stores that stage's impact for it |
| `Decisions.DecisionWizard.HandleNext` | src/components/simulation/Decisions.jsx:56-68 | the impact stays as it was, because the effect returns early on the cleared decision; a successful save below stage 3 advances by exactly one and clears the decision; at stage 3 it goes to the results; a failed save changes nothing; the stage stays within 1..3 |
| `Decisions.NextEnabledAsWritten` | src/components/simulation/Decisions.jsx:152 | the as-written guard enables Next only where the intended guard does, and the two agree off stage 3; at a stage with no options and no decision it disables Next |
| `Decisions.ResultsUnreachableAsWritten` | src/components/simulation/Decisions.jsx:134-155 | as written, every reachable state at stage 3 has the Next button disabled, and stage 3 has no options |
| `Decisions.StageThreeDeadEnd` | src/components/simulation/Decisions.jsx:56-155 | a concrete sequence of clicks ends at stage 3 with an empty decision, where the as-written button is disabled and the corrected one is enabled, and the chart still shows the stage-2 impact 15/10/1 with score 95 |
| `Decisions.ReciclarImpact` | src/components/simulation/Decisions.jsx:33-51 | "reciclar" at stage 2 gives score 95 and 15 / 10 / 1 |
| `Decisions.NextAlwaysReachable` | src/components/simulation/Decisions.jsx:150-155 | with the corrected guard, the button at stages 1–2 is enabled once an option is chosen (as in the source), and at stage 3 it is always enabled |
| `AdminDashboard.ModelKey` | src/components/admin/AdminDashboard.jsx:78 | the key is the lower-cased model with a run of white space cut from each end, so it has no upper-case ASCII letter and no outer white space; it is "" exactly when the model is missing or all white space |
| `AdminDashboard.TrimStart` | src/components/admin/AdminDashboard.jsx:78 | the result is the suffix of the input left after removing the leading white space, and it does not start with white space |
| `AdminDashboard.TrimEnd` | src/components/admin/AdminDashboard.jsx:78 | the result is the prefix of the input left after removing the trailing white space, and it does not end with white space |
| `AdminDashboard.Trim` | src/components/admin/AdminDashboard.jsx:78 | the result is a slice of the input with only white space before and after it, and it neither starts nor ends with white space, so it is the input minus its outer white space; it is empty exactly when the input is all white space |
| `AdminDashboard.ToLower` | src/components/admin/AdminDashboard.jsx:78 | the same length, each character lowered on its own, and no upper-case ASCII letter left |
| `AdminDashboard.Get` | src/components/admin/AdminDashboard.jsx:81-82 | an absent key reads 0 and a present key at least 1 |
| `AdminDashboard.Bump` | src/components/admin/AdminDashboard.jsx:81-82 | the key's count goes up by one, every other count is unchanged, the key set gains the key, and distinct keys stay distinct |
| `AdminDashboard.TallyModels` | src/components/admin/AdminDashboard.jsx:74-83 | the dictionary built by the forEach has distinct keys and positive counts |
| `AdminDashboard.TallyDevice` | src/components/admin/AdminDashboard.jsx:77-83 | one device bumps the phone tally exactly when it is tallied as a phone, and the laptop tally exactly when it is tallied as a laptop; the other tally is unchanged |
| `AdminDashboard.TallyAll` | src/components/admin/AdminDashboard.jsx:74-83 | the forEach loop leaves in phoneModels and laptopModels exactly the two tallies of the whole device list |
| `AdminDashboard.TallyTotal` | src/components/admin/AdminDashboard.jsx:77-83 | the counts sum to the number of devices of that tally with a non-empty key |
| `AdminDashboard.TallyCount` | src/components/admin/AdminDashboard.jsx:77-83 | the count stored for a model is the number of devices of that tally whose key is that model |
| `AdminDashboard.OtherTypesCountAsLaptops` | src/components/admin/AdminDashboard.jsx:81-82 | a device of any type other than telefono with a non-empty key is counted in laptopModels |
| `AdminDashboard.InsertDesc` | src/components/admin/AdminDashboard.jsx:86 | inserting adds exactly that entry to the multiset |
| `AdminDashboard.InsertDescSorted` | src/components/admin/AdminDashboard.jsx:86 | inserting into a list sorted by descending count keeps it sorted |
| `AdminDashboard.SortDesc` | src/components/admin/AdminDashboard.jsx:86 | the sort is a permutation of the entries |
| `AdminDashboard.SortDescSorted` | src/components/admin/AdminDashboard.jsx:86 | the sorted entries are in non-increasing order of count |
| `AdminDashboard.TopFive` | src/components/admin/AdminDashboard.jsx:85-93 | the first min(5, number of models) entries of the stable descending sort |
| `AdminDashboard.TopFiveSpec` | src/components/admin/AdminDashboard.jsx:85-93 | at most five entries (min(5, number of models)), non-increasing, each carrying its model's tally, and every omitted model counted no more than the last kept |
| `AdminDashboard.TopFiveOmitted` | src/components/admin/AdminDashboard.jsx:85-93 | a model missing from the top list means five were kept, the last of them counted at least as much |
| `AdminDashboard.ComputeStats` | src/components/admin/AdminDashboard.jsx:69-106 | totalDevices is the list length, phoneCount + laptopCount ≤ totalDevices, the top lists come from the tallies the loop builds, totalUsers defaults to 0 and the decision lists to [] |
| `AdminDashboard.DevicesOfType` | src/components/admin/AdminDashboard.jsx:127-147 | exactly the devices of that type, each with as many copies as the response has, in their original order |
| `AdminDashboard.Dashboard.constructor` | src/components/admin/AdminDashboard.jsx:42-56 | zero statistics, no devices, no users, the dashboard view, loading |
| `AdminDashboard.Dashboard.FetchAdminStats` | src/components/admin/AdminDashboard.jsx:60-112 | on success every field of the stats is the one the three responses determine (`StatsFor`); on failure the stats are unchanged; loading ends either way |
| `AdminDashboard.Dashboard.ShowType` | src/components/admin/AdminDashboard.jsx:127-147 | on success the device view lists the devices of that type; on failure nothing changes |
| `AdminDashboard.Dashboard.ShowPhones` | src/components/admin/AdminDashboard.jsx:127-136 | on success the device view lists the telefono devices; on failure nothing changes |
| `AdminDashboard.Dashboard.ShowLaptops` | src/components/admin/AdminDashboard.jsx:138-147 | on success the device view lists the laptop devices; on failure nothing changes |
| `AdminDashboard.Dashboard.ShowAllDevices` | src/components/admin/AdminDashboard.jsx:117-125 | on success the device view lists every device of the response, none for an empty body; on failure nothing changes |
| `AdminDashboard.Dashboard.ShowAllUsers` | src/components/admin/AdminDashboard.jsx:149-157 | on success the user view lists the users of the response, none for an empty body; on failure nothing changes |
| `AdminDashboard.Dashboard.GoBackToDashboard` | src/components/admin/AdminDashboard.jsx:159 | only the view changes, back to the dashboard |
| `MyDevices.FilteredDevices` | src/components/devices/MyDevices.jsx:28-30 | "all" returns the list unchanged; any other filter returns exactly the devices of that type, with every copy kept |
| `MyDevices.FilteredKeepsOrder` | src/components/devices/MyDevices.jsx:28-30 | the filtered list keeps the original order |
| `MyDevices.WithoutId` | src/components/devices/MyDevices.jsx:40 | no device with the id remains; every other device stays, with all its copies, in order |
| `MyDevices.DeleteAbsentId` | src/components/devices/MyDevices.jsx:40 | deleting an absent id changes nothing |
| `MyDevices.Counts` | src/components/devices/MyDevices.jsx:98-118 | the first count is the total, and the telefono and laptop counts add up to at most the total |
| `MyDevices.FilteredLengthMatchesButton` | src/components/devices/MyDevices.jsx:28-118 | the length of the filtered list equals the count on the selected button |
| `MyDevices.DeviceList.constructor` | src/components/devices/MyDevices.jsx:7-10 | an empty list with the filter "all" |
| `MyDevices.DeviceList.Shown` | src/components/devices/MyDevices.jsx:28-30 | the rendered list is the whole list under "all", and under each button it has that button's count |
| `MyDevices.DeviceList.Load` | src/components/devices/MyDevices.jsx:13-26 | a successful load replaces the list; a failed one keeps it |
| `MyDevices.DeviceList.SetFilter` | src/components/devices/MyDevices.jsx:90-118 | a filter button sets the filter and keeps the list |
| `MyDevices.DeviceList.HandleDelete` | src/components/devices/MyDevices.jsx:33-46 | a cancelled confirm or a failed API call leaves the list unchanged; a confirmed, successful delete removes every device with that id |
| `App.Resolve` | src/App.jsx:101-124 | "/" always redirects to /login; signed in, /login and /register redirect to /dashboard, otherwise their form renders; signed out, /dashboard redirects to /login; no redirect targets its own path |
| `App.SettlesWithinTwoHops` | src/App.jsx:102-123 | from each of the four paths, a page renders within two redirects: the dashboard when signed in, otherwise the register or login form |
| `App.NoRedirectLoop` | src/App.jsx:102-123 | following more than two redirects changes nothing, so no redirect loop exists |
| `App.BrandLink` | src/App.jsx:34-36 | the brand link leads to the dashboard when signed in and to the login form otherwise, and both render a page |
| `App.FooterOnlyWhenSignedOut` | src/App.jsx:128-135 | the footer renders exactly when the brand link points to /login, that is when signed out |

## Left out

- REST calls (`api.get/post/delete`, src/services/deviceService.js) are I/O. Only their success or failure is modelled, as a boolean input. Their response bodies are inputs too.
- `navigate(...)` side effects: the results redirect of `handleNext` is the boolean `toResults`. The fallback navigation to /dashboard after a failed results load is not modelled.
- src/utils/auth.js, a wrapper over browser storage: `authenticated` is a plain input.
- Rendering, Recharts charts, Tailwind classes and all JSX markup. The alert texts are also left out; the demo's completion alert is the boolean `completed`.
- Form and page screens (Login, Register, the upload forms, Home, About, Dashboard, AdminUsers, AdminPanel, DeviceDetail) have no computation and are not part of this model.
- Display formatting: `toFixed(2)` in the admin views and locale date formatting.
- floating point: all multipliers are exact reals with round-half-up. IEEE-754 rounding artefacts are not modelled.
- `parseInt(year, 10)` on a non-numeric string (NaN) is not modelled. The year is an optional number whose "falsy" value is None or 0. A year sent as the string "0", which JavaScript treats as truthy, is not modelled.
- AdminDashboard.ModelKey: only the ASCII upper-case letters are lower-cased. Only ASCII white space, U+00A0 and U+FEFF are trimmed. Full Unicode case mapping and the other Unicode spaces are left out.
- AdminDashboard.TopFiveSpec: it states the order only up to equal counts. The sort is modelled as stable, so ties keep the insertion order, as in ES2019, but tie order is not proved. Object.entries lists integer-like keys first; that is not modelled, and keys keep insertion order.
- `usersRes.data?.totalUsers || 0` maps a missing value or 0 to 0. Other falsy values (NaN, "", false) are not modelled. A `null` decision list, which the destructuring default does not replace, is not modelled either.
- App.Resolve: paths match by exact string equality. React Router's case-insensitive matching and trailing-slash tolerance are left out.
- DemoSimulation.DemoWizard.ChooseUso and DemoSimulation.DemoWizard.ChooseFin do not require stages 3 and 5, although the buttons render only there. Nothing computed depends on the stage at which a decision is set.
- MyDevices.DeviceList.HandleDelete, Decisions.DecisionWizard.HandleNext, AdminDashboard.Dashboard.ShowType, AdminDashboard.Dashboard.ShowAllDevices and AdminDashboard.Dashboard.ShowAllUsers run atomically. The source handlers are async and use the state their render captured. Two overlapping confirmed deletes each filter the pre-await `devices`, and the second `setDevices` brings the first deleted device back. A double click on Next posts the same `{stage, decision}` twice, and both clicks set the same `stage + 1`. These interleavings are not modelled. Two quick clicks on the admin buttons (src/components/admin/AdminDashboard.jsx:117-157) can resolve out of order, so the screen can end up showing the result of the first click instead of the second: for example, all devices after "Teléfonos" was clicked last.
- MyDevices.DeviceList.Load: its `data` is a list, so a successful response whose body is null or not an array is not modelled. The source stores `response.data` with no `|| []` fallback (src/components/devices/MyDevices.jsx:17), and the `devices.filter` of the render (src/components/devices/MyDevices.jsx:28-30) then throws.
- Lookups by an arbitrary string on a plain JavaScript object reach Object.prototype. A device type or model key that names one of its members (`toString`, `constructor`, `__proto__`, ...) is not modelled. Examples are `deviceData[type]` at src/components/demo/DemoSimulation.jsx:37 with the type from the URL, `BASE_DATA[type]` at src/data/deviceData.js:25, and `phoneModels[model]` at src/components/admin/AdminDashboard.jsx:81-82. DemoSimulation.UnknownTypeIsTelefono, DeviceData.BaseData and AdminDashboard.TallyCount hold only for strings that name no such member.
- src/components/simulation/Simulation.jsx:39-43 only converts the device's year to a number or null and passes it to `getAdjustedImpact`. That call is DeviceData.GetAdjustedImpact with the year as an Option; the screen itself is not modelled separately.
- The loading and error flags of MyDevices, and the `setDevice`/`setDecisions` state of Results, are not modelled.

## Findings

| source | as written | input that shows it | evidently intended | confidence | as-written member | corrected member |
|---|---|---|---|---|---|---|
| src/components/simulation/Decisions.jsx:152 | The Next button is `disabled={!decision}`. Stage 3 offers no options, and `handleNext` clears the decision after stage 2, so the "Ver resultados →" button at stage 3 is always disabled. The results branch of `handleNext` and the stage-3 impact effect are unreachable. | choose "1 año", Next (save succeeds); choose "reciclar", Next (save succeeds): stage 3, decision "", button disabled | enable the button at stage 3 (`disabled={stage < 3 && !decision}`), so that the results page can be reached | high, not executed | `Decisions.NextEnabledAsWritten`, `Decisions.ResultsUnreachableAsWritten` | `Decisions.NextAlwaysReachable` |
| src/data/deviceData.js:31-36 | The factor `1.0 + Math.min(0.5, yearsDiff * 0.05)` has a cap above but no floor below. For a year more than twenty years after the current one it is negative, and so are the rounded CO₂ and agua. | telefono with year = now + 21 (the phone form accepts years up to 2100): factor −0.05, CO₂ Math.round(−7.5) = −7, agua −5 | the magnitudes are non-negative: a year after the current one counts as age 0, so the factor stays within [1, 1.5] | medium, not executed | `DeviceData.FarFutureYearNegative`, `DeviceData.AdjustedNonNegative` | `DeviceData.GetCorrectedImpact` |

`Decisions.DecisionWizard.HandleNext` requires the corrected guard
(`Decisions.NextEnabled`). `Decisions.StageThreeDeadEnd` replays the trace above
on the wizard.

`DeviceData.AdjustedNonNegative` shows that the magnitudes stay non-negative up
to twenty years ahead. `DeviceData.FarFutureYearNegative` gives the first year
where they do not. `DeviceData.GetCorrectedImpact` shares `DeviceData.Estimate`
with the as-written function and differs only in its factor. The as-written
`DeviceData.GetAdjustedImpact` stays the model of the screen, since it is what
the simulation page computes.
