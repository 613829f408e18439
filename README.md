# Cephalon Protocol: the game state, modelled in Dafny

Cephalon Protocol is an idle game written as three Pinia stores and a few
formatting helpers. This project models the game's state and rules:

- **Credits ledger** (`credits.dfy`, class `Credits.CreditsStore`). It holds
  the spendable credits, the lifetime counters and five upgrades.
  - Click upgrades raise the per-click yield. Idle upgrades raise the
    per-second yield.
  - A purchase costs `floor(baseCost * multiplier ^ level)`.
- **Resource ledger** (`resources.dfy`, class `Resources.ResourceStore`). It
  holds four materials (ferrite, alloy plate, plastids, neurodes), each with a
  lifetime counter, and four extractors.
  - Each extractor feeds one material at `level * baseProduction` per second.
  - Extractors are bought with credits, so `BuyExtractor` changes both
    ledgers.
- **Foundry** (`foundry.dfy`, class `Foundry.FoundryStore`). It holds six
  warframe blueprints that are paid for in materials, and a first-in
  first-out queue of timed builds.
  - A finished build raises its item's `owned` count.
  - A warframe can be built only once.
- **Time formatting** (`format.dfy`). `formatTime` renders a whole number of
  seconds as `Hh Mm`, `Mm Ss` or `Ss`. A small reader for those three shapes
  shows what the printed numbers mean.

Shared arithmetic lives in `economy.dfy`: the geometric cost, the capped
offline catch-up and the "last saved record wins" rule of a load.
`wrappers.dfy` holds `Option` and `Find`, which models the `find` that all
four lookups by id use.

How the model represents the game:

- Each store is a class whose methods update its fields in place.
- The current time `now` (epoch milliseconds) is a parameter.
- All amounts are exact reals, and `Math.floor` is `.Floor`.
- A load is the merge of an already-parsed save record into the state. In
  that record, every field the game reads with `x || 0` or `?.` is an
  `Option`.

## Model

| member | source | states |
|---|---|---|
| Wrappers.Find | src/stores/credits.ts:117 | `find` returns none exactly when no element matches; otherwise it returns the first index that matches |
| Economy.PowMonotone | src/stores/credits.ts:97-101 | a power of a base of at least 1 never shrinks as the exponent (level) grows |
| Economy.GeometricCost | src/stores/credits.ts:97-101 | at level 0 the cost is `floor(baseCost)`, which is `baseCost` itself when that is whole |
| Economy.GeometricCostMonotone | src/stores/resources.ts:104-108 | with base cost >= 0 and multiplier >= 1 the cost is >= 0 and never falls as the level rises |
| Economy.OfflineSeconds | src/stores/credits.ts:172-175 | the seconds paid for are at most 3600, and are the exact elapsed seconds when the absence is at most an hour |
| Economy.OfflineBonus | src/stores/credits.ts:171-183 | nothing without a truthy `lastSave`; otherwise `floor(rate * capped seconds)` is paid in full whenever it is positive, an absence of an hour or more pays exactly `floor(rate * 3600)`, and no bonus exceeds that for a non-negative rate |
| Economy.ScaleFloorMonotone | src/stores/credits.ts:171-183 | paying for a shorter time at a non-negative rate never pays more |
| Economy.LastSavedLevel | src/stores/credits.ts:163-168 | no level exactly when no saved record has the id; otherwise a level that a record with that id carries |
| Economy.LastSavedLevelAppend | src/stores/credits.ts:163-168 | a later record with an id overrides every earlier one and leaves other ids alone |
| Format.NatToString | src/utils/format.ts:29 | a numeral is a non-empty run of digits without a leading zero |
| Format.DigitsValueOfNatToString | src/utils/format.ts:29 | reading the digits of a rendered number gives the number back |
| Format.ReadNatOfNumeral | src/utils/format.ts:29 | a rendered number followed by a non-digit reads back as that number and that tail |
| Format.ParseHoursMinutes | src/utils/format.ts:26-29 | text of the form `Hh Mm` reads back as exactly those hours and minutes |
| Format.ParseMinutesSeconds | src/utils/format.ts:30-33 | text of the form `Mm Ss` reads back as exactly those minutes and seconds |
| Format.ParseSeconds | src/utils/format.ts:35 | text of the form `Ss` reads back as exactly those seconds, also when negative |
| Format.FormatTimeMeaning | src/utils/format.ts:25-36 | `FormatTime`: under 60 s the text shows the seconds; under an hour it shows minutes in 1..59 and seconds below 60 that add up to the input; otherwise it shows hours >= 1 and the minutes 0..59 of the hour begun |
| Credits.CatalogStateFacts | src/stores/credits.ts:22-73 | the upgrade catalog has distinct ids, non-negative effects, positive base costs and multipliers above 1 |
| Credits.FindUpgrade | src/stores/credits.ts:117 | `find` by id: none exactly when no upgrade has the id, otherwise the first index that has it |
| Credits.RateSum | src/stores/credits.ts:76-94 | the sum of `level * effect` over one kind is non-negative when every effect is |
| Credits.RateSumLevelUp | src/stores/credits.ts:116-128 | one more level of an upgrade adds its effect to the sum of its own kind and nothing to the other kind |
| Credits.RateSumAtLevelZero | src/stores/credits.ts:190-194 | with every level at 0 both sums are 0 |
| Credits.UpgradeCost | src/stores/credits.ts:97-101 | an upgrade at level 0 costs `floor(baseCost)` |
| Credits.UpgradeCostNonDecreasing | src/stores/credits.ts:97-101 | buying an upgrade never makes its next level cheaper |
| Credits.NavDataCosts | src/stores/credits.ts:23-32 | `nav-data` costs 15, then 17, then 19 |
| Credits.RestoreLevels | src/stores/credits.ts:163-168 | a load only changes levels: same length, every other field of every upgrade kept |
| Credits.RestoreKeepsCatalog | src/stores/credits.ts:163-168 | restoring levels keeps the list a catalog state |
| Credits.RestoreLevelsStep | src/stores/credits.ts:163-168 | applying one more saved record to the result equals restoring from the longer list |
| Credits.RestoreIgnoresUnknownId | src/stores/credits.ts:164-165 | a saved record with an id not in the catalog changes nothing |
| Credits.ApplySavedLevels | src/stores/credits.ts:163-168 | the restoring loop computes exactly `RestoreLevels` |
| Credits.CreditsStore.constructor | src/stores/credits.ts:17-73 | zero balances and counters, and the catalog at level 0 |
| Credits.CreditsStore.CreditsPerClick | src/stores/credits.ts:76-84 | a click earns at least 1 |
| Credits.CreditsStore.CreditsPerSecond | src/stores/credits.ts:86-94 | the idle rate is never negative |
| Credits.CreditsStore.Click | src/stores/credits.ts:107-114 | adds `creditsPerClick` (>= 1) to credits and to the lifetime total, counts one click and returns the amount; upgrades unchanged |
| Credits.CreditsStore.BuyUpgrade | src/stores/credits.ts:116-128 | with `CanAffordUpgrade` as its affordability test: true exactly when the id is known and affordable; on false nothing changes; on true credits drop by exactly the cost and stay >= 0, only that upgrade gains one level, and the lifetime counters are kept |
| Credits.BuyUpgradeRaisesRate | src/stores/credits.ts:116-128 | after a purchase the yield of the upgrade's kind rises by exactly its effect and the other kind's yield is unchanged |
| Credits.CreditsStore.Tick | src/stores/credits.ts:131-138 | a positive idle rate is added to credits and to the lifetime total; otherwise nothing changes; credits never decrease |
| Credits.CreditsStore.Load | src/stores/credits.ts:152-188 | saved balances (0 when missing) and clicks are restored, levels are merged from the save, and the offline bonus at the RESTORED rate is added to both balances, at most an hour's worth |
| Credits.OfflineCapExample | src/stores/credits.ts:170-183 | a 10000 s absence at 5 credits per second pays 18000 |
| Credits.CreditsStore.Reset | src/stores/credits.ts:190-196 | credits, lifetime total, clicks and every level become 0, so a click earns 1 and nothing is earned per second |
| Resources.CatalogWellFormed | src/stores/resources.ts:31-72 | the extractor catalog has one extractor per material at a fixed place, distinct ids, and positive costs and yields |
| Resources.FindExtractor | src/stores/resources.ts:116 | `find` by id: none exactly when no extractor has the id, otherwise the first index that has it |
| Resources.FindExtractorOfResource | src/stores/resources.ts:76 | each material's extractor is found at its fixed place |
| Resources.FindExtractorIgnoresLevel | src/stores/resources.ts:116 | changing a level never changes which extractor an id finds |
| Resources.ProductionIsProduct | src/stores/resources.ts:78 | the repeated addition used for the rate equals `level * baseProduction` |
| Resources.RateIsProduction | src/stores/resources.ts:75-101 | `RateOf` (the `*PerSecond` computeds): on a well-formed catalog each rate is the production of its own extractor |
| Resources.RateNonNegative | src/stores/resources.ts:75-101 | rates are never negative |
| Resources.RateOfCatalogState | src/stores/resources.ts:75-101 | each rate is `level * baseProduction` of its extractor, and positive exactly when that level is positive |
| Resources.RatesGet | src/stores/resources.ts:75-101 | `Rates`: the four rates taken together are, material by material, the rate of that material |
| Resources.RatesAtLevelZero | src/stores/resources.ts:243-252 | with every level at 0 all four rates are 0 |
| Resources.LevelChangeWellFormed | src/stores/resources.ts:125 | changing one level keeps the catalog well formed |
| Resources.RateAfterLevelUp | src/stores/resources.ts:115-130 | one more level of an extractor adds its `baseProduction` to its own material's rate and leaves the other three rates unchanged |
| Resources.ExtractorCost | src/stores/resources.ts:104-108 | an extractor at level 0 costs `floor(baseCost)` |
| Resources.ExtractorCostNonDecreasing | src/stores/resources.ts:104-108 | buying an extractor never makes its next level cheaper |
| Resources.RestoreLevels | src/stores/resources.ts:195-200 | a load only changes levels and keeps a well-formed catalog well formed |
| Resources.RestoreLevelsStep | src/stores/resources.ts:195-200 | applying one more saved record to the result equals restoring from the longer list |
| Resources.RestoreIgnoresUnknownId | src/stores/resources.ts:196-197 | a saved record with an id not in the catalog changes nothing |
| Resources.ApplySavedLevels | src/stores/resources.ts:195-200 | the restoring loop computes exactly `RestoreLevels` |
| Resources.Amounts.Plus | src/stores/resources.ts:139-154 | adding amounts material by material; non-negative amounts stay non-negative |
| Resources.Gain | src/stores/resources.ts:139 | the `earned > 0` guard adds nothing negative, and adds a non-negative amount unchanged |
| Resources.Gains | src/stores/resources.ts:139-154 | the guard applied to each material; nothing added is negative |
| Resources.GainsOfNonNegative | src/stores/resources.ts:214-229 | non-negative amounts pass the guard unchanged |
| Resources.GainsOfRates | src/stores/resources.ts:133-154 | on a well-formed catalog the guard never bites: a tick adds exactly the four rates |
| Resources.OfflineBonuses | src/stores/resources.ts:203-229 | each material's offline bonus is `OfflineBonus` at that material's rate, and none is negative |
| Resources.ResourceStore.constructor | src/stores/resources.ts:19-72 | all balances and counters 0, and the catalog at level 0 |
| Resources.ResourceStore.BuyExtractor | src/stores/resources.ts:115-130 | with `CanAffordExtractor` as its affordability test: true exactly when the id is known and affordable in credits; on false neither ledger changes; on true the credits drop by exactly the cost and stay >= 0, only that extractor gains a level, and no material balance, lifetime counter, credit counter or upgrade changes |
| Resources.ResourceStore.BuyAt | src/stores/resources.ts:120-129 | once the extractor is found: paid and raised when affordable, otherwise nothing changes |
| Resources.ResourceStore.AddEarnings | src/stores/resources.ts:139-154 | each positive amount is added to its balance and to its lifetime counter; nothing else changes |
| Resources.ResourceStore.Tick | src/stores/resources.ts:133-159 | each balance and its lifetime counter rise by the same guarded rate; on a valid store each material rises by exactly its own rate; non-negative balances stay non-negative |
| Resources.ResourceStore.Load | src/stores/resources.ts:178-241 | saved balances and counters (0 when missing) plus each material's offline bonus at its RESTORED rate; levels merged from the save; the catalog stays well formed |
| Resources.ResourceStore.RestoreSaved | src/stores/resources.ts:184-200 | the eight numbers are those of the save and the levels are merged from it |
| Resources.ResourceStore.CatchUp | src/stores/resources.ts:203-229 | each balance and its lifetime counter rise by the material's offline bonus; levels unchanged |
| Resources.ResourceStore.Reset | src/stores/resources.ts:243-254 | all eight numbers become 0 and every extractor keeps everything but its level, which becomes 0 |
| Foundry.CatalogIdsDistinct | src/stores/foundry.ts:35-133 | the blueprint catalog has distinct ids |
| Foundry.FindItem | src/stores/foundry.ts:185 | `find` by id: none exactly when no item has the id, otherwise the first index that has it |
| Foundry.FindEntry | src/stores/foundry.ts:225 | `find` by build id: none exactly when no entry has the id, otherwise the first index that has it |
| Foundry.CanAffordItem | src/stores/foundry.ts:154-163 | true exactly when every present, non-zero cost component is at most the matching balance; absent or zero components demand nothing |
| Foundry.AvailableItems | src/stores/foundry.ts:145-147 | exactly the unlocked items |
| Foundry.CurrentBuild | src/stores/foundry.ts:149-151 | no current build exactly when the queue is empty |
| Foundry.TotalFramesAfterBump | src/stores/foundry.ts:139-143 | `TotalFramesBuilt`: building a warframe adds 1 to the number of frames built, and a weapon adds nothing |
| Foundry.NoFramesWhenNoneOwned | src/stores/foundry.ts:139-143 | `TotalFramesBuilt`: with nothing owned, no frames are built |
| Foundry.BuildProgress | src/stores/foundry.ts:257-262 | never above 100; exactly 100 once the end time is reached; never negative once the build has started |
| Foundry.BuildTimeRemaining | src/stores/foundry.ts:264-268 | never negative; 0 exactly when the end time is reached; otherwise the remaining milliseconds rounded up to whole seconds |
| Foundry.RemoveIdsMembers | src/stores/foundry.ts:243 | the filter keeps exactly the entries whose id is not removed |
| Foundry.ExpiredMembers | src/stores/foundry.ts:250 | the expired entries are exactly those whose end time has come |
| Foundry.LiveMembers | src/stores/foundry.ts:250 | the live entries are exactly those whose end time lies ahead |
| Foundry.RemoveAbsentIds | src/stores/foundry.ts:243 | filtering out ids that no entry carries changes nothing |
| Foundry.RemoveIdsTwice | src/stores/foundry.ts:243 | filtering in two rounds filters out the union |
| Foundry.RemoveIdsKeepsUniqueIds | src/stores/foundry.ts:243 | filtering keeps ids distinct |
| Foundry.RemoveIdsKeepsOneEntry | src/stores/foundry.ts:243 | filtering keeps one entry per item |
| Foundry.ExpiredKeepsUniqueIds | src/stores/foundry.ts:250 | the expired entries of a queue with distinct ids have distinct ids |
| Foundry.RemoveExpiredIsLive | src/stores/foundry.ts:250-254 | filtering out exactly the ids of the expired entries leaves the live entries in order |
| Foundry.RemoveIdsKeeps | src/stores/foundry.ts:243 | no removed id is left; distinct ids, one entry per item and ids below a bound all survive |
| Foundry.RemoveIdKeeps | src/stores/foundry.ts:243 | the same for the single id `completeBuild` filters out |
| Foundry.CompleteStep | src/stores/foundry.ts:233-245 | the queue after `completeBuild` is the queue without every entry of that id; the item list keeps its length |
| Foundry.CompleteStepIdempotent | src/stores/foundry.ts:233-245 | completing the same id twice is the same as once |
| Foundry.CompleteStepUnique | src/stores/foundry.ts:233-245 | with distinct ids, completing an entry bumps its item once and removes exactly that entry, the others staying in order |
| Foundry.RemoveOneId | src/stores/foundry.ts:243 | with distinct ids the filter removes exactly the one entry with that id |
| Foundry.RemoveHeadId | src/stores/foundry.ts:243 | with distinct ids, filtering out the head's id drops just the head |
| Foundry.UniqueIdsTail | src/stores/foundry.ts:243 | the tail of a queue with distinct ids has distinct ids |
| Foundry.CompleteAllQueue | src/stores/foundry.ts:248-255 | completing a list of ids filters out every entry whose id is in the list |
| Foundry.CompleteAllUnique | src/stores/foundry.ts:248-255 | with distinct ids, completing distinct queued entries bumps exactly their items and removes exactly them |
| Foundry.BumpCount | src/stores/foundry.ts:237-240 | `owned += 1` touches only the item with that id |
| Foundry.BumpAllCount | src/stores/foundry.ts:252-254 | each item gains one `owned` per occurrence of its id |
| Foundry.CheckQueueUnique | src/stores/foundry.ts:248-255 | with distinct ids a check leaves exactly the live entries and gives each item one `owned` per expired entry of its own |
| Foundry.NoExpiredLeft | src/stores/foundry.ts:248-255 | whatever the ids, no expired entry survives a check |
| Foundry.CheckOutcome | src/stores/foundry.ts:248-255 | what a check keeps: no expired entry; one entry per item, distinct ids and ids below the counter when they held before; and, with distinct ids, the exact outcome above |
| Foundry.LastSavedItem | src/stores/foundry.ts:288-294 | none exactly when no saved record has the id, otherwise a saved record with that id |
| Foundry.RestoreItems | src/stores/foundry.ts:288-294 | a load only changes `owned` and `unlocked`: same length, every other field kept |
| Foundry.RestoreItemsStep | src/stores/foundry.ts:288-294 | applying one more saved record to the result equals restoring from the longer list |
| Foundry.RestoreIgnoresUnknownItem | src/stores/foundry.ts:289-290 | a saved record with an id not in the catalog changes nothing |
| Foundry.RestoreKeepsIds | src/stores/foundry.ts:288-294 | a load keeps item ids distinct |
| Foundry.ApplySavedItems | src/stores/foundry.ts:288-294 | the restoring loop computes exactly `RestoreItems` |
| Foundry.NextFreeId | src/stores/foundry.ts:297 | an id above every id in the queue |
| Foundry.RestoredQueueIdClash | src/stores/foundry.ts:136 | after a reload two entries can share id 0; completing that id empties the queue but credits only the first item |
| Foundry.Spend | src/stores/foundry.ts:201-204 | takes the charged amount of one material and changes no other balance or counter |
| Foundry.FoundryStore.constructor | src/stores/foundry.ts:35-136 | the catalog, an empty queue and a counter at 0 |
| Foundry.FoundryStore.StartBuild | src/stores/foundry.ts:184-222 | `CanBuildItem` is its admission gate: true exactly when the item is known and `canBuildItem` holds; on false nothing changes; on true each charged material drops by exactly its cost and stays >= 0, the others are untouched, one entry with the counter's id and `endTime = now + buildTime * 1000` is appended, and the counter rises by 1; one entry per item and fresh ids are preserved |
| Foundry.FoundryStore.CompleteBuild | src/stores/foundry.ts:233-245 | the effect of `CompleteStep`; afterwards no entry has this id; one entry per item and fresh ids are preserved |
| Foundry.FoundryStore.RushBuild | src/stores/foundry.ts:224-231 | true exactly when the id is queued, with the effect of `completeBuild` whatever the end time; no resource is touched |
| Foundry.FoundryStore.CheckBuildQueue | src/stores/foundry.ts:248-255 | completes every expired entry in queue order: no expired entry is left; with distinct ids the live entries stay in order and each item gains one `owned` per expired entry of its own; one entry per item and fresh ids are preserved |
| Foundry.FoundryStore.CompleteEach | src/stores/foundry.ts:252-254 | the loop computes exactly `CompleteAll` of its ids |
| Foundry.FoundryStore.Load | src/stores/foundry.ts:280-301 | items are merged from the save, the saved queue (empty when missing) replaces the queue, and the counter keeps its value |
| Foundry.FoundryStore.LoadWithFreshCounter | src/stores/foundry.ts:297 | as `Load`, with the counter moved above every restored id, so fresh ids hold again when the restored ids are distinct |
| Foundry.FoundryStore.Reset | src/stores/foundry.ts:303-310 | every `owned` becomes 0 with the other fields kept, the queue is emptied, and no frames are built |

## Left out

- Persistence is left out: `localStorage`, `JSON.parse`/`stringify`, the `try`/`catch` around a load, and every `saveToLocalStorage` call. A load starts from an already-parsed record. A missing save (the early `return`) is the caller's choice not to call `Load`.
- Timers and the clock are left out. `setInterval`, `Date.now()` and the calls at store creation (`loadFromLocalStorage`, the tick and queue-checking intervals) are not modelled. `now` is a parameter, and each constructor builds the store as it is before its first load.
- Vue and Pinia reactivity, the router, `console` logging, `formatNumber` and `src/utils/colors.ts` are left out.
- IEEE doubles are left out. Amounts are exact reals, so rounding in `level * effect`, `Math.pow` and the cost multipliers is not modelled.
- NaN and `Infinity` are left out: non-numeric, negative or fractional levels and `owned` counts in a save are outside the model. Saved levels, `owned` and clicks are natural numbers.
- Build ids are the numbers `n` of the strings `build-n`, so a queue entry cannot carry an id of any other shape.
- `NatToString` renders integers exactly, so JavaScript's exponent form from 10^21 up and its inexact doubles above 2^53 are not modelled; `formatTime` only meets them for absurd durations.
- Rarity, names and descriptions are carried but have no effect, as in the source.
- Foundry.BuildProgress: requires `endTime != startTime`; a zero-length build makes JavaScript divide by zero.
- Foundry.FoundryStore.CheckBuildQueue: keeping the live entries in order and the exact `owned` counts are stated only when queue ids are distinct. When they are not, the filter of `completeBuild` also drops live entries that share an expired entry's id (see Findings).
- Foundry.FoundryStore.Valid: only requires distinct item ids; it does not pin names, costs or build times to the catalog.
- Resources.ResourceStore.Valid: pins the extractors' ids, their places and positive prices and yields, not their exact catalog values.

## Findings

| source | as written | input that shows it | evidently intended | confidence | as-written member | corrected member |
|---|---|---|---|---|---|---|
| src/stores/foundry.ts:136 | the build-id counter starts at 0 on every page load and is not saved, yet the saved queue is restored (line 297) | save a queue holding `build-0` for excalibur, reload, start mag: both entries are `build-0`; completing `build-0` (line 243) removes both, and only excalibur's `owned` rises | new builds after a reload get ids not already in the restored queue | not executed | Foundry.RestoredQueueIdClash | Foundry.FoundryStore.LoadWithFreshCounter |
