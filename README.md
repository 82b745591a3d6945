# Startup simulation core in Dafny

This project models the rules of a week-by-week startup management game. The
player runs a Tokyo SaaS company from its seed phase through Series A and
Series B. Each click on "next turn" runs the weekly engine:

- market trends count down or are redrawn;
- marketing and word of mouth bring leads, and sales capacity processes them;
- conversions add MRR, and churn takes MRR away;
- a quarter of the monthly burn leaves the cash;
- every fourth week a monthly review runs;
- random drift adds tech debt and may bring a whale;
- narrative events, decision mode, machine mode and game over are settled.

Beside the engine sit stand-alone service modules; the engine itself calls none of them:

- the deal catalogue and its phase gates, which the negotiation mini-game reads;
- product maturity and the average unit price, which the product screen reads, and a product snapshot that records them;
- major events, which compose the deal success chance, investor reputation and a time-boxed difficulty buff;
- an MRR update from headcount, quality and a CS penalty, and the countdown of the difficulty buff.

No caller of the major events, the MRR update, the snapshot or the buff countdown is part of this model. They are modelled as the operations they export.

The player's actions in the game context are modelled: client work, customer interviews, hiring, firing, event choices, sales pitches, private time, command gates, the marketing budget, and manager assignment with its cycle check. So are the negotiation mini-game (deck building, opening a battle, playing cards), the phone's notification feed and its timer tick, and the ending screen's verdict.

Pure services are Dafny functions over datatypes, with lemmas about them.
Step-by-step code takes the imperative form:

- the engine's turn and the weekly wrapper are methods over a copy of the state;
- the org-chart walk is a `while` loop;
- the mini-game is a class whose fields are the component's state cells.

Random draws (`Math.random`) are explicit `roll` parameters in [0, 1).
Money, MRR, churn and runway are `real`. Sanity, PMF, tech debt, leads and
the karma scores are `int`.

Files, one module each:

| file | module | models |
|---|---|---|
| types.dfy | GameTypes | the game state, employees, enums, helpers |
| sales_logic.dfy | SalesLogic | `services/salesLogic.ts` |
| deal_profiles.dfy | DealProfiles | `services/dealProfiles.ts` |
| difficulty_modifier.dfy | DifficultyModifierStore | `services/difficultyModifier.ts` |
| investors.dfy | Investors | `services/investors.ts` |
| major_events.dfy | MajorEvents | `services/majorEvents.ts` |
| product_logic.dfy | ProductLogic | `services/productLogic.ts` |
| revenue_logic.dfy | RevenueLogic | `services/revenueLogic.ts` |
| scenario.dfy | Scenario | `hooks/useScenario.ts` |
| game_engine.dfy | GameEngine | `hooks/useGameEngine.ts` |
| game_context.dfy | GameContext | `context/GameContext.tsx` (the actions) |
| sales_minigame.dfy | SalesMinigame | `components/SalesMinigame.tsx` (its logic) |
| notifications.dfy | Notifications | `hooks/useNotificationSystem.ts` (feed and tick) |
| ending.dfy | Ending | `components/EndingScreen.tsx` (the verdict) |

## Model

| member | source | states |
|---|---|---|
| GameTypes.CountRole | services/revenueLogic.ts:13 | the headcount of a role is at most the staff size, and zero exactly when nobody has that role |
| SalesLogic.ClampChance | services/salesLogic.ts:4-6 | a chance is clamped into [0.05, 0.95]; values already inside are unchanged and values outside go to the nearer bound |
| SalesLogic.CalculateDealSuccess | services/salesLogic.ts:8-26 | the deal chance always lies in [0.05, 0.95]; a non-positive resistance gives 0.95; otherwise the score-over-resistance ratio is returned as is when in range, and below or above the range gives 0.05 or 0.95 |
| SalesLogic.DealSuccessMonotone | services/salesLogic.ts:8-26 | for a fixed positive resistance, more PMF, sales headcount, quality or card effect never lowers the chance |
| DealProfiles.GetDealProfile | services/dealProfiles.ts:28-83 | friends and startup deals are always offered; enterprise deals only after the seed phase; whales only in Series B; every offered profile is for its target, meets its own minimum phase, and has positive resistance and moves |
| DealProfiles.GetDealGateMessage | services/dealProfiles.ts:85-102 | the gate is open exactly when the profile exists, PMF meets its minimum and the sales requirement is met; "not offered" exactly when no profile exists; the PMF message exactly when PMF is below the minimum and carries that minimum; the phase message can never appear |
| DealProfiles.PhaseLockedIsOrder | services/dealProfiles.ts:20-22 | a phase is locked exactly when the current phase comes earlier in seed, Series A, Series B order |
| DealProfiles.TableRows | services/dealProfiles.ts:30-78 | the whale row of Series B, and the friends resistance 30/40/50 by phase |
| DifficultyModifierStore.ApplyTemporaryDifficultyModifier | services/difficultyModifier.ts:3-10 | the modifier is replaced by the new duration and value; nothing else changes |
| DifficultyModifierStore.TickDifficultyModifier | services/difficultyModifier.ts:12-25 | with no modifier nothing changes; one week or less left clears it; otherwise one week is taken off and the value kept |
| DifficultyModifierStore.TickTimesOnlyModifier | services/difficultyModifier.ts:12-25 | however many ticks run, only the modifier changes |
| DifficultyModifierStore.TickTimesCountsDown | services/difficultyModifier.ts:12-25 | while more than k weeks remain, k ticks subtract exactly k and keep the value |
| DifficultyModifierStore.BuffLastsDuration | services/difficultyModifier.ts:3-25 | a modifier applied for d weeks has one week left after d-1 ticks and is gone after d |
| Investors.ClampReputation | services/investors.ts:21 | a reputation is clamped into [-100, 100]: values inside are unchanged, values above become 100 and values below -100 |
| Investors.ReputationDelta | services/investors.ts:23-40 | +6 for a favoured event won, +2 for a neutral one, 0 for a disliked one; -6 / -4 / -2 for a loss |
| Investors.UpdateInvestorReputation | services/investors.ts:23-46 | the archetype is kept; the reputation moves by the delta and is clamped; a success never lowers it and a failure never raises it |
| Investors.PreferencesDisjoint | services/investors.ts:14-19 | no archetype both favours and dislikes an event type |
| Investors.NoInvestorIsNeutral | services/investors.ts:28-40 | an investor with no archetype moves by +2 or -2 |
| Investors.BlitzBigDealSwing | services/investors.ts:14-46 | a BLITZ investor at 0 ends at +6 after a big deal won and at -6 after one lost |
| MajorEvents.PoolForPhase | services/majorEvents.ts:22-135 | every phase has a non-empty pool, and all of its events belong to that phase |
| MajorEvents.TriggerMajorEvent | services/majorEvents.ts:139-166 | no event while one is active or the phase cap is reached; an event offered comes from the phase's pool; unforced, an event appears exactly when none is active, the phase is Series B with one event so far, and the coin lands at 0.5 or above; forced, one appears whenever none is active and the cap allows |
| MajorEvents.PickEvent | services/majorEvents.ts:137 | the picked event is one of the pool's |
| MajorEvents.CalculateMajorEventSuccess | services/majorEvents.ts:168-186 | the event chance is the deal chance times the event's modifier, clamped again into [0.05, 0.95] |
| MajorEvents.UpdateAllInvestors | services/majorEvents.ts:215-217 | every investor, in order, gets its single-investor update |
| MajorEvents.ApplySuccess | services/majorEvents.ts:195-205 | a success adds the reward MRR and installs the buff when both of its numbers are set; nothing else changes |
| MajorEvents.ApplyFailure | services/majorEvents.ts:206-213 | a failure takes the sales cost from cash, floored at 0, and adds the development cost to tech debt; nothing else changes |
| MajorEvents.ApplyMajorEventOutcome | services/majorEvents.ts:188-220 | a success changes MRR and the buff, not cash or debt; a failure leaves KPIs and the buff alone and never takes cash below min(0, cash); every investor's reputation is updated |
| ProductLogic.FindBucket | services/productLogic.ts:24 | the bucket found is the first one in table order that contains the score; none exactly when no bucket contains it |
| ProductLogic.DetermineProductPhase | services/productLogic.ts:22-26 | PMF is clamped to [0, 100] and lands in its 20-point bucket: prototype below 20 up to scale from 80 |
| ProductLogic.BucketsPartition | services/productLogic.ts:12-18 | every score in [0, 100] lies in exactly one bucket |
| ProductLogic.ProductPhaseMonotone | services/productLogic.ts:22-26 | more PMF never gives an earlier bucket |
| ProductLogic.EffectiveQuality | services/productLogic.ts:51 | a missing quality defaults to 100 minus tech debt, floored at 0 |
| ProductLogic.CsFactor | services/productLogic.ts:28-48 | the CS discount is at most 25% for shortages in [0, 1], and none without a shortage |
| ProductLogic.CalculateAverageUnitPrice | services/productLogic.ts:28-48 | the average unit price is always between 14,625 and 192,375; with no MRR, no CS discount applies |
| ProductLogic.UpdateProductSnapshot | services/productLogic.ts:50-63 | records the quality, the PMF bucket, the PMF change from the baseline, and the average unit price of the state with the effective quality, which is also the price of the recorded snapshot itself and lies within the bounds; nothing else changes |
| RevenueLogic.CsPenalty | services/revenueLogic.ts:11-18 | no penalty without MRR or with enough CS staff; otherwise positive and at most 1.5% of MRR |
| RevenueLogic.CalculateCsPenalty | services/revenueLogic.ts:11-18 | the penalty of a state is 0 without MRR or when its CS staff cover MRR / 80,000; otherwise it is positive and at most 1.5% of MRR |
| RevenueLogic.CsPenaltyAntitone | services/revenueLogic.ts:11-18 | hiring more CS staff never raises the penalty |
| RevenueLogic.CalculateMarketingReferralBonus | services/revenueLogic.ts:20-24 | no marketers means no bonus; non-negative quality gives a non-negative bonus |
| RevenueLogic.ApplyMrrUpdate | services/revenueLogic.ts:26-43 | the new MRR is the formula's value when that is non-negative and 0 when it is negative, and the effective quality is recorded; nothing else changes |
| RevenueLogic.MrrUpdateBoundedLoss | services/revenueLogic.ts:26-43 | at non-negative quality, one update loses at most 1.5% of MRR, and nothing when CS covers the MRR |
| RevenueLogic.MrrFormulaMonotone | services/revenueLogic.ts:26-36 | at non-negative quality, more staff of any role never lowers the new MRR |
| Scenario.CheckTriggers | hooks/useScenario.ts:11-146 | week 3 and week 6 of the seed phase, the week-8 mentor choice with no mentor, and Series A at 5,000,000 MRR each raise their event; none is raised exactly when no rule matches |
| Scenario.TriggeredChoicesBelong | hooks/useScenario.ts:11-146 | a raised event offers exactly its own choices, and is critical exactly for the mentor choice and the Series B round |
| Scenario.NoEventInSeriesB | hooks/useScenario.ts:11-146 | nothing fires in Series B |
| Scenario.ChoiceEffect | hooks/useScenario.ts:16-142 | only the mentor choices move to Series A, only the Series B round moves to Series B, and no choice returns to seed; only the week-6 hire choice touches the staff, and it appends the star engineer |
| Scenario.ChoiceKarma | hooks/useScenario.ts:84-120 | only the mentor choices carry karma, and none carries dishonesty |
| Scenario.ApplyDelta | hooks/useScenario.ts:11-146 | each field a partial state sets (cash, tech debt, sanity, PMF, staff, investor, phase, marketing budget) replaces the old value, each unset field keeps it, and no other field changes |
| Scenario.ChoicesNeverRegressPhase | hooks/useScenario.ts:11-146 | a raised event's choice never moves the phase backwards |
| Scenario.MentorChoiceFunding | hooks/useScenario.ts:76-123 | each mentor choice enters Series A with its investor type and 300M, 200M or 100M of new cash |
| Scenario.SeriesBGoEffect | hooks/useScenario.ts:126-145 | going for Series B gives Series B, 500M more cash and 20 less sanity, and nothing else |
| GameEngine.SumSalaries | hooks/useGameEngine.ts:15 | the salary sum of a staff list with no negative salary is never negative |
| GameEngine.SumSalariesAppend | hooks/useGameEngine.ts:15 | the salary sum of a staff list with one more employee grows by that salary |
| GameEngine.OfficeRent | hooks/useGameEngine.ts:16-18 | there is no rent exactly in the seed phase |
| GameEngine.RentFollowsPhase | hooks/useGameEngine.ts:16-18 | a later phase never pays less rent |
| GameEngine.MonthlyBurn | hooks/useGameEngine.ts:13-21 | with non-negative salaries, MRR and budget, the monthly burn covers at least the founder's salary, the base server cost and the phase's rent |
| GameEngine.HireRaisesBurn | hooks/useGameEngine.ts:13-21 | one more employee raises the burn by exactly that salary |
| GameEngine.CalcConversionRate | hooks/useGameEngine.ts:29-43 | the product investor's veto gives 0; non-negative PMF gives a non-negative rate; PMF up to 100 gives at most 0.195 |
| GameEngine.DebtPenaltyIsTwentyPercent | hooks/useGameEngine.ts:41-42 | outside the veto, tech debt above 30 costs exactly a fifth of the rate |
| GameEngine.CheckMachineMode | hooks/useGameEngine.ts:45-50 | a founder at 0 sanity or below turns into a machine with sanity 0; otherwise nothing changes; afterwards no human is at 0 sanity |
| GameEngine.CheckMachineModeIdempotent | hooks/useGameEngine.ts:45-50 | checking twice is the same as checking once |
| GameEngine.NewTrend | hooks/useGameEngine.ts:60-81 | a SaaS boom below 0.3, a recession below 0.6, competitor FUD below 0.8, otherwise normal, always with a positive duration |
| GameEngine.TickMarket | hooks/useGameEngine.ts:60-86 | an expired trend is redrawn; otherwise the trend is kept and one week is counted off |
| GameEngine.Arpu | hooks/useGameEngine.ts:116-121 | revenue per customer is non-negative, and zero exactly under the blitz pricing strategy |
| GameEngine.Virality | hooks/useGameEngine.ts:124-134 | word of mouth is non-negative, and zero at 40 PMF or below |
| GameEngine.Productivity | hooks/useGameEngine.ts:57 | a machine founder works at twice the productivity, anyone else at 1 |
| GameEngine.MarketingEfficiency | hooks/useGameEngine.ts:107-112 | a blitz investor adds a fifth of efficiency per 1,000,000 of budget and competitor FUD takes 30% off; otherwise efficiency is 1 |
| GameEngine.BudgetLeads | hooks/useGameEngine.ts:114 | a non-negative budget buys a non-negative number of leads, and no budget buys none |
| GameEngine.CurrentCustomers | hooks/useGameEngine.ts:116-123 | there is always at least one customer, and exactly one while MRR is below the revenue per customer |
| GameEngine.OrganicLeads | hooks/useGameEngine.ts:123-135 | word-of-mouth leads are never negative and there are none at 40 PMF or below |
| GameEngine.LeadSupply | hooks/useGameEngine.ts:107-135 | the budget leads are floor(budget / 10,000 x efficiency x productivity) and the organic leads floor(customers x virality), as BudgetLeads and OrganicLeads define them; both are non-negative for a non-negative budget, and there are no organic leads at 40 PMF or below |
| GameEngine.FounderPower | hooks/useGameEngine.ts:139 | the founder's own selling is never negative and falls below 5 after the seed phase |
| GameEngine.SalesCapacity | hooks/useGameEngine.ts:139-142 | sales capacity is never negative for non-negative productivity and is 0 while the product is frozen |
| GameEngine.CsCapacity | hooks/useGameEngine.ts:156 | CS capacity is never negative for non-negative productivity and is 0 without CS staff |
| GameEngine.Capacities | hooks/useGameEngine.ts:139-156 | sales capacity is floor((10 x reps x hustler bonus + founder power) x friction x productivity), 0 while frozen, and CS capacity floor(20 x CS staff x friction x productivity), as SalesCapacity and CsCapacity define them; both are non-negative |
| GameEngine.Conversion | hooks/useGameEngine.ts:147-148 | with PMF in [0, 100] the week's conversion, golden lead included, lies in [0, 0.345] |
| GameEngine.FloorShare | hooks/useGameEngine.ts:150 | a share in [0, 1] of a non-negative count, rounded down (new deals here, organic leads at line 135), lies between 0 and the count |
| GameEngine.DealRevenue | hooks/useGameEngine.ts:152 | new MRR is non-negative for non-negative deals and revenue per customer, and 0 without deals or under blitz pricing |
| GameEngine.CustomerCount | hooks/useGameEngine.ts:155 | customers after sales are non-negative for non-negative MRR, and none while MRR is below one customer's revenue |
| GameEngine.EffectiveArpu | hooks/useGameEngine.ts:151 | the revenue per customer used for counting customers is always positive |
| GameEngine.Pipeline | hooks/useGameEngine.ts:107-156 | processed leads are the waiting plus new leads up to sales capacity, the rest are lost, and together they account for every lead; a frozen product processes none; new deals are the converted share of processed leads, new MRR is deals times the revenue per customer, and customers after sales are the new MRR total over the effective revenue per customer |
| GameEngine.DealsWithinProcessed | hooks/useGameEngine.ts:144-152 | with no negative leads or budget and PMF in [0, 100], deals lie between 0 and the processed leads and new MRR is never negative |
| GameEngine.RunPipeline | hooks/useGameEngine.ts:107-156 | the lead flow it computes is exactly Pipeline's |
| GameEngine.BaseChurn | hooks/useGameEngine.ts:158-170 | with non-negative tech debt, churn before incidents is at least 1.2% |
| GameEngine.UnderstaffedSupportChurnsMore | hooks/useGameEngine.ts:161 | a CS team that cannot serve every customer churns more than one that keeps up |
| GameEngine.ChurnRate | hooks/useGameEngine.ts:158-172 | churn never drops below 0.5%, and each resolved incident takes at most a point off |
| GameEngine.MoreIncidentsLessChurn | hooks/useGameEngine.ts:172 | resolving more incidents never raises churn |
| GameEngine.MrrAfterChurn | hooks/useGameEngine.ts:173-174 | MRR after churn is never negative, and with churn at most 100% it keeps at least the new MRR |
| GameEngine.CloseBooks | hooks/useGameEngine.ts:173-187 | the new MRR is MrrAfterChurn of old MRR, new MRR and churn; a quarter of the burn goes out and a quarter of the MRR comes in; runway is cash over net burn, or 99.9 |
| GameEngine.GrowthBaseline | hooks/useGameEngine.ts:190 | the growth baseline is never 0, and positive for a non-negative last month |
| GameEngine.MonthlyReview | hooks/useGameEngine.ts:189-208 | growth is (MRR - baseline) / baseline; it is below 20% exactly when MRR is under 1.2 times last month's; a human founder under a blitz investor loses 10 sanity for it; a family investor counts the months of net burn and resets the count otherwise |
| GameEngine.Drift | hooks/useGameEngine.ts:210-220 | a staffed, unfrozen product after the seed phase gains one point of debt above 0.7; a whale appears above 0.98 after the seed phase and never goes away |
| GameEngine.SettleModes | hooks/useGameEngine.ts:237-263 | the triggered event is raised; a critical event or sanity in (0, 20) forces a decision; decision mode ends only when nothing is pending, runway is above 2 and sanity above 30; 0 sanity means a machine; negative cash ends the game |
| GameEngine.OpenWeek | hooks/useGameEngine.ts:54-105 | a founder at 0 sanity is a machine; a human founder with a family investor gains 2 sanity capped at 100, and a founder with positive sanity and another investor keeps it; sanity never rises above 100; the trend is redrawn when its clock runs out and otherwise counts down; KPIs, cash and last month's MRR are untouched; friction never grows |
| GameEngine.StartWeek | hooks/useGameEngine.ts:54-105 | the opened state is exactly OpenWeek's |
| GameEngine.Operate | hooks/useGameEngine.ts:107-233 | the flow is Pipeline of the opened state; churn is ChurnRate of that flow; MRR is MrrAfterChurn; cash and runway follow the weekly formulas; in review weeks growth is measured against GrowthBaseline, last month's MRR is recorded, and the blitz sanity cost and the family month count apply; tech debt and the whale follow the drift rolls; the metrics report the flow |
| GameEngine.ReviewedSanity | hooks/useGameEngine.ts:195-197 | the review either leaves sanity alone or takes 10, and it takes 10 exactly in a review week for a human founder under a blitz investor with growth under 20% |
| GameEngine.PlayWeek | hooks/useGameEngine.ts:52-235 | the week advances by one; leads, churn, MRR, growth, last month's MRR, the family month count, tech debt and the whale are those of WeekArithmetic (the pipeline of OpenWeek); sanity is ReviewedSanity of the opened week; the cash and runway formulas hold; the product thaws; every other field is exactly as OpenWeek left it |
| GameEngine.NextTurn | hooks/useGameEngine.ts:52-266 | a finished game is unchanged; otherwise the week advances, WeekArithmetic holds, cash moves by the weekly formula and runway is cash over net burn (or 99.9); sanity is the reviewed sanity (family +2, blitz -10) floored at 0 and the founder is a machine exactly when already one or that sanity reached 0; the game is over exactly when cash is negative; decision mode ends with no event, runway above 2 and sanity above 30, and otherwise is on exactly when it was on or a critical event, sanity in (0, 20) or a runway under 1.5 months with cash calls for it; every other field (trend and friction countdowns, date, investor, mentor, staff, phase) is exactly as OpenWeek left it |
| GameEngine.SettlingKeepsWeek | hooks/useGameEngine.ts:237-263 | the closing checks keep the week's figures and the opened fields, and floor the reviewed sanity at 0 |
| GameContext.RelationshipDecay | context/GameContext.tsx:167-169 | the family relationship decays by 2 to 5 a week: 3 in Series B, otherwise 5 exactly for a machine and 2 for a human |
| GameContext.WeeklyUpkeep | context/GameContext.tsx:144-179 | week 3 unlocks the side gig and week 6 recruiting, each with a success log; the family relationship decays, floored at 0; a turn log closes the list; no command is closed |
| GameContext.Turn | context/GameContext.tsx:140-180 | the engine runs first and the wrapper second: the side gig unlocks at week 2, recruiting at week 5, and the turn log names the next week; family relationship decays by RelationshipDecay of the state after the engine, so a founder the engine has just made a machine already loses 5 |
| GameContext.IntendedTurn | context/GameContext.tsx:140-180 | with the wrapper's week taken from the engine's result, unlocks coincide with the week-3 and week-6 events, and the log names the current week; family relationship decays as in Turn |
| GameContext.CustomerInterview | context/GameContext.tsx:214-231 | refused below 50,000 cash; otherwise 50,000 buys 5 PMF and 5 sanity, both capped at 100, and 2 craftsmanship |
| GameContext.InterviewKeepsRanges | context/GameContext.tsx:214-231 | an interview never overdraws and keeps PMF and sanity in [0, 100] without lowering them |
| GameContext.AdjustMarketingBudget | context/GameContext.tsx:445 | the budget becomes max(0, budget + amount): never below zero, otherwise moved by the amount; nothing else changes |
| GameContext.ClientWork | context/GameContext.tsx:193-212 | 600,000 cash and 5 debt; the product is frozen; 10 sanity lost, floored at 0; craftsmanship traded for dishonesty; the machine check |
| GameContext.FindEmployee | context/GameContext.tsx:274 | finds the first employee with the id: no earlier employee has it; none exactly when nobody has it |
| GameContext.RemoveById | context/GameContext.tsx:276-279 | keeps every employee without the id as often as before and drops every one with it; an unknown id changes nothing |
| GameContext.RemoveByIdDistributes | context/GameContext.tsx:276-279 | the filter keeps the order: removing from a concatenation is removing from each part |
| GameContext.HireSalary | context/GameContext.tsx:236-238 | a hire costs at least 600,000: a manager 800,000, anyone else 900,000 exactly under a blitz investor and 600,000 otherwise |
| GameContext.HireCulture | context/GameContext.tsx:240-245 | CS staff and managers lean to stability exactly above a 0.3 roll, everyone else exactly above 0.7 |
| GameContext.HireEmployee | context/GameContext.tsx:233-269 | refused below 500,000 cash; otherwise one new report to the CEO, 300,000 paid, and 4 weeks of friction |
| GameContext.HireEffects | context/GameContext.tsx:233-269 | a hire adds one to its role, raises the burn by its salary, and leaves at least 200,000 cash |
| GameContext.FireEmployee | context/GameContext.tsx:271-291 | removes the id; costs 1,000,000 and 15 sanity, floored at 0; adds 10 ruthlessness and 5 loneliness; the machine check |
| GameContext.FireRecordsHistory | context/GameContext.tsx:271-291 | nobody with the id remains; a known id shrinks the staff and records the fired employee with the date; an unknown id keeps staff and history |
| GameContext.ResolveEvent | context/GameContext.tsx:293-323 | no change without an active event or with a foreign choice; otherwise the state is the choice's delta applied with karma added, the event cleared, decision mode kept only for a negative cash effect and a warning logged, and the machine check on the new sanity; nothing else changes |
| GameContext.MentorResolution | context/GameContext.tsx:293-323 | a solvent mentor choice enters Series A with its investor, leaves decision mode, and closes the command that investor forbids |
| GameContext.BaseReward | context/GameContext.tsx:343-348 | a closed deal is worth 10,000 exactly for friends, 50,000 for a startup, 200,000 for an enterprise and 1,500,000 exactly for a whale |
| GameContext.PitchReward | context/GameContext.tsx:341-352 | a loss earns nothing; a win earns the target's reward, cut to a tenth below 30 PMF except for friends and whales |
| GameContext.PitchRewardMonotone | context/GameContext.tsx:341-352 | more PMF never pays less; from 30 PMF a startup deal pays more than a friends deal, and below it less |
| GameContext.CompleteSalesPitch | context/GameContext.tsx:337-367 | MRR grows by the reward and never falls; the mini-game's debt, cash and sanity costs are charged, sanity floored at 0; the machine check |
| GameContext.HandlePrivateAction | context/GameContext.tsx:369-391 | a machine cannot take family time; the weekend costs sanity and brings 5 leads; family time restores sanity and relationship up to 100 |
| GameContext.FamilyTimeRestores | context/GameContext.tsx:369-391 | family time never lowers sanity or relationship, never lifts them past 100, and never raises loneliness |
| GameContext.CanUseCommand | context/GameContext.tsx:408-414 | recruiting and the side gig follow their unlock flags; a product investor forbids sales and a family investor forbids firing |
| GameContext.OnChainVisits | context/GameContext.tsx:417-425 | the cycle check's answer is true exactly when the employee is among the ids visited walking up from the new manager |
| GameContext.WouldCreateCycle | context/GameContext.tsx:417-425 | the walk-up loop answers whether the employee lies on the new manager's chain |
| GameContext.CutChartStaysAcyclic | context/GameContext.tsx:271-291 | cutting reporting lines keeps the org chart free of cycles |
| GameContext.HireKeepsAcyclic | context/GameContext.tsx:233-269 | a hire keeps the org chart acyclic |
| GameContext.FireKeepsAcyclic | context/GameContext.tsx:271-291 | a firing keeps the org chart acyclic |
| GameContext.ResolveKeepsAcyclic | hooks/useScenario.ts:49-60 | resolving any event choice keeps the org chart acyclic; the hire choice appends an engineer who reports to the CEO |
| GameContext.ReassignedChainsEnd | context/GameContext.tsx:417-443 | moving an employee under a manager whose chain avoids it keeps every chain finite |
| GameContext.SetManager | context/GameContext.tsx:437 | the staff list keeps its length and ids; exactly the employees with the given id get the new manager, and everyone else is unchanged |
| GameContext.AssignManager | context/GameContext.tsx:427-443 | no change for self-management, an unknown id or a cycle; in every other case the employee gets the new manager and one info log is added, and nothing else changes; an acyclic chart stays acyclic |
| SalesMinigame.BuildDeck | components/SalesMinigame.tsx:42-80 | 3 to 7 distinct cards of the game's nine, led by the two founder cards; the co-founder's card matches its kind; two cards for sales, one for an engineer, one for CS; exactly 2 + co-founder + 2 for sales + engineer + CS cards, plus the discount card exactly when at most one of co-founder, engineer or CS and no sales member are present |
| SalesMinigame.Negotiation.constructor | components/SalesMinigame.tsx:20-31 | the selection step with 100 resistance, 3 moves and no costs |
| SalesMinigame.Negotiation.StartBattle | components/SalesMinigame.tsx:82-105 | an unoffered target or a closed gate only replaces the log; an open one loads the profile and resets the costs |
| SalesMinigame.Negotiation.PlayCard | components/SalesMinigame.tsx:107-143 | too few moves, or a cash or sanity cost the founder cannot pay, refuses the card; otherwise resistance falls, costs accrue, and the battle is won at 0 resistance or lost with no moves left |
| SalesMinigame.Negotiation.Spend | components/SalesMinigame.tsx:120-142 | resistance falls by the damage, floored at 0; the moves and the accumulated costs change by the card's amounts; the card is logged first |
| SalesMinigame.Report | components/SalesMinigame.tsx:130-142 | the report carries the costs so far plus the card's, and 10 more sanity on a defeat |
| SalesMinigame.DefeatCostsTenSanity | components/SalesMinigame.tsx:130-142 | a defeat costs exactly 10 sanity more than a win, and the same cash |
| SalesMinigame.DeckRiskIsTechDebt | components/SalesMinigame.tsx:42-80 | no deck card carries a churn risk, so the reported and the accumulated debt agree |
| Notifications.LastKept | hooks/useNotificationSystem.ts:101 | the last 20 notes, in order |
| Notifications.AddNotification | hooks/useNotificationSystem.ts:88-103 | the newest note is unread and last, after the 20 most recent old ones; the feed holds 1 to 21 notes; nothing else changes |
| Notifications.ShortFeedKeepsAll | hooks/useNotificationSystem.ts:101 | a feed of 20 or fewer notes only gains the new one |
| Notifications.FullFeedDropsOldest | hooks/useNotificationSystem.ts:101 | a longer feed drops exactly its oldest notes, down to 20 |
| Notifications.UnreadCount | hooks/useNotificationSystem.ts:77-79 | the unread count is at most the feed length, and zero exactly when every note is read |
| Notifications.UnreadAppend | hooks/useNotificationSystem.ts:77-79 | appending a note adds one to the count exactly when the note is unread |
| Notifications.UnreadSuffix | hooks/useNotificationSystem.ts:77-79 | dropping the oldest notes never raises the count |
| Notifications.AddCountsOneUnread | hooks/useNotificationSystem.ts:77-103 | a new note raises the unread count by at most one and leaves at least one unread |
| Notifications.MarkAllAsRead | hooks/useNotificationSystem.ts:81-86 | every note is marked read in place and the unread count becomes 0 |
| Notifications.MarkThenAddLeavesOne | hooks/useNotificationSystem.ts:77-103 | marking all read and then adding one note leaves exactly one unread |
| Notifications.FamilyToneMonotone | hooks/useNotificationSystem.ts:203-207 | a better relationship never gives a colder family tone |
| Notifications.Tick | hooks/useNotificationSystem.ts:184-224 | silent in game over or decision mode; robotic exactly in machine mode; otherwise a family note exactly below the family probability with a positive relationship, a Slack note (urgent exactly when stressed) exactly from there to 0.6 with staff, a social mention exactly from there to 0.75, and silence in the remaining cases |
| Notifications.FamilyToneThresholds | hooks/useNotificationSystem.ts:200-209 | sad below 30, angry below 50, normal below 70, loving from 70 |
| Notifications.ApplyTick | hooks/useNotificationSystem.ts:184-224 | a silent tick changes nothing; otherwise one unread note of the chosen kind is added |
| Ending.Classify | components/EndingScreen.tsx:20-54 | Tyrant King exactly when rich and ruthless; Fraud when rich, dishonest and not ruthless; Dreamer when poor and a craftsman; Saint when poor, no craftsman, kind and not lonely |
| Ending.UnknownIsTheRest | components/EndingScreen.tsx:26-54 | the unnamed ending is exactly the cases no rule matches |
| Ending.ClassifyReadsOnlyTraits | components/EndingScreen.tsx:20-24 | the verdict depends only on wealth and the four karma scores |

## Left out

- Rendering, animation, sound effects and floating texts are not modelled. Neither are the Gemini text service and the typewriter. They produce no game state.
- Flavour text is not modelled: log messages, notification texts, event titles and the texts of `MACHINE_LOGS` and the family and Slack pools. Logs keep their week and kind; notes keep their kind, tone and read flag.
- Ids, timestamps and `advanceDate` are not modelled. The next date is a parameter, and the new employee id is a parameter.
- `Math.random` is replaced by explicit roll parameters. Picks from message pools are not modelled.
- Timers (`setInterval`, `setTimeout`) are not modelled. Each tick or completion is one call.
- GameContext.ClientWork: the turn that client work starts 100 ms later (`setTimeout(() => nextTurn(), 100)`) is not part of it. The caller runs GameContext.Turn next.
- GameContext.Turn: the notifications are not composed into the turn. This covers the two the engine's `nextTurn` raises after its update: a SLACK note on a coin flip when more than 10 leads are waiting, and an ALERT on a 2% roll for a whale outside seed (useGameEngine.ts:268-271). It also covers those the actions queue through `useEffect`.
- Employees keep their id, name, role, salary, hire flag, manager and culture. Their stats (tech, sales, management) and motivation are not modelled: no rule of the core reads them.
- Actions that read the rendered state rather than the updater's `prev` are modelled on one state. This covers the cash guard of hiring and interviews.
- The small setters of the game context are not modelled. They each set a field or bump a counter:
  - `setPricingStrategy`, `chooseCoFounder`, `applyForSubsidy`;
  - `openSocialPost`, `closeSocialPost`, `replyToSocialPost`;
  - `clickGoldenLead` and `resolveIncident`, which enter the turn as `TurnBonuses`.
- The social posts cache and `generateSocialPost` are not modelled. Their content comes from the text service; a social mention is modelled as one unread SOCIAL note.
- Notifications.Tick reads the state it is given. The source's effect does not re-run on a sanity change, so the timer can see an older sanity; that staleness is not modelled.
- SalesMinigame.Negotiation.PlayCard: a further card played during the one second before the completion fires is not modelled. The completion is returned at once.
- SalesMinigame.Report: the tech debt it reports is stated as at least the accumulated debt, not equal to it. The source adds any risk amount there, whatever its type. DeckRiskIsTechDebt shows the two agree for every card a deck can hold.
- GameContext.WouldCreateCycle: requires the walk from the new manager to end. The source's loop never ends on a chart that already has a cycle; from an acyclic chart every walk ends (AcyclicChainsEnd), and every action that changes the staff keeps the chart acyclic: hiring (HireKeepsAcyclic), firing (FireKeepsAcyclic), manager assignment (AssignManager) and event choices (ResolveKeepsAcyclic). A turn leaves the staff unchanged (NextTurn).
- GameEngine.NextTurn: of the pipeline metrics record it states only that it is present and reports the lost leads. Operate states the whole record.
- GameEngine.MonthlyBurn: its own contract states only the lower bound. HireRaisesBurn and RentFollowsPhase relate it to staff and phase.
- Integer widths are not modelled. All arithmetic is in JavaScript doubles, far from their limits here, and is modelled with unbounded `int` and `real`.

## Findings

| source | as written | input that shows it | evidently intended | confidence | as-written member | corrected member |
|---|---|---|---|---|---|---|
| context/GameContext.tsx:140-180 | the wrapper's updater is queued after the engine's and reads the engine's result, so `prev.week + 1` is one week past the week just started | a seed company at week 1 clicks "next turn": the state reaches week 2, yet the side gig unlocks and the turn log names week 3; recruiting likewise unlocks at week 5, before the week-6 recruiting event | the unlocks and the log use the week the engine has just started, so the side gig opens with the week-3 side-gig event and recruiting with the week-6 event | not executed | GameContext.Turn | GameContext.IntendedTurn |
