# WasserstoffCPSP core, modelled in Dafny

WasserstoffCPSP simulates a hydrogen production chain. Agents exchange MQTT messages once per
quarter-hour tick:
- wind power plants and a climate generator produce power readings;
- a power aggregator sums the readings and shares the power between filter plants and hydrogen
  cells;
- filter plants turn water into filtered water;
- distillation plants distil it;
- hydrogen cells turn filtered water into hydrogen;
- three system aggregators publish totals and rolling means;
- a request generator asks for hydrogen once a day.

This project models the decision logic of those agents and proves what each promises. Publishing
a message becomes a returned value.

## Modules

| file | module | what it models |
|---|---|---|
| common.dfy | `Common` | `Option`, sums over sequences of reals, and the running total of a cycle |
| mod_counter.dfy | `ModCounter` | the `COUNT = (COUNT + 1) % LIMIT` counter used by every aggregator and generator |
| ring_stats.dfy | `RingStats` | the 96-slot ring of one simulated day, and its two means: over the positive slots, and over all slots |
| allocation.dfy | `Allocation` | the stable sort by descending priority, and the first-fit, all-or-nothing service of `calculate_supply` |
| plant_table.dfy | `PlantTable` | `PLANT_DATA`, the insertion-ordered dictionary of plants per type, with the KeyError paths of the handlers |
| wind_power_sum.dfy | `WindPowerSum` | the power aggregator's globals as the class `PowerSum` and its handlers |
| power_state_manager.dfy | `PowerStateManager` | the power aggregator's `StateManager`: a power pool and a FIFO request queue |
| plant_state.dfy | `PlantState` | the flag-driven plant state machine as pure transitions |
| filter_state_manager.dfy | `FilterStateManager` | the filter plant's three-flag `StateManager` class |
| hydrogen_cell.dfy | `HydrogenCell` | the hydrogen cell's two-flag `StateManager`, its conversion rules, and its globals as the class `Cell` |
| filter_plant.dfy | `FilterPlant` | the filter plant's conversion, KPI and outage rules, and its globals as the class `Plant` |
| distillation_plant.dfy | `DistillationPlant` | the distillation plant |
| system_sum.dfy | `SystemSum` | the filter, hydrogen-cell and distillation system aggregators as one class `Aggregator`, with one named constructor per agent |
| climate_gen.dfy | `ClimateGen` | the climate generator's interpolation and its `POS` / `COUNT` stepping |
| request_hydrogen_gen.dfy | `RequestHydrogenGen` | the daily hydrogen request |

## Modelling notes

- **Plant tables.** A table entry can lack a key. An entry created by a KPI message has no
  request fields, and one created by a request has no priority. A lookup of a missing key becomes
  the `KeyError` case of `PlantTable.Result`. The all-requests-received loop short-circuits like
  Python's `and`, so it raises only when it reaches such an entry while every earlier entry
  matched.
- **Cleared timestamps.** `send_supply_msg` writes the integer 0 over an entry's timestamp. That
  value never equals a string timestamp, so it is the separate case `Stamp.Cleared`.
- **Shared state-machine logic.** `PlantState` holds the state-machine logic once, with a
  `tickGated` switch. The filter plant's manager waits for the tick. The hydrogen cell's manager
  records the tick without consulting it. In both, a `receive_*` call during `PROCESSING`
  recomputes the state from the flags. So a tick that arrives while a hydrogen cell is processing
  sets it back to `READY_TO_PROCESS`.
- **Flush outcome.** `PlantTable.FlushOf` gives, as one value, what the second half of
  `on_message_request` does to one plant type: the result (`True`, `False` or a `KeyError`), the
  replies sent, the new table and the pool left. `WindPowerSum.PowerSum.Flush` and its helpers are
  proved to produce exactly that value, and the lemmas about `FlushOf` state what it means.
- **Filter system mean.** In src/filter_system_sum/run.py the mean is reassigned inside the
  summing loop. The loop runs over all 96 slots, so the last assignment is the mean of the positive
  slots. `SystemSum.Aggregator.MeanOfPositiveSlots` keeps that loop shape.

## Model

| member | source | states |
|---|---|---|
| ModCounter.Next | src/wind_power_sum/run.py:218 | the counter stays below its limit, counts up by one, and wraps to 0 exactly after the last value |
| ModCounter.NextIsModulo | src/wind_power_sum/run.py:218 | the wrapping step is exactly `(COUNT + 1) % COUNT_POWER_GEN` for every counter kept below the limit |
| ModCounter.FirstIsModulo | src/wind_power_sum/run.py:199 | `COUNT % COUNT_POWER_GEN == 0` on a counter kept below the limit holds exactly at 0, the first reading of a cycle |
| ModCounter.ExactlyOncePerPeriod | src/request_hydrogen_gen/run.py:23-30 | in any `LIMIT` consecutive ticks the counter takes each value exactly once, so the daily request is emitted once per 96 ticks, and the counter returns to where it started |
| RingStats.PositiveCountZero | src/wind_power_sum/run.py:141-147 | the positive count is at most the number of slots, and it is 0 exactly when no slot is positive |
| RingStats.PositiveSumBounds | src/wind_power_sum/run.py:141-143 | when every positive slot lies in [lo, hi], their sum lies between `count` copies of lo and `count` copies of hi |
| RingStats.MeanOfPositivesBetween | src/wind_power_sum/run.py:136-147 | the mean of the positive slots lies between the smallest and the largest bound of those slots |
| RingStats.MeanOfPositivesSign | src/wind_power_sum/run.py:144-147 | the mean is positive when some slot is positive, and 0 when none is |
| RingStats.MeanOfAllBetween | src/hydrogen_cell_sum/run.py:25-30 | the mean over all slots lies within any bounds that hold for every slot |
| Allocation.Insert | src/wind_power_sum/run.py:159-160 | no contract of its own: places a row after every row of at least its priority; its permutation, order and stability facts are the contracts of `InsertPermutes`, `InsertSorted` and `InsertStable`, which `SortPermutes`, `SortOrders` and `SortStable` lift to the sort |
| Allocation.SortByPriority | src/wind_power_sum/run.py:159-160 | no contract of its own: the stable descending sort `result_list.sort(key=get_key, reverse=True)`, by repeated insertion; what it promises is stated by `SortPermutes`, `SortOrders` and `SortStable` |
| Allocation.SortPermutes | src/wind_power_sum/run.py:159-160 | sorting by priority yields a permutation of the rows |
| Allocation.SortOrders | src/wind_power_sum/run.py:159-160 | the sorted rows have non-increasing priority |
| Allocation.SortStable | src/wind_power_sum/run.py:159-160 | rows of equal priority keep their table order, as Python's stable `sort(reverse=True)` does |
| Allocation.InsertKeepsTotal | src/wind_power_sum/run.py:159-160 | inserting a row adds exactly its amount to the total |
| Allocation.SortKeepsTotal | src/wind_power_sum/run.py:159-160 | sorting leaves the total amount of the rows unchanged |
| Allocation.FirstFit | src/wind_power_sum/run.py:162-177 | no contract of its own: the serving loop of `calculate_supply` (`available - e[3] >= 0` grants in full, otherwise `e[3] = 0`); what it promises is stated by `AllOrNothing`, `Conservation` and `RefusedOnlyWhenTooLarge` |
| Allocation.AllOrNothing | src/wind_power_sum/run.py:162-167 | every row is granted in full or set to amount 0, and the list keeps its length |
| Allocation.Conservation | src/wind_power_sum/run.py:164-165 | granted amounts plus what is left equal what was available; from a non-negative pool nothing goes negative and the grants total at most the pool |
| Allocation.RefusedOnlyWhenTooLarge | src/wind_power_sum/run.py:164-167 | a row gets 0 exactly when its amount exceeds what the earlier rows left |
| Allocation.AmountSumNonNegative | src/wind_power_sum/run.py:163 | non-negative requested amounts have a non-negative total |
| Allocation.AmountsNonNegativePermuted | src/wind_power_sum/run.py:159-160 | reordering rows keeps every amount non-negative |
| PlantTable.DecimalString | src/wind_power_sum/run.py:45-46 | `str(j)` is non-empty, and it is one character exactly for j below 10 |
| PlantTable.InitialTable | src/wind_power_sum/run.py:43-79 | the start-up table has one entry per plant, with ids "0" to "n-1" in order, each with the initial fields |
| PlantTable.InitialTableWellFormed | src/wind_power_sum/run.py:43-79 | the start-up ids are distinct, and the keys are the insertion order |
| PlantTable.Put | src/wind_power_sum/run.py:262-263 | assigning to a dict key replaces the entry; a new key is appended to the insertion order and an existing one keeps its place |
| PlantTable.ApplyRequest | src/wind_power_sum/run.py:262-267 | a request creates or updates only its plant's entry; it sets topic, amount, timestamp and a zero supply, and keeps the table well formed |
| PlantTable.ApplyKpi | src/wind_power_sum/run.py:220-235 | a KPI message sets status and ratios, keeps the request, and sets the priority to namount/npower only when npower > 0; other entries are unchanged |
| PlantTable.HydrogenKpiAsWritten | src/wind_power_sum/run.py:237-252 | the hydrogen KPI handler as written, testing the filter table's keys: it raises KeyError exactly when the id is a filter plant but not a hydrogen plant |
| PlantTable.HydrogenKpiWipesRequest | src/wind_power_sum/run.py:241-242 | as written, a KPI for a hydrogen id unknown to the filter table replaces the whole entry and drops its request, which the corrected rule keeps |
| PlantTable.HydrogenKpiRaises | src/wind_power_sum/run.py:241-243 | as written, a KPI for an id the filter table has but the hydrogen table lacks raises KeyError, where the corrected rule creates the entry |
| PlantTable.AllStamped | src/wind_power_sum/run.py:268-270 | the `and` loop over the ids; it can only raise KeyError on a `timestamp` lookup, and only when some entry has no stored request |
| PlantTable.AllStampedMeaning | src/wind_power_sum/run.py:268-270 | the short-circuit loop returns True exactly when every entry so far has a request stamped with the current timestamp |
| PlantTable.AllStampedIffStamped | src/wind_power_sum/run.py:268-271 | a flush is triggered exactly when every entry of the type carries the request's timestamp |
| PlantTable.BuildClaims | src/wind_power_sum/run.py:156-158 | no contract of its own: builds `result_list` in key order; its behaviour is stated by `BuildClaimsFails`, `BuildClaimsErrorSticks` and `BuildClaimsShape` |
| PlantTable.BuildClaimsFails | src/wind_power_sum/run.py:157-158 | the build raises KeyError exactly when some entry lacks its priority or its amount, and the key names that field |
| PlantTable.BuildClaimsErrorSticks | src/wind_power_sum/run.py:157-158 | once building `result_list` hits a missing key, the loop raises that KeyError |
| PlantTable.BuildClaimsShape | src/wind_power_sum/run.py:157-158 | a built `result_list` has one row per entry, in insertion order, carrying the entry's priority, id, amount and reply topic |
| PlantTable.BuildClaimsNonNegative | src/wind_power_sum/run.py:157-158 | stored non-negative amounts give non-negative rows |
| PlantTable.ClearStampsEffect | src/wind_power_sum/run.py:279-286 | answering clears the timestamp of exactly the rows with a reply topic and changes nothing else |
| PlantTable.Replies | src/wind_power_sum/run.py:279-285 | one supply message per served row with a non-empty reply topic (`if e[4] != ""`): as many replies as such rows, each carrying the request timestamp and a non-empty topic |
| PlantTable.RepliesIndexed | src/wind_power_sum/run.py:279-285 | row i with a reply topic gets the reply `(its topic, the request timestamp, its served amount)` at position `TopicCount(rows[..i])`, after the replies of all earlier rows |
| PlantTable.RepliesFromRows | src/wind_power_sum/run.py:279-285 | every reply is the reply to exactly such a row, and an earlier row's reply comes first: with `RepliesIndexed` a one-to-one, order-preserving map between replies and rows with a topic |
| PlantTable.TargetsFirstFit | src/wind_power_sum/run.py:162-177 | allocation does not change which plants get a reply |
| PlantTable.TargetsPermutation | src/wind_power_sum/run.py:159-160 | sorting does not change which plants get a reply |
| PlantTable.TargetsOfBuild | src/wind_power_sum/run.py:157-158 | the plants answered are exactly those whose stored reply topic is non-empty |
| PlantTable.RequestedIgnoresOrder | src/wind_power_sum/run.py:156-174 | what `calculate_supply` adds to the requested sum (every row's amount, refused ones included) is the same in adaptive mode and in table order: the total of the built rows, or 0 when they cannot be built |
| PlantTable.SupplyOf | src/wind_power_sum/run.py:152-178 | no contract of its own: `calculate_supply` on a table (build, order in adaptive mode, serve first-fit); its served rows are characterised by `GrantedKnown`, `ServedRowAllOrNothing`, `OrderedNonNegative` and the allocation lemmas |
| PlantTable.FlushOf | src/wind_power_sum/run.py:268-286 | no contract of its own: the second half of `on_message_request` as a value; `FlushClearsAnswered`, `NoFlushWithoutFreshRequests` and `FlushRepliesAllOrNothing` state what it does, and `PowerSum.Answer` and `PowerSum.Flush` are proved equal to it |
| PlantTable.FlushClearsAnswered | src/wind_power_sum/run.py:268-286 | a flush happens exactly when every entry carries the timestamp and every row can be built; without one nothing changes and nobody is answered; after one the ids stay in place, and exactly the entries whose row has a reply topic have their timestamp cleared |
| PlantTable.NoFlushWithoutFreshRequests | src/wind_power_sum/run.py:268-286 | after a flush that answered some plant, no timestamp triggers another flush until fresh requests arrive |
| PlantTable.ReplyTotalAtMost | src/wind_power_sum/run.py:279-285 | with non-negative amounts, the published amounts total at most the served rows' amounts (rows without a topic are served but not published) |
| PlantTable.ServedRowAllOrNothing | src/wind_power_sum/run.py:157-167 | each served row belongs to a table entry with its reply topic, and carries that entry's full requested amount or 0 |
| PlantTable.FlushRepliesAllOrNothing | src/wind_power_sum/run.py:268-286 | every supply message a flush publishes grants its plant the full stored request or 0, and with non-negative requests and pool the messages total at most the available power |
| WindPowerSum.Segments | src/wind_power_sum/run.py:260 | `str.split` gives at least one part, and no part contains the separator |
| WindPowerSum.JoinSegments | src/wind_power_sum/run.py:260 | joining the parts of a split with the separator gives back the topic |
| WindPowerSum.ShareOut | src/wind_power_sum/run.py:212-213 | shares of the total by two ratios summing to 1 add up to the total, and are non-negative for a non-negative total |
| WindPowerSum.ChargeBalances | src/wind_power_sum/run.py:161-174 | serving `requested` adds it to the two requested sums together and to the served type's sum only; a hydrogen supply changes nothing else; the ratios keep summing to 1 |
| WindPowerSum.RatiosSplitOne | src/wind_power_sum/run.py:168-170 | the recomputed ratios sum to 1, and lie in [0, 1] for non-negative requested sums |
| WindPowerSum.PowerSum.constructor | src/wind_power_sum/run.py:19-97 | the start-up state: counters at 0, a ring of zeros, ratios 0.3 and 0.7, and the initial plant tables |
| WindPowerSum.PowerSum.CalcMean | src/wind_power_sum/run.py:136-147 | the loop leaves the mean of the strictly positive ring slots, or 0 when there are none |
| WindPowerSum.PowerSum.OnMessageAdaptiveMode | src/wind_power_sum/run.py:180-186 | adaptive mode is on exactly for the payloads "true", "1", "I love Python" and "True" |
| WindPowerSum.PowerSum.Accumulate | src/wind_power_sum/run.py:199-205 | a cycle's first reading replaces the total; a later one adds to it, writes one ring slot at `COUNT_TICKS`, and advances that index modulo 96 |
| WindPowerSum.PowerSum.Publish | src/wind_power_sum/run.py:206-214 | the report carries the total, the positive-slot mean and the timestamp; the two available pools split the total exactly by the ratios |
| WindPowerSum.PowerSum.CloseCycle | src/wind_power_sum/run.py:206-218 | on a cycle's last reading the report is published, the pools are the total split by the ratios, and the cycle restarts; on any other reading mean and pools are untouched; the counter advances modulo the number of generators |
| WindPowerSum.PowerSum.OnMessagePower | src/wind_power_sum/run.py:189-218 | the counter advances modulo the number of generators; the first reading of a cycle replaces the total and leaves the ring alone, every later one adds to the total, writes it into the ring's current slot, leaves the other slots unchanged and advances the slot index modulo 96; a report is produced exactly on a cycle's last reading, with the sum of that cycle's readings; otherwise mean and pools are unchanged; ratios keep summing to 1 |
| WindPowerSum.PowerSum.OnMessageFilterKpi | src/wind_power_sum/run.py:220-235 | only the filter table changes, by the KPI rule |
| WindPowerSum.PowerSum.OnMessageHydrogenKpi | src/wind_power_sum/run.py:237-252 | only the hydrogen table changes, by the same KPI rule as the filter table, which checks the hydrogen table's own keys |
| WindPowerSum.PowerSum.AllRequestsReceived | src/wind_power_sum/run.py:268-270 | the loop returns True exactly when every entry of the type is stamped with the timestamp, and raises on the first unstamped entry reached |
| WindPowerSum.PowerSum.ServeFirstFit | src/wind_power_sum/run.py:162-167 | the loop over `result_list` grants and refuses as first-fit does, and adds up every requested amount |
| WindPowerSum.PowerSum.CollectClaims | src/wind_power_sum/run.py:156-158 | the loop builds `result_list` in insertion order or raises the first missing key |
| WindPowerSum.PowerSum.ServeFilter | src/wind_power_sum/run.py:161-170 | filter rows are served first-fit from the filter pool; the requested sum grows by their total; the ratios are recomputed only when the sums are positive, so the sums and ratios become `Charge` of the old ones; non-negative inputs keep pools and ratios in range |
| WindPowerSum.PowerSum.Rebalance | src/wind_power_sum/run.py:168-170 | when the requested sums total more than 0 each ratio becomes its type's share of that total, otherwise both stay; they keep summing to 1, and stay in [0, 1] for non-negative sums |
| WindPowerSum.PowerSum.ServeHydrogen | src/wind_power_sum/run.py:171-177 | hydrogen rows are served first-fit from the hydrogen pool; the hydrogen requested sum grows by their total and the ratios stay as they were (`Charge` of the old sums and ratios) |
| WindPowerSum.PowerSum.CalculateSupply | src/wind_power_sum/run.py:152-178 | a KeyError leaves pools, sums and ratios unchanged; otherwise the rows, sorted only in adaptive mode, are served first-fit from the type's pool, the served type's requested sum grows by the total of all its rows (`Requested`), after a filter supply the ratios become each type's share of the two sums while those total more than 0 (`Charge`), and the other type's pool is untouched |
| WindPowerSum.PowerSum.AnswerRows | src/wind_power_sum/run.py:279-286 | answering returns the replies and clears the answered timestamps |
| WindPowerSum.PowerSum.SendSupplyMsg | src/wind_power_sum/run.py:277-286 | only the answered type's table changes, and it changes by clearing the answered timestamps |
| WindPowerSum.PowerSum.StoreRequest | src/wind_power_sum/run.py:258-267 | a request updates only its type's table, and non-negative amounts stay non-negative |
| WindPowerSum.PowerSum.Deliver | src/wind_power_sum/run.py:272-286 | once the supply is computed, a KeyError is passed on with no reply; otherwise every served row with a topic is answered and its timestamp cleared, as the flush outcome describes |
| WindPowerSum.PowerSum.Answer | src/wind_power_sum/run.py:271-273 | with every entry stamped, the flush outcome, replies, table and pool are those of `FlushOf`; after a flush the requested sums and ratios are charged with the table's requested total, after a KeyError they are unchanged (`Settle`); the other type's table and pool are untouched |
| WindPowerSum.PowerSum.Flush | src/wind_power_sum/run.py:268-273 | no flush unless every entry is stamped; without a flush or on a KeyError the table, pool, requested sums and ratios are unchanged; a flush replies to every row with a topic, clears those timestamps and charges the sums and ratios with the table's requested total |
| WindPowerSum.PowerSum.OnMessageRequest | src/wind_power_sum/run.py:254-273 | the request is stored in the table chosen by the fourth topic segment; a flush, with its replies, happens exactly when every entry carries the request's timestamp; the requested sums and ratios change only on a flush, by the requested total of the updated table |
| PowerStateManager.Ration | src/wind_power_sum/statemanager.py:39-41 | one reply per queued request |
| PowerStateManager.RationPrefix | src/wind_power_sum/statemanager.py:39-44 | the replies to a queue's first k requests do not depend on the requests after them |
| PowerStateManager.ReplyWithinDemand | src/wind_power_sum/statemanager.py:39-44 | each reply echoes its request's topic and timestamp, and never exceeds its demand |
| PowerStateManager.RationTotal | src/wind_power_sum/statemanager.py:39-41 | for non-negative demands and pool, the total supplied is min(total demand, pool), and the rest of the pool is what remains, never negative |
| PowerStateManager.ShortfallDrains | src/wind_power_sum/statemanager.py:39-41 | once a request gets less than its demand, the pool is empty and every later request gets 0 |
| PowerStateManager.AddPowerStep | src/wind_power_sum/statemanager.py:21-28 | within a cycle (count below `count_gen`) the `count % count_gen == 0` test picks exactly the first reading, which replaces the pool; later readings add to it |
| PowerStateManager.PartialCycle | src/wind_power_sum/statemanager.py:21-28 | within one cycle started at count 0, the pool is the sum of the additions so far |
| PowerStateManager.CycleTotal | src/wind_power_sum/statemanager.py:21-28 | after `count_gen` additions from count 0, the pool is their sum |
| PowerStateManager.StateManager.constructor | src/wind_power_sum/statemanager.py:6-12 | a new manager has count 0, an empty pool and an empty queue |
| PowerStateManager.StateManager.ResetTick | src/wind_power_sum/statemanager.py:14-19 | a reset leaves an empty pool, count 0 and an empty queue |
| PowerStateManager.StateManager.AddPower | src/wind_power_sum/statemanager.py:21-28 | a cycle's first addition replaces the pool, later ones add to it, and the count grows by 1 |
| PowerStateManager.StateManager.AddRequest | src/wind_power_sum/statemanager.py:30-33 | the request is appended at the end, and earlier entries are unchanged |
| PowerStateManager.StateManager.ProcessRequests | src/wind_power_sum/statemanager.py:35-44 | the loop answers the queue in FIFO order as the rationing rule does, and leaves what remains in the pool; the queue and count are untouched |
| PlantState.PhaseOf | src/filter_plant/statemanager.py:29-39 | `_update_state` never yields PROCESSING or DONE, and yields READY_TO_PROCESS exactly when power, dependency and (when gated) tick are all set |
| PlantState.Receive | src/filter_plant/statemanager.py:14-39 | every `receive_*` leaves a consistent state that is not PROCESSING: the phase is the one the flags call for |
| PlantState.Start | src/filter_plant/statemanager.py:44-49 | `start_processing` keeps the flags and changes the state exactly when it is READY_TO_PROCESS |
| PlantState.Finish | src/filter_plant/statemanager.py:51-62 | `complete_processing` never leaves PROCESSING behind, and either changes nothing or returns to the initial state |
| PlantState.PhaseOfCases | src/filter_plant/statemanager.py:29-39 | the state follows from the flags alone: all required flags set gives READY_TO_PROCESS; power and dependency without the tick gives WAITING_FOR_TICK; power alone gives WAITING_FOR_DEPENDENCY; no power gives WAITING_FOR_POWER |
| PlantState.StepsStayConsistent | src/filter_plant/statemanager.py:14-62 | every receive, start and completion keeps the state consistent with the flags, PROCESSING aside |
| PlantState.ReceiveIdempotent | src/filter_plant/statemanager.py:14-27 | receiving a signal twice is the same as receiving it once |
| PlantState.ReceiveCommutes | src/filter_plant/statemanager.py:14-39 | two signals received in either order give the same flags and state |
| PlantState.ReceiveAllFlags | src/filter_plant/statemanager.py:14-39 | after a sequence of signals the flags are the set of signals received, and the state follows from them |
| PlantState.ReceiveOrderIrrelevant | src/filter_plant/statemanager.py:14-39 | any two orders of the same signals end in the same flags and state |
| PlantState.StartGuarded | src/filter_plant/statemanager.py:44-49 | a start succeeds only from READY_TO_PROCESS; otherwise it changes nothing; a second start fails |
| PlantState.FinishResets | src/filter_plant/statemanager.py:51-62 | completion after a successful start ends in WAITING_FOR_POWER with every flag clear; anywhere else it does nothing; DONE is never left visible |
| PlantState.ReceiveDuringProcessingReopens | src/filter_plant/statemanager.py:14-39 | a receive during PROCESSING overwrites it with READY_TO_PROCESS, so processing can start again |
| PlantState.AllSignalsMakeReady | src/filter_plant/statemanager.py:29-39 | from the initial state, receiving every required signal makes the plant ready to start |
| PlantState.UngatedTickKeepsPhase | src/hydrogen_cell/run.py:71-83 | outside PROCESSING, the hydrogen cell's tick sets its flag and leaves the state as it was |
| FilterStateManager.StateManager.constructor | src/filter_plant/statemanager.py:6-12 | a new manager waits for power with every flag clear |
| FilterStateManager.StateManager.UpdateState | src/filter_plant/statemanager.py:29-39 | the state is recomputed from the three flags |
| FilterStateManager.StateManager.ReceivePower | src/filter_plant/statemanager.py:14-17 | the power flag is set and the state follows the flags |
| FilterStateManager.StateManager.ReceiveDependency | src/filter_plant/statemanager.py:19-22 | the dependency flag is set and the state follows the flags |
| FilterStateManager.StateManager.ReceiveTick | src/filter_plant/statemanager.py:24-27 | the tick flag is set and the state follows the flags |
| FilterStateManager.StateManager.IsReadyToProcess | src/filter_plant/statemanager.py:41-42 | ready exactly when all three flags are set and processing has not started |
| FilterStateManager.StateManager.StartProcessing | src/filter_plant/statemanager.py:44-49 | returns True and enters PROCESSING exactly from READY_TO_PROCESS; otherwise returns False and changes nothing |
| FilterStateManager.StateManager.ResetStateForNextTick | src/filter_plant/statemanager.py:57-62 | back to the initial state |
| FilterStateManager.StateManager.CompleteProcessing | src/filter_plant/statemanager.py:51-55 | ends processing with a full reset, and is a no-op outside PROCESSING |
| HydrogenCell.StateManager.constructor | src/hydrogen_cell/run.py:53-59 | a new manager waits for power with every flag clear |
| HydrogenCell.StateManager.UpdateState | src/hydrogen_cell/run.py:76-83 | the state is recomputed from power and dependency only |
| HydrogenCell.StateManager.ReceivePower | src/hydrogen_cell/run.py:61-64 | the power flag is set and the state follows the two flags |
| HydrogenCell.StateManager.ReceiveDependency | src/hydrogen_cell/run.py:66-69 | the dependency flag is set and the state follows the two flags |
| HydrogenCell.StateManager.ReceiveTick | src/hydrogen_cell/run.py:71-74 | the tick flag is set; outside PROCESSING the state is unchanged |
| HydrogenCell.StateManager.IsReadyToProcess | src/hydrogen_cell/run.py:85-86 | ready exactly when power and dependency were received and processing has not started |
| HydrogenCell.StateManager.StartProcessing | src/hydrogen_cell/run.py:88-93 | the same guard as the filter version: only READY_TO_PROCESS starts |
| HydrogenCell.StateManager.ResetStateForNextTick | src/hydrogen_cell/run.py:101-106 | back to the initial state |
| HydrogenCell.StateManager.CompleteProcessing | src/hydrogen_cell/run.py:95-99 | the same full reset as the filter version, and a no-op outside PROCESSING |
| HydrogenCell.FilteredWaterDemand | src/hydrogen_cell/run.py:209-217 | for non-negative supplied power and plan, the filtered-water demand lies in [0, planned water] |
| HydrogenCell.WaterDemandWithinPlan | src/hydrogen_cell/run.py:209-217 | with a positive planned power, the water requested for power >= 0 lies in [0, planned water] and grows with the power |
| HydrogenCell.Produce | src/hydrogen_cell/run.py:219-227 | the hydrogen produced is the smaller of the water supplied and the planned water, so it never exceeds the plan |
| HydrogenCell.Cell.constructor | src/hydrogen_cell/run.py:16-45 | the planned values start at the nominal ones; `NOMINAL_PERFORMANCE` is hydrogen per unit of power |
| HydrogenCell.Cell.CalculateKpis | src/hydrogen_cell/run.py:229-237 | efficiency, production and current performance are the hydrogen produced per unit of power, of water and of nominal supply; the result is False |
| HydrogenCell.Cell.CalculatePlannedDemand | src/hydrogen_cell/run.py:239-244 | the planned water is the planned hydrogen times the losses, and the planned power is the nominal performance times that water |
| HydrogenCell.Cell.OnMessagePlan | src/hydrogen_cell/run.py:173-180 | a plan sets the planned hydrogen and recomputes both planned demands |
| HydrogenCell.Cell.OnMessageTick | src/hydrogen_cell/run.py:141-147 | the tick's timestamp is stored, and the planned power is requested with it |
| HydrogenCell.Cell.OnMessagePowerReceived | src/hydrogen_cell/run.py:151-169 | the supply is stored; the water requested is the full plan when the power covers it, and otherwise within the plan |
| HydrogenCell.Cell.OnMessageWaterReceived | src/hydrogen_cell/run.py:118-137 | production is capped by the plan; whenever the water falls short of the plan, PRODUCTION is exactly 1; supply and KPIs carry the last stored timestamp (of the tick or of the power supply message, run.py:164) |
| FilterPlant.WaterDemand | src/filter_plant/run.py:84-93 | for non-negative supplied power and plan, the water demand lies in [0, planned water] |
| FilterPlant.WaterDemandWithinPlan | src/filter_plant/run.py:84-93 | for power >= 0 the water requested lies in [0, planned water] and grows with the power |
| FilterPlant.StatusOf | src/filter_plant/run.py:145-153 | the status is one of the four strings, and is "online" exactly when there is no failure, power and water were received |
| FilterPlant.StatusPriority | src/filter_plant/run.py:145-153 | the status is "offline" exactly in failure; otherwise "power not received" when power is missing; otherwise "ressource not received" when water is missing; otherwise "online" |
| FilterPlant.Timeout | src/filter_plant/run.py:191 | `int(rng*100)` for rng in [0, 1) lies in [0, 99] and is the floor of rng*100 |
| FilterPlant.Filtered | src/filter_plant/run.py:103-118 | the output is the planned supply when the water covers the plan; on a shortfall, output times losses times nominal supply equals water times nominal water demand |
| FilterPlant.NextRisk | src/filter_plant/run.py:162-171 | the risk is kept during a failure, rises one 0.005 step on overproduction, otherwise falls one step while above the baseline and is kept at or below it |
| FilterPlant.FailureStep | src/filter_plant/run.py:174-192 | `failure_check`: a failing plant counts up while below its timeout; a recovery resets the count and the risk to the baseline; a new failure starts its count at 0 with a timeout of at most 99 and keeps the risk; a working plant that does not fail is unchanged |
| FilterPlant.FailureLasts | src/filter_plant/run.py:177-180 | while the count has not reached the timeout, the failure persists whatever is drawn, and the count grows by one per check |
| FilterPlant.FailureClears | src/filter_plant/run.py:177-184 | the check after the count reaches the timeout clears the failure, and resets the count to 0 and the risk to the baseline |
| FilterPlant.FailureDuration | src/filter_plant/run.py:186-192 | a failure entered with draw rng lasts for `int(rng*100)` further checks and clears on the next one |
| FilterPlant.Plant.constructor | src/filter_plant/run.py:32-55 | the planned values start at the nominal ones, both outage flags are set, and there is no failure, with the risk at the baseline |
| FilterPlant.Plant.WaterDemandOnSuppliedPower | src/filter_plant/run.py:84-101 | full planned water when the power covers the plan; 0 when the plan is not positive; otherwise within the plan; the power flag clears exactly when power arrived or none was planned, and otherwise is unchanged |
| FilterPlant.Plant.ProduceOnSuppliedWater | src/filter_plant/run.py:103-118 | the output is `Filtered` of the water supplied: the planned supply when the water covers the plan; otherwise the water converted at the nominal ratio and divided by the losses; the water flag follows the same rule as the power flag |
| FilterPlant.Plant.CalculateKpis | src/filter_plant/run.py:120-153 | efficiency and production are the output per unit of power and of water, 0 when those are 0; overproduction holds exactly when performance exceeds 1; the status follows the priority order |
| FilterPlant.Plant.CalculateDemand | src/filter_plant/run.py:155-160 | the planned water scales the planned supply by the nominal-to-maximal water ratio and the losses; the planned power scales the nominal power by the planned share of the nominal supply |
| FilterPlant.Plant.CalculateOutageRisk | src/filter_plant/run.py:162-171 | the new risk is `NextRisk` of the old one: no change in failure; one 0.005 step up in overproduction; one step down only while above the baseline; the risk stays the baseline plus whole steps |
| FilterPlant.Plant.FailureCheck | src/filter_plant/run.py:174-192 | one step of the failure timer, and the risk stays the baseline plus whole steps |
| FilterPlant.Plant.OnMessageTick | src/filter_plant/run.py:194-209 | the timestamp is stored, both outage flags are set again, and the failure timer advances |
| FilterPlant.Plant.OnMessagePowerReceived | src/filter_plant/run.py:211-227 | the supply is stored, and the water it can use is requested with the last tick's timestamp |
| FilterPlant.Plant.OnMessageWaterReceived | src/filter_plant/run.py:229-260 | the output is `Filtered` of the delivery (the planned supply when the water covers the plan, otherwise the water at the nominal ratio divided by the losses); supply and KPIs carry the last tick's timestamp; efficiency and production are the output per power and per water (0 without input), performance is the output per nominal supply, overproduction means performance above 1; the status follows the fault flags; the new risk is `NextRisk` of the old one (kept during a failure, one step up on overproduction, otherwise one step down while above the baseline) and stays on its grid |
| FilterPlant.Plant.OnMessageFilteredWaterRequest | src/filter_plant/run.py:262-271 | the requested supply is planned, and the power that supply needs is requested |
| DistillationPlant.Distill | src/distillation_plant/run.py:36-49 | a delivery below the demand yields less than the demand, and the output is always either the delivery or the maximal supply |
| DistillationPlant.DistillPiecewise | src/distillation_plant/run.py:45-49 | below the demand the output is the water delivered; from the demand on it is the fixed maximal supply |
| DistillationPlant.DistillMonotone | src/distillation_plant/run.py:45-49 | when the maximal supply is at least the demand, more water delivered never yields less distilled water |
| DistillationPlant.DistillDropsAtDemand | src/distillation_plant/run.py:45-49 | when the maximal supply is below the demand, the output drops where the delivery reaches the demand: the rule is not monotone then |
| DistillationPlant.Plant.constructor | src/distillation_plant/run.py:14-26 | the plant starts without power |
| DistillationPlant.Plant.DistillWater | src/distillation_plant/run.py:36-49 | the output is the delivery or the maximal supply, chosen by the demand alone |
| DistillationPlant.Plant.OnMessageWaterReceived | src/distillation_plant/run.py:51-71 | the distilled supply is published with the delivery's own timestamp |
| DistillationPlant.Plant.OnMessageTick | src/distillation_plant/run.py:73-101 | every tick requests the fixed water and power demands, echoing the tick verbatim |
| DistillationPlant.Plant.OnMessagePowerReceived | src/distillation_plant/run.py:103-121 | power counts as available exactly when the supply covers the demand |
| DistillationPlant.OutputIgnoresPower | src/distillation_plant/run.py:41-49 | plants with and without power distil every delivery alike |
| SystemSum.Aggregator.FilterSystems | src/filter_system_sum/run.py:18-33 | counters at 0 and a ring of 96 zeros, for the configured number of filter systems |
| SystemSum.Aggregator.HydrogenCells | src/hydrogen_cell_sum/run.py:11-23 | counters at 0 and a ring of 96 zeros, for ten cells |
| SystemSum.Aggregator.DistillationPlants | src/distillation_system_sum/run.py:11-24 | counters at 0 and a ring of 96 zeros, for ten plants |
| SystemSum.Aggregator.MeanOfPositiveSlots | src/filter_system_sum/run.py:35-46 | the loop, which reassigns the mean on every pass, leaves the mean of the positive slots, or 0 |
| SystemSum.Aggregator.MeanOfAllSlots | src/hydrogen_cell_sum/run.py:25-30 | the loop leaves the sum of all 96 slots divided by 96; src/distillation_system_sum/run.py:26-31 is the same loop |
| SystemSum.Aggregator.CalcMean | src/filter_system_sum/run.py:35-46 | each agent's own mean rule: positive slots for filter systems, all slots for the other two |
| SystemSum.Aggregator.Accumulate | src/filter_system_sum/run.py:58-64 | the first value of a cycle replaces the total; each later one adds to it, writes exactly one ring slot, refreshes the mean, and advances the index modulo 96 |
| SystemSum.Aggregator.OnMessage | src/filter_system_sum/run.py:49-70 | `COUNT` stays in [0, N) and `COUNT_TICKS` in [0, 96); a report is published exactly when N > 1 and the value ends a cycle, carrying the sum of that cycle's N values and the payload's timestamp; with N = 1 nothing is published; src/hydrogen_cell_sum/run.py:33-54 and src/distillation_system_sum/run.py:34-55 run the same cycle with N = 10 |
| Common.RunningTotal | src/filter_system_sum/run.py:58-61 | a total replaced on the first value and added to afterwards is the sum of the cycle's values |
| ClimateGen.Alpha | src/climate_gen_hamburg/run.py:74 | alpha is one of 0, 1/4, 1/2 and 3/4, and it is 0 exactly on the first tick of a group of four |
| ClimateGen.Interpolate | src/climate_gen_hamburg/run.py:75-77 | alpha 0 gives the current sample and alpha 1 the next one |
| ClimateGen.InterpolateBetween | src/climate_gen_hamburg/run.py:75-77 | each published value lies between the two samples, and it is the first sample when alpha is 0 |
| ClimateGen.Step | src/climate_gen_hamburg/run.py:82-85 | `POS` stays within the series; `COUNT` advances modulo 4, and `POS` moves only when `COUNT` wraps to 0 |
| ClimateGen.TicksAdvance | src/climate_gen_hamburg/run.py:82-85 | after n ticks `POS` has advanced once per completed group of four, wrapping at the series length, and `COUNT` is the remainder |
| ClimateGen.Generator.constructor | src/climate_gen_hamburg/run.py:43-48 | three series of one length, with `POS` and `COUNT` at 0 |
| ClimateGen.Generator.OnMessageTick | src/climate_gen_hamburg/run.py:56-85 | publishes the three series interpolated at alpha with the tick verbatim; `COUNT` stays in [0, 4) and `POS` in [0, LENGTH); `POS` moves by one exactly when `COUNT` wraps |
| RequestHydrogenGen.DrawBounds | src/request_hydrogen_gen/run.py:16-24 | the draw's bounds are int(430/1.25) = 344 and int(430*1.25) = 537 |
| RequestHydrogenGen.Generator.constructor | src/request_hydrogen_gen/run.py:13-14 | the counter starts at 0 |
| RequestHydrogenGen.Generator.OnMessageTick | src/request_hydrogen_gen/run.py:20-30 | a request is emitted exactly on ticks that find `COUNT` at 0, with an amount in [344, 537] and the tick verbatim; `COUNT` stays in [0, 96) |

## Findings

| source | as written | input that shows it | evidently intended | confidence | as-written member | corrected member |
|---|---|---|---|---|---|---|
| src/wind_power_sum/run.py:241 | `on_message_hydrogen_kpi` tests whether the plant id is a key of the filter table before touching the hydrogen table | a hydrogen KPI for id "0" while the filter table is empty drops the stored request of hydrogen plant "0"; a KPI for id "5" when the filter table has "5" and the hydrogen table does not raises KeyError | test the hydrogen table's own keys, as `on_message_filter_kpi` does for the filter table | high, not executed | PlantTable.HydrogenKpiAsWritten | WindPowerSum.PowerSum.OnMessageHydrogenKpi |

## Left out

- MQTT transport, topic wiring and every `main()`: each handler returns the messages it would publish.
- JSON encoding and decoding: payload fields become typed parameters.
- Environment loading: constants become constructor parameters. A division at module load becomes a constructor precondition.
- Allocation.Insert, Allocation.SortByPriority, Allocation.FirstFit, PlantTable.BuildClaims, PlantTable.SupplyOf, PlantTable.FlushOf: carry no `ensures` of their own; every property of them is a separate lemma, so that the flush methods that call them stay cheap to verify.
- Python's `round(x, 2)` and `round(x, 4)`: the model computes with exact reals, so every stated equality holds up to that rounding.
- Floating-point drift is not modelled. This includes the repeated `+= 0.005` of the outage risk, which the model keeps exactly on its grid.
- Locks in both state managers: they only make each method atomic, and the methods are modelled as sequential steps.
- `random.random()` and `randint` become the parameters `rng` and `draw`, with their ranges as preconditions.
- The `TEST` publishes, `on_message_debug_mode` and the unused `WEIGHTS` of the power aggregator are not modelled.
- PowerStateManager.StateManager.ProcessRequests: src/wind_power_sum/statemanager.py never imports `json`, so the publish at line 43 would raise; the model returns the replies as if the import were present.
- PowerStateManager.StateManager.AddPower: requires `count_gen > 0`, where Python would raise ZeroDivisionError.
- WindPowerSum.PowerSum.OnMessageRequest: requires at least four `/`-separated segments in the reply topic, where Python would raise IndexError.
- WindPowerSum.PowerSum.constructor: requires at least one generator, where Python's `COUNT % 0` would raise.
- SystemSum.Aggregator.FilterSystems: requires at least one filter system, for the same reason.
- HydrogenCell.Cell.CalculateKpis: requires non-zero power, water and nominal supply, where Python would raise ZeroDivisionError.
- HydrogenCell.Cell.OnMessageWaterReceived: carries the same preconditions as `CalculateKpis`.
- HydrogenCell.Cell.OnMessagePowerReceived: requires a non-zero planned power when the supply falls below it, where Python would divide by zero.
- HydrogenCell.Cell.constructor: requires a non-zero nominal power demand, because `NOMINAL_PERFORMANCE` divides by it at load.
- FilterPlant.Plant.constructor: requires a non-zero nominal filtered supply, for the same reason.
- FilterPlant.Plant.ProduceOnSuppliedWater, FilterPlant.Plant.OnMessageWaterReceived: require non-zero losses when the water falls short, where Python would divide by zero.
- FilterPlant.Plant.CalculateDemand, FilterPlant.Plant.OnMessageFilteredWaterRequest: require a non-zero maximal water supply, where Python would divide by zero.
- WindPowerSum.PowerSum.ServeFirstFit: builds the served rows as a new sequence instead of writing `e[3] = 0` into `result_list` in place. The list is local to `calculate_supply`, so no one else sees the difference.
- The hydrogen cell's `POWER_AVAILABLE`, `enough_power` and `not_enough_power` are never called. Its state-manager calls are commented out, and `dependencies_met` is never read. The managers are modelled as classes of their own.
- `TIMESTAMP` starts as the integer 0 in the filter plant and the hydrogen cell. It is modelled as the string "0", which matters only before the first tick.
- `MEAN_HYDROGEN` in src/hydrogen_cell_sum/run.py is unset until the first `calc_mean`. It starts at 0 in the model, and it is never published before being set.
- ClimateGen.Generator.constructor: requires the three series non-empty, where Python would raise on empty data.
- The climate generator's meteostat fetch and its air-density formula are left out. The three series are constructor parameters.
- The distillation plant's outage message is only printed, so it has no counterpart.
- src/tick_gen/run.py, src/water_pipe/run.py and the wind power plants are not part of this model.
