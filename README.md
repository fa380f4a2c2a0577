# Solana pre-pump scanner: a Dafny model of the decision core

This project models the decision logic of a scanner for newly listed Solana
trading pairs (`pump_solana_copia2.py`). Each cycle dedupes the pairs the
search returns, rejects likely scams, scores the rest with a weighted
"pre-pump" heuristic, ranks them, remembers the top signals, and adjusts the
weights by how earlier signals turned out. All quantities are Dafny `real`s.
Pair fields hold the value the source reads with `float(x or 0)`, so a missing
field is 0.

Modules, one file each:

- `Common` (`common.dfy`): `Option` and `Min`.
- `Pairs` (`pairs.dfy`): the pair snapshot and "has a non-empty address".
- `Dedupe` (`dedupe.dfy`): `dedupe` as a loop with a `seen` set. It is proved against a specification function and an independent "first occurrences" definition.
- `ScamFilter` (`scam_filter.dfy`): `is_not_scam` and its thresholds.
- `Scoring` (`scoring.dfy`): `pre_pump_signal`, `smart_money_boost` and `ai_score`. It also holds the `AI_WEIGHTS` dictionary, as class `Weights` with three mutable fields.
- `Ranker` (`ranker.dfy`): `rank_with_ai` as a loop building `scored`, then a sort, then a cut to 10. Python's stable `list.sort(reverse=True)` is modelled by the insertion sort `SortByScore`. That sort is proved to be the one and only stable descending sort.
- `SignalMemory` (`signal_memory.dfy`): the memory file as class `MemoryStore`, with `save_memory`, `register_signal` and the cycle's loop that registers every ranked pair.
- `WeightLearner` (`weight_learner.dfy`): `auto_learn` as a loop that updates a `Weights` object in place. The price lookup is a function parameter and the clock is a parameter `now`. The loop is proved against the function `Learn`. `Learn` then has a closed form: the weights are multiplied by a power of each factor, one per rise and one per non-rise.

Behaviour of the code that a reader might not expect, and that the model follows:

- The code never reads `weights.json` back. Every run starts from weights 1.0, so `Weights` has only that constructor.
- A memory entry at least 3600 s old whose stored price is 0 and whose token still has a non-zero current price makes the change computation divide by zero (line 151). Nothing catches that error, so it ends the pass and the scanner loop. `Learn` and `AutoLearn` return `Crashed` there. The in-place updates already made to the weights stay applied. `LearnCrashesIff` states when this happens.
- The ranker's "fallback" (return all when fewer than 10 pairs) is the same as cutting to the first `min(n, 10)`. `RankWithAi` states that length.
- The learner keeps no record of which entries it has already judged. An entry judged once is judged again on every later cycle until it is evicted, the same way while its current price is unchanged (`JudgedAgainLater`, `LaterPassJudgesAgain`). With the same clock and the same prices, and no stored price of 0, a second pass applies exactly the same updates again (`LearnTwiceCompounds`).

## Model

| member | source | states |
|---|---|---|
| Dedupe.Dedupe | pump_solana_copia2.py:50-61 | The loop returns exactly the first pair seen for each non-empty address, in input order. No two output pairs share an address, and every output pair has one. Every input address is kept. The output is a subsequence of the input. |
| Dedupe.DedupedIsFirstOccurrences | pump_solana_copia2.py:50-61 | Deduplication equals the independent definition: keep position i iff its address is present and no earlier position has the same address. |
| Dedupe.DedupedUnique | pump_solana_copia2.py:55-58 | The output never holds two pairs with the same address, nor a pair with a missing or empty address. |
| Dedupe.DedupedAddresses | pump_solana_copia2.py:50-61 | The set of non-empty addresses is the same before and after: only duplicates and address-less pairs are dropped. |
| Dedupe.DedupedSubsequence | pump_solana_copia2.py:54-59 | The output is a subsequence of the input: it is made only of input pairs, in their input order. |
| Dedupe.DedupedFixpoint | pump_solana_copia2.py:50-61 | A sequence whose addresses are present and distinct passes through unchanged. |
| Dedupe.DedupedIdempotent | pump_solana_copia2.py:50-61 | Deduplicating the output again changes nothing. |
| ScamFilter.IsNotScam | pump_solana_copia2.py:64-76 | Passes iff liquidity >= 8000, fdv <= 50,000,000, volume >= 15000 and volume <= 50 x liquidity (thresholds from lines 15-17). |
| ScamFilter.MissingFieldsRejected | pump_solana_copia2.py:66-72 | A missing liquidity or volume field (read as 0) is rejected: the filter fails safe. |
| ScamFilter.BoundaryPasses | pump_solana_copia2.py:70-72 | The thresholds are inclusive: liquidity 8000, fdv 50,000,000 and volume 15000 pass. |
| ScamFilter.JustOutsideFails | pump_solana_copia2.py:70-73 | Liquidity 7999 fails. Volume at 51 x positive liquidity fails. |
| ScamFilter.PassingIsMonotoneInLiquidity | pump_solana_copia2.py:70-73 | Raising liquidity never turns a passing pair into a failing one. |
| Scoring.Weights.constructor | pump_solana_copia2.py:22-26 | The weight dictionary starts with prepump, momentum and smart_money all at 1.0. |
| Scoring.PrePumpSignal | pump_solana_copia2.py:79-90 | Points are in {0,2,3,4,5,7}, so within 0..7. The total is odd iff 1 < change_5m < 5 (+3). After removing that +3: 4 iff both the liquidity band (20000 < liquidity < 200000) and the volume surge (liquidity non-zero and volume_24h/288 > 0.05 x liquidity) hold, 2 iff exactly one holds, 0 iff neither holds. |
| Scoring.SmartMoneyBoost | pump_solana_copia2.py:92-98 | The boost is in {0,2,3}. It is 3 iff buys > 100 and buys > 2 x sells. It is 2 iff that fails and buys > 50. It is 0 iff buys <= 50. |
| Scoring.SmartMoneyMonotone | pump_solana_copia2.py:96-98 | More buys or fewer sells never lower the boost. |
| Scoring.AiScore | pump_solana_copia2.py:100-106 | The score is pre_pump x w_prepump + change_5m x w_momentum + boost x w_smart_money. With positive weights it lies between change_5m x w_momentum and that plus 7 x w_prepump + 3 x w_smart_money. |
| Scoring.ScalingKeepsOrder | pump_solana_copia2.py:100-106 | Multiplying all three weights by the same c > 0 never changes which of two pairs scores at least as high, so it leaves the ranking order unchanged. |
| Scoring.AiScoreExample | pump_solana_copia2.py:100-106 | With unit weights, liquidity 50000, change 3, volume 1,000,000, 120 buys and 40 sells: pre-pump 7, boost 3, score 13. |
| Ranker.ScoreAll | pump_solana_copia2.py:170-175 | The scored list has one entry per passing pair. Every entry passes the filter, carries its own `ai_score` and comes from the input. |
| Ranker.SortByScore | pump_solana_copia2.py:177 | `scored.sort(reverse=True, key=score)`: the result is non-increasing by score and a permutation of its input (same multiset, same length). |
| Ranker.SortByScoreIsStableSort | pump_solana_copia2.py:177 | For every score, the sorted entries with that score keep their input order (stability). |
| Ranker.StableSortsAgree | pump_solana_copia2.py:177 | Two non-increasing sequences that agree on every per-score subsequence are equal. |
| Ranker.StableSortUnique | pump_solana_copia2.py:177 | Any stable descending sort of the scored list is `SortByScore` of it: the stable sort is unique. |
| Ranker.RankWithAi | pump_solana_copia2.py:167-183 | The output has length min(#passing pairs, 10). Every pair in it passes the filter, carries its score and comes from the input. It is non-increasing by score. It is a prefix of every stable descending sort of the scored pairs, so ties keep input order. |
| SignalMemory.KeepLast | pump_solana_copia2.py:114 | `mem[-200:]` keeps min(length, 200) records, and they are the suffix of the input of that length: the newest ones. |
| SignalMemory.KeepLastAppendAll | pump_solana_copia2.py:113-114 | Truncating, appending and truncating again equals truncating once after all the appends. |
| SignalMemory.SavingManyKeepsLastCapacity | pump_solana_copia2.py:109-114 | Appending 200 or more records to any memory and keeping the last 200 leaves exactly the last 200 new records, in order. |
| SignalMemory.MemoryStore.constructor | pump_solana_copia2.py:110-112 | A memory file that does not exist yet reads as empty. |
| SignalMemory.MemoryStore.SaveMemory | pump_solana_copia2.py:109-114 | The new memory is the last 200 of old plus [record]. Its length is min(old length + 1, 200) and its last element is the new record. |
| SignalMemory.MemoryStore.RegisterSignal | pump_solana_copia2.py:116-122 | Appends {symbol, price, now, score} for the pair, keeping the last 200. |
| SignalMemory.MemoryStore.RegisterRanked | pump_solana_copia2.py:225-226 | Registering the ranked list one record at a time leaves the last 200 of old memory plus one record per ranked pair, in ranked order. When 200 or more pairs are registered, the store holds exactly the records of the last 200. |
| WeightLearner.Judge | pump_solana_copia2.py:143-158 | An entry is skipped iff it is under 3600 s old or its current price is absent or 0. Otherwise it aborts iff its stored price is 0. For a positive stored price it is a rise iff the new price is >= 1.1 x stored (reversed for a negative stored price). |
| WeightLearner.ChangeThreshold | pump_solana_copia2.py:151-153 | A percentage change >= 10 means new price >= 1.1 x old price for a positive old price, and <= for a negative one. |
| WeightLearner.Apply | pump_solana_copia2.py:153-158 | A rise strictly raises all three positive weights. A non-rise keeps prepump and smart_money and strictly lowers momentum. A skip leaves the weights unchanged. Positive weights stay positive. |
| WeightLearner.CompoundCompose | pump_solana_copia2.py:153-158 | Applying the multiplicative updates in two batches equals applying them all at once. |
| WeightLearner.LearnCrashesIff | pump_solana_copia2.py:151 | A pass aborts exactly when some entry reaches the division with a stored price of 0. |
| WeightLearner.LearnClosedForm | pump_solana_copia2.py:143-160 | A pass that does not abort multiplies prepump by 1.03^R, smart_money by 1.04^R and momentum by 1.02^R x 0.97^N (R rises, N other matured entries). Starting from updated = false, the weights are marked updated iff R + N > 0. |
| WeightLearner.Learn | pump_solana_copia2.py:143-160 | One pass over the memory. Positive weights stay positive after it, whether it completes or aborts. A raised updated flag is never cleared, and a completed pass that raises no flag leaves the weights unchanged. |
| WeightLearner.LearnSkipsAll | pump_solana_copia2.py:144-149 | Entries that are all immature or lack a usable current price leave the weights and the updated flag untouched. |
| WeightLearner.JudgedAgainLater | pump_solana_copia2.py:144-158 | An entry judged at clock now1 gets the same verdict at any later clock while its current price is unchanged: maturity is never lost. |
| WeightLearner.LaterPassJudgesAgain | pump_solana_copia2.py:143-160 | A later pass with unchanged prices counts at least as many rises and at least as many non-rises as an earlier one. |
| WeightLearner.LearnTwiceCompounds | pump_solana_copia2.py:143-160 | With the same clock reading, the same prices and no stored price of 0, a second pass over the same memory applies every update again: the exponents double. |
| WeightLearner.RiseExample | pump_solana_copia2.py:153-156 | An entry 2 hours old whose price rose 12% strictly raises prepump and smart_money, does not lower momentum, and marks the weights updated. |
| WeightLearner.FlatExample | pump_solana_copia2.py:157-158 | A matured entry with 0% change keeps prepump and smart_money and strictly lowers momentum. |
| WeightLearner.AutoLearn | pump_solana_copia2.py:135-164 | The loop leaves the weights object and the updated flag (or the abort) exactly as `Learn` from the old weights says. The memory sequence is only read. |

## Left out

- HTTP fetching (`fetch_solana_pairs`, lines 33-47, including its `chainId == "solana"` filter) and the price lookup (`get_current_price`, lines 124-133): these are network calls. The lookup is a function parameter of the learner.
- JSON files: loading and dumping `memory.json` and `weights.json` (lines 111-114, 137-139, 162-163). The memory is a sequence field of `MemoryStore`. Writing the weights file is the `updated` flag of the result.
- The price lookup's variation between calls: the learner's `price` parameter gives one answer per token symbol for the whole pass. In the source, every matured entry makes its own `get_current_price` request (line 147), so two entries with the same token can get different answers, or one of them `None`. `Learn`, `LearnClosedForm`, `LearnCrashesIff`, `LearnTwiceCompounds` and `AutoLearn` therefore hold for a lookup whose answers do not change during a pass.
- The clock: `time.time()` (lines 120 and 140) is the parameter `now`.
- SignalMemory.MemoryStore.RegisterRanked: it uses one clock reading `now` for the whole ranked list, where the source calls `time.time()` once per record.
- Parsing failures of `float(...)` and JSON fields that are present but null: every field is taken as already defaulted to 0. In the source, a null `liquidity` or `volume` is caught by the `except` in `is_not_scam` (lines 75-76), which the model cannot reach. On a pair that passes the filter, a null `priceChange` raises uncaught in `ai_score` (line 101), and a null `txns` or `txns.m5` raises in `smart_money_boost` (lines 93-94). A null `baseToken` raises in `print_top` (line 191), before `register_signal` is reached. Each ends the run. The model scores such a pair with 0 for the missing field instead.
- Console output (`log`, `print_top`, lines 29-30 and 186-194), the CSV export and its display rounding (`save_dashboard`, lines 196-211), and the endless loop with its 30 s sleep (`run`, lines 213-230). Only the loop that registers each ranked pair (lines 225-226) is modelled.
- `dashboard.py`: a user-interface viewer of the CSV file, pure input/output.
- Floating point: all arithmetic is exact over `real`, so rounding in the weight products and in `volume_24h / 288` is not modelled.
