# Options-flow strategy reconstruction, modelled in Dafny

This project models the core of `cboe_options`, a Rust service that reads a
stream of option trade prints and reconstructs the multi-leg strategies
("spreads") behind them. It covers three parts:

- **Per-trade rules** (`src/trades.rs`):
  - the side of a print, inferred from where it sits against the quote, with the crossed-market flip;
  - the directional expectation of the print;
  - the side-signed premium, IV and delta helpers;
  - the opening/closing estimate and the dealer-delta contributions;
  - the one-leg projection `to_spread`;
  - the trade condition code predicates.
- **Valuation helpers** for one quoted option (`src/single_options.rs`): intrinsic value, extrinsic value, out-of-the-money status and the validity test.
- **The reconstruction pipeline** `get_spreads` (`src/spreads.rs`):
  1. gather multi-leg prints by their coarse key (timestamp, exchange, condition, size);
  2. check each gathered set for consecutive sequence numbers (`verify_spread_legs`), falling back to a size-extended key;
  3. fold each registered set into totals and shape flags;
  4. classify the set into the strategy taxonomy;
  5. apply the implied-stock adjustment for stock-combined sets;
  6. record the sequence-number trail (`get_consecutive_summary`);
  7. drop sets containing a leg of unknown side;
  8. remove adjacent duplicates.

Files and modules:

| file | module | contents |
|---|---|---|
| `wrappers.dfy` | `Wrappers` | `Option` |
| `single_options.dfy` | `SingleOptions` | option valuation |
| `conditions.dfy` | `Conditions` | condition and exchange codes |
| `trades.dfy` | `Trades` | one print and its rules |
| `spreads.dfy` | `Spreads` | strategy names and record, `to_spread`, shape flags, classifier |
| `grouping.dfy` | `Grouping` | sorting, the consecutiveness check, the grouping loop |
| `assembly.dfy` | `Assembly` | aggregation fold, stock adjustment, trail, poison filter, dedup, `GetSpreads` |

How the source's types are represented:

- Prices, strikes, deltas and volatilities are `real`.
- Dates are day numbers. The current date is the parameter `today`, because the source reads the local clock.
- Intraday timestamps are integers.
- A strategy's human-readable summary is a sequence of `LegClause` records.
- The sequence-number trail is a `SequenceTrail` value rather than a formatted string.

The imperative parts are `method`s with loop invariants, each proved against a specification function:

- the grouping loop (`Grouping.GroupLegs`) and its fallback registration;
- the consecutiveness loop (`Grouping.CheckRun`);
- the per-set aggregation loop (`Assembly.FoldLegs`);
- the output loop (`Assembly.BuildAll`);
- the trail builder (`Assembly.ConsecutiveSummary`).

The `HashMap` is a `map<GroupKey, seq<OptionTrade>>` plus the sequence of keys in registration order.

Where the behaviour described for the system and the code differ, the model follows the code:

- The consecutiveness test compares the adjacent pairs in the index range `1 .. len-1`, so the last pair is never compared. A set of one or two legs therefore always passes (`src/spreads.rs:428-430`).
- `all_different_strikes` compares leg 0 with itself, so no set is ever named an iron condor. The pipeline (`Assembly.SpreadOf`, `Assembly.BuildSpread`, `Assembly.GetSpreads`) names sets with this classifier (`Spreads.ClassifyAsWritten`). See Findings.
- A strategy is a credit whenever its net value is not positive, so a net value of exactly 0 is a credit, not neither (`src/spreads.rs:387-391`).
- The one-leg projection `to_spread` carries the unsigned notional value as its net value (`src/trades.rs:203`). Multi-leg sets carry the side-signed sum.
- The trail test subtracts one instead of adding it, so three or more legs always get the exchange-number trail. The pipeline's trail builder (`Assembly.ConsecutiveSummary`) runs this test. See Findings.
- The corrected classifier (`Spreads.Classify`) and trail (`Assembly.SequenceTrail`) are kept beside the pipeline. `Assembly.IntendedSpreadOf` assembles a strategy with both corrections, and `Assembly.CorrectionsChangeOnlyNameAndTrail` shows that it differs from the pipeline's strategy only in its name and trail.

## Model

| member | source | states |
|---|---|---|
| SingleOptions.IntrinsicValue | src/single_options.rs:66-75 | never negative, at least the exercise value (call: mid − strike, put: strike − mid), and equal to 0 or to the exercise value |
| SingleOptions.ExtrinsicValue | src/single_options.rs:76-83 | never negative, at least the quoted mid (0 when absent) minus the intrinsic value, and equal to 0 or to that difference |
| SingleOptions.Otm | src/single_options.rs:84-89 | a call is out of the money iff the underlying is below the strike, a put iff it is above, that is iff exercising now would lose money |
| SingleOptions.OtmHasNoIntrinsicValue | src/single_options.rs:66-89 | an out-of-the-money option has intrinsic value 0; one with positive intrinsic value is not out of the money |
| SingleOptions.ValueDecomposition | src/single_options.rs:66-83 | when the mid covers the intrinsic value, intrinsic plus extrinsic value equals the mid |
| SingleOptions.ValidOptionValuation | src/single_options.rs:95-112 | a valid option has both quotes present and positive, a positive mid and open interest of at least 1; once valued it has at least one day to expiry and is still valid |
| SingleOptions.CalculateValues | src/single_options.rs:104-112 | fills in days to expiry, intrinsic and extrinsic value (both non-negative) and the OTM flag (OTM implies no intrinsic value); every other field is unchanged |
| Conditions.IsSweep | src/trades.rs:528-531 | no sweep code is a multi-leg code |
| Conditions.IsCancel | src/trades.rs:532-539 | no cancel code is a multi-leg code |
| Conditions.IncludesStockTrade | src/trades.rs:540-548 | every stock-combined code is a multi-leg code |
| Conditions.AlgorithmicStockCodeHasNoStock | src/trades.rs:510-548 | the algorithmic stock-and-option code is multi-leg but not stock-combined |
| Trades.Flip | src/trades.rs:343-349 | Unknown stays Unknown and a known side changes |
| Trades.FlipInvolution | src/trades.rs:343-349 | flipping twice gives the side back |
| Trades.ExecutionPriceOf | src/trades.rs:82-98 | never Unknown; on or above the ask gives CloserToAsk; on or below the bid gives CloserToBid; between the quotes, CloserToBid iff the price is positive and below the mid, ExactMidPrice iff it equals the mid, CloserToAsk otherwise |
| Trades.NearerQuoteSide | src/trades.rs:82-98 | between a bid below the ask, a positive price is CloserToBid, ExactMidPrice or CloserToAsk exactly as it lies nearer the bid, equally near, or nearer the ask |
| Trades.InferAction | src/trades.rs:106-114 | Unknown exactly for ExactMidPrice or Unknown; CloserToAsk gives Bought and CloserToBid gives Sold, both reversed in a crossed market |
| Trades.ExpectationOf | src/trades.rs:115-126 | never Neutral; Unknown exactly when the side is Unknown |
| Trades.ExpectationSymmetry | src/trades.rs:115-126 | taking the other side, or the other option kind, gives the opposite view |
| Trades.GetValues | src/trades.rs:81-141 | execution price, side and expectation follow the three rules above; a print on or through the ask is Bought and one on or through the bid is Sold; notional is price × 100 × size; delta is scaled by 100; no other field changes |
| Trades.IsOpening | src/trades.rs:155-164 | the trade's opening flag agrees with the estimate's (`TransactionType::is_opening`, src/trades.rs:325-327): exactly BuyToOpen and SellToOpen |
| Trades.AmountPaid | src/trades.rs:226-232 | the notional for Bought, its negation for Sold, 0 for Unknown |
| Trades.NetIv | src/trades.rs:233-240 | the IV for Bought, its negation for Sold, 0 for Unknown |
| Trades.NetDelta | src/trades.rs:241-248 | delta × size for Bought, its negation for Sold, 0 for Unknown |
| Trades.NetCurrentDelta | src/trades.rs:249-256 | live delta × size for Bought, its negation for Sold, 0 for Unknown |
| Trades.FlippedSideNegates | src/trades.rs:226-256 | the same print seen from the other side negates premium, IV, delta and live delta |
| Trades.DealerDelta | src/trades.rs:142-148 | 0 for a print that does not open a position, else −size × live delta |
| Trades.NaiveDealerDelta | src/trades.rs:149-154 | 0 for an unknown side, else −size × delta |
| Trades.NaiveDealerDeltaIgnoresSide | src/trades.rs:149-154 | the naive dealer delta is unchanged when the side is flipped |
| Trades.EstimateTransaction | src/trades.rs:351-367 | never Uncalculated; opens a position iff open interest < size and the price is at a side; CouldNotDetermine iff mid or unknown price; a sell estimate iff closer to the bid, a buy estimate iff closer to the ask |
| Spreads.SingleLegName | src/spreads.rs:190-201 | Unrecognized iff the side is Unknown; each of LongCall, ShortCall, LongPut and ShortPut iff its kind and side |
| Spreads.ToSpread | src/trades.rs:180-225 | one leg with its clause; named by kind and side; Debit iff Bought, Credit iff Sold, Unknown type iff Unrecognized name; unsigned notional; signed IV and deltas; opening flag; both sequence numbers; symbol, expiry, days to expiry, view, timestamp, condition and exchange copied from the print |
| Spreads.ToSpreadViewMatchesName | src/trades.rs:115-126 | for an enriched print, the single-leg strategy is bullish iff long call or short put, bearish iff short call or long put, unknown iff unrecognized |
| Spreads.NeverAllDifferent | src/spreads.rs:141-169 | the all-different-strikes flag is false for every non-empty set, because leg 0 is compared with itself |
| Spreads.FirstWhere | src/spreads.rs:299-303 | None iff no leg satisfies the test, otherwise the earliest leg that does |
| Spreads.SingleLegWithStock | src/spreads.rs:177-188 | a lone option with stock always gets a stock name |
| Spreads.SingleLegWithStockMeans | src/spreads.rs:177-188 | CoveredCall iff a sold call, CoveredPut iff a sold put, SyntheticCall iff a bought put, SyntheticPut iff a bought call, UnrecognizedWithStock iff the side is unknown |
| Spreads.PairWithStock | src/spreads.rs:204-252 | two options with stock always get a stock name |
| Spreads.PairWithStockMeans | src/spreads.rs:204-252 | in either leg order: Conversion iff a sold call and a bought put at one strike, Reversal iff a sold put and a bought call at one strike, Collar iff either of those at two strikes, CoveredCall iff two sold calls, CoveredPut iff two sold puts, SyntheticCall iff a bought and a sold put, SyntheticPut iff a bought and a sold call |
| Spreads.PairName | src/spreads.rs:253-271 | the no-stock pair rules in source order, each name characterized iff by the four flags; RiskReversal is never produced because the Vertical rule takes all its cases |
| Spreads.TripleName | src/spreads.rs:273-289 | three legs get Butterfly, UnbalancedButterfly, Ladder or Unrecognized |
| Spreads.TripleNameMeans | src/spreads.rs:273-289 | Butterfly iff mixed sides and two distinct sizes; UnbalancedButterfly iff mixed sides, not all one size and three distinct sizes; Ladder iff one side and one kind |
| Spreads.QuadName | src/spreads.rs:290-321 | four legs get IronCondoor, IronButterfly, Box or Unrecognized |
| Spreads.QuadNameMeans | src/spreads.rs:290-321 | IronCondoor iff the condor-strike flag with mixed sides and kinds on one expiry; otherwise, on one expiry with mixed sides and both a sold call and a sold put, IronButterfly iff the first of each share a strike, Box iff they do not and there are two distinct strikes |
| Spreads.ClassifyAsWritten | src/spreads.rs:175-329 | as written, an iron condor requires the all-different flag that compares leg 0 with itself |
| Spreads.AsWrittenNeverIronCondor | src/spreads.rs:296-297 | as written, no leg-set is ever named an iron condor, and wherever the corrected classifier gives another name the two agree |
| Spreads.ClassifyMeans | src/spreads.rs:175-329 | the classifier is total; stock names exactly for stock-combined one- and two-leg sets; no other set gets one; Synthetic, Ratio and RiskReversal never appear; an iron condor has four distinct strikes on one expiry with mixed sides and kinds; a ladder has one side and one kind; a lone option without stock gets its single-leg name |
| Spreads.IronCondorRecognized | src/spreads.rs:290-297 | the corrected classifier names a textbook iron condor as one |
| Spreads.IronCondorUnrecognizedAsWritten | src/spreads.rs:290-321 | the classifier as written names the same textbook iron condor Unrecognized |
| Spreads.ScenarioLongCall | src/spreads.rs:190-192 | one bought call without stock is a long call |
| Spreads.PairShape | src/spreads.rs:166-174 | for two legs each flag compares leg 1 with leg 0, and the all-different flag is false |
| Spreads.ShapeIgnoresLegZero | src/spreads.rs:139-174 | although each flag compares legs with leg 0, each same-flag holds iff every two legs agree, and each kind flag iff every leg is of that kind |
| Spreads.ClassifyIgnoresLegOrder | src/spreads.rs:273-329 | for three legs, or five or more, two sets with the same members and count get the same name |
| Spreads.ScenarioVertical | src/spreads.rs:253-255 | one kind, different strikes, one expiry and opposite sides make a vertical |
| Spreads.ScenarioStraddle | src/spreads.rs:258-259 | a call and a put at one strike and expiry on one side make a straddle |
| Spreads.ScenarioButterfly | src/spreads.rs:273-281 | three legs of sizes 10, 10 and 20 with mixed sides make a butterfly |
| Spreads.ScenarioIronButterfly | src/spreads.rs:298-306 | bought put, sold put, sold call, bought call on one expiry with the sold legs at one strike make an iron butterfly |
| Spreads.ScenarioBox | src/spreads.rs:298-308 | a bought call and a sold put at the low strike with a sold call and a bought put at the high strike, one expiry, make a box |
| Spreads.PairWithStockSymmetric | src/spreads.rs:204-252 | the stock-combined pair rules do not depend on leg order |
| Spreads.PairOrderIrrelevant | src/spreads.rs:204-271 | for two legs of one condition the name does not depend on which leg is first |
| Grouping.Insert | src/spreads.rs:426 | inserting adds exactly one element |
| Grouping.InsertMeans | src/spreads.rs:426 | inserting adds exactly the new element as a multiset, puts it or the old head first, and keeps a sorted sequence sorted |
| Grouping.SortBy | src/spreads.rs:426 | sorting keeps the length |
| Grouping.SortByMeans | src/spreads.rs:426 | sorting by a sequence number is a permutation into ascending order |
| Grouping.CheckRun | src/spreads.rs:427-430 | the loop's flag is exactly the consecutiveness test over indices 1 .. len-1 |
| Grouping.VerifySpreadLegs | src/spreads.rs:425-441 | accepted iff consecutive by the global number or else by the exchange number; the legs are left permuted, in global order when that passed and in exchange order otherwise |
| Grouping.ShortSetsPass | src/spreads.rs:428 | every set of at most two legs passes |
| Grouping.SortedTripleUnchanged | src/spreads.rs:426 | three legs already in order are left in place |
| Grouping.LastPairNeverCompared | src/spreads.rs:428-430 | numbers 1, 2, 9 pass, because the last pair is never compared |
| Grouping.AcceptedByExchangeOrder | src/spreads.rs:431-440 | global numbers 5, 7, 9 fail but exchange numbers 100, 101, 102 pass, and the set is kept in exchange order |
| Grouping.Filter | src/spreads.rs:84-87 | the kept elements are exactly those passing the test, with their multiplicities |
| Grouping.MultiLegs | src/spreads.rs:84-87 | the seeds are exactly the multi-leg prints of the batch |
| Grouping.Matching | src/spreads.rs:97-105 | the gathered set is exactly the prints sharing the seed's timestamp, exchange, condition and size, with multiplicities |
| Grouping.WithSize | src/spreads.rs:111-117 | when every member has the size, the size sub-collection is the whole set |
| Grouping.RegisterBySize | src/spreads.rs:110-122 | the fallback registers the whole set under the key extended with its size, only if that key is absent; otherwise nothing changes |
| Grouping.RegistryExtends | src/spreads.rs:119-124 | adding a key not yet present keeps the registration order duplicate-free and in step with the map |
| Grouping.GroupedExtends | src/spreads.rs:96-124 | registering a well-grouped set keeps every set well-grouped |
| Grouping.CoveredIsRegistered | src/spreads.rs:96-124 | a coarse key that is registered in any form is registered in the form its check dictates |
| Grouping.GroupSeed | src/spreads.rs:91-126 | one seed's step: keys are only added, never twice; every set stays well-grouped; coverage grows; the seed's key is covered, in the form its check dictates |
| Grouping.CoverageStep | src/spreads.rs:91-126 | coverage of earlier seeds survives a step |
| Grouping.CoverageComplete | src/spreads.rs:84-91 | covering every seed covers every multi-leg print |
| Grouping.GroupLegs | src/spreads.rs:84-127 | no key is registered twice; every set is non-empty, multi-leg and holds exactly the prints of its coarse key in checked order, under the key form the check dictates; every multi-leg print's key is covered |
| Grouping.GroupMembers | src/spreads.rs:97-105 | a registered set is a permutation of the prints sharing its coarse key, all multi-leg |
| Grouping.AtMostOneGroup | src/spreads.rs:96-124 | a print lies in at most one registered set |
| Grouping.NeverBothForms | src/spreads.rs:96-124 | a coarse key is never registered both plainly and extended |
| Assembly.MaxOfBounds | src/spreads.rs:147-150 | the running maximum is at least its start and every leg's value, and equals the start or some leg's value |
| Assembly.ClausesMeans | src/spreads.rs:156-163 | one summary clause per leg, in leg order |
| Assembly.EveryMeans | src/spreads.rs:154-172 | a folded all-flag holds iff every leg passes |
| Assembly.AnyLegMeans | src/spreads.rs:164-165 | a folded any-flag holds iff some leg passes |
| Assembly.FoldedIsTotals | src/spreads.rs:145-173 | stepping the accumulators through the legs computes the legs' totals |
| Assembly.FoldShape | src/spreads.rs:166-174 | the folded flags are the shape the classifier reads |
| Assembly.FoldFlags | src/spreads.rs:164-165 | the poison flag is set iff some leg has an unknown side; the opening flag is set iff some leg opens a position |
| Assembly.FoldLegs | src/spreads.rs:129-173 | the aggregation loop computes the fold of the legs |
| Assembly.SharesValue | src/spreads.rs:332-347 | zero except for the bought-stock and shorted-stock names; positive for bought stock and negative for shorted stock when contracts and price are positive |
| Assembly.StockClause | src/spreads.rs:348-364 | a stock clause of 100 shares per contract of leg 0; bought iff a bought-stock name, shorted iff a shorted-stock name |
| Assembly.DeltaAdjustment | src/spreads.rs:365-381 | + 100 × total contracts for a bought-stock name, − that for a shorted-stock name; for a collar, + when the first sold leg is a call and − when it is a put, 0 without a sold leg; 0 for every other name |
| Assembly.StockSideAgrees | src/spreads.rs:331-386 | for a bought- or shorted-stock name with contracts, the delta added is long iff the stock clause says bought and short iff it says shorted, and, at positive prices, long iff the shares' value is paid |
| Assembly.SingleLegHedge | src/spreads.rs:177-386 | a lone option printed with stock gets a long share delta iff its view is bearish, a short one iff bullish, and none iff its side is unknown |
| Assembly.SoldLegDecidesStockSide | src/spreads.rs:204-381 | for two options with stock named a conversion, reversal, collar or covered position, there is a sold leg and the share delta is long iff it is a call, short iff it is a put |
| Assembly.Numbers | src/spreads.rs:453-462 | the listed numbers are the legs' numbers in order |
| Assembly.SequenceTrailAsWritten | src/spreads.rs:443-465 | the trail as written gives the global numbers for sets of at most two legs |
| Assembly.AsWrittenTrailLists | src/spreads.rs:443-465 | the trail as written never lists both numbers; it lists every global number in ascending order, or else every exchange number in ascending order |
| Assembly.AsWrittenTrailNeverGlobal | src/spreads.rs:446-450 | as written, a set of three or more legs always gets the exchange-number trail |
| Assembly.SequenceTrail | src/spreads.rs:443-465 | corrected trail: global numbers iff the legs are consecutive by global number, then in checked order; otherwise every exchange number |
| Assembly.SequenceTrailLists | src/spreads.rs:443-465 | the corrected trail lists every global number in ascending order, or else every exchange number in ascending order |
| Assembly.ConsecutiveLegsGetGlobalTrail | src/spreads.rs:446-456 | legs numbered 1, 2, 3 get the global trail 1-2-3 |
| Assembly.ListNumbers | src/spreads.rs:453-455 | the listing loop produces the legs' numbers in order |
| Assembly.ConsecutiveSummary | src/spreads.rs:443-465 | the trail method runs the source's test, each number one less than the one before over indices 1 .. len-1, and computes the trail as written |
| Assembly.SpreadNetValue | src/spreads.rs:146-391 | net value is the summed signed premium plus the shares' value when stock is present; Debit iff positive, Credit iff not |
| Assembly.SpreadDelta | src/spreads.rs:152-398 | delta is the legs' signed delta sum and live delta the legs' signed live-delta sum, each plus the same stock adjustment (the shares' delta for the strategy name when stock is included, none otherwise); the view follows the sign of the adjusted delta |
| Assembly.SpreadLegs | src/spreads.rs:156-385 | leg count is the number of legs plus one with stock; one clause per leg in order, then the stock clause |
| Assembly.SpreadIdentity | src/spreads.rs:147-417 | expiry is the latest of today and every leg's expiry; days to expiry the largest of 0 and every leg's; IV the legs' signed IV sum; opening iff some leg opens; the source's name and trail; leg 0's identity |
| Assembly.BuildSpread | src/spreads.rs:128-417 | one pass of the aggregation loop names the set with the source's classifier and computes the strategy and the poison flag |
| Assembly.ScenarioCoveredCall | src/spreads.rs:176-386 | a sold call with stock is a covered call of two legs, with the bought stock leg's value and delta added |
| Assembly.CorrectionsChangeOnlyNameAndTrail | src/spreads.rs:175-465 | the strategy with the corrected classifier and trail equals the pipeline's strategy in every field but the name and the trail |
| Assembly.PipelineIronCondor | src/spreads.rs:290-321 | a textbook iron condor comes out of the pipeline Unrecognized, and out of the corrected assembly as an iron condor |
| Assembly.PipelineTrailOfThree | src/spreads.rs:443-465 | legs numbered 1, 2, 3 get the exchange trail from the pipeline and the global trail 1-2-3 from the corrected assembly |
| Assembly.FlipAll | src/trades.rs:343-349 | every leg with its side flipped, nothing else changed |
| Assembly.FlipAllNegatesSums | src/spreads.rs:146-153 | flipping every leg negates the premium, delta and live-delta sums |
| Assembly.CounterpartyView | src/spreads.rs:146-398 | without stock, the other side's strategy has negated net value and deltas and the opposite view, and each side is a debit iff the other's net value is negative |
| Assembly.Dedup | src/spreads.rs:422 | no two adjacent strategies are equal; the output holds exactly the strategies of the input, keeps the first one, and is no longer than the input |
| Assembly.DedupIsRunHeads | src/spreads.rs:422 | removing adjacent duplicates keeps exactly the first element and each element that differs from the one just before it, in order |
| Assembly.DedupKeepsSeparatedRepeats | src/spreads.rs:422 | only adjacent repeats go: a, a, b, a becomes a, b, a |
| Assembly.DedupIdempotent | src/spreads.rs:422 | removing adjacent duplicates twice changes nothing |
| Assembly.Built | src/spreads.rs:128-421 | at most one strategy per registered set |
| Assembly.BuiltSound | src/spreads.rs:418-420 | every output strategy is built from an unpoisoned registered set |
| Assembly.BuiltComplete | src/spreads.rs:418-420 | every unpoisoned registered set's strategy is in the output |
| Assembly.KnownSides | src/spreads.rs:165-418 | clauses of legs with known sides followed by stock clauses include no option clause of unknown side |
| Assembly.UnpoisonedSummary | src/spreads.rs:165-418 | a strategy built from legs of known side has no option clause of unknown side |
| Assembly.BuildAll | src/spreads.rs:128-421 | the output loop builds and keeps the unpoisoned strategies in registration order |
| Assembly.GetSpreads | src/spreads.rs:80-423 | groups as above; the output is the deduplicated list of unpoisoned strategies in registration order, with no adjacent duplicates |
| Assembly.OutputMeans | src/spreads.rs:80-423 | an output strategy is exactly the strategy of some unpoisoned registered set, and every such strategy appears |
| Assembly.OutputNeverPoisoned | src/spreads.rs:165-420 | no output strategy has an option leg of unknown side |

## Left out

- Local clock and date parsing: expiry dates are day numbers and `today` is a parameter, so parse failures (which panic in the source) are not modelled.
- Floating point: prices, deltas and volatilities are exact reals.
- GetValues: the two-decimal rounding of the notional value is not modelled; notional is price × 100 × size exactly.
- Formatted text: the `format!` strings of the summary, the stock clause and the sequence trail are modelled as `LegClause` and `SequenceTrail` values, not as characters.
- Timestamp sorts: the sorts by timestamp before grouping (`src/spreads.rs:88-90`, `src/spreads.rs:106-108`) are omitted.
  - The first only changes the order in which seeds are visited.
  - The second is overridden by the sequence-number sort that follows.
- SortBy: the source's unstable sort is modelled by a stable insertion sort, which is one of its possible outcomes. Ties between equal sequence numbers are therefore kept in input order.
- GetSpreads: the map's iteration order (`src/spreads.rs:128`) is modelled as registration order. Any other order yields the same set of strategies before deduplication, but adjacent-duplicate removal may then keep different copies.
- Keys: the string keys of the source are modelled as structured keys. A collision between an extended key and a different plain key (a size-1 key extended with 1 spells the same string as a size-11 key) is not modelled.
- Grouping.VerifySpreadLegs: the in-place sort of the caller's vector is modelled as returning the arranged sequence.
- Empty leg-sets: `legs.len() - 1` would underflow on an empty vector; no empty set is ever built, and the model's preconditions require at least one leg.
- `OptionData::display` is not part of this model: it only formats a string and unwraps the quotes.
- Dealer-delta totals over a chain and the single-leg merging in `src/strategies.rs` are not part of this model.

## Findings

| source | as written | input that shows it | evidently intended | confidence | as-written member | corrected member |
|---|---|---|---|---|---|---|
| src/spreads.rs:168-169 | `all_different_strikes` is ANDed with `strike != leg0.strike` for every leg, leg 0 included, so it is false for every set. The iron-condor rule at lines 296-297 can therefore never fire. | Four legs on one expiry, no stock: bought put 90, sold put 95, sold call 105, bought call 110. The result is Unrecognized. | Four pairwise distinct strikes (the distinct-strike count equals the leg count) name the set IronCondoor. | not executed | Spreads.IronCondorUnrecognizedAsWritten | Spreads.IronCondorRecognized |
| src/spreads.rs:448-449 | The legs are sorted ascending by global number, then each is required to be one LESS than the one before. Any set of three or more legs therefore gets the exchange-number trail. | Three legs with global numbers 1, 2, 3 get the exchange-number trail. | Each number one MORE than the one before, the test `verify_spread_legs` uses at `src/spreads.rs:429`, so the set gets the global trail 1-2-3. | not executed | Assembly.AsWrittenTrailNeverGlobal | Assembly.ConsecutiveLegsGetGlobalTrail |
