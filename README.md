# Underwriting-info bookkeeping of the PillarOne property and casualty domain

This project models, in Dafny, how underwriting-info records move from gross to ceded to net
in the PillarOne risk-analytics property and casualty domain, and proves properties of the
model. A record carries premium, commission, exposure figures and a lineage reference to the
record it stems from. The model covers:

- the record algebra (`plus`, `minus`, `scale`, `copy`, `set`, `scaleValue`);
- the static list utilities (aggregation, differences, net calculation, lineage lookup,
  commission zeroing, segregation by contract);
- the sliding commission strategy, whose rate is a step function of the loss ratio;
- the net calculator component, which emits gross, ceded and net records on demand;
- two producers: the line-of-business composer and the risk-bands table.

Files, one module each:

| file | module | models |
|---|---|---|
| `basics.dfy` | `Basics` | `Option` for nullable references, components, `List.indexOf` |
| `underwriting_info.dfy` | `Underwriting` | the record class and its algebra |
| `underwriting_info_utilities.dfy` | `UnderwritingInfoUtilities` | the static list helpers |
| `sliding_commission_strategy.dfy` | `Commissions` | the sliding commission strategy |
| `underwriting_info_net_calculator.dfy` | `NetCalculator` | the net calculator component |
| `underwriting_line_of_business_composer.dfy` | `Composer` | the line-of-business composer |
| `risk_bands.dfy` | `Bands` | the risk-bands component |

Modelling choices:

- **Records.** A record is a class, because the algebra updates it in place and because
  records refer to each other by identity.
  - Its numbers form one `figures` field of the datatype `Figures`.
  - The lineage reference, origin, sender, line of business and contract are separate fields,
    read together through `Tags()`.
  - `plus`, `minus` and `scale` assign the new `Figures` value in one step. `Combined`,
    `Subtracted` and `Scaled` state it field by field, in the same order of reads and writes as
    the Java methods.
- **Numbers.** Doubles are modelled as `real`.
- **Premium fields.** The record class declares `premium`, while the utilities and the risk
  bands use `premiumWritten` and `premiumWrittenAsIf`. `premium` and `premiumWritten` are one
  field (`premiumWritten`), and `premiumWrittenAsIf` is added. `set` does not list it, so a
  copy starts with as-if premium 0.
- **Channels and tables.**
  - The framework's packet channels are sequences that the methods append to.
  - The wiring tests (`isSenderWired`) and the first-iteration test are boolean parameters.
  - The iteration store is an `Option` field.
  - Parameter tables are given as their value rows (plus the column titles where columns
    are looked up by title).
- **Loss ratio.** It is a double division, so a zero total premium gives plus or minus
  infinity or NaN. `LossRatio` models exactly these outcomes, with double comparison
  semantics: NaN matches no band limit.
- **Sign of ceded figures.** The net is gross minus ceded, as the code computes it: a
  ceded premium of 30 against a gross premium of 100 nets to 70, and a ceded premium
  entered as -30 nets to 130. `NetCalculator.NetCalculationExample` proves both.
- **Count conditions.** The total-sum-insured identities of the algebra hold only while
  policy counts stay non-negative, or while the count after the operation is positive. The
  lemmas carry those conditions; the amount identities hold for all records.

## Model

| member | source | states |
|---|---|---|
| Underwriting.UnderwritingInfo.constructor | src/groovy/org/pillarone/riskanalytics/domain/pc/underwriting/UnderwritingInfo.java:44-46 | a fresh packet has all-zero figures and no lineage, origin, sender, line of business or contract |
| Underwriting.UnderwritingInfo.Copy | src/groovy/org/pillarone/riskanalytics/domain/pc/underwriting/UnderwritingInfo.java:49-53 | `copy()` is a fresh record with the same figures (as-if premium 0) and the same tags, including the very same lineage reference; only the sender is not copied |
| Underwriting.UnderwritingInfo.Set | src/groovy/org/pillarone/riskanalytics/domain/pc/underwriting/UnderwritingInfo.java:55-70 | `set` takes over every listed field of the other record, keeping its own as-if premium and sender |
| Underwriting.UnderwritingInfo.Plus | src/groovy/org/pillarone/riskanalytics/domain/pc/underwriting/UnderwritingInfo.java:123-142 | returns the receiver; a null argument changes nothing; otherwise the figures become `Combined` of the old figures of both, which may be the same record |
| Underwriting.UnderwritingInfo.Minus | src/groovy/org/pillarone/riskanalytics/domain/pc/underwriting/UnderwritingInfo.java:144-165 | returns the receiver; a null argument changes nothing; otherwise the figures become `Subtracted` of the old figures; no tag changes |
| Underwriting.UnderwritingInfo.Scale | src/groovy/org/pillarone/riskanalytics/domain/pc/underwriting/UnderwritingInfo.java:167-180 | the figures become `Scaled(old figures, factor)`; tags are untouched |
| Underwriting.Combined | src/groovy/org/pillarone/riskanalytics/domain/pc/underwriting/UnderwritingInfo.java:123-142 | what `plus` makes of the figures: the maximum sum insured bounds both maxima, an exposure basis survives only where both records share it, and the as-if premium stays the receiver's |
| Underwriting.Subtracted | src/groovy/org/pillarone/riskanalytics/domain/pc/underwriting/UnderwritingInfo.java:161-163 | a `minus` result with premium, commission and sum insured all 0 carries no policies |
| Underwriting.Scaled | src/groovy/org/pillarone/riskanalytics/domain/pc/underwriting/UnderwritingInfo.java:167-180 | what `scale` makes of the figures: the policy count is cleared exactly when the factor or the count is 0; exposure basis and as-if premium are untouched |
| Underwriting.Copied | src/groovy/org/pillarone/riskanalytics/domain/pc/underwriting/UnderwritingInfo.java:55-70 | definition of the figures of a copy: `set` does not take over `premiumWrittenAsIf`, so a copy has as-if premium 0; `UnderwritingInfo.Copy` is its partner |
| Underwriting.ExposureScaleValue | src/groovy/org/pillarone/riskanalytics/domain/pc/underwriting/UnderwritingInfo.java:96-106 | definition of `scaleValue(Exposure)`: 1 for the absolute base, otherwise the additive field the base names; `ScaleValuesUnderScale` and `SummedScaleValues` are its partners |
| Underwriting.FrequencyScaleValue | src/groovy/org/pillarone/riskanalytics/domain/pc/underwriting/UnderwritingInfo.java:108-116 | `scaleValue(FrequencyBase)` measures the record as the corresponding exposure base does |
| Underwriting.CombinedAdds | src/groovy/org/pillarone/riskanalytics/domain/pc/underwriting/UnderwritingInfo.java:130-140 | `plus` adds every additive field pairwise, keeps the larger maximum sum insured, and keeps the exposure basis only when both agree |
| Underwriting.CombinedTotalSumInsured | src/groovy/org/pillarone/riskanalytics/domain/pc/underwriting/UnderwritingInfo.java:125-129 | with a positive policy count after `plus`, count times average is the sum of both totals |
| Underwriting.SubtractedTotalSumInsured | src/groovy/org/pillarone/riskanalytics/domain/pc/underwriting/UnderwritingInfo.java:146-150 | with a positive policy count after `minus`, count times average is the difference of the totals |
| Underwriting.CombinedCommutes | src/groovy/org/pillarone/riskanalytics/domain/pc/underwriting/UnderwritingInfo.java:123-142 | `plus` is symmetric except for the receiver's as-if premium |
| Underwriting.CombinedTotalNonNegative | src/groovy/org/pillarone/riskanalytics/domain/pc/underwriting/UnderwritingInfo.java:125-129 | with non-negative counts, `plus` adds the total sums insured, also when neither record carries policies |
| Underwriting.CombinedAssociates | src/groovy/org/pillarone/riskanalytics/domain/pc/underwriting/UnderwritingInfo.java:123-142 | with non-negative policy counts (zero counts included, as in the aggregate's start), `plus` is associative on the whole record |
| Underwriting.SubtractedUndoesCombinedAmounts | src/groovy/org/pillarone/riskanalytics/domain/pc/underwriting/UnderwritingInfo.java:123-165 | for all records, `minus` undoes `plus` on every amount; the maximum stays the combined one and the as-if premium the receiver's |
| Underwriting.SubtractedUndoesCombined | src/groovy/org/pillarone/riskanalytics/domain/pc/underwriting/UnderwritingInfo.java:123-165 | when the record and the combination carry policies, `minus` also restores the average sum insured, and the count is cleared only for a fully cancelled record |
| Underwriting.SubtractedSelfCancels | src/groovy/org/pillarone/riskanalytics/domain/pc/underwriting/UnderwritingInfo.java:144-165 | a record minus itself has zero amounts, count and sum insured, and keeps maximum, as-if premium and exposure |
| Underwriting.ExposureClearedAlike | src/groovy/org/pillarone/riskanalytics/domain/pc/underwriting/UnderwritingInfo.java:131-153 | the asymmetric exposure tests of `plus` and `minus` clear the basis in exactly the same cases |
| Underwriting.ScaledByOneAndZero | src/groovy/org/pillarone/riskanalytics/domain/pc/underwriting/UnderwritingInfo.java:167-180 | scaling by 1 is the identity; scaling by 0 clears amounts, count, sum insured and maximum |
| Underwriting.ScaledComposes | src/groovy/org/pillarone/riskanalytics/domain/pc/underwriting/UnderwritingInfo.java:167-180 | scaling twice is scaling by the product; a nonzero factor scales the total sum insured |
| Underwriting.ScaleValuesUnderScale | src/groovy/org/pillarone/riskanalytics/domain/pc/underwriting/UnderwritingInfo.java:96-116 | the two `scaleValue`s agree on shared bases and follow `scale`: premium base scales, policy base drops to 0 only for a zero factor, absolute stays 1 |
| UnderwritingInfoUtilities.Zeroed | src/groovy/org/pillarone/riskanalytics/domain/pc/underwriting/UnderwritingInfoUtilities.java:20-27 | `setZero` leaves a fully cancelled record with zero total sum insured and keeps the fixed and variable parts and the exposure basis |
| UnderwritingInfoUtilities.SetZero | src/groovy/org/pillarone/riskanalytics/domain/pc/underwriting/UnderwritingInfoUtilities.java:20-27 | the record's figures become `Zeroed` of the old ones |
| UnderwritingInfoUtilities.ZeroedIsNeutral | src/groovy/org/pillarone/riskanalytics/domain/pc/underwriting/UnderwritingInfoUtilities.java:20-27 | zeroing is idempotent, and a zeroed record adds nothing to premium, commission, count or (for non-negative counts) total sum insured |
| UnderwritingInfoUtilities.Summed | src/groovy/org/pillarone/riskanalytics/domain/pc/underwriting/UnderwritingInfoUtilities.java:29-39 | the aggregate's figures start from an empty packet, so its as-if premium is 0; its fields are stated by the lemmas below |
| UnderwritingInfoUtilities.Aggregate | src/groovy/org/pillarone/riskanalytics/domain/pc/underwriting/UnderwritingInfoUtilities.java:29-39 | null exactly for an empty list; otherwise a fresh untagged record whose figures are the left fold of `plus` with the last exposure basis winning |
| UnderwritingInfoUtilities.SummedExposure | src/groovy/org/pillarone/riskanalytics/domain/pc/underwriting/UnderwritingInfoUtilities.java:34-37 | the aggregate has the exposure basis of the last record |
| UnderwritingInfoUtilities.SummedAdds | src/groovy/org/pillarone/riskanalytics/domain/pc/underwriting/UnderwritingInfoUtilities.java:34-38 | every additive field of the aggregate is the list total of that field |
| UnderwritingInfoUtilities.SummedScaleValues | src/groovy/org/pillarone/riskanalytics/domain/pc/underwriting/UnderwritingInfoUtilities.java:29-39 | the premium and policy scale values of an aggregate (exposure and frequency) are the list totals; the absolute one stays 1 |
| UnderwritingInfoUtilities.SummedTotalSumInsured | src/groovy/org/pillarone/riskanalytics/domain/pc/underwriting/UnderwritingInfoUtilities.java:34-38 | with non-negative counts, the aggregate's total sum insured is the sum of the records' totals |
| UnderwritingInfoUtilities.SummedMaxSumInsured | src/groovy/org/pillarone/riskanalytics/domain/pc/underwriting/UnderwritingInfoUtilities.java:33-38 | the aggregate maximum is at least every record's maximum and at least 0, and is 0 or one of them |
| UnderwritingInfoUtilities.SummedSingleton | src/groovy/org/pillarone/riskanalytics/domain/pc/underwriting/UnderwritingInfoUtilities.java:29-39 | aggregating one record reproduces its figures (as-if premium 0; the raw total in the sum-insured field when no policies) |
| UnderwritingInfoUtilities.Difference | src/groovy/org/pillarone/riskanalytics/domain/pc/underwriting/UnderwritingInfoUtilities.java:41-45 | a fresh copy of the gross record minus the ceded one, with the gross tags except the sender |
| UnderwritingInfoUtilities.NetOf | src/groovy/org/pillarone/riskanalytics/domain/pc/underwriting/UnderwritingInfoUtilities.java:60-74 | the net premium and commission are gross minus ceded, and the copy gives the gross maximum and no as-if premium; the policy-count rule is `NetOfPolicies` |
| UnderwritingInfoUtilities.CalculateNet | src/groovy/org/pillarone/riskanalytics/domain/pc/underwriting/UnderwritingInfoUtilities.java:60-74 | a fresh record with figures `NetOf(gross, ceded)`, the gross tags and the ceded record's lineage reference |
| UnderwritingInfoUtilities.NetOfPolicies | src/groovy/org/pillarone/riskanalytics/domain/pc/underwriting/UnderwritingInfoUtilities.java:65-72 | the net keeps the gross policy count unless it is fully cancelled, and then has none |
| UnderwritingInfoUtilities.NetOfIsGrossMinusCeded | src/groovy/org/pillarone/riskanalytics/domain/pc/underwriting/UnderwritingInfoUtilities.java:47-69 | net amounts are gross minus ceded; the maximum is the gross one; with gross policies the net total sum insured is gross total minus ceded total |
| UnderwritingInfoUtilities.NetOfEqualPortfolios | src/groovy/org/pillarone/riskanalytics/domain/pc/underwriting/UnderwritingInfoUtilities.java:57-72 | netting a portfolio against itself cancels it, policies included |
| UnderwritingInfoUtilities.NetOfAgainstDifference | src/groovy/org/pillarone/riskanalytics/domain/pc/underwriting/UnderwritingInfoUtilities.java:41-74 | with equal positive counts, `difference` drops the count and keeps the raw total while `calculateNet` keeps the count and the average; the amounts agree |
| UnderwritingInfoUtilities.DifferenceInto | src/groovy/org/pillarone/riskanalytics/domain/pc/underwriting/UnderwritingInfoUtilities.java:76-84 | each minuend record becomes itself minus the subtrahend at its position, in place; the output is the given list followed by the very same minuend records |
| UnderwritingInfoUtilities.DifferenceAll | src/groovy/org/pillarone/riskanalytics/domain/pc/underwriting/UnderwritingInfoUtilities.java:87-92 | the same into a new list, which is exactly the minuend list |
| UnderwritingInfoUtilities.MatchIndex | src/groovy/org/pillarone/riskanalytics/domain/pc/underwriting/UnderwritingInfoUtilities.java:156-163 | -1 exactly when no candidate belongs to the reference; otherwise the first candidate that belongs to it |
| UnderwritingInfoUtilities.FindUnderwritingInfo | src/groovy/org/pillarone/riskanalytics/domain/pc/underwriting/UnderwritingInfoUtilities.java:156-163 | for candidates the loop can examine, the search returns `Lookup`: the first candidate whose lineage is the reference or its lineage, or null |
| UnderwritingInfoUtilities.LookupFindsMatch | src/groovy/org/pillarone/riskanalytics/domain/pc/underwriting/UnderwritingInfoUtilities.java:156-163 | the lookup is null exactly when nothing matches, and a found record is a matching candidate |
| UnderwritingInfoUtilities.CalculateNetAll | src/groovy/org/pillarone/riskanalytics/domain/pc/underwriting/UnderwritingInfoUtilities.java:110-125 | one fresh net entry per gross record, in order: the net with the matching ceded record if any, else a copy whose lineage is the gross record |
| UnderwritingInfoUtilities.CalculateNetInto | src/groovy/org/pillarone/riskanalytics/domain/pc/underwriting/UnderwritingInfoUtilities.java:129-143 | the given list is kept as a prefix, followed by the same net entries |
| UnderwritingInfoUtilities.SetCommissionZero | src/groovy/org/pillarone/riskanalytics/domain/pc/underwriting/UnderwritingInfoUtilities.java:146-154 | fresh copies in order, with commission 0 and everything else as copied |
| UnderwritingInfoUtilities.WithoutCommissionTotals | src/groovy/org/pillarone/riskanalytics/domain/pc/underwriting/UnderwritingInfoUtilities.java:146-154 | the copies have total commission 0 and the other totals of the input |
| UnderwritingInfoUtilities.Segregate | src/groovy/org/pillarone/riskanalytics/domain/pc/underwriting/UnderwritingInfoUtilities.java:171-187 | no or an empty contract list accepts all; otherwise listed records go to accepted and the rest to rejected when given, in order |
| UnderwritingInfoUtilities.SegregationPartitions | src/groovy/org/pillarone/riskanalytics/domain/pc/underwriting/UnderwritingInfoUtilities.java:171-187 | accepted and rejected together are the input as a multiset; accepted ones are listed, rejected ones are not |
| Commissions.CompiledLimits | src/groovy/org/pillarone/riskanalytics/domain/pc/reinsurance/commissions/SlidingCommissionStrategy.java:100-109 | the limit list is minus infinity followed by each row's limit in row order |
| Commissions.CompiledRates | src/groovy/org/pillarone/riskanalytics/domain/pc/reinsurance/commissions/SlidingCommissionStrategy.java:96-109 | the rate map's keys are minus infinity and the rows' limits |
| Commissions.GreatestMatchingBound | src/groovy/org/pillarone/riskanalytics/domain/pc/reinsurance/commissions/SlidingCommissionStrategy.java:74-79 | the result is minus infinity or a matching limit, and no matching limit is greater |
| Commissions.MatchingBoundHasRate | src/groovy/org/pillarone/riskanalytics/domain/pc/reinsurance/commissions/SlidingCommissionStrategy.java:74-80 | the limit the search finds always has a rate in the map |
| Commissions.CommissionRate | src/groovy/org/pillarone/riskanalytics/domain/pc/reinsurance/commissions/SlidingCommissionStrategy.java:74-80 | the rate is 0 when no row's limit lies at or below the loss ratio, otherwise the rate of the last row carrying the greatest such limit |
| Commissions.LossRatioOf | src/groovy/org/pillarone/riskanalytics/domain/pc/reinsurance/commissions/SlidingCommissionStrategy.java:63-71 | a nonzero premium gives the quotient (times the premium it is the claims); a zero premium gives an infinity with the sign of the claims, or NaN with no claims |
| Commissions.WithCommission | src/groovy/org/pillarone/riskanalytics/domain/pc/reinsurance/commissions/SlidingCommissionStrategy.java:82-91 | only the commission changes; additively it drops by occurrences times premium times rate, replacing it becomes minus premium times rate; no occurrence changes nothing |
| Commissions.SlidingCommissionStrategy.constructor | src/groovy/org/pillarone/riskanalytics/domain/pc/reinsurance/commissions/SlidingCommissionStrategy.java:44-50 | the strategy starts with its table and an empty cache |
| Commissions.SlidingCommissionStrategy.SetCommissionRates | src/groovy/org/pillarone/riskanalytics/domain/pc/reinsurance/commissions/SlidingCommissionStrategy.java:94-111 | the loop fills the cache with the compiled limits and rates |
| Commissions.SlidingCommissionStrategy.CalculateCommission | src/groovy/org/pillarone/riskanalytics/domain/pc/reinsurance/commissions/SlidingCommissionStrategy.java:62-92 | the cache is filled on first use and kept afterwards; every record's figures become `WithCommission` of its old figures at the rate for the loss ratio of the claim total over the premium total |
| Commissions.SumUltimates | src/groovy/org/pillarone/riskanalytics/domain/pc/reinsurance/commissions/SlidingCommissionStrategy.java:65-67 | the claim loop sums the ultimates |
| Commissions.SumPremiums | src/groovy/org/pillarone/riskanalytics/domain/pc/reinsurance/commissions/SlidingCommissionStrategy.java:68-70 | the premium loop sums the written premiums |
| Commissions.HighestMatchingLowerBound | src/groovy/org/pillarone/riskanalytics/domain/pc/reinsurance/commissions/SlidingCommissionStrategy.java:74-79 | the running-max loop computes `GreatestMatchingBound` |
| Commissions.WithCommissionStep | src/groovy/org/pillarone/riskanalytics/domain/pc/reinsurance/commissions/SlidingCommissionStrategy.java:82-91 | one more occurrence of a record in the list is one more pass of the loop body |
| Commissions.ApplyCommission | src/groovy/org/pillarone/riskanalytics/domain/pc/reinsurance/commissions/SlidingCommissionStrategy.java:82-91 | every record is updated once per occurrence in the list, additively or by replacement |
| Commissions.RateIgnoresLimitOrder | src/groovy/org/pillarone/riskanalytics/domain/pc/reinsurance/commissions/SlidingCommissionStrategy.java:74-79 | the search result does not depend on the order of the limits |
| Commissions.LaterRowOverwrites | src/groovy/org/pillarone/riskanalytics/domain/pc/reinsurance/commissions/SlidingCommissionStrategy.java:103-108 | a later row overwrites an earlier one with the same limit: the rate under a row's limit is that of the last row carrying it, for any table |
| Commissions.CompiledRateAt | src/groovy/org/pillarone/riskanalytics/domain/pc/reinsurance/commissions/SlidingCommissionStrategy.java:100-109 | with increasing limits, each row's limit maps to that row's rate |
| Commissions.RateInBand | src/groovy/org/pillarone/riskanalytics/domain/pc/reinsurance/commissions/SlidingCommissionStrategy.java:19-32 | with increasing limits, a loss ratio from a row's limit up to, not including, the next limit gets that row's rate; the last band is unbounded |
| Commissions.NoLimitBelowFirstBand | src/groovy/org/pillarone/riskanalytics/domain/pc/reinsurance/commissions/SlidingCommissionStrategy.java:25-28 | NaN, minus infinity and ratios below the first limit match no row |
| Commissions.RateBelowFirstBand | src/groovy/org/pillarone/riskanalytics/domain/pc/reinsurance/commissions/SlidingCommissionStrategy.java:25-25 | below the first limit, or with no rows, the rate is 0 |
| Commissions.RateAtNegInf | src/groovy/org/pillarone/riskanalytics/domain/pc/reinsurance/commissions/SlidingCommissionStrategy.java:100-102 | no row overwrites the rate 0 of the implicit first band |
| Commissions.RateForZeroPremium | src/groovy/org/pillarone/riskanalytics/domain/pc/reinsurance/commissions/SlidingCommissionStrategy.java:71-80 | with zero total premium, non-positive claims give rate 0 and positive claims the last row's rate |
| Commissions.SlidingScaleExample | src/groovy/org/pillarone/riskanalytics/domain/pc/reinsurance/commissions/SlidingCommissionStrategy.java:19-32 | bands (0,0), (0.5,0.2), (1,0.5) give 0 at -1 and 0.3, 0.2 at 0.5 and 0.99, 0.5 at 1 and 5 |
| Commissions.DefaultTableRate | src/groovy/org/pillarone/riskanalytics/domain/pc/reinsurance/commissions/SlidingCommissionStrategy.java:44-47 | the table a strategy starts with gives rate 0 to every loss ratio, NaN and the infinities included |
| Commissions.WithCommissionOnce | src/groovy/org/pillarone/riskanalytics/domain/pc/reinsurance/commissions/SlidingCommissionStrategy.java:82-91 | for a record listed once: additive lowers commission by premium times rate, replacing sets it to minus that; nothing else changes |
| Commissions.ReplacingIsIdempotent | src/groovy/org/pillarone/riskanalytics/domain/pc/reinsurance/commissions/SlidingCommissionStrategy.java:87-91 | replacing twice with the same rate is replacing once |
| Commissions.AdditiveTotal | src/groovy/org/pillarone/riskanalytics/domain/pc/reinsurance/commissions/SlidingCommissionStrategy.java:82-86 | additively, the total commission drops by total premium times rate and the total premium stays |
| NetCalculator.UnderwritingInfoNetCalculator.constructor | src/groovy/org/pillarone/riskanalytics/domain/pc/aggregators/UnderwritingInfoNetCalculator.java:18-22 | the calculator starts with its in channels and empty out channels |
| NetCalculator.Gating | src/groovy/org/pillarone/riskanalytics/domain/pc/aggregators/UnderwritingInfoNetCalculator.java:24-44 | the error exactly for ceded records without gross records; no output without input for it and a consumer wired to it or to the net channel |
| NetCalculator.UnderwritingInfoNetCalculator.DoCalculation | src/groovy/org/pillarone/riskanalytics/domain/pc/aggregators/UnderwritingInfoNetCalculator.java:24-44 | the error exactly for ceded without gross, with nothing emitted; otherwise the gross aggregate, the ceded records and the net of the two aggregates are appended exactly as `Gating` says |
| NetCalculator.UnderwritingInfoNetCalculator.EmitGrossAggregate | src/groovy/org/pillarone/riskanalytics/domain/pc/aggregators/UnderwritingInfoNetCalculator.java:29-34 | with gross records and a consumer, their fresh aggregate is appended; otherwise a zero record is kept |
| NetCalculator.UnderwritingInfoNetCalculator.EmitCeded | src/groovy/org/pillarone/riskanalytics/domain/pc/aggregators/UnderwritingInfoNetCalculator.java:30-40 | with a consumer, the ceded records are appended unaggregated and their aggregate (zero when there are none) is returned |
| NetCalculator.UnderwritingInfoNetCalculator.EmitNet | src/groovy/org/pillarone/riskanalytics/domain/pc/aggregators/UnderwritingInfoNetCalculator.java:41-43 | when wanted, a fresh `calculateNet` of the two aggregates is appended |
| NetCalculator.NetComesWithGross | src/groovy/org/pillarone/riskanalytics/domain/pc/aggregators/UnderwritingInfoNetCalculator.java:25-43 | a net record comes only with gross records and their aggregate; with both inputs empty nothing is emitted; the error case is exactly ceded without gross |
| NetCalculator.NetCalculationExample | src/groovy/org/pillarone/riskanalytics/domain/pc/aggregators/UnderwritingInfoNetCalculator.java:41-43 | gross 100/10 policies against ceded 30 and commission 20 nets to premium 70, commission -20, 10 policies; a ceded premium of -30 nets to 130 |
| Composer.ComposedCopy | src/groovy/org/pillarone/riskanalytics/domain/pc/underwriting/UnderwritingLineOfBusinessComposer.java:44-52 | a fresh copy with the portioned figures and the same contract, its own lineage root, with origin and line of business the segment and no sender |
| Composer.ComposeAll | src/groovy/org/pillarone/riskanalytics/domain/pc/underwriting/UnderwritingLineOfBusinessComposer.java:37-55 | fresh records whose figures and contracts are those of the listed records, in order, portioned by their rows, each self-rooted |
| Composer.UnderwritingLineOfBusinessComposer.constructor | src/groovy/org/pillarone/riskanalytics/domain/pc/underwriting/UnderwritingLineOfBusinessComposer.java:27-32 | the composer starts with its table and empty channels |
| Composer.UnderwritingLineOfBusinessComposer.DoCalculation | src/groovy/org/pillarone/riskanalytics/domain/pc/underwriting/UnderwritingLineOfBusinessComposer.java:35-58 | the out channel keeps its records and gains one fresh composed record per listed input, in input order, with the first input's sender as segment; nothing for an empty input |
| Composer.UnderwritingLineOfBusinessComposer.FilterInChannel | src/groovy/org/pillarone/riskanalytics/domain/pc/underwriting/UnderwritingLineOfBusinessComposer.java:61-76 | with value rows, the source records whose origin's normalized name is listed are appended in order; with none, nothing |
| Composer.Portioned | src/groovy/org/pillarone/riskanalytics/domain/pc/underwriting/UnderwritingLineOfBusinessComposer.java:47-50 | the portion keeps the policy count and exposure basis; a zero portion clears the four amounts but, unlike `scale`, keeps the policies |
| Composer.PortionedAgainstScaled | src/groovy/org/pillarone/riskanalytics/domain/pc/underwriting/UnderwritingLineOfBusinessComposer.java:47-50 | the portion scales premium, sum insured, maximum and commission as `scale` would and leaves every other figure; total sum insured scales too |
| Composer.PortionsCompose | src/groovy/org/pillarone/riskanalytics/domain/pc/underwriting/UnderwritingLineOfBusinessComposer.java:47-50 | portion 1 changes nothing; two portions compose by multiplication |
| Composer.ComposedLength | src/groovy/org/pillarone/riskanalytics/domain/pc/underwriting/UnderwritingLineOfBusinessComposer.java:40-55 | there are as many composed records as selected positions |
| Composer.ComposedFiguresAt | src/groovy/org/pillarone/riskanalytics/domain/pc/underwriting/UnderwritingLineOfBusinessComposer.java:40-55 | the k-th composed figures are the portioned copy of the k-th selected record, with that record's portion |
| Composer.PickedAt | src/groovy/org/pillarone/riskanalytics/domain/pc/underwriting/UnderwritingLineOfBusinessComposer.java:40-55 | the k-th picked contract is that of the k-th selected record |
| Composer.SelectedInOrder | src/groovy/org/pillarone/riskanalytics/domain/pc/underwriting/UnderwritingLineOfBusinessComposer.java:40-55 | selected positions increase and include every position whose name the column lists |
| Composer.SelectedExactly | src/groovy/org/pillarone/riskanalytics/domain/pc/underwriting/UnderwritingLineOfBusinessComposer.java:40-55 | a position is selected exactly when its name is listed, and then exactly once |
| Composer.AdmittedAreSelected | src/groovy/org/pillarone/riskanalytics/domain/pc/underwriting/UnderwritingLineOfBusinessComposer.java:61-76 | when names equal normalized names, every record the filter admits is composed |
| Composer.AllSelected | src/groovy/org/pillarone/riskanalytics/domain/pc/underwriting/UnderwritingLineOfBusinessComposer.java:40-55 | when every name is listed, every position is selected |
| Bands.BandFigures | src/groovy/org/pillarone/riskanalytics/domain/pc/underwriting/RiskBands.java:76-81 | a band's figures set only the four columns, with the as-if premium equal to the premium; every other figure is that of an empty packet |
| Bands.BandsFigures | src/groovy/org/pillarone/riskanalytics/domain/pc/underwriting/RiskBands.java:74-85 | one figures value per value row, in row order |
| Bands.BandRecord | src/groovy/org/pillarone/riskanalytics/domain/pc/underwriting/RiskBands.java:76-84 | a fresh record with the row's premium (also as-if), maximum, average and count, its own lineage root, with the component as origin |
| Bands.RiskBands.constructor | src/groovy/org/pillarone/riskanalytics/domain/pc/underwriting/RiskBands.java:34-36 | the component starts with its table and no cache or stored records |
| Bands.RiskBands.InitSimulation | src/groovy/org/pillarone/riskanalytics/domain/pc/underwriting/RiskBands.java:62-70 | the row count and column indices are computed on the first call and kept afterwards |
| Bands.RiskBands.InitDuringFirstIteration | src/groovy/org/pillarone/riskanalytics/domain/pc/underwriting/RiskBands.java:72-87 | in the first iteration, one fresh self-rooted record per value row is stored, in row order; otherwise the store is unchanged |
| Bands.RiskBands.DoCalculation | src/groovy/org/pillarone/riskanalytics/domain/pc/underwriting/RiskBands.java:56-60 | initializes and appends the stored records to the out channel; later iterations emit the same stored records |
| Bands.BandFiguresReadsColumns | src/groovy/org/pillarone/riskanalytics/domain/pc/underwriting/RiskBands.java:77-81 | a band carries each row value under its title whatever the column order, and as-if premium equals premium |
| Bands.BandTotals | src/groovy/org/pillarone/riskanalytics/domain/pc/underwriting/RiskBands.java:74-85 | the bands' premium and policy totals are the table's column totals, and their commission total is 0 |
| Bands.DefaultBand | src/groovy/org/pillarone/riskanalytics/domain/pc/underwriting/RiskBands.java:34-36 | the default table is well formed and gives one all-zero band |
| Basics.IndexOf | src/groovy/org/pillarone/riskanalytics/domain/pc/underwriting/UnderwritingLineOfBusinessComposer.java:42-42 | the first position of a name in a column, or -1 exactly when it is absent |

## Left out

- Double arithmetic: rounding, signed zeros, and NaN or infinity outside the loss ratio. Numbers are exact reals, so `Math.max` and the `==` tests behave as on reals.
- `UnderwritingInfo.getValuesToSave`, `getFieldNames` and `toString`: persistence and diagnostics, with no bookkeeping logic.
- `UnderwritingInfoUtilities.sameContent`: it delegates to `ExposureInfoUtilities`, which is not part of this model.
- `CededUnderwritingInfo` is treated as `UnderwritingInfo`. `CededUnderwritingInfoUtilities.aggregate` is taken to behave like `aggregate`, and the packet factories to create all-zero records and copy like `copy()`. These classes are not part of this model.
- Java `assert` statements: they are disabled by default and are not preconditions here. The policy-count assertion of `calculateNet` constrains nothing.
- `Underwriting.ExposureScaleValue`, `Underwriting.FrequencyScaleValue`: the `return 0` and `return 1` after the switches are unreachable for the enum values these functions know, so they are not modelled. Exposure bases beyond the three `scaleValue` names are not part of this model.
- Underwriting.UnderwritingInfo.Plus: the numbers are one `figures` field, assigned as a whole. The model does not capture a partially updated record, which no caller can observe.
- Underwriting.UnderwritingInfo.Minus: the same single assignment of `figures`.
- Underwriting.UnderwritingInfo.Scale: the same single assignment of `figures`.
- UnderwritingInfoUtilities.FindUnderwritingInfo: requires a lineage reference on every candidate the loop examines (`Examinable`): all of them when none matches, otherwise those up to the first match. The Java lookup dereferences exactly these and throws a NullPointerException on a missing one. `Object.equals` on records is taken to be identity.
- UnderwritingInfoUtilities.CalculateNetAll: requires a lineage reference on every ceded record (`Rooted`). This is stronger than the Java code needs: a ceded record after the first match for every gross record is never examined.
- UnderwritingInfoUtilities.CalculateNetInto: the same `Rooted` requirement on the ceded records, stronger than the Java code needs in the same way.
- UnderwritingInfoUtilities.DifferenceInto: requires at least as many subtrahend records as minuend records, because Java's `get(i)` throws otherwise. It also requires that no minuend record occurs twice and that no subtrahend record is a minuend record changed at an earlier position (`Unaliased`). The model does not state the figures for lists with such aliasing.
- UnderwritingInfoUtilities.DifferenceAll: the same two requirements as `DifferenceInto`.
- Commissions.SlidingCommissionStrategy.CalculateCommission: a record listed several times is updated once per occurrence. The postcondition states this through the record's multiplicity. `isFirstPeriod` has no effect in the code and none in the model.
- Commissions.CompiledRates: `LinkedHashMap` insertion order and the distinct map keys of `0.0` and `-0.0` are not modelled. Only the key-to-rate function is.
- Composer.UnderwritingLineOfBusinessComposer.DoCalculation: requires every input record to have an origin, because the Java code dereferences it. The `ISegmentMarker` cast of the sender is not modelled. The sender is stored as the line of business whatever its kind.
- Composer.UnderwritingLineOfBusinessComposer.FilterInChannel: requires every source record to have an origin when the table has value rows, because the Java loop then dereferences it; with no value rows nothing is read. Only the in-channel branch is modelled. Other channels go to the framework's `Component.filterInChannel`, which is not part of this model. `doCalculation` matches on the origin's name, while the filter matches on its normalized name. `Composer.AdmittedAreSelected` covers the case where the two agree.
- Bands.RiskBands.DoCalculation: requires a stored list on later iterations, because the Java code would add a missing list and throw. The table must be well formed (`WellFormedTable`): the four titles are present and every row has one value per title. `InputFormatConverter` is not modelled; values are taken as reals.
- Bands.RiskBands.InitDuringFirstIteration: requires the cache that `initSimulation` fills, because the Java loop unboxes the cached row count and would throw without it.
- Bands.RiskBands.constructor: requires a well-formed table. `getColumnIndex` of a missing title is not modelled.
- `MultiCoverAttributeReinsuranceContract` and the parameter or marker holders with no logic (`LineOfBusinessCoverAttributeStrategy`, `EventAalLimitStrategy`, `AllApplicableStrategy`, `IClaimsGeneratorStrategy`, `LogicArguments`, `UnderwritingResult`): outside the bookkeeping core.
