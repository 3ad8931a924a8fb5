/** The static helpers over underwriting-info records: zeroing, aggregation of a list into one
    record, gross-minus-ceded differences (single and list-wise, in place and into fresh
    records), the lookup of the ceded record that belongs to a gross one, dropping the
    commission of a list, and splitting a list by reinsurance contract. */
module UnderwritingInfoUtilities {
  import opened Basics
  import opened Underwriting

  // ---------------------------------------------------------------------------------------
  // setZero

  /** What `setZero` makes of a record's figures: premium (written and as-if), commission,
      policy count, sum insured and maximum sum insured drop to 0; the fixed and variable
      parts and the exposure basis stay. */
  function Zeroed(f: Figures): (r: Figures)
    ensures FullyCancelled(r) && TotalSumInsured(r) == 0.0
    ensures r.fixedPremium == f.fixedPremium && r.variablePremium == f.variablePremium
    ensures r.fixedCommission == f.fixedCommission && r.variableCommission == f.variableCommission
    ensures r.exposureDefinition == f.exposureDefinition
  {
    f.(premiumWrittenAsIf := 0.0, numberOfPolicies := 0.0, sumInsured := 0.0, maxSumInsured := 0.0,
       premiumWritten := 0.0, commission := 0.0)
  }

  method SetZero(u: UnderwritingInfo)
    modifies u`figures
    ensures u.figures == Zeroed(old(u.figures))
  {
    u.figures := Zeroed(u.figures);
  }

  /** Zeroing twice is zeroing once, and a zeroed record adds nothing to the premium, the
      commission or the policy count of another one. */
  lemma ZeroedIsNeutral(f: Figures, g: Figures)
    ensures Zeroed(Zeroed(f)) == Zeroed(f)
    ensures var r := Combined(g, Zeroed(f));
      && r.premiumWritten == g.premiumWritten && r.commission == g.commission
      && r.numberOfPolicies == g.numberOfPolicies
      && (g.numberOfPolicies >= 0.0 ==> TotalSumInsured(r) == TotalSumInsured(g))
  {
    var r := Combined(g, Zeroed(f));
    if g.numberOfPolicies == 0.0 {
      assert TotalSumInsured(r) == 0.0 * r.sumInsured == 0.0;
    }
  }

  // ---------------------------------------------------------------------------------------
  // aggregate

  /** What `aggregate` computes from the figures of a non-empty list: starting from an empty
      packet, each record is added with `plus` and then its exposure basis overwrites the
      running one. */
  function Summed(vs: seq<Figures>): (r: Figures)
    ensures r.premiumWrittenAsIf == 0.0
  {
    if |vs| == 0 then Zero
    else
      var last := vs[|vs| - 1];
      Combined(Summed(vs[..|vs| - 1]), last).(exposureDefinition := last.exposureDefinition)
  }

  method Aggregate(infos: seq<UnderwritingInfo>) returns (r: UnderwritingInfo?)
    ensures r == null <==> |infos| == 0
    ensures r != null ==> fresh(r) && r.figures == Summed(ValuesOf(infos)) && r.Tags() == NoTags
  {
    if |infos| == 0 {
      return null;
    }
    ghost var vs := ValuesOf(infos);
    var summed := new UnderwritingInfo();
    var i := 0;
    while i < |infos|
      invariant 0 <= i <= |infos|
      invariant fresh(summed)
      invariant summed.figures == Summed(vs[..i])
      invariant summed.Tags() == NoTags
      invariant forall k :: 0 <= k < |infos| ==> infos[k].figures == vs[k]
    {
      var _ := summed.Plus(infos[i]);
      summed.figures := summed.figures.(exposureDefinition := infos[i].figures.exposureDefinition);
      assert vs[..i + 1][..i] == vs[..i];
      i := i + 1;
    }
    assert vs[..i] == vs == ValuesOf(infos);
    r := summed;
  }

  /** The aggregate carries the exposure basis of the last record. */
  lemma SummedExposure(vs: seq<Figures>)
    requires |vs| > 0
    ensures Summed(vs).exposureDefinition == vs[|vs| - 1].exposureDefinition
  {
  }

  /** Every additive field of the aggregate is the sum of that field over the list. */
  lemma {:induction false} SummedAdds(vs: seq<Figures>, k: AdditiveField)
    ensures FieldOf(Summed(vs), k) == Total(vs, k)
  {
    if |vs| > 0 {
      SummedAdds(vs[..|vs| - 1], k);
      CombinedAdds(Summed(vs[..|vs| - 1]), vs[|vs| - 1], k);
    }
  }

  /** The scale values of an aggregate are the list totals: its premium-based and policy-based
      exposure and frequency values add up over the records. */
  lemma SummedScaleValues(vs: seq<Figures>)
    ensures ExposureScaleValue(Summed(vs), PremiumWritten) == Total(vs, Premium)
    ensures ExposureScaleValue(Summed(vs), NumberOfPolicies) == Total(vs, Policies)
    ensures FrequencyScaleValue(Summed(vs), FrequencyPerPolicy) == Total(vs, Policies)
    ensures ExposureScaleValue(Summed(vs), Absolute) == 1.0
  {
    SummedAdds(vs, Premium);
    SummedAdds(vs, Policies);
  }

  /** With non-negative policy counts, the aggregate's total sum insured (count times average)
      is the sum of the records' total sums insured. */
  lemma {:induction false} SummedTotalSumInsured(vs: seq<Figures>)
    requires forall i :: 0 <= i < |vs| ==> vs[i].numberOfPolicies >= 0.0
    ensures Summed(vs).numberOfPolicies >= 0.0
    ensures TotalSumInsured(Summed(vs)) == TotalOfSumsInsured(vs)
  {
    if |vs| > 0 {
      var prefix, last := vs[..|vs| - 1], vs[|vs| - 1];
      assert forall i :: 0 <= i < |prefix| ==> prefix[i] == vs[i];
      SummedTotalSumInsured(prefix);
      var p := Summed(prefix);
      var c := Combined(p, last);
      assert TotalSumInsured(Summed(vs)) == TotalSumInsured(c);
      CombinedTotalSumInsured(p, last);
      assert TotalOfSumsInsured(vs) == TotalOfSumsInsured(prefix) + TotalSumInsured(last);
      if c.numberOfPolicies <= 0.0 {
        assert p.numberOfPolicies == 0.0 && last.numberOfPolicies == 0.0;
        ZeroCountZeroTotal(p);
        ZeroCountZeroTotal(last);
        ZeroCountZeroTotal(c);
      }
    }
  }

  lemma ZeroCountZeroTotal(f: Figures)
    requires f.numberOfPolicies == 0.0
    ensures TotalSumInsured(f) == 0.0
  {
  }

  /** The aggregate's maximum sum insured is the largest of 0 and the records' maxima. */
  lemma {:induction false} SummedMaxSumInsured(vs: seq<Figures>)
    ensures Summed(vs).maxSumInsured >= 0.0
    ensures forall i :: 0 <= i < |vs| ==> Summed(vs).maxSumInsured >= vs[i].maxSumInsured
    ensures Summed(vs).maxSumInsured == 0.0 ||
            exists i :: 0 <= i < |vs| && Summed(vs).maxSumInsured == vs[i].maxSumInsured
  {
    if |vs| > 0 {
      var prefix := vs[..|vs| - 1];
      SummedMaxSumInsured(prefix);
      assert forall i :: 0 <= i < |prefix| ==> prefix[i] == vs[i];
    }
  }

  /** Aggregating one record copies its figures, except that the as-if premium starts at 0
      and that without a positive policy count the sum-insured field holds the raw total. */
  lemma SummedSingleton(f: Figures)
    requires f.maxSumInsured >= 0.0
    ensures Summed([f]) == f.(premiumWrittenAsIf := 0.0, sumInsured := Summed([f]).sumInsured)
    ensures f.numberOfPolicies > 0.0 ==> Summed([f]).sumInsured == f.sumInsured
    ensures f.numberOfPolicies <= 0.0 ==> Summed([f]).sumInsured == TotalSumInsured(f)
  {
    assert [f][..0] == [];
    if f.numberOfPolicies > 0.0 {
      DivideBack(f.sumInsured, f.numberOfPolicies, f.numberOfPolicies * f.sumInsured);
    }
  }

  // ---------------------------------------------------------------------------------------
  // difference and calculateNet of two records

  /** `difference(gross, ceded)`: a copy of the gross record minus the ceded one (a null ceded
      record leaves the plain copy). */
  method Difference(gross: UnderwritingInfo, ceded: UnderwritingInfo?) returns (net: UnderwritingInfo)
    ensures fresh(net)
    ensures ceded == null ==> net.figures == Copied(gross.figures)
    ensures ceded != null ==> net.figures == Subtracted(Copied(gross.figures), ceded.figures)
    ensures net.Tags() == CopiedTags(gross.Tags())
  {
    net := gross.Copy();
    var _ := net.Minus(ceded);
  }

  /** What `calculateNet(gross, ceded)` makes of the figures: the amounts are gross minus ceded
      as in `minus`, but the policy count is the gross one and the average sum insured is the
      difference of the total sums insured spread over the gross count; a fully cancelled net
      carries no policies. The net never carries a policy count other than the gross one or
      none, and the copy leaves it no as-if premium. */
  function NetOf(gross: Figures, ceded: Figures): (r: Figures)
    ensures r.premiumWritten == gross.premiumWritten - ceded.premiumWritten
    ensures r.commission == gross.commission - ceded.commission
    ensures r.premiumWrittenAsIf == 0.0 && r.maxSumInsured == gross.maxSumInsured
  {
    var d := Subtracted(Copied(gross), ceded);
    var total := gross.sumInsured * gross.numberOfPolicies - ceded.sumInsured * ceded.numberOfPolicies;
    var s := if gross.numberOfPolicies > 0.0 then total / gross.numberOfPolicies else total;
    d.(numberOfPolicies := if d.premiumWritten == 0.0 && d.commission == 0.0 && s == 0.0 then 0.0
                           else gross.numberOfPolicies,
       sumInsured := s)
  }

  method CalculateNet(gross: UnderwritingInfo, ceded: UnderwritingInfo) returns (net: UnderwritingInfo)
    ensures fresh(net)
    ensures net.figures == NetOf(gross.figures, ceded.figures)
    ensures net.Tags() == CopiedTags(gross.Tags()).(original := ceded.originalUnderwritingInfo)
  {
    net := gross.Copy();
    net.originalUnderwritingInfo := ceded.originalUnderwritingInfo;
    var _ := net.Minus(ceded);
    var g, c, f := gross.figures, ceded.figures, net.figures;
    f := f.(numberOfPolicies := g.numberOfPolicies);
    f := f.(sumInsured := g.sumInsured * g.numberOfPolicies - c.sumInsured * c.numberOfPolicies);
    if f.numberOfPolicies > 0.0 {
      f := f.(sumInsured := f.sumInsured / f.numberOfPolicies);
    }
    if f.premiumWritten == 0.0 && f.commission == 0.0 && f.sumInsured == 0.0 {
      f := f.(numberOfPolicies := 0.0);
    }
    net.figures := f;
  }

  /** The net keeps the gross policy count unless it is fully cancelled, and then has none. */
  lemma NetOfPolicies(gross: Figures, ceded: Figures)
    ensures FullyCancelled(NetOf(gross, ceded)) ==> NetOf(gross, ceded).numberOfPolicies == 0.0
    ensures !FullyCancelled(NetOf(gross, ceded)) ==> NetOf(gross, ceded).numberOfPolicies == gross.numberOfPolicies
  {
  }

  /** The net amounts are gross minus ceded, the maximum sum insured and the as-if premium are
      the gross ones kept by the copy, and, with gross policies, the net total sum insured is
      gross total minus ceded total (a fully cancelled net has both totals 0). */
  lemma NetOfIsGrossMinusCeded(gross: Figures, ceded: Figures)
    ensures forall k :: k != Policies ==> FieldOf(NetOf(gross, ceded), k) == FieldOf(gross, k) - FieldOf(ceded, k)
    ensures NetOf(gross, ceded).maxSumInsured == gross.maxSumInsured
    ensures NetOf(gross, ceded).premiumWrittenAsIf == 0.0
    ensures gross.numberOfPolicies > 0.0 ==>
            TotalSumInsured(NetOf(gross, ceded)) == TotalSumInsured(gross) - TotalSumInsured(ceded)
  {
    var r := NetOf(gross, ceded);
    if gross.numberOfPolicies > 0.0 {
      var total := gross.sumInsured * gross.numberOfPolicies - ceded.sumInsured * ceded.numberOfPolicies;
      assert r.sumInsured == total / gross.numberOfPolicies;
      assert total == r.sumInsured * gross.numberOfPolicies by {
        DivideBack(r.sumInsured, gross.numberOfPolicies, total);
      }
      assert total == TotalSumInsured(gross) - TotalSumInsured(ceded);
      if FullyCancelled(r) {
        assert r.numberOfPolicies == 0.0 && r.sumInsured == 0.0;
        assert total == 0.0 * gross.numberOfPolicies == 0.0;
        assert TotalSumInsured(r) == 0.0 * r.sumInsured == 0.0;
      } else {
        assert TotalSumInsured(r) == gross.numberOfPolicies * r.sumInsured;
      }
    }
  }

  /** Netting a portfolio against itself cancels it completely, policies included. It is one
      case of the fully cancelled net of `NetOfPolicies`: differing portfolios whose premium,
      commission and total sum insured cancel drop the count as well. */
  lemma NetOfEqualPortfolios(f: Figures)
    ensures FullyCancelled(NetOf(f, f)) && NetOf(f, f).numberOfPolicies == 0.0
  {
  }

  /** Why `calculateNet` is not `difference`: with equal gross and ceded counts, the plain
      difference drops the policy count to 0 and leaves the raw total in the sum-insured field,
      while the net keeps the gross count and the average; the amounts agree. */
  lemma NetOfAgainstDifference(gross: Figures, ceded: Figures)
    requires gross.numberOfPolicies == ceded.numberOfPolicies > 0.0
    requires !FullyCancelled(NetOf(gross, ceded))
    ensures Subtracted(Copied(gross), ceded).numberOfPolicies == 0.0
    ensures NetOf(gross, ceded).numberOfPolicies == gross.numberOfPolicies
    ensures NetOf(gross, ceded).sumInsured * gross.numberOfPolicies == Subtracted(Copied(gross), ceded).sumInsured
    ensures forall k :: k != Policies ==> FieldOf(NetOf(gross, ceded), k) == FieldOf(Subtracted(Copied(gross), ceded), k)
  {
    NetOfIsGrossMinusCeded(gross, ceded);
  }

  // ---------------------------------------------------------------------------------------
  // difference of two lists, in place

  /** No record occurs twice in the minuend list, and no subtrahend record is a minuend record
      that an earlier position has already changed. */
  predicate Unaliased(minuend: seq<UnderwritingInfo>, subtrahend: seq<UnderwritingInfo>)
  {
    && (forall i, j :: 0 <= i < j < |minuend| ==> minuend[i] != minuend[j])
    && (forall i, j :: 0 <= i < j < |minuend| && j < |subtrahend| ==> minuend[i] != subtrahend[j])
  }

  /** `difference(minuend, subtrahend, difference)`: subtracts the subtrahend records position
      by position from the minuend records, in place, and appends the minuend records to
      `difference`. Extra subtrahend records are ignored. */
  method DifferenceInto(minuend: seq<UnderwritingInfo>, subtrahend: seq<UnderwritingInfo>,
                        difference: seq<UnderwritingInfo>) returns (out: seq<UnderwritingInfo>)
    requires |minuend| <= |subtrahend|
    requires Unaliased(minuend, subtrahend)
    modifies set i | 0 <= i < |minuend| :: minuend[i]
    ensures out == difference + minuend
    ensures forall i :: 0 <= i < |minuend| ==>
      minuend[i].figures == Subtracted(old(minuend[i].figures), old(subtrahend[i].figures))
    ensures forall i :: 0 <= i < |minuend| ==> minuend[i].Tags() == old(minuend[i].Tags())
  {
    out := difference;
    var i := 0;
    while i < |minuend|
      invariant 0 <= i <= |minuend|
      invariant out == difference + minuend[..i]
      invariant forall k :: 0 <= k < i ==>
        minuend[k].figures == Subtracted(old(minuend[k].figures), old(subtrahend[k].figures))
      invariant forall k :: i <= k < |minuend| ==> minuend[k].figures == old(minuend[k].figures)
      invariant forall k :: i <= k < |minuend| ==> subtrahend[k].figures == old(subtrahend[k].figures)
      invariant forall k :: 0 <= k < |minuend| ==> minuend[k].Tags() == old(minuend[k].Tags())
    {
      var _ := minuend[i].Minus(subtrahend[i]);
      out := out + [minuend[i]];
      i := i + 1;
    }
    assert minuend[..i] == minuend;
  }

  /** `difference(minuend, subtrahend)`: the same, into a new list. */
  method DifferenceAll(minuend: seq<UnderwritingInfo>, subtrahend: seq<UnderwritingInfo>)
    returns (out: seq<UnderwritingInfo>)
    requires |minuend| <= |subtrahend|
    requires Unaliased(minuend, subtrahend)
    modifies set i | 0 <= i < |minuend| :: minuend[i]
    ensures out == minuend
    ensures forall i :: 0 <= i < |minuend| ==>
      minuend[i].figures == Subtracted(old(minuend[i].figures), old(subtrahend[i].figures))
    ensures forall i :: 0 <= i < |minuend| ==> minuend[i].Tags() == old(minuend[i].Tags())
  {
    out := DifferenceInto(minuend, subtrahend, []);
  }

  // ---------------------------------------------------------------------------------------
  // findUnderwritingInfo

  /** A candidate belongs to the reference record when its lineage reference is the reference
      record itself or the reference record's own lineage reference. */
  predicate Matches(candidate: UnderwritingInfo, reference: UnderwritingInfo)
    reads candidate, reference
  {
    candidate.originalUnderwritingInfo == reference ||
    candidate.originalUnderwritingInfo == reference.originalUnderwritingInfo
  }

  /** All candidates carry a lineage reference (the lookup dereferences it). */
  predicate Rooted(candidates: seq<UnderwritingInfo>)
    reads candidates
  {
    forall i :: 0 <= i < |candidates| ==> candidates[i].originalUnderwritingInfo != null
  }

  /** Every candidate the lookup examines carries a lineage reference: all of them when none
      matches, otherwise those up to and including the first match. */
  predicate Examinable(candidates: seq<UnderwritingInfo>, reference: UnderwritingInfo)
    reads candidates, reference
  {
    var m := MatchIndex(candidates, reference);
    forall k :: 0 <= k < |candidates| && (m < 0 || k <= m) ==> candidates[k].originalUnderwritingInfo != null
  }

  /** The position of the first candidate that belongs to the reference record, or -1. */
  function MatchIndex(candidates: seq<UnderwritingInfo>, reference: UnderwritingInfo): (i: int)
    reads candidates, reference
    ensures -1 <= i < |candidates|
    ensures i == -1 <==> forall k :: 0 <= k < |candidates| ==> !Matches(candidates[k], reference)
    ensures 0 <= i ==> Matches(candidates[i], reference) &&
                       forall k :: 0 <= k < i ==> !Matches(candidates[k], reference)
  {
    if |candidates| == 0 then -1
    else if Matches(candidates[0], reference) then 0
    else
      var j := MatchIndex(candidates[1..], reference);
      assert forall k :: 1 <= k < |candidates| ==> candidates[k] == candidates[1..][k - 1];
      if j == -1 then -1 else j + 1
  }

  /** The record the lookup finds, or null. */
  function Lookup(candidates: seq<UnderwritingInfo>, reference: UnderwritingInfo): UnderwritingInfo?
    reads candidates, reference
  {
    var i := MatchIndex(candidates, reference);
    if i < 0 then null else candidates[i]
  }

  method FindUnderwritingInfo(candidates: seq<UnderwritingInfo>, reference: UnderwritingInfo)
    returns (r: UnderwritingInfo?)
    requires Examinable(candidates, reference)
    ensures r == Lookup(candidates, reference)
  {
    var i := 0;
    while i < |candidates|
      invariant 0 <= i <= |candidates|
      invariant forall k :: 0 <= k < i ==> !Matches(candidates[k], reference)
    {
      if candidates[i].originalUnderwritingInfo == reference ||
         candidates[i].originalUnderwritingInfo == reference.originalUnderwritingInfo {
        return candidates[i];
      }
      i := i + 1;
    }
    return null;
  }

  /** A record is found exactly when some candidate belongs to the reference, and what is
      found belongs to it. */
  lemma LookupFindsMatch(candidates: seq<UnderwritingInfo>, reference: UnderwritingInfo)
    ensures Lookup(candidates, reference) == null <==>
            forall k :: 0 <= k < |candidates| ==> !Matches(candidates[k], reference)
    ensures Lookup(candidates, reference) != null ==>
            Lookup(candidates, reference) in candidates && Matches(Lookup(candidates, reference), reference)
  {
  }

  // ---------------------------------------------------------------------------------------
  // calculateNet of two lists

  /** The record `calculateNet` puts into the net list for `gross`: if a ceded record belongs to
      it, the net of the two with the ceded record's lineage; otherwise a copy of the gross
      record whose lineage reference is the gross record itself. */
  predicate IsNetEntry(net: UnderwritingInfo, gross: UnderwritingInfo, ceded: seq<UnderwritingInfo>)
    reads net, gross, ceded
  {
    var c := Lookup(ceded, gross);
    if c == null then
      net.figures == Copied(gross.figures) && net.Tags() == CopiedTags(gross.Tags()).(original := gross)
    else
      net.figures == NetOf(gross.figures, c.figures) &&
      net.Tags() == CopiedTags(gross.Tags()).(original := c.originalUnderwritingInfo)
  }

  /** The body of the loops of both list-wise `calculateNet`s, for one gross record. */
  method NetEntry(gross: UnderwritingInfo, subtrahend: seq<UnderwritingInfo>) returns (net: UnderwritingInfo)
    requires Rooted(subtrahend)
    ensures fresh(net) && IsNetEntry(net, gross, subtrahend)
  {
    var ceded := FindUnderwritingInfo(subtrahend, gross);
    if ceded != null {
      net := CalculateNet(gross, ceded);
    } else {
      net := gross.Copy();
      net.originalUnderwritingInfo := gross;
    }
  }

  /** The net list of the gross records: one entry per gross record, in order. */
  predicate NetEntries(nets: seq<UnderwritingInfo>, minuend: seq<UnderwritingInfo>, subtrahend: seq<UnderwritingInfo>)
    reads nets, minuend, subtrahend
  {
    |nets| == |minuend| && forall i :: 0 <= i < |minuend| ==> IsNetEntry(nets[i], minuend[i], subtrahend)
  }

  /** `calculateNet(minuend, subtrahend)`: a new list with one fresh net record per gross
      record. */
  method CalculateNetAll(minuend: seq<UnderwritingInfo>, subtrahend: seq<UnderwritingInfo>)
    returns (difference: seq<UnderwritingInfo>)
    requires Rooted(subtrahend)
    ensures NetEntries(difference, minuend, subtrahend)
    ensures forall u :: u in difference ==> fresh(u)
  {
    difference := [];
    for i := 0 to |minuend|
      invariant |difference| == i
      invariant forall u :: u in difference ==> fresh(u)
      invariant forall k :: 0 <= k < i ==> IsNetEntry(difference[k], minuend[k], subtrahend)
    {
      var net := NetEntry(minuend[i], subtrahend);
      difference := difference + [net];
    }
  }

  /** `calculateNet(minuend, subtrahend, difference)`: appends one fresh net record per gross
      record to `difference`; no existing record changes. */
  method CalculateNetInto(minuend: seq<UnderwritingInfo>, subtrahend: seq<UnderwritingInfo>,
                          difference: seq<UnderwritingInfo>) returns (out: seq<UnderwritingInfo>)
    requires Rooted(subtrahend)
    ensures |out| >= |difference| && out[..|difference|] == difference
    ensures NetEntries(out[|difference|..], minuend, subtrahend)
    ensures forall u :: u in out[|difference|..] ==> fresh(u)
  {
    var added: seq<UnderwritingInfo> := [];
    for i := 0 to |minuend|
      invariant |added| == i
      invariant forall u :: u in added ==> fresh(u)
      invariant forall k :: 0 <= k < i ==> IsNetEntry(added[k], minuend[k], subtrahend)
    {
      var net := NetEntry(minuend[i], subtrahend);
      added := added + [net];
    }
    out := difference + added;
    assert out[|difference|..] == added;
  }

  // ---------------------------------------------------------------------------------------
  // setCommissionZero

  /** The figures of a copy without commission. */
  function WithoutCommission(f: Figures): Figures
  {
    Copied(f).(commission := 0.0)
  }

  method SetCommissionZero(infos: seq<UnderwritingInfo>) returns (out: seq<UnderwritingInfo>)
    ensures |out| == |infos|
    ensures forall i :: 0 <= i < |infos| ==>
      fresh(out[i]) && out[i].figures == WithoutCommission(infos[i].figures) &&
      out[i].Tags() == CopiedTags(infos[i].Tags())
  {
    out := [];
    for i := 0 to |infos|
      invariant |out| == i
      invariant forall k :: 0 <= k < i ==>
        fresh(out[k]) && out[k].figures == WithoutCommission(infos[k].figures) &&
        out[k].Tags() == CopiedTags(infos[k].Tags())
    {
      var c := infos[i].Copy();
      c.figures := c.figures.(commission := 0.0);
      out := out + [c];
    }
  }

  /** Dropping the commission of a list leaves a list without commission whose other totals
      are those of the original list. */
  lemma {:induction false} WithoutCommissionTotals(vs: seq<Figures>, ws: seq<Figures>, k: AdditiveField)
    requires |ws| == |vs|
    requires forall i :: 0 <= i < |vs| ==> ws[i] == WithoutCommission(vs[i])
    ensures k == Commission ==> Total(ws, k) == 0.0
    ensures k != Commission ==> Total(ws, k) == Total(vs, k)
  {
    if |vs| > 0 {
      WithoutCommissionTotals(vs[..|vs| - 1], ws[..|ws| - 1], k);
    }
  }

  // ---------------------------------------------------------------------------------------
  // segregateUnderwritingInfoByContract

  /** The records whose reinsurance contract is listed, in order. */
  function AcceptedBy(infos: seq<UnderwritingInfo>, contracts: seq<Option<Component>>): seq<UnderwritingInfo>
    reads infos
  {
    if |infos| == 0 then []
    else
      var last := infos[|infos| - 1];
      AcceptedBy(infos[..|infos| - 1], contracts) + (if last.reinsuranceContract in contracts then [last] else [])
  }

  /** The records whose reinsurance contract is not listed, in order. */
  function RejectedBy(infos: seq<UnderwritingInfo>, contracts: seq<Option<Component>>): seq<UnderwritingInfo>
    reads infos
  {
    if |infos| == 0 then []
    else
      var last := infos[|infos| - 1];
      RejectedBy(infos[..|infos| - 1], contracts) + (if last.reinsuranceContract in contracts then [] else [last])
  }

  /** Without a contract list (null or empty) every record is accepted. */
  predicate Unfiltered(contracts: Option<seq<Option<Component>>>)
  {
    contracts == None || |contracts.value| == 0
  }

  /** `segregateUnderwritingInfoByContract`: appends the records covered by the listed
      contracts to `accepted` and, when a rejected list is given, the others to it. */
  method Segregate(infos: seq<UnderwritingInfo>, contracts: Option<seq<Option<Component>>>,
                   accepted: seq<UnderwritingInfo>, rejected: Option<seq<UnderwritingInfo>>)
    returns (acceptedOut: seq<UnderwritingInfo>, rejectedOut: Option<seq<UnderwritingInfo>>)
    ensures Unfiltered(contracts) ==> acceptedOut == accepted + infos && rejectedOut == rejected
    ensures !Unfiltered(contracts) ==> acceptedOut == accepted + AcceptedBy(infos, contracts.value)
    ensures !Unfiltered(contracts) ==>
      rejectedOut == (if rejected == None then None else Some(rejected.value + RejectedBy(infos, contracts.value)))
  {
    if contracts == None || |contracts.value| == 0 {
      return accepted + infos, rejected;
    }
    var cs := contracts.value;
    acceptedOut, rejectedOut := accepted, rejected;
    assert accepted + [] == accepted;
    assert rejected != None ==> rejected.value + [] == rejected.value;
    for i := 0 to |infos|
      invariant acceptedOut == accepted + AcceptedBy(infos[..i], cs)
      invariant rejectedOut == (if rejected == None then None else Some(rejected.value + RejectedBy(infos[..i], cs)))
    {
      assert infos[..i + 1][..i] == infos[..i];
      if infos[i].reinsuranceContract in cs {
        assert RejectedBy(infos[..i + 1], cs) == RejectedBy(infos[..i], cs) + [];
        assert RejectedBy(infos[..i + 1], cs) == RejectedBy(infos[..i], cs);
        acceptedOut := acceptedOut + [infos[i]];
      } else {
        assert AcceptedBy(infos[..i + 1], cs) == AcceptedBy(infos[..i], cs) + [];
        if rejectedOut != None {
          assert rejectedOut.value + [infos[i]] == rejected.value + (RejectedBy(infos[..i], cs) + [infos[i]]);
          rejectedOut := Some(rejectedOut.value + [infos[i]]);
        }
      }
    }
    assert infos[..|infos|] == infos;
  }

  /** Accepted and rejected records split the list: together they are the list, each accepted
      record has a listed contract and no rejected one has. */
  lemma {:induction false} SegregationPartitions(infos: seq<UnderwritingInfo>, contracts: seq<Option<Component>>)
    ensures multiset(AcceptedBy(infos, contracts)) + multiset(RejectedBy(infos, contracts)) == multiset(infos)
    ensures forall u :: u in AcceptedBy(infos, contracts) ==> u in infos && u.reinsuranceContract in contracts
    ensures forall u :: u in RejectedBy(infos, contracts) ==> u in infos && u.reinsuranceContract !in contracts
  {
    if |infos| > 0 {
      var prefix := infos[..|infos| - 1];
      SegregationPartitions(prefix, contracts);
      assert infos == prefix + [infos[|infos| - 1]];
    }
  }
}
