/** The sliding commission strategy: the commission rate is a step function of the loss ratio
    (total claims over total premium), given as bands with a lower loss-ratio limit each. The
    band table is compiled lazily into a limit list and a limit-to-rate map, with an implicit
    first band from minus infinity at rate 0; the rate of the greatest limit at or below the
    loss ratio is applied to every record's commission, either added to the commission or
    replacing it. */
module Commissions {
  import opened Basics
  import opened Underwriting

  /** A lower band limit: minus infinity (the implicit first band) or a finite loss ratio. */
  datatype Bound = NegInf | At(x: real)

  /** `a < b` on band limits. */
  predicate BoundLt(a: Bound, b: Bound)
  {
    match (a, b)
    case (NegInf, At(_)) => true
    case (At(x), At(y)) => x < y
    case _ => false
  }

  /** `a <= b` on band limits. */
  predicate BoundLe(a: Bound, b: Bound)
  {
    a == b || BoundLt(a, b)
  }

  /** The loss ratio as the double division produces it: a number, or, when the total premium
      is 0, plus or minus infinity (nonzero claims) or NaN (no claims either). */
  datatype LossRatio = Ratio(x: real) | PosInfinity | NegInfinity | NaN

  /** `limit <= lossRatio` as doubles compare: NaN compares false with everything. */
  predicate AtMost(limit: Bound, lossRatio: LossRatio)
  {
    match lossRatio
    case NaN => false
    case PosInfinity => true
    case NegInfinity => limit == NegInf
    case Ratio(x) => limit == NegInf || limit.x <= x
  }

  /** One row of the band table: the lower loss-ratio limit and the commission rate. */
  datatype CommissionBand = CommissionBand(lossRatio: real, commission: real)

  /** A claim; only its ultimate amount enters the loss ratio. */
  datatype Claim = Claim(ultimate: real)

  /** The table the strategy starts with: one band from 0 at rate 0 (`DefaultTableRate` shows
      it gives rate 0 to every loss ratio). */
  const DefaultBands: seq<CommissionBand> := [CommissionBand(0.0, 0.0)]

  /** The compiled limit list: minus infinity, then one limit per row, in row order. */
  function CompiledLimits(bands: seq<CommissionBand>): (limits: seq<Bound>)
    ensures |limits| == |bands| + 1 && limits[0] == NegInf
    ensures forall i :: 0 <= i < |bands| ==> limits[i + 1] == At(bands[i].lossRatio)
  {
    if |bands| == 0 then [NegInf]
    else CompiledLimits(bands[..|bands| - 1]) + [At(bands[|bands| - 1].lossRatio)]
  }

  /** The compiled rate map: minus infinity at rate 0, then each row's rate under its limit; a
      later row overwrites an earlier one with the same limit. */
  function CompiledRates(bands: seq<CommissionBand>): (rates: map<Bound, real>)
    ensures NegInf in rates
    ensures forall b :: b in rates <==> b == NegInf || exists i :: 0 <= i < |bands| && b == At(bands[i].lossRatio)
  {
    if |bands| == 0 then map[NegInf := 0.0]
    else
      var last := bands[|bands| - 1];
      var prefix := CompiledRates(bands[..|bands| - 1]);
      assert forall i :: 0 <= i < |bands| - 1 ==> bands[..|bands| - 1][i] == bands[i];
      prefix[At(last.lossRatio) := last.commission]
  }

  /** One step of the search loop: a limit replaces the best one so far when it is greater and
      still at or below the loss ratio. */
  function Step(best: Bound, limit: Bound, lossRatio: LossRatio): Bound
  {
    if BoundLt(best, limit) && AtMost(limit, lossRatio) then limit else best
  }

  /** Row `i`'s limit carries the rate of row `j`, the last row with the same limit. */
  predicate RateOfLastRow(bands: seq<CommissionBand>, i: int, rate: real)
    requires 0 <= i < |bands|
  {
    exists j :: i <= j < |bands| && bands[j].lossRatio == bands[i].lossRatio && rate == bands[j].commission
             && forall k :: j < k < |bands| ==> bands[k].lossRatio != bands[i].lossRatio
  }

  /** A later row overwrites an earlier one with the same limit: the rate under a row's limit is
      that of the last row carrying it, whether or not the limits increase. */
  lemma {:induction false} LaterRowOverwrites(bands: seq<CommissionBand>, i: int)
    requires 0 <= i < |bands|
    ensures At(bands[i].lossRatio) in CompiledRates(bands)
    ensures RateOfLastRow(bands, i, CompiledRates(bands)[At(bands[i].lossRatio)])
  {
    var n := |bands| - 1;
    var key := At(bands[i].lossRatio);
    var prefix := bands[..n];
    assert CompiledRates(bands) == CompiledRates(prefix)[At(bands[n].lossRatio) := bands[n].commission];
    if bands[i].lossRatio == bands[n].lossRatio {
      assert CompiledRates(bands)[key] == bands[n].commission;
      assert RateOfLastRow(bands, i, bands[n].commission);
    } else {
      assert prefix[i] == bands[i];
      LaterRowOverwrites(prefix, i);
      var rate := CompiledRates(prefix)[key];
      assert CompiledRates(bands)[key] == rate;
      var j :| i <= j < n && prefix[j].lossRatio == prefix[i].lossRatio && rate == prefix[j].commission
               && forall k :: j < k < n ==> prefix[k].lossRatio != prefix[i].lossRatio;
      assert prefix[j] == bands[j];
      forall k | j < k < |bands|
        ensures bands[k].lossRatio != bands[i].lossRatio
      {
        if k < n { assert prefix[k] == bands[k]; }
      }
      assert RateOfLastRow(bands, i, rate);
    }
  }

  /** `LaterRowOverwrites` for every row at once. */
  lemma LaterRowsOverwrite(bands: seq<CommissionBand>)
    ensures forall i :: 0 <= i < |bands| ==>
              At(bands[i].lossRatio) in CompiledRates(bands) && RateOfLastRow(bands, i, CompiledRates(bands)[At(bands[i].lossRatio)])
  {
    forall i | 0 <= i < |bands|
      ensures At(bands[i].lossRatio) in CompiledRates(bands) && RateOfLastRow(bands, i, CompiledRates(bands)[At(bands[i].lossRatio)])
    {
      LaterRowOverwrites(bands, i);
    }
  }

  /** The search loop over the limits, from minus infinity: the greatest limit at or below the
      loss ratio, or minus infinity when there is none. */
  function GreatestMatchingBound(limits: seq<Bound>, lossRatio: LossRatio): (r: Bound)
    ensures r == NegInf || (r in limits && AtMost(r, lossRatio))
    ensures forall b :: b in limits && AtMost(b, lossRatio) ==> BoundLe(b, r)
  {
    if |limits| == 0 then NegInf
    else
      var prefix := limits[..|limits| - 1];
      assert forall b :: b in prefix ==> b in limits;
      assert forall b :: b in limits ==> b in prefix || b == limits[|limits| - 1];
      Step(GreatestMatchingBound(prefix, lossRatio), limits[|limits| - 1], lossRatio)
  }

  /** The limit the search finds is always a key of the rate map. */
  lemma MatchingBoundHasRate(bands: seq<CommissionBand>, lossRatio: LossRatio)
    ensures GreatestMatchingBound(CompiledLimits(bands), lossRatio) in CompiledRates(bands)
  {
    var limits := CompiledLimits(bands);
    var b := GreatestMatchingBound(limits, lossRatio);
    if b != NegInf {
      var j :| 0 <= j < |limits| && limits[j] == b;
      assert j > 0 && b == At(bands[j - 1].lossRatio);
    }
  }

  /** The rate a table assigns to a loss ratio: 0 when no row's limit lies at or below the
      loss ratio, and otherwise the rate of the last row carrying the greatest such limit. */
  function CommissionRate(bands: seq<CommissionBand>, lossRatio: LossRatio): (rate: real)
    ensures GreatestMatchingBound(CompiledLimits(bands), lossRatio) == NegInf ==> rate == 0.0
    ensures GreatestMatchingBound(CompiledLimits(bands), lossRatio) != NegInf ==>
              exists i :: 0 <= i < |bands| && GreatestMatchingBound(CompiledLimits(bands), lossRatio) == At(bands[i].lossRatio)
                       && RateOfLastRow(bands, i, rate)
  {
    MatchingBoundHasRate(bands, lossRatio);
    RateAtNegInf(bands);
    LaterRowsOverwrite(bands);
    CompiledRates(bands)[GreatestMatchingBound(CompiledLimits(bands), lossRatio)]
  }

  /** The loss ratio of the claim total over the premium total. A nonzero premium gives the
      quotient; a zero premium gives an infinity with the sign of the claims, or NaN when there
      are no claims either. */
  function LossRatioOf(totalClaims: real, totalPremium: real): (r: LossRatio)
    ensures r.Ratio? <==> totalPremium != 0.0
    ensures r.Ratio? ==> r.x * totalPremium == totalClaims
    ensures r == PosInfinity ==> totalClaims > 0.0
    ensures r == NegInfinity ==> totalClaims < 0.0
    ensures r == NaN <==> totalPremium == 0.0 && totalClaims == 0.0
  {
    if totalPremium != 0.0 then Ratio(totalClaims / totalPremium)
    else if totalClaims > 0.0 then PosInfinity
    else if totalClaims < 0.0 then NegInfinity
    else NaN
  }

  /** The sum of the claims' ultimates. */
  function TotalUltimate(claims: seq<Claim>): real
  {
    if |claims| == 0 then 0.0 else TotalUltimate(claims[..|claims| - 1]) + claims[|claims| - 1].ultimate
  }

  /** What `calculateCommission` makes of one record's figures, given the rate and how many
      times the record occurs in the list: the commission drops by premium times rate once per
      occurrence (additive), or becomes minus premium times rate (replacing). */
  function WithCommission(f: Figures, rate: real, occurrences: nat, isAdditive: bool): (r: Figures)
    ensures r.(commission := f.commission) == f
    ensures occurrences == 0 ==> r == f
    ensures isAdditive ==> f.commission - r.commission == (occurrences as real) * (f.premiumWritten * rate)
    ensures !isAdditive && occurrences > 0 ==> r.commission + f.premiumWritten * rate == 0.0
  {
    if isAdditive then f.(commission := f.commission - (occurrences as real) * (f.premiumWritten * rate))
    else if occurrences == 0 then f
    else f.(commission := -(f.premiumWritten * rate))
  }

  class SlidingCommissionStrategy {
    /** The band table (the value rows of the `commissionBands` parameter). */
    const commissionBands: seq<CommissionBand>
    /** The lazily compiled step function. */
    var commissionRates: Option<map<Bound, real>>
    var lowerBandLimits: Option<seq<Bound>>

    /** The cache is either empty or holds the compilation of the table. */
    predicate Valid()
      reads this
    {
      && (commissionRates == None <==> lowerBandLimits == None)
      && (commissionRates != None ==> commissionRates.value == CompiledRates(commissionBands))
      && (lowerBandLimits != None ==> lowerBandLimits.value == CompiledLimits(commissionBands))
    }

    constructor (bands: seq<CommissionBand>)
      ensures commissionBands == bands && commissionRates == None && lowerBandLimits == None
      ensures Valid()
    {
      commissionBands := bands;
      commissionRates, lowerBandLimits := None, None;
    }

    /** `setCommissionRates()`: compiles the table into the cache. */
    method SetCommissionRates()
      modifies this
      ensures commissionRates == Some(CompiledRates(commissionBands))
      ensures lowerBandLimits == Some(CompiledLimits(commissionBands))
    {
      var bands := commissionBands;
      var limits: seq<Bound> := [NegInf];
      var rates: map<Bound, real> := map[NegInf := 0.0];
      for row := 0 to |bands|
        invariant limits == CompiledLimits(bands[..row])
        invariant rates == CompiledRates(bands[..row])
      {
        assert bands[..row + 1][..row] == bands[..row];
        limits := limits + [At(bands[row].lossRatio)];
        rates := rates[At(bands[row].lossRatio) := bands[row].commission];
      }
      assert bands[..|bands|] == bands;
      lowerBandLimits, commissionRates := Some(limits), Some(rates);
    }

    /** `calculateCommission(claims, underwritingInfos, isFirstPeriod, isAdditive)`: compiles
        the table on first use, derives the rate from the loss ratio of the given claims and
        records, and applies it to every record's commission. Nothing else changes. */
    method CalculateCommission(claims: seq<Claim>, infos: seq<UnderwritingInfo>, isFirstPeriod: bool, isAdditive: bool)
      requires Valid()
      modifies this, infos`figures
      ensures Valid()
      ensures commissionRates == Some(CompiledRates(commissionBands))
      ensures old(commissionRates) != None ==> commissionRates == old(commissionRates) && lowerBandLimits == old(lowerBandLimits)
      ensures var rate := CommissionRate(commissionBands, LossRatioOf(TotalUltimate(claims), Total(old(ValuesOf(infos)), Premium)));
        forall u :: u in infos ==> u.figures == WithCommission(old(u.figures), rate, multiset(infos)[u], isAdditive)
    {
      var totalClaims := SumUltimates(claims);
      var totalPremium := SumPremiums(infos);
      var totalLossRatio := LossRatioOf(totalClaims, totalPremium);
      if commissionRates == None {
        SetCommissionRates();
      }
      var limits, rates := lowerBandLimits.value, commissionRates.value;
      var highestMatchingLowerBound := HighestMatchingLowerBound(limits, totalLossRatio);
      MatchingBoundHasRate(commissionBands, totalLossRatio);
      var commission := rates[highestMatchingLowerBound];
      ApplyCommission(infos, commission, isAdditive);
    }
  }

  /** The first loop of `calculateCommission`: the claim total. */
  method SumUltimates(claims: seq<Claim>) returns (totalClaims: real)
    ensures totalClaims == TotalUltimate(claims)
  {
    totalClaims := 0.0;
    for i := 0 to |claims|
      invariant totalClaims == TotalUltimate(claims[..i])
    {
      assert claims[..i + 1][..i] == claims[..i];
      totalClaims := totalClaims + claims[i].ultimate;
    }
    assert claims[..|claims|] == claims;
  }

  /** The second loop of `calculateCommission`: the premium total of the records. */
  method SumPremiums(infos: seq<UnderwritingInfo>) returns (totalPremium: real)
    ensures totalPremium == Total(ValuesOf(infos), Premium)
  {
    ghost var vs := ValuesOf(infos);
    totalPremium := 0.0;
    for i := 0 to |infos|
      invariant totalPremium == Total(vs[..i], Premium)
    {
      assert vs[..i + 1][..i] == vs[..i];
      totalPremium := totalPremium + infos[i].figures.premiumWritten;
    }
    assert vs[..|infos|] == vs;
  }

  /** The search loop of `calculateCommission` over the compiled limits. */
  method HighestMatchingLowerBound(limits: seq<Bound>, totalLossRatio: LossRatio) returns (highest: Bound)
    ensures highest == GreatestMatchingBound(limits, totalLossRatio)
  {
    highest := NegInf;
    for i := 0 to |limits|
      invariant highest == GreatestMatchingBound(limits[..i], totalLossRatio)
    {
      assert limits[..i + 1][..i] == limits[..i];
      if BoundLt(highest, limits[i]) && AtMost(limits[i], totalLossRatio) {
        highest := limits[i];
      }
    }
    assert limits[..|limits|] == limits;
  }

  /** One pass of the last loop of `calculateCommission` over one record. */
  function Applied(f: Figures, rate: real, isAdditive: bool): Figures
  {
    if isAdditive then f.(commission := f.commission - f.premiumWritten * rate)
    else f.(commission := -(f.premiumWritten * rate))
  }

  /** Counting one more occurrence is one more pass. */
  lemma WithCommissionStep(f: Figures, rate: real, n: nat, isAdditive: bool)
    ensures WithCommission(f, rate, n + 1, isAdditive) == Applied(WithCommission(f, rate, n, isAdditive), rate, isAdditive)
  {
    var p := f.premiumWritten * rate;
    assert (n as real) * p + p == ((n + 1) as real) * p;
  }

  /** The last loop of `calculateCommission`: every record's commission drops by its premium
      times the rate (additive) or is replaced by minus that product. */
  method ApplyCommission(infos: seq<UnderwritingInfo>, rate: real, isAdditive: bool)
    modifies infos`figures
    ensures forall u :: u in infos ==> u.figures == WithCommission(old(u.figures), rate, multiset(infos)[u], isAdditive)
  {
    for i := 0 to |infos|
      invariant forall u :: u in infos ==> u.figures == WithCommission(old(u.figures), rate, multiset(infos[..i])[u], isAdditive)
    {
      var u := infos[i];
      assert multiset(infos[..i + 1]) == multiset(infos[..i]) + multiset{u} by {
        assert infos[..i + 1] == infos[..i] + [u];
      }
      WithCommissionStep(old(u.figures), rate, multiset(infos[..i])[u], isAdditive);
      u.figures := Applied(u.figures, rate, isAdditive);
    }
    assert infos[..|infos|] == infos;
  }

  // ---------------------------------------------------------------------------------------
  // Properties of the step function

  /** The search does not depend on the order of the limits: it finds the greatest matching
      limit, and there is only one. */
  lemma RateIgnoresLimitOrder(limits: seq<Bound>, others: seq<Bound>, lossRatio: LossRatio)
    requires multiset(limits) == multiset(others)
    ensures GreatestMatchingBound(limits, lossRatio) == GreatestMatchingBound(others, lossRatio)
  {
    var r, s := GreatestMatchingBound(limits, lossRatio), GreatestMatchingBound(others, lossRatio);
    assert forall b :: b in limits <==> b in others by {
      forall b ensures b in limits <==> b in others {
        assert b in limits <==> b in multiset(limits);
        assert b in others <==> b in multiset(others);
      }
    }
    if r != NegInf { assert BoundLe(r, s); }
    if s != NegInf { assert BoundLe(s, r); }
  }

  /** Band limits strictly increasing in row order. */
  predicate Increasing(bands: seq<CommissionBand>)
  {
    forall i, j :: 0 <= i < j < |bands| ==> bands[i].lossRatio < bands[j].lossRatio
  }

  /** The rate under a row's limit is that row's rate, when no two rows share a limit. */
  lemma CompiledRateAt(bands: seq<CommissionBand>, i: int)
    requires Increasing(bands) && 0 <= i < |bands|
    ensures At(bands[i].lossRatio) in CompiledRates(bands)
    ensures CompiledRates(bands)[At(bands[i].lossRatio)] == bands[i].commission
  {
    if i < |bands| - 1 {
      var prefix := bands[..|bands| - 1];
      assert prefix[i] == bands[i];
      CompiledRateAt(prefix, i);
    }
  }

  /** The bands are closed on the left and open on the right, and the last one is unbounded:
      a loss ratio from a row's limit up to (not including) the next row's limit gets that
      row's rate; below the first limit the rate is 0. */
  lemma RateInBand(bands: seq<CommissionBand>, i: int, x: real)
    requires Increasing(bands) && 0 <= i < |bands|
    requires bands[i].lossRatio <= x && (i == |bands| - 1 || x < bands[i + 1].lossRatio)
    ensures CommissionRate(bands, Ratio(x)) == bands[i].commission
  {
    var limits := CompiledLimits(bands);
    var b := GreatestMatchingBound(limits, Ratio(x));
    assert limits[i + 1] == At(bands[i].lossRatio);
    assert BoundLe(At(bands[i].lossRatio), b);
    var j :| 0 <= j < |limits| && limits[j] == b;
    assert j > 0 && b == At(bands[j - 1].lossRatio);
    assert j - 1 == i;
    CompiledRateAt(bands, i);
  }

  /** No limit of a row lies at or below a loss ratio below the first row's limit. */
  lemma NoLimitBelowFirstBand(bands: seq<CommissionBand>, lossRatio: LossRatio)
    requires Increasing(bands)
    requires lossRatio.NaN? || lossRatio.NegInfinity? || (lossRatio.Ratio? && (|bands| == 0 || lossRatio.x < bands[0].lossRatio))
    ensures GreatestMatchingBound(CompiledLimits(bands), lossRatio) == NegInf
  {
    var limits := CompiledLimits(bands);
    forall k | 0 < k < |limits|
      ensures !AtMost(limits[k], lossRatio)
    {
      assert limits[k] == At(bands[k - 1].lossRatio);
      if k > 1 {
        assert bands[0].lossRatio < bands[k - 1].lossRatio;
      }
    }
  }

  /** Below the first limit, and for an empty table, the rate is that of the implicit first
      band, 0. */
  lemma RateBelowFirstBand(bands: seq<CommissionBand>, x: real)
    requires Increasing(bands)
    requires |bands| == 0 || x < bands[0].lossRatio
    ensures CommissionRate(bands, Ratio(x)) == 0.0
  {
    NoLimitBelowFirstBand(bands, Ratio(x));
    RateAtNegInf(bands);
  }

  /** No row overwrites the rate 0 of the implicit first band: every row's limit is finite. */
  lemma RateAtNegInf(bands: seq<CommissionBand>)
    ensures CompiledRates(bands)[NegInf] == 0.0
  {
    if |bands| > 0 {
      RateAtNegInf(bands[..|bands| - 1]);
    }
  }

  /** For a zero total premium: no claims (NaN) and negative claims (minus infinity) select the
      implicit first band, positive claims (plus infinity) the last row. */
  lemma RateForZeroPremium(bands: seq<CommissionBand>, totalClaims: real)
    requires Increasing(bands)
    ensures totalClaims <= 0.0 ==> CommissionRate(bands, LossRatioOf(totalClaims, 0.0)) == 0.0
    ensures totalClaims > 0.0 && |bands| > 0 ==>
            CommissionRate(bands, LossRatioOf(totalClaims, 0.0)) == bands[|bands| - 1].commission
  {
    var limits := CompiledLimits(bands);
    if totalClaims <= 0.0 {
      NoLimitBelowFirstBand(bands, LossRatioOf(totalClaims, 0.0));
      RateAtNegInf(bands);
    } else if |bands| > 0 {
      var n := |bands| - 1;
      var b := GreatestMatchingBound(limits, PosInfinity);
      assert limits[n + 1] == At(bands[n].lossRatio);
      assert BoundLe(At(bands[n].lossRatio), b);
      var j :| 0 <= j < |limits| && limits[j] == b;
      assert j > 0 && b == At(bands[j - 1].lossRatio);
      assert j - 1 == n;
      CompiledRateAt(bands, n);
    }
  }

  /** The step function of the example table (0, 0), (0.5, 0.2), (1, 0.5). */
  lemma SlidingScaleExample()
    ensures var bands := [CommissionBand(0.0, 0.0), CommissionBand(0.5, 0.2), CommissionBand(1.0, 0.5)];
      && CommissionRate(bands, Ratio(-1.0)) == 0.0
      && CommissionRate(bands, Ratio(0.3)) == 0.0
      && CommissionRate(bands, Ratio(0.5)) == 0.2
      && CommissionRate(bands, Ratio(0.99)) == 0.2
      && CommissionRate(bands, Ratio(1.0)) == 0.5
      && CommissionRate(bands, Ratio(5.0)) == 0.5
  {
    var bands := [CommissionBand(0.0, 0.0), CommissionBand(0.5, 0.2), CommissionBand(1.0, 0.5)];
    assert Increasing(bands);
    RateBelowFirstBand(bands, -1.0);
    RateInBand(bands, 0, 0.3);
    RateInBand(bands, 1, 0.5);
    RateInBand(bands, 1, 0.99);
    RateInBand(bands, 2, 1.0);
    RateInBand(bands, 2, 5.0);
  }

  /** The table a strategy starts with assigns rate 0 to every loss ratio, NaN and the
      infinities included. */
  lemma DefaultTableRate(lossRatio: LossRatio)
    ensures CommissionRate(DefaultBands, lossRatio) == 0.0
  {
  }

  /** Applying the rate to records that each occur once: additively, the commission drops by
      premium times rate; replacing, it becomes minus premium times rate; in both cases the
      premium and everything else stay. */
  lemma WithCommissionOnce(f: Figures, rate: real, isAdditive: bool)
    ensures WithCommission(f, rate, 1, isAdditive).(commission := f.commission) == f
    ensures isAdditive ==> WithCommission(f, rate, 1, isAdditive).commission == f.commission - f.premiumWritten * rate
    ensures !isAdditive ==> WithCommission(f, rate, 1, isAdditive).commission == -(f.premiumWritten * rate)
  {
  }

  /** Replacing is idempotent: applying it again with the same rate changes nothing. */
  lemma ReplacingIsIdempotent(f: Figures, rate: real, n: nat, m: nat)
    requires n > 0 && m > 0
    ensures WithCommission(WithCommission(f, rate, n, false), rate, m, false) == WithCommission(f, rate, n, false)
  {
  }

  /** The total commission after an additive application drops by the total premium times the
      rate. */
  lemma {:induction false} AdditiveTotal(vs: seq<Figures>, ws: seq<Figures>, rate: real)
    requires |ws| == |vs|
    requires forall i :: 0 <= i < |vs| ==> ws[i] == WithCommission(vs[i], rate, 1, true)
    ensures Total(ws, Commission) == Total(vs, Commission) - Total(vs, Premium) * rate
    ensures Total(ws, Premium) == Total(vs, Premium)
  {
    if |vs| > 0 {
      AdditiveTotal(vs[..|vs| - 1], ws[..|ws| - 1], rate);
      var p := Total(vs[..|vs| - 1], Premium);
      var q := vs[|vs| - 1].premiumWritten;
      assert (p + q) * rate == p * rate + q * rate;
    }
  }
}
