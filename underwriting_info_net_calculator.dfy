/** The net calculator component: it aggregates the gross records of a period, passes the ceded
    records through, and emits gross minus ceded as the net record, each output only when a
    consumer is wired to it. */
module NetCalculator {
  import opened Basics
  import opened Underwriting
  import opened UnderwritingInfoUtilities

  /** The message of the error raised for ceded records without gross records. */
  const OnlyCededUnderwritingInfo: string := "UnderwritingInfoNetCalculator.onlyCededUnderwritingInfo"

  /** Which out channels a calculation feeds, or None for the error. */
  datatype Emission = Emission(gross: bool, ceded: bool, net: bool)

  /** The gating of `doCalculation` on the input sizes and on which out channels are wired: the
      error exactly for ceded records without gross records, and no output without both input
      for it and a consumer wired to it or to the net channel. */
  function Gating(grossCount: nat, cededCount: nat, grossWired: bool, cededWired: bool, netWired: bool): (r: Option<Emission>)
    ensures r == None <==> grossCount == 0 && cededCount > 0
    ensures r.Some? ==>
              && (r.value.gross ==> grossCount > 0 && (grossWired || netWired))
              && (r.value.ceded ==> cededCount > 0 && (cededWired || netWired))
              && (r.value.net ==> netWired)
  {
    if grossCount == 0 && cededCount > 0 then None
    else Some(Emission(
      grossCount > 0 && (grossWired || netWired),
      cededCount > 0 && (cededWired || netWired),
      (grossCount > 0 || cededCount > 0) && netWired))
  }

  /** The figures of the ceded aggregate: the sum of the ceded records, or a zero record when
      there are none. */
  function CededAggregate(ceded: seq<Figures>): Figures
  {
    if |ceded| == 0 then Zero else Summed(ceded)
  }

  class UnderwritingInfoNetCalculator {
    var inUnderwritingInfoGross: seq<UnderwritingInfo>
    var inUnderwritingInfoCeded: seq<UnderwritingInfo>
    var outUnderwritingInfoNet: seq<UnderwritingInfo>
    var outUnderwritingInfoGross: seq<UnderwritingInfo>
    var outUnderwritingInfoCeded: seq<UnderwritingInfo>

    constructor (gross: seq<UnderwritingInfo>, ceded: seq<UnderwritingInfo>)
      ensures inUnderwritingInfoGross == gross && inUnderwritingInfoCeded == ceded
      ensures outUnderwritingInfoNet == [] && outUnderwritingInfoGross == [] && outUnderwritingInfoCeded == []
    {
      inUnderwritingInfoGross, inUnderwritingInfoCeded := gross, ceded;
      outUnderwritingInfoNet, outUnderwritingInfoGross, outUnderwritingInfoCeded := [], [], [];
    }

    /** `doCalculation()`: the wiring of the three out channels is given as flags. Raises the
        error (and emits nothing) for ceded records without gross records; otherwise appends
        the gross aggregate, the ceded records and the net record as `Gating` says. */
    method DoCalculation(grossWired: bool, cededWired: bool, netWired: bool) returns (error: Option<string>)
      modifies this`outUnderwritingInfoGross, this`outUnderwritingInfoCeded, this`outUnderwritingInfoNet
      ensures var g := Gating(|inUnderwritingInfoGross|, |inUnderwritingInfoCeded|, grossWired, cededWired, netWired);
        && (error == None <==> g.Some?)
        && (error != None ==> error.value == OnlyCededUnderwritingInfo)
      ensures var g := Gating(|inUnderwritingInfoGross|, |inUnderwritingInfoCeded|, grossWired, cededWired, netWired);
        var gross := g.Some? && g.value.gross;
        && |outUnderwritingInfoGross| == |old(outUnderwritingInfoGross)| + (if gross then 1 else 0)
        && outUnderwritingInfoGross[..|old(outUnderwritingInfoGross)|] == old(outUnderwritingInfoGross)
        && (gross ==>
              var a := outUnderwritingInfoGross[|outUnderwritingInfoGross| - 1];
              fresh(a) && a.figures == Summed(old(ValuesOf(inUnderwritingInfoGross))) && a.Tags() == NoTags)
      ensures var g := Gating(|inUnderwritingInfoGross|, |inUnderwritingInfoCeded|, grossWired, cededWired, netWired);
        outUnderwritingInfoCeded == old(outUnderwritingInfoCeded) + (if g.Some? && g.value.ceded then inUnderwritingInfoCeded else [])
      ensures var g := Gating(|inUnderwritingInfoGross|, |inUnderwritingInfoCeded|, grossWired, cededWired, netWired);
        var net := g.Some? && g.value.net;
        && |outUnderwritingInfoNet| == |old(outUnderwritingInfoNet)| + (if net then 1 else 0)
        && outUnderwritingInfoNet[..|old(outUnderwritingInfoNet)|] == old(outUnderwritingInfoNet)
        && (net ==>
              var n := outUnderwritingInfoNet[|outUnderwritingInfoNet| - 1];
              && fresh(n)
              && n.figures == NetOf(Summed(old(ValuesOf(inUnderwritingInfoGross))), CededAggregate(old(ValuesOf(inUnderwritingInfoCeded))))
              && n.Tags() == NoTags)
    {
      var gross, ceded := inUnderwritingInfoGross, inUnderwritingInfoCeded;
      if |gross| == 0 && |ceded| > 0 {
        return Some(OnlyCededUnderwritingInfo);
      }
      error := None;
      var grossAggregate := EmitGrossAggregate(grossWired || netWired);
      var cededAggregate := EmitCeded(cededWired || netWired);
      EmitNet((|gross| > 0 || |ceded| > 0) && netWired, grossAggregate, cededAggregate);
    }

    /** The net step of `doCalculation`: gross aggregate minus ceded aggregate, appended to the
        net out channel when there is input and a consumer. */
    method EmitNet(wired: bool, grossAggregate: UnderwritingInfo, cededAggregate: UnderwritingInfo)
      modifies this`outUnderwritingInfoNet
      ensures |outUnderwritingInfoNet| == |old(outUnderwritingInfoNet)| + (if wired then 1 else 0)
      ensures outUnderwritingInfoNet[..|old(outUnderwritingInfoNet)|] == old(outUnderwritingInfoNet)
      ensures wired ==>
                var n := outUnderwritingInfoNet[|outUnderwritingInfoNet| - 1];
                && fresh(n)
                && n.figures == NetOf(grossAggregate.figures, cededAggregate.figures)
                && n.Tags() == CopiedTags(grossAggregate.Tags()).(original := cededAggregate.originalUnderwritingInfo)
    {
      if wired {
        var net := CalculateNet(grossAggregate, cededAggregate);
        outUnderwritingInfoNet := outUnderwritingInfoNet + [net];
      }
    }

    /** The gross step of `doCalculation`: the aggregate of the gross records, appended to the
        gross out channel when there are gross records and a consumer; otherwise a zero record. */
    method EmitGrossAggregate(wired: bool) returns (grossAggregate: UnderwritingInfo)
      modifies this`outUnderwritingInfoGross
      ensures fresh(grossAggregate) && grossAggregate.Tags() == NoTags
      ensures |inUnderwritingInfoGross| > 0 && wired ==>
                && outUnderwritingInfoGross == old(outUnderwritingInfoGross) + [grossAggregate]
                && grossAggregate.figures == Summed(old(ValuesOf(inUnderwritingInfoGross)))
      ensures !(|inUnderwritingInfoGross| > 0 && wired) ==>
                outUnderwritingInfoGross == old(outUnderwritingInfoGross) && grossAggregate.figures == Zero
    {
      grossAggregate := new UnderwritingInfo();
      if |inUnderwritingInfoGross| > 0 && wired {
        var a := Aggregate(inUnderwritingInfoGross);
        grossAggregate := a;
        outUnderwritingInfoGross := outUnderwritingInfoGross + [grossAggregate];
      }
    }

    /** The ceded step of `doCalculation`: the ceded records go to the ceded out channel when
        there are some and a consumer; their aggregate, or else a zero record, is returned. */
    method EmitCeded(wired: bool) returns (cededAggregate: UnderwritingInfo)
      modifies this`outUnderwritingInfoCeded
      ensures fresh(cededAggregate) && cededAggregate.Tags() == NoTags
      ensures outUnderwritingInfoCeded == old(outUnderwritingInfoCeded) + (if wired then inUnderwritingInfoCeded else [])
      ensures cededAggregate.figures == if wired then CededAggregate(old(ValuesOf(inUnderwritingInfoCeded))) else Zero
    {
      cededAggregate := new UnderwritingInfo();
      if wired {
        if |inUnderwritingInfoCeded| > 0 {
          var c := Aggregate(inUnderwritingInfoCeded);
          cededAggregate := c;
          outUnderwritingInfoCeded := outUnderwritingInfoCeded + inUnderwritingInfoCeded;
        }
      }
    }
  }

  /** A net record is only emitted together with a gross aggregate: the net is never computed
      from the zero default of the gross side, and with both inputs empty nothing is emitted. */
  lemma NetComesWithGross(grossCount: nat, cededCount: nat, grossWired: bool, cededWired: bool, netWired: bool)
    ensures var g := Gating(grossCount, cededCount, grossWired, cededWired, netWired);
      && (g.Some? && g.value.net ==> grossCount > 0 && g.value.gross)
      && (grossCount == 0 && cededCount == 0 ==> g == Some(Emission(false, false, false)))
      && (g == None <==> grossCount == 0 && cededCount > 0)
  {
  }

  /** Gross 100 in premium over 10 policies insured at 50 each, ceded 30 in premium and 20 in
      commission over the same policies insured at 20: the net keeps the 10 policies, with
      premium 70, commission -20 and 30 insured each. A ceded premium entered as -30 is
      subtracted just the same and gives a net premium of 130. */
  lemma NetCalculationExample()
    ensures var gross := Zero.(premiumWritten := 100.0, numberOfPolicies := 10.0, sumInsured := 50.0, maxSumInsured := 80.0);
      var ceded := Zero.(premiumWritten := 30.0, commission := 20.0, numberOfPolicies := 10.0, sumInsured := 20.0, maxSumInsured := 40.0);
      var net := NetOf(Summed([gross]), CededAggregate([ceded]));
      && net.premiumWritten == 70.0 && net.commission == -20.0
      && net.numberOfPolicies == 10.0 && net.sumInsured == 30.0
    ensures var gross := Zero.(premiumWritten := 100.0, numberOfPolicies := 10.0);
      var ceded := Zero.(premiumWritten := -30.0, numberOfPolicies := 10.0);
      NetOf(Summed([gross]), CededAggregate([ceded])).premiumWritten == 130.0
  {
    var gross := Zero.(premiumWritten := 100.0, numberOfPolicies := 10.0, sumInsured := 50.0, maxSumInsured := 80.0);
    var ceded := Zero.(premiumWritten := 30.0, commission := 20.0, numberOfPolicies := 10.0, sumInsured := 20.0, maxSumInsured := 40.0);
    SummedSingleton(gross);
    SummedSingleton(ceded);
    SummedSingleton(Zero.(premiumWritten := 100.0, numberOfPolicies := 10.0));
    SummedSingleton(Zero.(premiumWritten := -30.0, numberOfPolicies := 10.0));
  }
}
