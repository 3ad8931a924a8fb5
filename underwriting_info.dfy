/** The underwriting-info record: premium, commission and exposure figures of one slice of a
    portfolio, with the in-place algebra (`plus`, `minus`, `scale`, `set`, `copy`) that moves
    records from gross to ceded to net.

    The record is a class, because the algebra updates it in place and because other records
    refer to it by identity (`originalUnderwritingInfo`). Its numbers form one `Figures` value,
    and its identity-like fields are read off as a `PacketTags` value with `Tags()`; the
    functions `Combined`, `Subtracted` and `Scaled` say what `plus`, `minus` and `scale` do to
    the numbers. Doubles are modelled as `real`. */
module Underwriting {
  import opened Basics

  /** The exposure bases a record can be measured by. */
  datatype Exposure = Absolute | PremiumWritten | NumberOfPolicies

  /** The bases a claim frequency can be relative to. */
  datatype FrequencyBase = AbsoluteFrequency | FrequencyPerPolicy

  /** The numbers of a record. `premiumWritten` is the field the record class calls `premium`.
      `sumInsured` is an average per policy; `numberOfPolicies * sumInsured` is the total. */
  datatype Figures = Figures(
    premiumWritten: real,
    premiumWrittenAsIf: real,
    fixedPremium: real,
    variablePremium: real,
    commission: real,
    fixedCommission: real,
    variableCommission: real,
    numberOfPolicies: real,
    sumInsured: real,
    maxSumInsured: real,
    exposureDefinition: Option<Exposure>)

  /** The figures of a freshly created packet: everything zero, no exposure basis. */
  const Zero: Figures := Figures(0.0, 0.0, 0.0, 0.0, 0.0, 0.0, 0.0, 0.0, 0.0, 0.0, None)

  /** The total sum insured, i.e. the average sum insured weighted by the policy count. */
  function TotalSumInsured(f: Figures): real
  {
    f.numberOfPolicies * f.sumInsured
  }

  /** Premium, commission and sum insured are all exactly zero. */
  predicate FullyCancelled(f: Figures)
  {
    f.premiumWritten == 0.0 && f.commission == 0.0 && f.sumInsured == 0.0
  }

  /** What `a.plus(b)` makes of `a`'s figures. The maximum sum insured bounds both maxima, an
      exposure basis survives only where both records share it, and the as-if premium is the
      receiver's. */
  function Combined(a: Figures, b: Figures): (r: Figures)
    ensures r.maxSumInsured >= a.maxSumInsured && r.maxSumInsured >= b.maxSumInsured
    ensures r.exposureDefinition != None ==>
              r.exposureDefinition == a.exposureDefinition == b.exposureDefinition
    ensures r.premiumWrittenAsIf == a.premiumWrittenAsIf
  {
    var total := a.numberOfPolicies * a.sumInsured + b.numberOfPolicies * b.sumInsured;
    var n := a.numberOfPolicies + b.numberOfPolicies;
    a.(sumInsured := if n > 0.0 then total / n else total,
       numberOfPolicies := n,
       maxSumInsured := Max(a.maxSumInsured, b.maxSumInsured),
       exposureDefinition := if a.exposureDefinition != b.exposureDefinition then None else a.exposureDefinition,
       premiumWritten := a.premiumWritten + b.premiumWritten,
       commission := a.commission + b.commission,
       fixedPremium := a.fixedPremium + b.fixedPremium,
       variablePremium := a.variablePremium + b.variablePremium,
       fixedCommission := a.fixedCommission + b.fixedCommission,
       variableCommission := a.variableCommission + b.variableCommission)
  }

  /** What `a.minus(b)` makes of `a`'s figures. A fully cancelled result carries no policies. */
  function Subtracted(a: Figures, b: Figures): (r: Figures)
    ensures FullyCancelled(r) ==> r.numberOfPolicies == 0.0
  {
    var total := a.numberOfPolicies * a.sumInsured - b.numberOfPolicies * b.sumInsured;
    var n := a.numberOfPolicies - b.numberOfPolicies;
    var s := if n > 0.0 then total / n else total;
    var p := a.premiumWritten - b.premiumWritten;
    var c := a.commission - b.commission;
    a.(sumInsured := s,
       numberOfPolicies := if p == 0.0 && c == 0.0 && s == 0.0 then 0.0 else n,
       exposureDefinition :=
         if a.exposureDefinition != None && a.exposureDefinition != b.exposureDefinition then None
         else a.exposureDefinition,
       premiumWritten := p,
       commission := c,
       fixedPremium := a.fixedPremium - b.fixedPremium,
       variablePremium := a.variablePremium - b.variablePremium,
       fixedCommission := a.fixedCommission - b.fixedCommission,
       variableCommission := a.variableCommission - b.variableCommission)
  }

  /** What `a.scale(factor)` makes of `a`'s figures. The policy count survives every nonzero
      factor; the exposure basis and the as-if premium are not touched. */
  function Scaled(a: Figures, factor: real): (r: Figures)
    ensures r.numberOfPolicies == 0.0 <==> factor == 0.0 || a.numberOfPolicies == 0.0
    ensures r.exposureDefinition == a.exposureDefinition && r.premiumWrittenAsIf == a.premiumWrittenAsIf
  {
    a.(maxSumInsured := a.maxSumInsured * factor,
       sumInsured := a.sumInsured * factor,
       numberOfPolicies := if factor == 0.0 then 0.0 else a.numberOfPolicies,
       commission := a.commission * factor,
       premiumWritten := a.premiumWritten * factor,
       fixedPremium := a.fixedPremium * factor,
       variablePremium := a.variablePremium * factor,
       fixedCommission := a.fixedCommission * factor,
       variableCommission := a.variableCommission * factor)
  }

  /** The figures of a copy: `set` copies every number except `premiumWrittenAsIf`, which keeps
      the value 0 of the freshly created packet. */
  function Copied(a: Figures): (r: Figures)
    ensures r.premiumWrittenAsIf == 0.0
  {
    a.(premiumWrittenAsIf := 0.0)
  }

  /** `scaleValue(Exposure)`: the quantity an exposure-based parameter is multiplied by; for
      the bases other than the absolute one it is the additive field of the same name. */
  function ExposureScaleValue(f: Figures, base: Exposure): (v: real)
    ensures base == Absolute ==> v == 1.0
    ensures base == PremiumWritten ==> v == FieldOf(f, Premium)
    ensures base == NumberOfPolicies ==> v == FieldOf(f, Policies)
  {
    match base
    case Absolute => 1.0
    case PremiumWritten => f.premiumWritten
    case NumberOfPolicies => f.numberOfPolicies
  }

  /** `scaleValue(FrequencyBase)`: the quantity a frequency parameter is multiplied by; each
      frequency base measures the record as the corresponding exposure base does. */
  function FrequencyScaleValue(f: Figures, base: FrequencyBase): (v: real)
    ensures v == ExposureScaleValue(f, if base == AbsoluteFrequency then Absolute else NumberOfPolicies)
  {
    match base
    case AbsoluteFrequency => 1.0
    case FrequencyPerPolicy => f.numberOfPolicies
  }

  /** The fields of a record that are references rather than numbers. `original` is the lineage
      reference `originalUnderwritingInfo`; `sender` is set by the framework when a packet is
      sent and is never copied. */
  datatype PacketTags = PacketTags(
    original: UnderwritingInfo?,
    origin: Option<Component>,
    sender: Option<Component>,
    lineOfBusiness: Option<Component>,
    reinsuranceContract: Option<Component>)

  /** The tags of a freshly created packet. */
  const NoTags: PacketTags := PacketTags(null, None, None, None, None)

  /** The tags of a copy: everything but the sender. */
  function CopiedTags(t: PacketTags): PacketTags
  {
    t.(sender := None)
  }

  /** A record. The numbers the algebra updates are held together in `figures`; the lineage
      reference and the markers are fields of their own. */
  class UnderwritingInfo {
    var figures: Figures
    var originalUnderwritingInfo: UnderwritingInfo?
    var origin: Option<Component>
    var sender: Option<Component>
    var lineOfBusiness: Option<Component>
    var reinsuranceContract: Option<Component>

    function Tags(): PacketTags
      reads this`originalUnderwritingInfo, this`origin, this`sender, this`lineOfBusiness, this`reinsuranceContract
    {
      PacketTags(originalUnderwritingInfo, origin, sender, lineOfBusiness, reinsuranceContract)
    }

    /** A fresh packet, as the packet factory creates it. */
    constructor ()
      ensures figures == Zero && Tags() == NoTags
    {
      figures := Zero;
      originalUnderwritingInfo := null;
      origin, sender, lineOfBusiness, reinsuranceContract := None, None, None, None;
    }

    /** `copy()`: a fresh record carrying this record's figures and tags, including the very
        same lineage reference. */
    method Copy() returns (c: UnderwritingInfo)
      ensures fresh(c)
      ensures c.figures == Copied(figures) && c.Tags() == CopiedTags(Tags())
    {
      c := new UnderwritingInfo();
      c.Set(this);
    }

    /** `set(other)`: takes over every field `set` lists; `premiumWrittenAsIf` and the sender
        stay as they were. */
    method Set(other: UnderwritingInfo)
      modifies this
      ensures figures == old(other.figures).(premiumWrittenAsIf := old(figures.premiumWrittenAsIf))
      ensures Tags() == old(other.Tags()).(sender := old(sender))
    {
      origin := other.origin;
      figures := other.figures.(premiumWrittenAsIf := figures.premiumWrittenAsIf);
      originalUnderwritingInfo := other.originalUnderwritingInfo;
      lineOfBusiness := other.lineOfBusiness;
      reinsuranceContract := other.reinsuranceContract;
    }

    /** `plus(other)`: adds `other` into this record and returns this record; a null `other`
        changes nothing. `other` may be this record itself: `plus` reads each field of `other`
        before it writes the same field of this record, so the old figures of both count. */
    method Plus(other: UnderwritingInfo?) returns (r: UnderwritingInfo)
      modifies this`figures
      ensures r == this
      ensures other == null ==> figures == old(figures)
      ensures other != null ==> figures == Combined(old(figures), old(other.figures))
    {
      r := this;
      if other != null {
        figures := Combined(figures, other.figures);
      }
    }

    /** `minus(other)`: subtracts `other` from this record and returns this record; a null
        `other` changes nothing. `other` may be this record itself. */
    method Minus(other: UnderwritingInfo?) returns (r: UnderwritingInfo)
      modifies this`figures
      ensures r == this
      ensures other == null ==> figures == old(figures)
      ensures other != null ==> figures == Subtracted(old(figures), old(other.figures))
    {
      r := this;
      if other != null {
        figures := Subtracted(figures, other.figures);
      }
    }

    /** `scale(factor)`: multiplies the amounts by `factor`; a zero factor also clears the
        policy count. */
    method Scale(factor: real)
      modifies this`figures
      ensures figures == Scaled(old(figures), factor)
    {
      figures := Scaled(figures, factor);
    }
  }

  /** The figures of a list of records, in order. */
  function ValuesOf(infos: seq<UnderwritingInfo>): (vs: seq<Figures>)
    reads infos
    ensures |vs| == |infos|
    ensures forall i :: 0 <= i < |infos| ==> vs[i] == infos[i].figures
  {
    seq(|infos|, i requires 0 <= i < |infos| reads infos => infos[i].figures)
  }

  /** The fields `plus` adds up. */
  datatype AdditiveField =
    Premium | FixedPremium | VariablePremium | Commission | FixedCommission | VariableCommission | Policies

  function FieldOf(f: Figures, k: AdditiveField): real
  {
    match k
    case Premium => f.premiumWritten
    case FixedPremium => f.fixedPremium
    case VariablePremium => f.variablePremium
    case Commission => f.commission
    case FixedCommission => f.fixedCommission
    case VariableCommission => f.variableCommission
    case Policies => f.numberOfPolicies
  }

  /** The sum of one additive field over a list of figures. */
  function Total(vs: seq<Figures>, k: AdditiveField): real
  {
    if |vs| == 0 then 0.0 else Total(vs[..|vs| - 1], k) + FieldOf(vs[|vs| - 1], k)
  }

  /** The sum of the total sums insured over a list of figures. */
  function TotalOfSumsInsured(vs: seq<Figures>): real
  {
    if |vs| == 0 then 0.0 else TotalOfSumsInsured(vs[..|vs| - 1]) + TotalSumInsured(vs[|vs| - 1])
  }

  // ---------------------------------------------------------------------------------------
  // Properties of the algebra

  /** `plus` adds every additive field and keeps the larger maximum sum insured. */
  lemma CombinedAdds(a: Figures, b: Figures, k: AdditiveField)
    ensures FieldOf(Combined(a, b), k) == FieldOf(a, k) + FieldOf(b, k)
    ensures Combined(a, b).maxSumInsured == Max(a.maxSumInsured, b.maxSumInsured)
    ensures Combined(a, b).exposureDefinition ==
            (if a.exposureDefinition == b.exposureDefinition then a.exposureDefinition else None)
  {
  }

  /** With policies left after `plus`, the total sum insured is the sum of both totals. */
  lemma CombinedTotalSumInsured(a: Figures, b: Figures)
    ensures Combined(a, b).numberOfPolicies > 0.0 ==>
            TotalSumInsured(Combined(a, b)) == TotalSumInsured(a) + TotalSumInsured(b)
  {
    var r := Combined(a, b);
    if r.numberOfPolicies > 0.0 {
      MultiplyDivides(r.numberOfPolicies, TotalSumInsured(a) + TotalSumInsured(b));
    }
  }

  /** With policies left after `minus`, the total sum insured is the difference of the totals. */
  lemma SubtractedTotalSumInsured(a: Figures, b: Figures)
    ensures Subtracted(a, b).numberOfPolicies > 0.0 ==>
            TotalSumInsured(Subtracted(a, b)) == TotalSumInsured(a) - TotalSumInsured(b)
  {
    var r := Subtracted(a, b);
    if r.numberOfPolicies > 0.0 {
      MultiplyDivides(r.numberOfPolicies, TotalSumInsured(a) - TotalSumInsured(b));
    }
  }

  lemma MultiplyDivides(n: real, total: real)
    requires n > 0.0
    ensures n * (total / n) == total
  {
  }

  /** `plus` is symmetric in everything but `premiumWrittenAsIf`, which it leaves to the receiver. */
  lemma CombinedCommutes(a: Figures, b: Figures)
    ensures Combined(a, b) == Combined(b, a).(premiumWrittenAsIf := a.premiumWrittenAsIf)
  {
  }

  /** With non-negative policy counts, `plus` adds the total sums insured, also when neither
      record carries policies (both totals are then 0). */
  lemma CombinedTotalNonNegative(a: Figures, b: Figures)
    requires a.numberOfPolicies >= 0.0 && b.numberOfPolicies >= 0.0
    ensures Combined(a, b).numberOfPolicies >= 0.0
    ensures TotalSumInsured(Combined(a, b)) == TotalSumInsured(a) + TotalSumInsured(b)
  {
    CombinedTotalSumInsured(a, b);
    if Combined(a, b).numberOfPolicies == 0.0 {
      assert a.numberOfPolicies == 0.0 && b.numberOfPolicies == 0.0;
      assert TotalSumInsured(a) == 0.0 * a.sumInsured == 0.0;
      assert TotalSumInsured(b) == 0.0 * b.sumInsured == 0.0;
    }
  }

  /** Recombining three records in either grouping gives the same figures, provided no record
      carries a negative policy count. */
  lemma CombinedAssociates(a: Figures, b: Figures, c: Figures)
    requires a.numberOfPolicies >= 0.0 && b.numberOfPolicies >= 0.0 && c.numberOfPolicies >= 0.0
    ensures Combined(Combined(a, b), c) == Combined(a, Combined(b, c))
  {
    var ab, bc := Combined(a, b), Combined(b, c);
    CombinedTotalNonNegative(a, b);
    CombinedTotalNonNegative(b, c);
    var total := TotalSumInsured(a) + TotalSumInsured(b) + TotalSumInsured(c);
    assert TotalSumInsured(ab) + TotalSumInsured(c) == total == TotalSumInsured(a) + TotalSumInsured(bc);
  }

  lemma DivideBack(s: real, n: real, total: real)
    requires n > 0.0 && n * s == total
    ensures s == total / n
  {
  }

  /** For all records, `minus` undoes `plus` on the amounts; the maximum stays the combined
      one and the as-if premium the receiver's. */
  lemma SubtractedUndoesCombinedAmounts(a: Figures, b: Figures)
    ensures var r := Subtracted(Combined(a, b), b);
      && (forall k :: k != Policies ==> FieldOf(r, k) == FieldOf(a, k))
      && r.maxSumInsured == Max(a.maxSumInsured, b.maxSumInsured)
      && r.premiumWrittenAsIf == a.premiumWrittenAsIf
  {
  }

  /** `minus` also undoes `plus` on the average sum insured and the policy count, as long as
      the record and the combination carry policies; the count is cleared if the record is
      itself fully cancelled. */
  lemma SubtractedUndoesCombined(a: Figures, b: Figures)
    requires a.numberOfPolicies > 0.0 && a.numberOfPolicies + b.numberOfPolicies > 0.0
    ensures var r := Subtracted(Combined(a, b), b);
      && r.sumInsured == a.sumInsured
      && r.numberOfPolicies == (if FullyCancelled(a) then 0.0 else a.numberOfPolicies)
  {
    var ab := Combined(a, b);
    assert ab.numberOfPolicies > 0.0;
    CombinedTotalSumInsured(a, b);
    var r := Subtracted(ab, b);
    assert ab.numberOfPolicies - b.numberOfPolicies == a.numberOfPolicies;
    calc {
      r.sumInsured;
      (TotalSumInsured(ab) - TotalSumInsured(b)) / a.numberOfPolicies;
      TotalSumInsured(a) / a.numberOfPolicies;
      { DivideBack(a.sumInsured, a.numberOfPolicies, TotalSumInsured(a)); }
      a.sumInsured;
    }
  }

  /** Subtracting a record from itself cancels it completely: amounts, policy count and sum
      insured become 0, while the maximum sum insured, `premiumWrittenAsIf` and the exposure
      basis are kept. */
  lemma SubtractedSelfCancels(a: Figures)
    ensures var r := Subtracted(a, a);
      && (forall k :: FieldOf(r, k) == 0.0)
      && r.sumInsured == 0.0
      && r == a.(premiumWrittenAsIf := a.premiumWrittenAsIf, maxSumInsured := a.maxSumInsured,
                 premiumWritten := 0.0, fixedPremium := 0.0, variablePremium := 0.0,
                 commission := 0.0, fixedCommission := 0.0, variableCommission := 0.0,
                 numberOfPolicies := 0.0, sumInsured := 0.0)
  {
  }

  /** The extra null test in `minus` makes no difference: `minus` and `plus` clear the exposure
      basis in exactly the same cases. */
  lemma ExposureClearedAlike(a: Figures, b: Figures)
    ensures Subtracted(a, b).exposureDefinition == Combined(a, b).exposureDefinition
  {
  }

  /** Scaling by 1 changes nothing; scaling by 0 clears the amounts and the policy count. */
  lemma ScaledByOneAndZero(a: Figures)
    ensures Scaled(a, 1.0) == a
    ensures forall k :: FieldOf(Scaled(a, 0.0), k) == 0.0
    ensures Scaled(a, 0.0).sumInsured == 0.0 && Scaled(a, 0.0).maxSumInsured == 0.0
  {
  }

  /** Scaling twice is scaling once by the product, and scales the total sum insured too
      (the count is unchanged for a nonzero factor). */
  lemma ScaledComposes(a: Figures, f: real, g: real)
    ensures Scaled(Scaled(a, f), g) == Scaled(a, f * g)
    ensures f != 0.0 ==> TotalSumInsured(Scaled(a, f)) == f * TotalSumInsured(a)
  {
    var l, r := Scaled(Scaled(a, f), g), Scaled(a, f * g);
    assert f * g == 0.0 <==> f == 0.0 || g == 0.0 by { ProductZero(f, g); }
    assert l.numberOfPolicies == r.numberOfPolicies;
    assert l == r;
    if f != 0.0 {
      var s := Scaled(a, f);
      assert s.numberOfPolicies == a.numberOfPolicies && s.sumInsured == a.sumInsured * f;
      calc {
        TotalSumInsured(s);
        a.numberOfPolicies * (a.sumInsured * f);
        { MultiplyRegroups(a.numberOfPolicies, a.sumInsured, f); }
        f * (a.numberOfPolicies * a.sumInsured);
        f * TotalSumInsured(a);
      }
    }
  }

  lemma MultiplyRegroups(n: real, s: real, f: real)
    ensures n * (s * f) == f * (n * s)
  {
  }

  lemma ProductZero(f: real, g: real)
    ensures f * g == 0.0 <==> f == 0.0 || g == 0.0
  {
    if f != 0.0 && g != 0.0 {
      assert f * g / g == f;
    }
  }

  /** The scale values follow `scale`: the premium base scales with the factor, the policy
      base only drops to 0 with a zero factor, the absolute base stays 1. On the bases both
      functions know, they agree. */
  lemma ScaleValuesUnderScale(a: Figures, factor: real)
    ensures ExposureScaleValue(Scaled(a, factor), PremiumWritten) == factor * ExposureScaleValue(a, PremiumWritten)
    ensures ExposureScaleValue(Scaled(a, factor), NumberOfPolicies) ==
            (if factor == 0.0 then 0.0 else ExposureScaleValue(a, NumberOfPolicies))
    ensures ExposureScaleValue(Scaled(a, factor), Absolute) == 1.0
    ensures FrequencyScaleValue(a, AbsoluteFrequency) == ExposureScaleValue(a, Absolute)
    ensures FrequencyScaleValue(a, FrequencyPerPolicy) == ExposureScaleValue(a, NumberOfPolicies)
  {
  }
}
