/** The risk bands component: a table with one row per risk band (maximum sum insured, average
    sum insured, premium, number of policies) becomes one record per band. The records are built
    in the first iteration, kept in the iteration store and emitted by every calculation. */
module Bands {
  import opened Basics
  import opened Underwriting

  const MaximumSumInsuredTitle: string := "maximum sum insured"
  const AverageSumInsuredTitle: string := "average sum insured"
  const PremiumTitle: string := "premium"
  const NumberOfPoliciesTitle: string := "number of policies"

  /** The column titles of the table the component starts with. */
  const DefaultTitles: seq<string> := [MaximumSumInsuredTitle, AverageSumInsuredTitle, PremiumTitle, NumberOfPoliciesTitle]
  /** Its single band, all zero. */
  const DefaultRows: seq<seq<real>> := [[0.0, 0.0, 0.0, 0.0]]

  /** The titles name the four columns and every value row has one value per title. */
  predicate WellFormedTable(titles: seq<string>, rows: seq<seq<real>>)
  {
    && MaximumSumInsuredTitle in titles && AverageSumInsuredTitle in titles
    && PremiumTitle in titles && NumberOfPoliciesTitle in titles
    && forall i :: 0 <= i < |rows| ==> |rows[i]| == |titles|
  }

  /** The figures of one band: a zero record with premium (also as-if premium), maximum sum
      insured, average sum insured and policy count read from the row; no other figure is set.
      `BandFiguresReadsColumns` shows each value comes from the column of its title. */
  function BandFigures(titles: seq<string>, row: seq<real>): (f: Figures)
    requires MaximumSumInsuredTitle in titles && AverageSumInsuredTitle in titles
    requires PremiumTitle in titles && NumberOfPoliciesTitle in titles
    requires |row| == |titles|
    ensures f.premiumWrittenAsIf == f.premiumWritten
    ensures f.(premiumWritten := 0.0, premiumWrittenAsIf := 0.0, maxSumInsured := 0.0, sumInsured := 0.0,
               numberOfPolicies := 0.0) == Zero
  {
    var premium := row[IndexOf(titles, PremiumTitle)];
    Zero.(premiumWritten := premium, premiumWrittenAsIf := premium,
          maxSumInsured := row[IndexOf(titles, MaximumSumInsuredTitle)],
          sumInsured := row[IndexOf(titles, AverageSumInsuredTitle)],
          numberOfPolicies := row[IndexOf(titles, NumberOfPoliciesTitle)])
  }

  /** The figures of all bands, in row order. */
  function BandsFigures(titles: seq<string>, rows: seq<seq<real>>): (vs: seq<Figures>)
    requires WellFormedTable(titles, rows)
    ensures |vs| == |rows|
    ensures forall i :: 0 <= i < |rows| ==> vs[i] == BandFigures(titles, rows[i])
  {
    seq(|rows|, i requires 0 <= i < |rows| && |rows[i]| == |titles| => BandFigures(titles, rows[i]))
  }

  /** Each record is its own lineage root with the given origin and no other tag. */
  predicate RootedAt(infos: seq<UnderwritingInfo>, origin: Component)
    reads infos
  {
    forall k :: 0 <= k < |infos| ==> infos[k].Tags() == NoTags.(original := infos[k], origin := Some(origin))
  }

  lemma RootedAtAppend(a: seq<UnderwritingInfo>, c: UnderwritingInfo, origin: Component)
    requires RootedAt(a, origin) && RootedAt([c], origin)
    ensures RootedAt(a + [c], origin)
    ensures ValuesOf(a + [c]) == ValuesOf(a) + [c.figures]
  {
    assert ValuesOf(a + [c]) == ValuesOf(a) + [c.figures];
  }

  /** One pass of the band loop: a fresh record for one row, read through the cached column
      indices. */
  method BandRecord(titles: seq<string>, row: seq<real>, origin: Component,
                    columnIndexMaxSumInsured: int, columnIndexAverageSumInsured: int,
                    columnIndexPremium: int, columnIndexNumberOfPolicies: int)
    returns (u: UnderwritingInfo)
    requires MaximumSumInsuredTitle in titles && AverageSumInsuredTitle in titles
    requires PremiumTitle in titles && NumberOfPoliciesTitle in titles
    requires |row| == |titles|
    requires columnIndexMaxSumInsured == IndexOf(titles, MaximumSumInsuredTitle)
    requires columnIndexAverageSumInsured == IndexOf(titles, AverageSumInsuredTitle)
    requires columnIndexPremium == IndexOf(titles, PremiumTitle)
    requires columnIndexNumberOfPolicies == IndexOf(titles, NumberOfPoliciesTitle)
    ensures fresh(u) && u.figures == BandFigures(titles, row) && RootedAt([u], origin)
  {
    u := new UnderwritingInfo();
    u.figures := u.figures.(premiumWritten := row[columnIndexPremium]);
    u.figures := u.figures.(premiumWrittenAsIf := u.figures.premiumWritten);
    u.figures := u.figures.(maxSumInsured := row[columnIndexMaxSumInsured]);
    u.figures := u.figures.(sumInsured := row[columnIndexAverageSumInsured]);
    u.figures := u.figures.(numberOfPolicies := row[columnIndexNumberOfPolicies]);
    u.origin := Some(origin);
    u.originalUnderwritingInfo := u;
  }

  class RiskBands {
    /** The component as packets refer to it. */
    const component: Component
    /** The table: its column titles and its value rows (table rows 1 onwards). */
    const titles: seq<string>
    const rows: seq<seq<real>>
    var outUnderwritingInfo: seq<UnderwritingInfo>
    /** The iteration store's entry "underwriting infos". */
    var underwritingInfos: Option<seq<UnderwritingInfo>>
    /** The per-simulation cache: the table's row count (title row included) and the column
        indices. */
    var numberOfSegments: Option<int>
    var columnIndexMaxSumInsured: int
    var columnIndexAverageSumInsured: int
    var columnIndexPremium: int
    var columnIndexNumberOfPolicies: int

    /** The cache is empty or holds what `initSimulation` computes from the table. */
    predicate Valid()
      reads this
    {
      && WellFormedTable(titles, rows)
      && (numberOfSegments != None ==>
            && numberOfSegments.value == |rows| + 1
            && columnIndexMaxSumInsured == IndexOf(titles, MaximumSumInsuredTitle)
            && columnIndexAverageSumInsured == IndexOf(titles, AverageSumInsuredTitle)
            && columnIndexPremium == IndexOf(titles, PremiumTitle)
            && columnIndexNumberOfPolicies == IndexOf(titles, NumberOfPoliciesTitle))
    }

    constructor (self: Component, titles: seq<string>, rows: seq<seq<real>>)
      requires WellFormedTable(titles, rows)
      ensures component == self && this.titles == titles && this.rows == rows
      ensures outUnderwritingInfo == [] && underwritingInfos == None && numberOfSegments == None
      ensures Valid()
    {
      component, this.titles, this.rows := self, titles, rows;
      outUnderwritingInfo, underwritingInfos, numberOfSegments := [], None, None;
      columnIndexMaxSumInsured, columnIndexAverageSumInsured, columnIndexPremium, columnIndexNumberOfPolicies := 0, 0, 0, 0;
    }

    /** `initSimulation()`: fills the cache on the first call; later calls keep it. */
    method InitSimulation()
      requires Valid()
      modifies this`numberOfSegments, this`columnIndexMaxSumInsured, this`columnIndexAverageSumInsured,
               this`columnIndexPremium, this`columnIndexNumberOfPolicies
      ensures Valid() && numberOfSegments == Some(|rows| + 1)
      ensures old(numberOfSegments) != None ==> unchanged(this)
    {
      if numberOfSegments == None {
        numberOfSegments := Some(|rows| + 1);
        columnIndexMaxSumInsured := IndexOf(titles, MaximumSumInsuredTitle);
        columnIndexAverageSumInsured := IndexOf(titles, AverageSumInsuredTitle);
        columnIndexPremium := IndexOf(titles, PremiumTitle);
        columnIndexNumberOfPolicies := IndexOf(titles, NumberOfPoliciesTitle);
      }
    }

    /** `initDuringFirstIteration()`: in the first iteration, stores one fresh record per band,
        in row order; otherwise does nothing. */
    method InitDuringFirstIteration(isFirstIteration: bool)
      requires Valid() && numberOfSegments != None
      modifies this`underwritingInfos
      ensures !isFirstIteration ==> underwritingInfos == old(underwritingInfos)
      ensures isFirstIteration ==>
                && underwritingInfos.Some?
                && (forall k :: 0 <= k < |underwritingInfos.value| ==> fresh(underwritingInfos.value[k]))
                && ValuesOf(underwritingInfos.value) == BandsFigures(titles, rows)
                && RootedAt(underwritingInfos.value, component)
    {
      if !isFirstIteration {
        return;
      }
      var infos: seq<UnderwritingInfo> := [];
      for i := 1 to numberOfSegments.value
        invariant forall k :: 0 <= k < |infos| ==> fresh(infos[k])
        invariant ValuesOf(infos) == BandsFigures(titles, rows[..i - 1])
        invariant RootedAt(infos, component)
      {
        assert WellFormedTable(titles, rows[..i]);
        var u := BandRecord(titles, rows[i - 1], component, columnIndexMaxSumInsured, columnIndexAverageSumInsured,
                            columnIndexPremium, columnIndexNumberOfPolicies);
        RootedAtAppend(infos, u, component);
        infos := infos + [u];
      }
      assert rows[..|rows|] == rows;
      underwritingInfos := Some(infos);
    }

    /** `doCalculation()`: initializes as above and emits the stored records. */
    method DoCalculation(isFirstIteration: bool)
      requires Valid()
      requires isFirstIteration || underwritingInfos != None
      modifies this
      ensures Valid() && numberOfSegments == Some(|rows| + 1)
      ensures underwritingInfos.Some?
      ensures outUnderwritingInfo == old(outUnderwritingInfo) + underwritingInfos.value
      ensures !isFirstIteration ==> underwritingInfos == old(underwritingInfos)
      ensures isFirstIteration ==>
                && (forall k :: 0 <= k < |underwritingInfos.value| ==> fresh(underwritingInfos.value[k]))
                && ValuesOf(underwritingInfos.value) == BandsFigures(titles, rows)
                && RootedAt(underwritingInfos.value, component)
    {
      InitSimulation();
      InitDuringFirstIteration(isFirstIteration);
      outUnderwritingInfo := outUnderwritingInfo + underwritingInfos.value;
    }
  }

  // ---------------------------------------------------------------------------------------
  // Properties

  /** A band's record carries the row's values under their titles, whatever the column order,
      and its as-if premium is its premium. */
  lemma BandFiguresReadsColumns(titles: seq<string>, row: seq<real>, i: int)
    requires MaximumSumInsuredTitle in titles && AverageSumInsuredTitle in titles
    requires PremiumTitle in titles && NumberOfPoliciesTitle in titles
    requires |row| == |titles| && 0 <= i < |titles|
    requires titles[i] !in titles[..i]
    ensures titles[i] == PremiumTitle ==> BandFigures(titles, row).premiumWritten == row[i]
    ensures titles[i] == MaximumSumInsuredTitle ==> BandFigures(titles, row).maxSumInsured == row[i]
    ensures titles[i] == AverageSumInsuredTitle ==> BandFigures(titles, row).sumInsured == row[i]
    ensures titles[i] == NumberOfPoliciesTitle ==> BandFigures(titles, row).numberOfPolicies == row[i]
    ensures BandFigures(titles, row).premiumWrittenAsIf == BandFigures(titles, row).premiumWritten
  {
    FirstIndexIsIndexOf(titles, i);
  }

  /** The position of the first occurrence is what `IndexOf` finds. */
  lemma FirstIndexIsIndexOf(xs: seq<string>, i: int)
    requires 0 <= i < |xs| && xs[i] !in xs[..i]
    ensures IndexOf(xs, xs[i]) == i
  {
    var j := IndexOf(xs, xs[i]);
    assert xs[i] in xs[..j + 1];
  }

  /** The sum of a column over the value rows. */
  function ColumnTotal(rows: seq<seq<real>>, c: nat): real
    requires forall i :: 0 <= i < |rows| ==> c < |rows[i]|
  {
    if |rows| == 0 then 0.0 else ColumnTotal(rows[..|rows| - 1], c) + rows[|rows| - 1][c]
  }

  /** The band records' premiums and policy counts add up to the premium and policy columns of
      the table, and the bands carry no commission. */
  lemma {:induction false} BandTotals(titles: seq<string>, rows: seq<seq<real>>)
    requires WellFormedTable(titles, rows)
    ensures var vs := BandsFigures(titles, rows);
      && Total(vs, Premium) == ColumnTotal(rows, IndexOf(titles, PremiumTitle))
      && Total(vs, Policies) == ColumnTotal(rows, IndexOf(titles, NumberOfPoliciesTitle))
      && Total(vs, Commission) == 0.0
  {
    if |rows| > 0 {
      var n := |rows| - 1;
      assert WellFormedTable(titles, rows[..n]);
      BandTotals(titles, rows[..n]);
      assert BandsFigures(titles, rows)[..n] == BandsFigures(titles, rows[..n]);
    }
  }

  /** The default table gives one all-zero band. */
  lemma DefaultBand()
    ensures WellFormedTable(DefaultTitles, DefaultRows)
    ensures BandsFigures(DefaultTitles, DefaultRows) == [Zero]
  {
    assert WellFormedTable(DefaultTitles, DefaultRows);
    assert IndexOf(DefaultTitles, PremiumTitle) == 2;
    assert IndexOf(DefaultTitles, MaximumSumInsuredTitle) == 0;
    assert IndexOf(DefaultTitles, AverageSumInsuredTitle) == 1;
    assert IndexOf(DefaultTitles, NumberOfPoliciesTitle) == 3;
  }
}
