/** The line-of-business composer: a segment takes a portion of the records of the underwriting
    components its portion table lists. Each listed record becomes a scaled copy that is its own
    lineage root and carries the segment as origin and line of business; unlisted records are
    dropped. */
module Composer {
  import opened Basics
  import opened Underwriting

  /** One row of the portion table: an underwriting component's name and its portion. */
  datatype PortionRow = PortionRow(underwriting: string, portion: real)

  /** The Underwriting column of the table. */
  function UnderwritingColumn(rows: seq<PortionRow>): (column: seq<string>)
    ensures |column| == |rows|
    ensures forall i :: 0 <= i < |rows| ==> column[i] == rows[i].underwriting
  {
    seq(|rows|, i requires 0 <= i < |rows| => rows[i].underwriting)
  }

  /** The portion of the first row naming the given component. */
  function PortionOf(rows: seq<PortionRow>, name: string): real
    requires name in UnderwritingColumn(rows)
  {
    rows[IndexOf(UnderwritingColumn(rows), name)].portion
  }

  /** The figures of a composed record: premium, sum insured, maximum sum insured and commission
      are multiplied by the portion; the policy count and the fixed and variable parts stay.
      Unlike `scale`, a zero portion keeps the policies while it clears the amounts. */
  function Portioned(f: Figures, portion: real): (r: Figures)
    ensures r.numberOfPolicies == f.numberOfPolicies && r.exposureDefinition == f.exposureDefinition
    ensures portion == 0.0 ==>
              r.premiumWritten == 0.0 && r.sumInsured == 0.0 && r.maxSumInsured == 0.0 && r.commission == 0.0
  {
    f.(premiumWritten := f.premiumWritten * portion,
       sumInsured := f.sumInsured * portion,
       maxSumInsured := f.maxSumInsured * portion,
       commission := f.commission * portion)
  }

  /** Every record has an origin (the composer reads the origin's name). */
  predicate HaveOrigins(infos: seq<UnderwritingInfo>)
    reads infos
  {
    forall i :: 0 <= i < |infos| ==> infos[i].origin.Some?
  }

  /** The origin names of the records. */
  function OriginNames(infos: seq<UnderwritingInfo>): (names: seq<string>)
    requires HaveOrigins(infos)
    reads infos
    ensures |names| == |infos|
    ensures forall i :: 0 <= i < |infos| ==> names[i] == infos[i].origin.value.name
  {
    seq(|infos|, i requires 0 <= i < |infos| && infos[i].origin.Some? reads infos => infos[i].origin.value.name)
  }

  /** The positions, in order, of the names that the column lists (`SelectedExactly` shows it
      holds every such position once and no other). */
  function Selected(names: seq<string>, column: seq<string>): (sel: seq<nat>)
    ensures forall k :: 0 <= k < |sel| ==> sel[k] < |names| && names[sel[k]] in column
  {
    if |names| == 0 then []
    else
      var prefix := Selected(names[..|names| - 1], column);
      if names[|names| - 1] in column then prefix + [|names| - 1] else prefix
  }

  /** The figures the composer makes of records with the given figures and origin names: one
      portioned copy per record the table lists, in order. */
  function ComposedFigures(vs: seq<Figures>, names: seq<string>, rows: seq<PortionRow>): (r: seq<Figures>)
    requires |vs| == |names|
  {
    if |vs| == 0 then []
    else
      var n := |vs| - 1;
      var prefix := ComposedFigures(vs[..n], names[..n], rows);
      if names[n] in UnderwritingColumn(rows) then prefix + [Portioned(Copied(vs[n]), PortionOf(rows, names[n]))]
      else prefix
  }

  /** The elements at the positions whose name the column lists, in order. */
  function Picked<T>(xs: seq<T>, names: seq<string>, column: seq<string>): (r: seq<T>)
    requires |xs| == |names|
  {
    if |xs| == 0 then []
    else
      var n := |xs| - 1;
      var prefix := Picked(xs[..n], names[..n], column);
      if names[n] in column then prefix + [xs[n]] else prefix
  }

  /** The reinsurance contracts of the records. */
  function ContractsOf(infos: seq<UnderwritingInfo>): (cs: seq<Option<Component>>)
    reads infos
    ensures |cs| == |infos|
    ensures forall i :: 0 <= i < |infos| ==> cs[i] == infos[i].reinsuranceContract
  {
    seq(|infos|, i requires 0 <= i < |infos| reads infos => infos[i].reinsuranceContract)
  }

  /** Each record is its own lineage root, has the segment as origin and line of business, and
      no sender. */
  predicate SelfRooted(lobs: seq<UnderwritingInfo>, lineOfBusiness: Option<Component>)
    reads lobs
  {
    forall k :: 0 <= k < |lobs| ==>
      && lobs[k].originalUnderwritingInfo == lobs[k] && lobs[k].origin == lineOfBusiness
      && lobs[k].sender == None && lobs[k].lineOfBusiness == lineOfBusiness
  }

  /** The records the channel filter admits: those whose origin's normalized name the column
      lists, in order. */
  function Admitted(source: seq<UnderwritingInfo>, column: seq<string>): (r: seq<UnderwritingInfo>)
    requires HaveOrigins(source)
    reads source
    ensures forall u :: u in r ==> u in source && u.origin.value.normalizedName in column
  {
    if |source| == 0 then []
    else
      var last := source[|source| - 1];
      var prefix := Admitted(source[..|source| - 1], column);
      if last.origin.value.normalizedName in column then prefix + [last] else prefix
  }

  lemma SnapshotsAppend(a: seq<UnderwritingInfo>, c: UnderwritingInfo)
    ensures ValuesOf(a + [c]) == ValuesOf(a) + [c.figures]
    ensures ContractsOf(a + [c]) == ContractsOf(a) + [c.reinsuranceContract]
  {
    assert ValuesOf(a + [c]) == ValuesOf(a) + [c.figures];
    assert ContractsOf(a + [c]) == ContractsOf(a) + [c.reinsuranceContract];
  }

  lemma SelfRootedAppend(a: seq<UnderwritingInfo>, b: seq<UnderwritingInfo>, lineOfBusiness: Option<Component>)
    requires SelfRooted(a, lineOfBusiness) && SelfRooted(b, lineOfBusiness)
    ensures SelfRooted(a + b, lineOfBusiness)
  {
    forall k | 0 <= k < |a + b|
      ensures (a + b)[k] == if k < |a| then a[k] else b[k - |a|]
    {
    }
  }

  /** The composed figures of a prefix one longer. */
  lemma ComposedStep(vs: seq<Figures>, names: seq<string>, rows: seq<PortionRow>, i: nat)
    requires |vs| == |names| && i < |vs|
    ensures ComposedFigures(vs[..i + 1], names[..i + 1], rows) ==
      ComposedFigures(vs[..i], names[..i], rows) +
      (if names[i] in UnderwritingColumn(rows) then [Portioned(Copied(vs[i]), PortionOf(rows, names[i]))] else [])
  {
    assert names[..i + 1][..i] == names[..i] && vs[..i + 1][..i] == vs[..i];
  }

  /** The picked elements of a prefix one longer. */
  lemma PickedStep<T>(xs: seq<T>, names: seq<string>, column: seq<string>, i: nat)
    requires |xs| == |names| && i < |xs|
    ensures Picked(xs[..i + 1], names[..i + 1], column) ==
      Picked(xs[..i], names[..i], column) + (if names[i] in column then [xs[i]] else [])
  {
    assert names[..i + 1][..i] == names[..i] && xs[..i + 1][..i] == xs[..i];
  }

  /** One pass of the composer's loop: a copy that is its own lineage root, scaled by the
      portion and tagged with the segment. */
  method ComposedCopy(u: UnderwritingInfo, lineOfBusiness: Option<Component>, portion: real) returns (c: UnderwritingInfo)
    ensures fresh(c)
    ensures c.figures == Portioned(Copied(u.figures), portion) && c.reinsuranceContract == u.reinsuranceContract
    ensures SelfRooted([c], lineOfBusiness)
  {
    c := u.Copy();
    c.originalUnderwritingInfo := c;
    c.figures := Portioned(c.figures, portion);
    c.origin := lineOfBusiness;
    c.lineOfBusiness := lineOfBusiness;
  }

  /** The loop of `doCalculation`: the composed records of the listed records, in order. */
  method ComposeAll(ins: seq<UnderwritingInfo>, rows: seq<PortionRow>, lineOfBusiness: Option<Component>)
    returns (lobUnderwritingInfos: seq<UnderwritingInfo>)
    requires HaveOrigins(ins)
    ensures forall u :: u in lobUnderwritingInfos ==> fresh(u)
    ensures ValuesOf(lobUnderwritingInfos) == ComposedFigures(ValuesOf(ins), OriginNames(ins), rows)
    ensures ContractsOf(lobUnderwritingInfos) == Picked(ContractsOf(ins), OriginNames(ins), UnderwritingColumn(rows))
    ensures SelfRooted(lobUnderwritingInfos, lineOfBusiness)
  {
    var column := UnderwritingColumn(rows);
    ghost var names, vs, cs := OriginNames(ins), ValuesOf(ins), ContractsOf(ins);
    lobUnderwritingInfos := [];
    for i := 0 to |ins|
      invariant ValuesOf(ins) == vs && ContractsOf(ins) == cs
      invariant forall u :: u in lobUnderwritingInfos ==> fresh(u)
      invariant ValuesOf(lobUnderwritingInfos) == ComposedFigures(vs[..i], names[..i], rows)
      invariant ContractsOf(lobUnderwritingInfos) == Picked(cs[..i], names[..i], column)
      invariant SelfRooted(lobUnderwritingInfos, lineOfBusiness)
    {
      ComposedStep(vs, names, rows, i);
      PickedStep(cs, names, column, i);
      var originName := ins[i].origin.value.name;
      var row := IndexOf(column, originName);
      if row > -1 {
        var lobUnderwritingInfo := ComposedCopy(ins[i], lineOfBusiness, rows[row].portion);
        SnapshotsAppend(lobUnderwritingInfos, lobUnderwritingInfo);
        SelfRootedAppend(lobUnderwritingInfos, [lobUnderwritingInfo], lineOfBusiness);
        lobUnderwritingInfos := lobUnderwritingInfos + [lobUnderwritingInfo];
      }
    }
    assert names[..|ins|] == names && vs[..|ins|] == vs && cs[..|ins|] == cs;
  }

  class UnderwritingLineOfBusinessComposer {
    /** The value rows of the portion table. */
    const parmPortions: seq<PortionRow>
    var inUnderwritingInfo: seq<UnderwritingInfo>
    var outUnderwritingInfo: seq<UnderwritingInfo>

    constructor (portions: seq<PortionRow>)
      ensures parmPortions == portions && inUnderwritingInfo == [] && outUnderwritingInfo == []
    {
      parmPortions := portions;
      inUnderwritingInfo, outUnderwritingInfo := [], [];
    }

    /** The segment of a calculation: the sender of the first record. */
    function LineOfBusiness(): Option<Component>
      reads this, inUnderwritingInfo
    {
      if |inUnderwritingInfo| > 0 then inUnderwritingInfo[0].sender else None
    }

    /** `doCalculation()`: one composed record per record whose origin name the table lists, in
        input order, appended to the out channel; the input records stay as they are. */
    method DoCalculation()
      requires HaveOrigins(inUnderwritingInfo)
      modifies this`outUnderwritingInfo
      ensures var ins, column := inUnderwritingInfo, UnderwritingColumn(parmPortions);
        var n := |old(outUnderwritingInfo)|;
        && |outUnderwritingInfo| == n + |Selected(OriginNames(ins), column)|
        && outUnderwritingInfo[..n] == old(outUnderwritingInfo)
        && (forall u :: u in outUnderwritingInfo[n..] ==> fresh(u))
        && ValuesOf(outUnderwritingInfo[n..]) == ComposedFigures(ValuesOf(ins), OriginNames(ins), parmPortions)
        && ContractsOf(outUnderwritingInfo[n..]) == Picked(ContractsOf(ins), OriginNames(ins), column)
        && SelfRooted(outUnderwritingInfo[n..], LineOfBusiness())
    {
      var ins := inUnderwritingInfo;
      var lobUnderwritingInfos: seq<UnderwritingInfo> := [];
      if |ins| > 0 {
        lobUnderwritingInfos := ComposeAll(ins, parmPortions, ins[0].sender);
      }
      ComposedLength(ValuesOf(ins), OriginNames(ins), parmPortions);
      outUnderwritingInfo := outUnderwritingInfo + lobUnderwritingInfos;
      assert outUnderwritingInfo[|old(outUnderwritingInfo)|..] == lobUnderwritingInfos;
    }

    /** `filterInChannel(inUnderwritingInfo, source)`: with a non-empty table, the records whose
        origin's normalized name the table lists join the in channel, in order. */
    method FilterInChannel(source: seq<UnderwritingInfo>)
      requires |parmPortions| > 0 ==> HaveOrigins(source)
      modifies this`inUnderwritingInfo
      ensures inUnderwritingInfo == old(inUnderwritingInfo) +
                (if |parmPortions| > 0 then Admitted(source, UnderwritingColumn(parmPortions)) else [])
    {
      if |parmPortions| > 0 {
        var column := UnderwritingColumn(parmPortions);
        ghost var start := inUnderwritingInfo;
        for i := 0 to |source|
          invariant inUnderwritingInfo == start + Admitted(source[..i], column)
        {
          assert source[..i + 1][..i] == source[..i];
          var originName := source[i].origin.value.normalizedName;
          var row := IndexOf(column, originName);
          if row > -1 {
            inUnderwritingInfo := inUnderwritingInfo + [source[i]];
          }
        }
        assert source[..|source|] == source;
      }
    }
  }

  // ---------------------------------------------------------------------------------------
  // Properties

  /** The portion scales exactly the four amounts `Scaled` also scales, and leaves the policy
      count, the fixed and variable parts and the exposure definition alone; the total sum
      insured scales with the portion. */
  lemma PortionedAgainstScaled(f: Figures, portion: real)
    ensures var p, s := Portioned(f, portion), Scaled(f, portion);
      && p.premiumWritten == s.premiumWritten && p.sumInsured == s.sumInsured
      && p.maxSumInsured == s.maxSumInsured && p.commission == s.commission
      && p.(premiumWritten := f.premiumWritten, sumInsured := f.sumInsured,
            maxSumInsured := f.maxSumInsured, commission := f.commission) == f
      && TotalSumInsured(p) == portion * TotalSumInsured(f)
  {
    MultiplyRegroups(f.numberOfPolicies, f.sumInsured, portion);
  }

  /** A full portion keeps the figures, and two portions compose by multiplication. */
  lemma PortionsCompose(f: Figures, p: real, q: real)
    ensures Portioned(f, 1.0) == f
    ensures Portioned(Portioned(f, p), q) == Portioned(f, p * q)
  {
    assert f.premiumWritten * p * q == f.premiumWritten * (p * q);
    assert f.sumInsured * p * q == f.sumInsured * (p * q);
    assert f.maxSumInsured * p * q == f.maxSumInsured * (p * q);
    assert f.commission * p * q == f.commission * (p * q);
  }

  /** The composed figures are as many as the selected positions. */
  lemma {:induction false} ComposedLength(vs: seq<Figures>, names: seq<string>, rows: seq<PortionRow>)
    requires |vs| == |names|
    ensures |ComposedFigures(vs, names, rows)| == |Selected(names, UnderwritingColumn(rows))|
  {
    if |vs| > 0 {
      var n := |vs| - 1;
      ComposedLength(vs[..n], names[..n], rows);
    }
  }

  /** The composed figures are, position by position, the portioned copies of the selected
      records, with the portion the table gives each record's name. */
  lemma {:induction false} ComposedFiguresAt(vs: seq<Figures>, names: seq<string>, rows: seq<PortionRow>)
    requires |vs| == |names|
    ensures var sel, r := Selected(names, UnderwritingColumn(rows)), ComposedFigures(vs, names, rows);
      && |r| == |sel|
      && forall k :: 0 <= k < |sel| ==> r[k] == Portioned(Copied(vs[sel[k]]), PortionOf(rows, names[sel[k]]))
  {
    if |vs| > 0 {
      var n := |vs| - 1;
      ComposedFiguresAt(vs[..n], names[..n], rows);
      var prefix, selected := ComposedFigures(vs[..n], names[..n], rows), Selected(names[..n], UnderwritingColumn(rows));
      forall k | 0 <= k < |selected|
        ensures prefix[k] == Portioned(Copied(vs[selected[k]]), PortionOf(rows, names[selected[k]]))
      {
        assert vs[..n][selected[k]] == vs[selected[k]] && names[..n][selected[k]] == names[selected[k]];
      }
    }
  }

  /** The picked elements are, position by position, the elements at the selected positions. */
  lemma {:induction false} PickedAt<T>(xs: seq<T>, names: seq<string>, column: seq<string>)
    requires |xs| == |names|
    ensures var sel, r := Selected(names, column), Picked(xs, names, column);
      && |r| == |sel|
      && forall k :: 0 <= k < |sel| ==> r[k] == xs[sel[k]]
  {
    if |xs| > 0 {
      var n := |xs| - 1;
      PickedAt(xs[..n], names[..n], column);
      assert forall i :: 0 <= i < n ==> xs[..n][i] == xs[i] && names[..n][i] == names[i];
    }
  }

  /** The selection is in increasing order and holds every position whose name the column
      lists. */
  lemma {:induction false} SelectedInOrder(names: seq<string>, column: seq<string>)
    ensures var sel := Selected(names, column);
      && (forall k, l :: 0 <= k < l < |sel| ==> sel[k] < sel[l])
      && (forall i :: 0 <= i < |names| && names[i] in column ==> i in sel)
  {
    if |names| > 0 {
      var prefix := names[..|names| - 1];
      SelectedInOrder(prefix, column);
      assert forall i :: 0 <= i < |prefix| ==> prefix[i] == names[i];
    }
  }

  /** A record whose name the column lists is selected exactly once, and nothing else is. */
  lemma SelectedExactly(names: seq<string>, column: seq<string>, i: int)
    requires 0 <= i < |names|
    ensures i in Selected(names, column) <==> names[i] in column
    ensures names[i] in column ==> multiset(Selected(names, column))[i] == 1
  {
    var sel := Selected(names, column);
    SelectedInOrder(names, column);
    if names[i] in column {
      var k :| 0 <= k < |sel| && sel[k] == i;
      MultiplicityOne(sel, k);
    }
  }

  /** In a strictly increasing sequence every element occurs once. */
  lemma {:induction false} MultiplicityOne(sel: seq<nat>, k: int)
    requires 0 <= k < |sel|
    requires forall a, b :: 0 <= a < b < |sel| ==> sel[a] < sel[b]
    ensures multiset(sel)[sel[k]] == 1
  {
    var x := sel[k];
    if k == |sel| - 1 {
      var prefix := sel[..|sel| - 1];
      assert sel == prefix + [x];
      assert x !in prefix by {
        forall a | 0 <= a < |prefix| ensures prefix[a] != x {
          assert sel[a] < sel[k];
        }
      }
    } else {
      var prefix := sel[..|sel| - 1];
      var last := sel[|sel| - 1];
      assert sel == prefix + [last];
      assert prefix[k] == x && last != x;
      MultiplicityOne(prefix, k);
    }
  }

  /** When every origin's name is its normalized name, the filter and the composer agree: every
      admitted record is composed. */
  lemma {:induction false} AdmittedAreSelected(source: seq<UnderwritingInfo>, column: seq<string>)
    requires HaveOrigins(source)
    requires forall i :: 0 <= i < |source| ==> source[i].origin.value.name == source[i].origin.value.normalizedName
    ensures HaveOrigins(Admitted(source, column))
    ensures |Selected(OriginNames(Admitted(source, column)), column)| == |Admitted(source, column)|
  {
    var r := Admitted(source, column);
    assert HaveOrigins(r);
    var names := OriginNames(r);
    forall i | 0 <= i < |names| ensures names[i] in column {
      assert r[i] in r;
    }
    AllSelected(names, column);
  }

  /** When the column lists every name, every position is selected. */
  lemma {:induction false} AllSelected(names: seq<string>, column: seq<string>)
    requires forall i :: 0 <= i < |names| ==> names[i] in column
    ensures |Selected(names, column)| == |names|
  {
    if |names| > 0 {
      var prefix := names[..|names| - 1];
      assert forall i :: 0 <= i < |prefix| ==> prefix[i] == names[i];
      AllSelected(prefix, column);
    }
  }
}
