/**
 * A table-driven reading of the two region chains: an ordered list of
 * (momentum interval, quality requirement, region) entries, searched first
 * match wins. When the intervals are disjoint the order of the entries does
 * not matter, and when they cover every momentum the search never fails.
 * The two tables below are proved to select exactly the regions the
 * if/else chains of PMuCorrection select.
 */
module RangeTable {
  import opened PMuCorrection

  /** One end of a momentum interval. */
  datatype Endpoint = Unbounded | Open(x: real) | Closed(x: real)

  /** The momenta between lo and hi. */
  datatype Interval = Interval(lo: Endpoint, hi: Endpoint)

  predicate AboveLow(lo: Endpoint, p: real)
  {
    match lo
    case Unbounded => true
    case Open(x) => x < p
    case Closed(x) => x <= p
  }

  predicate BelowHigh(hi: Endpoint, p: real)
  {
    match hi
    case Unbounded => true
    case Open(x) => p < x
    case Closed(x) => p <= x
  }

  predicate InInterval(iv: Interval, p: real)
  {
    AboveLow(iv.lo, p) && BelowHigh(iv.hi, p)
  }

  /** A row of a table: where it applies, which quality flag it needs (None: any), and its region. */
  datatype Entry = Entry(span: Interval, quality: Option<bool>, region: Region)

  predicate Matches(e: Entry, p: real, muQuality: bool)
  {
    InInterval(e.span, p) && (e.quality.None? || e.quality.value == muQuality)
  }

  /** Index of the first entry that matches, or |t| when none does. */
  function FirstMatch(t: seq<Entry>, p: real, muQuality: bool): (k: nat)
    ensures k <= |t|
    ensures forall i :: 0 <= i < k ==> !Matches(t[i], p, muQuality)
    ensures k < |t| ==> Matches(t[k], p, muQuality)
    decreases |t|
  {
    if |t| == 0 then 0
    else if Matches(t[0], p, muQuality) then 0
    else 1 + FirstMatch(t[1..], p, muQuality)
  }

  /** First-match-wins search of a table. */
  function Lookup(t: seq<Entry>, p: real, muQuality: bool): Option<Region>
  {
    var k := FirstMatch(t, p, muQuality);
    if k < |t| then Some(t[k].region) else None
  }

  /** No two entries match the same (momentum, quality) pair. */
  ghost predicate Disjoint(t: seq<Entry>)
  {
    forall i, j, p, q :: 0 <= i < j < |t| && Matches(t[i], p, q) ==> !Matches(t[j], p, q)
  }

  /** Some entry matches the pair (p, q). */
  ghost predicate Covered(t: seq<Entry>, p: real, q: bool)
  {
    exists i :: 0 <= i < |t| && Matches(t[i], p, q)
  }

  /** Some entry matches every (momentum, quality) pair. */
  ghost predicate Covers(t: seq<Entry>)
  {
    forall p: real, q: bool :: Covered(t, p, q)
  }

  /** In a disjoint table the region found is that of ANY matching entry, so order is irrelevant. */
  lemma DisjointLookup(t: seq<Entry>, p: real, muQuality: bool, i: nat)
    requires Disjoint(t)
    requires i < |t| && Matches(t[i], p, muQuality)
    ensures Lookup(t, p, muQuality) == Some(t[i].region)
  {
  }

  /** A covering table never fails. */
  lemma CoveringLookup(t: seq<Entry>, p: real, muQuality: bool)
    requires Covers(t)
    ensures Lookup(t, p, muQuality).Some?
  {
    assert Covered(t, p, muQuality);
    var i :| 0 <= i < |t| && Matches(t[i], p, muQuality);
    assert FirstMatch(t, p, muQuality) <= i;
  }

  /** corr_contained as a table. */
  const ContainedTable: seq<Entry> := [
    Entry(Interval(Unbounded, Closed(0.2)), Some(false), R0),
    Entry(Interval(Unbounded, Closed(0.2)), Some(true), R1),
    Entry(Interval(Open(0.2), Open(1.5)), None, R2),
    Entry(Interval(Closed(1.5), Unbounded), None, R3)
  ]

  /** corr_uncontained as a table. */
  const UncontainedTable: seq<Entry> := [
    Entry(Interval(Unbounded, Closed(0.2)), None, U0),
    Entry(Interval(Open(0.2), Open(1.2)), None, U1),
    Entry(Interval(Closed(1.2), Open(2.2)), None, U2),
    Entry(Interval(Closed(2.2), Unbounded), None, U3)
  ]

  /** The contained guards partition (momentum, quality): exactly one holds for every input. */
  lemma ContainedPartition()
    ensures Disjoint(ContainedTable) && Covers(ContainedTable)
  {
    var t := ContainedTable;
    forall p: real, q: bool ensures Covered(t, p, q) {
      var i := if p <= 0.2 then (if q then 1 else 0) else if p < 1.5 then 2 else 3;
      assert Matches(t[i], p, q);
    }
  }

  /** The uncontained guards partition the whole momentum axis. */
  lemma UncontainedPartition()
    ensures Disjoint(UncontainedTable) && Covers(UncontainedTable)
  {
    var t := UncontainedTable;
    forall p: real, q: bool ensures Covered(t, p, q) {
      var i := if p <= 0.2 then 0 else if p < 1.2 then 1 else if p < 2.2 then 2 else 3;
      assert Matches(t[i], p, q);
    }
  }

  /** The contained if/else chain selects what the table selects. */
  lemma ContainedChainIsTable(p: real, muQuality: bool)
    ensures RegionContained(p, muQuality) == Lookup(ContainedTable, p, muQuality)
  {
  }

  /** The uncontained if/else chain selects what the table selects, whatever the quality flag. */
  lemma UncontainedChainIsTable(p: real, muQuality: bool)
    ensures RegionUncontained(p) == Lookup(UncontainedTable, p, muQuality)
  {
  }
}
