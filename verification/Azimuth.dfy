/** The radio engineer's azimuth checks: neighbour spacing after sorting, and overlap pairs. */
module AzimuthChecks {
  import opened Affine
  import opened Hull
  import opened Polygon

  const ENOUGH := 30.0
  const OVERLAP := 10.0

  predicate AzimuthOk(a: real) { 0.0 <= a < 360.0 }

  predicate AzimuthsOk(azimuths: seq<real>) { azimuths != [] && forall i :: 0 <= i < |azimuths| ==> AzimuthOk(azimuths[i]) }

  // ----- the circular distance

  /** Remainder with the sign of the divisor, as the source's operator has it. */
  function Mod360(x: real): real { x - 360.0 * (x / 360.0).Floor as real }

  function Gap(a: real, b: real): real {
    var delta := Abs(Mod360(b - a));
    if delta > 180.0 then 360.0 - delta else delta
  }

  lemma Wrap(x: real)
    requires -360.0 <= x < 360.0
    ensures Mod360(x) == if x >= 0.0 then x else x + 360.0
  {
    assert (x / 360.0).Floor == if x >= 0.0 then 0 else -1;
  }

  /** The shorter way round. */
  lemma GapIsCircular(a: real, b: real)
    requires AzimuthOk(a) && AzimuthOk(b)
    ensures Gap(a, b) == if Abs(b - a) <= 180.0 then Abs(b - a) else 360.0 - Abs(b - a)
    ensures Gap(a, b) == Gap(b, a) && 0.0 <= Gap(a, b) <= 180.0
  {
    Wrap(b - a);
    Wrap(a - b);
  }

  // ----- sorting with original positions

  datatype Sector = Sector(index: nat, azimuth: real)

  function Enumerate(azimuths: seq<real>): seq<Sector> {
    seq(|azimuths|, i requires 0 <= i < |azimuths| => Sector(i, azimuths[i]))
  }

  /** After all sectors with the same azimuth. */
  function Insert(sorted: seq<Sector>, s: Sector): seq<Sector> {
    if sorted == [] || sorted[|sorted| - 1].azimuth <= s.azimuth then sorted + [s]
    else Insert(sorted[..|sorted| - 1], s) + [sorted[|sorted| - 1]]
  }

  function SortSectors(sectors: seq<Sector>): seq<Sector> {
    if sectors == [] then [] else Insert(SortSectors(sectors[..|sectors| - 1]), sectors[|sectors| - 1])
  }

  ghost predicate Ascending(sectors: seq<Sector>) {
    forall i, j :: 0 <= i < j < |sectors| ==> sectors[i].azimuth <= sectors[j].azimuth
  }

  ghost predicate DistinctIndexes(sectors: seq<Sector>) {
    forall i, j :: 0 <= i < j < |sectors| ==> sectors[i].index != sectors[j].index
  }

  lemma {:induction false} InsertHolds(sorted: seq<Sector>, s: Sector)
    requires Ascending(sorted)
    ensures Ascending(Insert(sorted, s)) && |Insert(sorted, s)| == |sorted| + 1
    ensures forall t :: t in Insert(sorted, s) <==> t in sorted || t == s
  {
    if !(sorted == [] || sorted[|sorted| - 1].azimuth <= s.azimuth) {
      var init, last := sorted[..|sorted| - 1], sorted[|sorted| - 1];
      assert sorted == init + [last];
      InsertHolds(init, s);
      forall t | t in Insert(init, s) ensures t.azimuth <= last.azimuth {
      }
    }
  }

  lemma {:induction false} InsertKeepsDistinct(sorted: seq<Sector>, s: Sector)
    requires Ascending(sorted) && DistinctIndexes(sorted) && forall t :: t in sorted ==> t.index != s.index
    ensures DistinctIndexes(Insert(sorted, s))
  {
    if !(sorted == [] || sorted[|sorted| - 1].azimuth <= s.azimuth) {
      var init, last := sorted[..|sorted| - 1], sorted[|sorted| - 1];
      assert sorted == init + [last];
      InsertHolds(init, s);
      InsertKeepsDistinct(init, s);
      forall t | t in Insert(init, s) ensures t.index != last.index {
      }
    }
  }

  lemma {:induction false} SortHolds(sectors: seq<Sector>)
    requires DistinctIndexes(sectors)
    ensures Ascending(SortSectors(sectors)) && |SortSectors(sectors)| == |sectors|
    ensures forall t :: t in SortSectors(sectors) <==> t in sectors
    ensures DistinctIndexes(SortSectors(sectors))
  {
    if sectors != [] {
      var init, last := sectors[..|sectors| - 1], sectors[|sectors| - 1];
      assert sectors == init + [last];
      SortHolds(init);
      InsertHolds(SortSectors(init), last);
      forall t | t in init ensures t.index != last.index {
      }
      InsertKeepsDistinct(SortSectors(init), last);
    }
  }

  function Sorted(azimuths: seq<real>): seq<Sector> { SortSectors(Enumerate(azimuths)) }

  /** Sorting neither loses nor alters a sector. */
  lemma {:induction false} SortedHolds(azimuths: seq<real>)
    ensures |Sorted(azimuths)| == |azimuths| && Ascending(Sorted(azimuths)) && DistinctIndexes(Sorted(azimuths))
    ensures forall i :: 0 <= i < |azimuths| ==>
              Sorted(azimuths)[i].index < |azimuths| && Sorted(azimuths)[i].azimuth == azimuths[Sorted(azimuths)[i].index]
    ensures forall k :: 0 <= k < |azimuths| ==> Sector(k, azimuths[k]) in Sorted(azimuths)
  {
    SortHolds(Enumerate(azimuths));
    forall i | 0 <= i < |azimuths|
      ensures Sorted(azimuths)[i].index < |azimuths| && Sorted(azimuths)[i].azimuth == azimuths[Sorted(azimuths)[i].index]
    {
      assert Sorted(azimuths)[i] in Enumerate(azimuths);
    }
    forall k | 0 <= k < |azimuths| ensures Sector(k, azimuths[k]) in Sorted(azimuths) {
      assert Enumerate(azimuths)[k] == Sector(k, azimuths[k]);
    }
  }

  /** Where an original sector ends up. */
  lemma {:induction false} PositionOf(azimuths: seq<real>, k: nat) returns (i: nat)
    requires k < |azimuths|
    ensures |Sorted(azimuths)| == |azimuths| && i < |azimuths| && Sorted(azimuths)[i] == Sector(k, azimuths[k])
  {
    SortedHolds(azimuths);
    i :| 0 <= i < |azimuths| && Sorted(azimuths)[i] == Sector(k, azimuths[k]);
  }

  // ----- neighbours speak for all pairs

  /** The circular distance of each sector to the next one round. */
  function Spacings(s: seq<Sector>): (r: seq<real>)
    ensures |r| == |s|
  {
    seq(|s|, i requires 0 <= i < |s| => Gap(s[i].azimuth, s[Next(i, |s|)].azimuth))
  }

  ghost predicate RangeOk(s: seq<Sector>) { forall i :: 0 <= i < |s| ==> AzimuthOk(s[i].azimuth) }

  /** Between any two sorted sectors some neighbour distance is no larger than theirs. */
  lemma {:induction false} NeighbourIsCloser(s: seq<Sector>, i: nat, j: nat) returns (k: nat)
    requires Ascending(s) && RangeOk(s) && i < j < |s|
    ensures k < |s| && Spacings(s)[k] <= Gap(s[i].azimuth, s[j].azimuth)
  {
    GapIsCircular(s[i].azimuth, s[j].azimuth);
    if s[j].azimuth - s[i].azimuth <= 180.0 {
      k := i;
      GapIsCircular(s[i].azimuth, s[i + 1].azimuth);
    } else {
      k := j;
      GapIsCircular(s[j].azimuth, s[Next(j, |s|)].azimuth);
    }
  }

  ghost predicate AllApart(azimuths: seq<real>, degrees: real) {
    forall k, l :: 0 <= k < |azimuths| && 0 <= l < |azimuths| && k != l ==> Gap(azimuths[k], azimuths[l]) >= degrees
  }

  lemma {:induction false} SpacingBelowGap(azimuths: seq<real>, k: nat, l: nat) returns (m: nat)
    requires AzimuthsOk(azimuths) && k < |azimuths| && l < |azimuths| && k != l
    ensures m < |Spacings(Sorted(azimuths))| && Spacings(Sorted(azimuths))[m] <= Gap(azimuths[k], azimuths[l])
  {
    SortedHolds(azimuths);
    var i := PositionOf(azimuths, k);
    var j := PositionOf(azimuths, l);
    GapIsCircular(azimuths[k], azimuths[l]);
    m := NeighbourIsCloser(Sorted(azimuths), if i < j then i else j, if i < j then j else i);
  }

  lemma {:induction false} SpacingIsGap(azimuths: seq<real>, m: nat) returns (k: nat, l: nat)
    requires AzimuthsOk(azimuths) && |azimuths| >= 2 && m < |Spacings(Sorted(azimuths))|
    ensures k < |azimuths| && l < |azimuths| && k != l && Spacings(Sorted(azimuths))[m] == Gap(azimuths[k], azimuths[l])
  {
    var s := Sorted(azimuths);
    SortedHolds(azimuths);
    k, l := s[m].index, s[Next(m, |s|)].index;
  }

  /** The least neighbour spacing is the least distance between any two sectors. */
  lemma {:induction false} LeastSpacingIsLeastGap(azimuths: seq<real>)
    requires AzimuthsOk(azimuths) && |azimuths| >= 2
    ensures |Spacings(Sorted(azimuths))| == |azimuths|
    ensures AllApart(azimuths, Least(Spacings(Sorted(azimuths))))
    ensures exists k, l :: 0 <= k < |azimuths| && 0 <= l < |azimuths| && k != l
              && Least(Spacings(Sorted(azimuths))) == Gap(azimuths[k], azimuths[l])
  {
    SortedHolds(azimuths);
    var spacings := Spacings(Sorted(azimuths));
    forall k, l | 0 <= k < |azimuths| && 0 <= l < |azimuths| && k != l
      ensures Gap(azimuths[k], azimuths[l]) >= Least(spacings)
    {
      var m := SpacingBelowGap(azimuths, k, l);
    }
    var m :| 0 <= m < |spacings| && spacings[m] == Least(spacings);
    var k, l := SpacingIsGap(azimuths, m);
  }

  // ----- the gaps go once round

  function RawGap(s: seq<Sector>, i: nat): real
    requires i < |s|
  {
    Mod360(s[Next(i, |s|)].azimuth - s[i].azimuth)
  }

  function RawSum(s: seq<Sector>, k: nat): real
    requires k <= |s|
  {
    if k == 0 then 0.0 else RawSum(s, k - 1) + RawGap(s, k - 1)
  }

  lemma {:induction false} RawSumTelescopes(s: seq<Sector>, k: nat)
    requires Ascending(s) && RangeOk(s) && k < |s|
    ensures RawSum(s, k) == s[k].azimuth - s[0].azimuth
  {
    if k > 0 {
      RawSumTelescopes(s, k - 1);
      Wrap(s[k].azimuth - s[k - 1].azimuth);
    }
  }

  /** The gaps from each sector to the next add up to one turn, unless all sectors coincide. */
  lemma {:induction false} GapsGoOnceRound(s: seq<Sector>)
    requires Ascending(s) && RangeOk(s) && s != []
    ensures RawSum(s, |s|) == if s[0].azimuth == s[|s| - 1].azimuth then 0.0 else 360.0
  {
    RawSumTelescopes(s, |s| - 1);
    Wrap(s[0].azimuth - s[|s| - 1].azimuth);
  }

  lemma {:induction false} WideGapsAddUp(s: seq<Sector>, k: nat)
    requires RangeOk(s) && k <= |s|
    requires forall i :: 0 <= i < |s| ==> Spacings(s)[i] >= ENOUGH
    ensures RawSum(s, k) >= ENOUGH * k as real
  {
    if k > 0 {
      WideGapsAddUp(s, k - 1);
      Wrap(s[Next(k - 1, |s|)].azimuth - s[k - 1].azimuth);
      assert Spacings(s)[k - 1] >= ENOUGH;
    }
  }

  // ----- overlapping pairs

  datatype Pair = Pair(first: nat, second: nat)

  predicate Overlaps(s: seq<Sector>, i: nat, j: nat)
    requires i < |s| && j < |s|
  {
    Gap(s[i].azimuth, s[j].azimuth) < OVERLAP
  }

  /** The overlapping pairs (i, m) with i < m < j, by sorted position. */
  function Row(s: seq<Sector>, i: nat, j: nat): seq<Pair>
    requires i < j <= |s|
  {
    if j == i + 1 then [] else Row(s, i, j - 1) + if Overlaps(s, i, j - 1) then [Pair(i, j - 1)] else []
  }

  function Rows(s: seq<Sector>, i: nat): seq<Pair>
    requires i <= |s|
  {
    if i == 0 then [] else Rows(s, i - 1) + Row(s, i - 1, |s|)
  }

  predicate Earlier(p: Pair, q: Pair) { p.first < q.first || (p.first == q.first && p.second < q.second) }

  ghost predicate InOrder(pairs: seq<Pair>) { forall a, b :: 0 <= a < b < |pairs| ==> Earlier(pairs[a], pairs[b]) }

  lemma {:induction false} RowHolds(s: seq<Sector>, i: nat, j: nat)
    requires i < j <= |s|
    ensures forall p :: p in Row(s, i, j) <==> p.first == i && i < p.second < j && Overlaps(s, i, p.second)
    ensures InOrder(Row(s, i, j))
  {
    if j > i + 1 {
      RowHolds(s, i, j - 1);
    }
  }

  lemma {:induction false} RowsHold(s: seq<Sector>, i: nat)
    requires i <= |s|
    ensures forall p :: p in Rows(s, i) <==> p.first < i && p.first < p.second < |s| && Overlaps(s, p.first, p.second)
    ensures InOrder(Rows(s, i))
  {
    if i > 0 {
      var before, row := Rows(s, i - 1), Row(s, i - 1, |s|);
      RowsHold(s, i - 1);
      RowHolds(s, i - 1, |s|);
      InOrderAppends(before, row);
      assert forall p :: p in Rows(s, i) <==> p in before || p in row;
    }
  }

  lemma {:induction false} InOrderAppends(a: seq<Pair>, b: seq<Pair>)
    requires InOrder(a) && InOrder(b)
    requires forall p, q :: p in a && q in b ==> p.first < q.first
    ensures InOrder(a + b)
  {
    forall i, j | 0 <= i < j < |a + b| ensures Earlier((a + b)[i], (a + b)[j]) {
      if i < |a| <= j {
        assert a[i] in a && b[j - |a|] in b;
      }
    }
  }

  /** Two sector numbers, counted from one in the order of the requirements. */
  datatype Conflict = Conflict(a: nat, b: nat)

  function Numbered(s: seq<Sector>, pairs: seq<Pair>): (r: seq<Conflict>)
    requires forall p :: p in pairs ==> p.first < |s| && p.second < |s|
    ensures |r| == |pairs|
  {
    seq(|pairs|, k requires 0 <= k < |pairs| =>
      assert pairs[k] in pairs;
      Conflict(s[pairs[k].first].index + 1, s[pairs[k].second].index + 1))
  }

  predicate Names(c: Conflict, k: nat, l: nat) { (c.a == k + 1 && c.b == l + 1) || (c.a == l + 1 && c.b == k + 1) }

  function Conflicts(azimuths: seq<real>): seq<Conflict> {
    RowsHold(Sorted(azimuths), |Sorted(azimuths)|);
    Numbered(Sorted(azimuths), Rows(Sorted(azimuths), |Sorted(azimuths)|))
  }

  lemma {:induction false} OverlapIsListed(azimuths: seq<real>, k: nat, l: nat) returns (c: nat)
    requires AzimuthsOk(azimuths) && k < |azimuths| && l < |azimuths| && k != l
    requires Gap(azimuths[k], azimuths[l]) < OVERLAP
    ensures c < |Conflicts(azimuths)| && Names(Conflicts(azimuths)[c], k, l)
  {
    var s := Sorted(azimuths);
    RowsHold(s, |s|);
    var i := PositionOf(azimuths, k);
    var j := PositionOf(azimuths, l);
    GapIsCircular(azimuths[k], azimuths[l]);
    var p := if i < j then Pair(i, j) else Pair(j, i);
    assert p in Rows(s, |s|);
    c :| 0 <= c < |Rows(s, |s|)| && Rows(s, |s|)[c] == p;
  }

  lemma {:induction false} ListedIsOverlap(azimuths: seq<real>, k: nat, l: nat, c: nat)
    requires AzimuthsOk(azimuths) && k < |azimuths| && l < |azimuths|
    requires c < |Conflicts(azimuths)| && Names(Conflicts(azimuths)[c], k, l)
    ensures Gap(azimuths[k], azimuths[l]) < OVERLAP
  {
    var s := Sorted(azimuths);
    SortedHolds(azimuths);
    RowsHold(s, |s|);
    assert Rows(s, |s|)[c] in Rows(s, |s|);
    GapIsCircular(azimuths[k], azimuths[l]);
  }

  /** The list names every two sectors closer than ten degrees, and no others. */
  lemma {:induction false} ConflictsAreOverlaps(azimuths: seq<real>, k: nat, l: nat)
    requires AzimuthsOk(azimuths) && k < |azimuths| && l < |azimuths| && k != l
    ensures Gap(azimuths[k], azimuths[l]) < OVERLAP <==>
              exists c :: 0 <= c < |Conflicts(azimuths)| && Names(Conflicts(azimuths)[c], k, l)
  {
    if Gap(azimuths[k], azimuths[l]) < OVERLAP {
      var c := OverlapIsListed(azimuths, k, l);
    }
    if c :| 0 <= c < |Conflicts(azimuths)| && Names(Conflicts(azimuths)[c], k, l) {
      ListedIsOverlap(azimuths, k, l, c);
    }
  }

  lemma {:induction false} SamePosition(s: seq<Sector>, i: nat, j: nat, i': nat, j': nat)
    requires DistinctIndexes(s) && i < |s| && j < |s| && i' < |s| && j' < |s|
    requires || (s[i].index == s[i'].index && s[j].index == s[j'].index)
             || (s[i].index == s[j'].index && s[j].index == s[i'].index)
    ensures (i == i' && j == j') || (i == j' && j == i')
  {
  }

  /** Each of them once. */
  lemma {:induction false} ConflictsAreDistinct(azimuths: seq<real>, k: nat, l: nat, c: nat, d: nat)
    requires AzimuthsOk(azimuths) && c < |Conflicts(azimuths)| && d < |Conflicts(azimuths)|
    requires Names(Conflicts(azimuths)[c], k, l) && Names(Conflicts(azimuths)[d], k, l)
    ensures c == d
  {
    var s := Sorted(azimuths);
    SortedHolds(azimuths);
    RowsHold(s, |s|);
    var pairs := Rows(s, |s|);
    assert pairs[c] in pairs && pairs[d] in pairs;
    SamePosition(s, pairs[c].first, pairs[c].second, pairs[d].first, pairs[d].second);
  }

  // ----- the check itself

  datatype Report = Report(adequate: bool, least: real, noOverlap: bool, overlaps: seq<Conflict>)

  method SpacingLoop(s: seq<Sector>) returns (spacings: seq<real>)
    ensures spacings == Spacings(s)
  {
    spacings := [];
    for i := 0 to |s|
      invariant spacings == Spacings(s)[..i]
    {
      var delta := Abs(Mod360(s[(i + 1) % |s|].azimuth - s[i].azimuth));
      if delta > 180.0 {
        delta := 360.0 - delta;
      }
      spacings := spacings + [delta];
    }
  }

  method OverlapLoop(s: seq<Sector>) returns (overlaps: seq<Conflict>)
    ensures InList(s, Rows(s, |s|)) && overlaps == Numbered(s, Rows(s, |s|))
  {
    overlaps := [];
    for i := 0 to |s|
      invariant InList(s, Rows(s, i)) && overlaps == Numbered(s, Rows(s, i))
    {
      overlaps := OverlapRow(s, i, overlaps);
      RowsGrow(s, i);
    }
  }

  lemma {:induction false} RowsGrow(s: seq<Sector>, i: nat)
    requires i < |s| && InList(s, Rows(s, i)) && InList(s, Row(s, i, |s|))
    ensures InList(s, Rows(s, i + 1))
    ensures Numbered(s, Rows(s, i + 1)) == Numbered(s, Rows(s, i)) + Numbered(s, Row(s, i, |s|))
  {
    NumberedAppends(s, Rows(s, i), Row(s, i, |s|));
  }

  /** The inner loop: sector i against all later ones. */
  method OverlapRow(s: seq<Sector>, i: nat, found: seq<Conflict>) returns (overlaps: seq<Conflict>)
    requires i < |s|
    ensures InList(s, Row(s, i, |s|)) && overlaps == found + Numbered(s, Row(s, i, |s|))
  {
    overlaps := found;
    for j := i + 1 to |s|
      invariant InList(s, Row(s, i, j)) && overlaps == found + Numbered(s, Row(s, i, j))
    {
      var delta := Abs(Mod360(s[j].azimuth - s[i].azimuth));
      if delta > 180.0 {
        delta := 360.0 - delta;
      }
      RowGrows(s, i, j);
      if delta < OVERLAP {
        overlaps := overlaps + [Conflict(s[i].index + 1, s[j].index + 1)];
      }
    }
  }

  lemma {:induction false} RowGrows(s: seq<Sector>, i: nat, j: nat)
    requires i < j < |s| && InList(s, Row(s, i, j))
    ensures InList(s, Row(s, i, j + 1))
    ensures Numbered(s, Row(s, i, j + 1))
         == Numbered(s, Row(s, i, j)) + if Overlaps(s, i, j) then [Conflict(s[i].index + 1, s[j].index + 1)] else []
  {
    if Overlaps(s, i, j) {
      NumberedAppends(s, Row(s, i, j), [Pair(i, j)]);
    }
  }

  ghost predicate InList(s: seq<Sector>, pairs: seq<Pair>) { forall p :: p in pairs ==> p.first < |s| && p.second < |s| }

  lemma {:induction false} NumberedAppends(s: seq<Sector>, a: seq<Pair>, b: seq<Pair>)
    requires InList(s, a) && InList(s, b)
    ensures InList(s, a + b) && Numbered(s, a + b) == Numbered(s, a) + Numbered(s, b)
  {
  }

  method CheckAzimuths(azimuths: seq<real>) returns (r: Report)
    requires AzimuthsOk(azimuths)
    ensures r.adequate <==> Adequate(Sorted(azimuths))
    ensures Sorted(azimuths) != []
    ensures r.least == Least(Spacings(Sorted(azimuths)))
    ensures r.overlaps == Conflicts(azimuths) && (r.noOverlap <==> r.overlaps == [])
  {
    SortedHolds(azimuths);
    var s := Sorted(azimuths);
    var spacings := SpacingLoop(s);
    var overlaps := OverlapLoop(s);
    r := Report(forall i :: 0 <= i < |spacings| ==> spacings[i] >= ENOUGH, Least(spacings), overlaps == [], overlaps);
  }

  ghost predicate Adequate(s: seq<Sector>) { forall i :: 0 <= i < |s| ==> Spacings(s)[i] >= ENOUGH }

  /** Adequate spacing of neighbours means that every two sectors are at least thirty degrees
      apart. A single sector is compared with itself and never passes. */
  lemma {:induction false} AdequateMeansApart(azimuths: seq<real>)
    requires AzimuthsOk(azimuths)
    ensures Adequate(Sorted(azimuths)) <==> |azimuths| >= 2 && AllApart(azimuths, ENOUGH)
  {
    var s := Sorted(azimuths);
    SortedHolds(azimuths);
    if |azimuths| == 1 {
      GapIsCircular(s[0].azimuth, s[0].azimuth);
      assert Spacings(s)[0] == 0.0;
    } else {
      LeastSpacingIsLeastGap(azimuths);
      if Adequate(s) {
        assert Least(Spacings(s)) >= ENOUGH;
      }
      if AllApart(azimuths, ENOUGH) {
        assert Least(Spacings(s)) >= ENOUGH;
      }
    }
  }

  /** Then none of them overlap, and there are at most twelve. */
  lemma {:induction false} AdequateMeansClear(azimuths: seq<real>)
    requires AzimuthsOk(azimuths) && Adequate(Sorted(azimuths))
    ensures Conflicts(azimuths) == [] && |azimuths| <= 12
  {
    SortedHolds(azimuths);
    AdequateMeansApart(azimuths);
    WideGapsAddUp(Sorted(azimuths), |azimuths|);
    GapsGoOnceRound(Sorted(azimuths));
    NoConflicts(azimuths);
  }

  lemma {:induction false} NoConflicts(azimuths: seq<real>)
    requires AzimuthsOk(azimuths) && |azimuths| >= 2
    requires Adequate(Sorted(azimuths))
    ensures Conflicts(azimuths) == []
  {
    var s := Sorted(azimuths);
    SortedHolds(azimuths);
    RowsHold(s, |s|);
    if Conflicts(azimuths) != [] {
      var p := Rows(s, |s|)[0];
      assert p in Rows(s, |s|);
      var k := NeighbourIsCloser(s, p.first, p.second);
      assert false;
    }
  }
}
