/** The disk usage summary and its cache (pdcs/disk_usage.go), in 64-bit signed arithmetic. */
module DiskUsage {
  import opened Common

  const TWO63: int := 0x8000_0000_0000_0000

  type int64 = x: int | -TWO63 <= x < TWO63

  predicate Fits(x: int) { -TWO63 <= x < TWO63 }

  /** The 64-bit value that differs from `x` by a multiple of 2^64. */
  function Wrap(x: int): (r: int64)
    ensures Fits(x) ==> r == x
    ensures (x - r) % 18446744073709551616 == 0 && -9223372036854775808 <= r <= 9223372036854775807
  {
    (x + TWO63) % TWO64 - TWO63
  }

  datatype ImageRow = ImageRow(imageID: string, repository: string, tag: string, containers: int, uniqueSize: int64)

  datatype ContainerRow = ContainerRow(status: string, rwSize: int64)

  datatype VolumeRow = VolumeRow(size: int64, reclaimableSize: int64)

  datatype Report = Report(
    imagesSize: int64, images: seq<ImageRow>, containers: seq<ContainerRow>, volumes: seq<VolumeRow>)

  datatype Summary = Summary(
    imagesSize: int64, imagesReclaimable: int64,
    containersSize: int64, containersReclaimable: int64,
    volumesSize: int64, volumesReclaimable: int64)

  const ZERO := Summary(0, 0, 0, 0, 0, 0)

  const RUNNING := "running"

  // ---------------------------------------------------------------- exact totals

  function Sum(xs: seq<int>): int {
    if xs == [] then 0 else Sum(xs[..|xs| - 1]) + xs[|xs| - 1]
  }

  function Sizes(rows: seq<ContainerRow>): seq<int> {
    seq(|rows|, i requires 0 <= i < |rows| => rows[i].rwSize)
  }

  function SizesWhere(rows: seq<ContainerRow>, running: bool): seq<int> {
    seq(|rows|, i requires 0 <= i < |rows| => if (rows[i].status == RUNNING) == running then rows[i].rwSize else 0)
  }

  function VolumeSizes(rows: seq<VolumeRow>): seq<int> {
    seq(|rows|, i requires 0 <= i < |rows| => rows[i].size)
  }

  function VolumeReclaimables(rows: seq<VolumeRow>): seq<int> {
    seq(|rows|, i requires 0 <= i < |rows| => rows[i].reclaimableSize)
  }

  function IDs(rows: seq<ImageRow>): set<string> {
    set row | row in rows :: row.imageID
  }

  function Contribution(row: ImageRow): int64 {
    if row.containers > 0 then row.uniqueSize else 0
  }

  /** What each identifier contributes: the contribution of its first row. */
  function FirstContributions(rows: seq<ImageRow>): (m: map<string, int>)
    ensures m.Keys == IDs(rows)
  {
    if rows == [] then map[]
    else
      var n := |rows| - 1;
      var m := FirstContributions(rows[..n]);
      assert rows == rows[..n] + [rows[n]];
      if rows[n].imageID in m then m else m[rows[n].imageID := Contribution(rows[n])]
  }

  /** The exact size of the images in use: a sum over distinct identifiers. */
  ghost function UsedSize(rows: seq<ImageRow>): int {
    SumOver(IDs(rows), FirstContributions(rows))
  }

  /** The same total, taken row by row. */
  function UsedSoFar(rows: seq<ImageRow>): int {
    if rows == [] then 0
    else
      var n := |rows| - 1;
      UsedSoFar(rows[..n]) + if rows[n].imageID in IDs(rows[..n]) then 0 else Contribution(rows[n])
  }

  // ---------------------------------------------------------------- the loops

  method ImageReclaimable(images: seq<ImageRow>, imagesSize: int64) returns (r: int64)
    ensures r == Wrap(imagesSize - UsedSize(images))
  {
    var imagesUsed := ImagesUsed(images);
    TakeOff(images, imagesSize);
    r := Wrap(imagesSize - imagesUsed);
  }

  /** Its loop. */
  method ImagesUsed(images: seq<ImageRow>) returns (imagesUsed: int64)
    ensures imagesUsed == Wrap(UsedSoFar(images))
  {
    imagesUsed := 0;
    var visitedImages: set<string> := {};
    for i := 0 to |images|
      invariant visitedImages == IDs(images[..i])
      invariant imagesUsed == Wrap(UsedSoFar(images[..i]))
    {
      var image := images[i];
      VisitStep(images, i);
      if image.imageID in visitedImages {
        continue;
      }
      visitedImages := visitedImages + {image.imageID};
      if image.containers > 0 {
        imagesUsed := Wrap(imagesUsed + image.uniqueSize);
      }
    }
    assert images[..|images|] == images;
  }

  lemma VisitStep(rows: seq<ImageRow>, i: nat)
    requires i < |rows|
    ensures IDs(rows[..i + 1]) == IDs(rows[..i]) + {rows[i].imageID}
    ensures var used := Wrap(UsedSoFar(rows[..i]));
      Wrap(UsedSoFar(rows[..i + 1])) ==
        if rows[i].imageID in IDs(rows[..i]) || rows[i].containers <= 0 then used else Wrap(used + rows[i].uniqueSize)
  {
    assert rows[..i + 1][..i] == rows[..i];
    IDsStep(rows, i);
    WrapAdd(UsedSoFar(rows[..i]), Contribution(rows[i]));
  }

  lemma TakeOff(rows: seq<ImageRow>, imagesSize: int64)
    ensures Wrap(imagesSize - Wrap(UsedSoFar(rows))) == Wrap(imagesSize - UsedSize(rows))
  {
    UsedSoFarIsUsedSize(rows);
    WrapSub(imagesSize, UsedSize(rows));
  }

  method SummarizeDiskUsage(report: Report) returns (s: Summary)
    ensures s == Summarized(report)
  {
    var imagesReclaimable := ImageReclaimable(report.images, report.imagesSize);
    var containersSize, containersReclaimable := ContainerTotals(report.containers);
    var volumesSize, volumesReclaimable := VolumeTotals(report.volumes);
    s := Summary(report.imagesSize, imagesReclaimable, containersSize, containersReclaimable, volumesSize, volumesReclaimable);
  }

  // Its two loops.

  method ContainerTotals(containers: seq<ContainerRow>) returns (containersSize: int64, containersReclaimable: int64)
    ensures containersSize == Wrap(Sum(Sizes(containers)))
    ensures containersReclaimable == Wrap(Sum(SizesWhere(containers, false)))
  {
    containersSize, containersReclaimable := 0, 0;
    for i := 0 to |containers|
      invariant containersSize == Wrap(Sum(Sizes(containers)[..i]))
      invariant containersReclaimable == Wrap(Sum(SizesWhere(containers, false)[..i]))
    {
      var container := containers[i];
      SumStep(Sizes(containers), i);
      SumStep(SizesWhere(containers, false), i);
      if container.status != RUNNING {
        containersReclaimable := Wrap(containersReclaimable + container.rwSize);
      }
      containersSize := Wrap(containersSize + container.rwSize);
    }
    assert Sizes(containers)[..|containers|] == Sizes(containers);
    assert SizesWhere(containers, false)[..|containers|] == SizesWhere(containers, false);
  }

  method VolumeTotals(volumes: seq<VolumeRow>) returns (volumesSize: int64, volumesReclaimable: int64)
    ensures volumesSize == Wrap(Sum(VolumeSizes(volumes)))
    ensures volumesReclaimable == Wrap(Sum(VolumeReclaimables(volumes)))
  {
    volumesSize, volumesReclaimable := 0, 0;
    for i := 0 to |volumes|
      invariant volumesSize == Wrap(Sum(VolumeSizes(volumes)[..i]))
      invariant volumesReclaimable == Wrap(Sum(VolumeReclaimables(volumes)[..i]))
    {
      var volume := volumes[i];
      SumStep(VolumeSizes(volumes), i);
      SumStep(VolumeReclaimables(volumes), i);
      volumesSize := Wrap(volumesSize + volume.size);
      volumesReclaimable := Wrap(volumesReclaimable + volume.reclaimableSize);
    }
    assert VolumeSizes(volumes)[..|volumes|] == VolumeSizes(volumes);
    assert VolumeReclaimables(volumes)[..|volumes|] == VolumeReclaimables(volumes);
  }

  /** Every component is the exact total, wrapped once at the end: no intermediate wrap-around shows. */
  ghost function Summarized(report: Report): Summary {
    Summary(
      report.imagesSize, Wrap(report.imagesSize - UsedSize(report.images)),
      Wrap(Sum(Sizes(report.containers))), Wrap(Sum(SizesWhere(report.containers, false))),
      Wrap(Sum(VolumeSizes(report.volumes))), Wrap(Sum(VolumeReclaimables(report.volumes))))
  }

  lemma WrapAdd(x: int, y: int)
    ensures Wrap(Wrap(x) + y) == Wrap(x + y)
  {
  }

  lemma WrapSub(x: int, y: int)
    ensures Wrap(x - Wrap(y)) == Wrap(x - y)
  {
  }

  lemma SumStep(xs: seq<int>, i: nat)
    requires i < |xs|
    ensures Sum(xs[..i + 1]) == Sum(xs[..i]) + xs[i]
    ensures Wrap(Sum(xs[..i + 1])) == Wrap(Wrap(Sum(xs[..i])) + xs[i])
  {
    assert xs[..i + 1][..i] == xs[..i];
    WrapAdd(Sum(xs[..i]), xs[i]);
  }

  lemma IDsStep(rows: seq<ImageRow>, i: nat)
    requires i < |rows|
    ensures IDs(rows[..i + 1]) == IDs(rows[..i]) + {rows[i].imageID}
  {
    assert rows[..i + 1] == rows[..i] + [rows[i]];
  }

  lemma UsedStep(rows: seq<ImageRow>, i: nat)
    requires i < |rows|
    ensures UsedSize(rows[..i + 1]) == UsedSize(rows[..i])
              + if rows[i].imageID in IDs(rows[..i]) then 0 else Contribution(rows[i])
  {
    var before, after := rows[..i], rows[..i + 1];
    assert after[..i] == before;
    IDsStep(rows, i);
    var f, g := FirstContributions(before), FirstContributions(after);
    var id := rows[i].imageID;
    if id in IDs(before) {
      assert IDs(after) == IDs(before);
    } else {
      SumOverRemove(IDs(after), g, id);
      assert IDs(after) - {id} == IDs(before);
      SumOverSame(IDs(before), f, g);
    }
  }

  /** Skipping visited rows computes the sum over distinct identifiers. */
  lemma {:induction false} UsedSoFarIsUsedSize(rows: seq<ImageRow>)
    ensures UsedSoFar(rows) == UsedSize(rows)
  {
    if rows != [] {
      var n := |rows| - 1;
      UsedSoFarIsUsedSize(rows[..n]);
      UsedStep(rows, n);
      assert rows[..n + 1] == rows;
    }
  }

  // ---------------------------------------------------------------- order and repeated tags

  /** Rows of one image agree on what they contribute. */
  predicate Consistent(rows: seq<ImageRow>) {
    forall a, b :: a in rows && b in rows && a.imageID == b.imageID ==> Contribution(a) == Contribution(b)
  }

  lemma {:induction false} FirstContributionIsOfSomeRow(rows: seq<ImageRow>, id: string) returns (k: nat)
    requires id in IDs(rows)
    ensures k < |rows| && rows[k].imageID == id && FirstContributions(rows)[id] == Contribution(rows[k])
    ensures forall j :: 0 <= j < k ==> rows[j].imageID != id
  {
    var n := |rows| - 1;
    assert rows == rows[..n] + [rows[n]];
    if id in IDs(rows[..n]) {
      k := FirstContributionIsOfSomeRow(rows[..n], id);
    } else {
      k := n;
      forall j | 0 <= j < n ensures rows[j].imageID != id {
        assert rows[j] in rows[..n];
      }
    }
  }

  /** What the reclaimable size depends on: identifiers and contributions, as a set. */
  function Facts(rows: seq<ImageRow>): set<(string, int)> {
    set row | row in rows :: (row.imageID, Contribution(row) as int)
  }

  /**
   For consistent rows the size in use depends only on the set of pairs of an
   identifier and a contribution: neither the order of rows nor further tag
   rows of the same image change it.
   */
  lemma UsedSizeDependsOnFacts(a: seq<ImageRow>, b: seq<ImageRow>)
    requires Consistent(a) && Facts(a) == Facts(b)
    ensures Consistent(b) && UsedSize(a) == UsedSize(b)
  {
    forall x, y | x in b && y in b && x.imageID == y.imageID ensures Contribution(x) == Contribution(y) {
      var x' := RowWithFact(b, a, x);
      var y' := RowWithFact(b, a, y);
    }
    SameIDs(a, b);
    forall id | id in IDs(a) ensures FirstContributions(a)[id] == FirstContributions(b)[id] {
      var k := FirstContributionIsOfSomeRow(a, id);
      var l := FirstContributionIsOfSomeRow(b, id);
      var y := RowWithFact(b, a, b[l]);
      assert a[k] in a;
    }
    SumOverSame(IDs(a), FirstContributions(a), FirstContributions(b));
  }

  lemma RowWithFact(rows: seq<ImageRow>, other: seq<ImageRow>, row: ImageRow) returns (r: ImageRow)
    requires Facts(rows) == Facts(other) && row in rows
    ensures r in other && r.imageID == row.imageID && Contribution(r) == Contribution(row)
  {
    assert (row.imageID, Contribution(row) as int) in Facts(other);
    r :| r in other && (r.imageID, Contribution(r) as int) == (row.imageID, Contribution(row) as int);
  }

  lemma SameIDs(a: seq<ImageRow>, b: seq<ImageRow>)
    requires Facts(a) == Facts(b)
    ensures IDs(a) == IDs(b)
  {
    forall x | x in a ensures x.imageID in IDs(b) {
      var y := RowWithFact(a, b, x);
    }
    forall x | x in b ensures x.imageID in IDs(a) {
      var y := RowWithFact(b, a, x);
    }
  }

  /** Rows permuted. */
  lemma UsedSizeOfPermutation(a: seq<ImageRow>, b: seq<ImageRow>)
    requires Consistent(a) && multiset(a) == multiset(b)
    ensures UsedSize(a) == UsedSize(b)
  {
    forall row ensures row in a <==> row in b {
      assert row in a <==> row in multiset(a);
      assert row in b <==> row in multiset(b);
    }
    assert Facts(a) == Facts(b);
    UsedSizeDependsOnFacts(a, b);
  }

  /** One more tag of a known image. */
  lemma UsedSizeOfAnotherTag(rows: seq<ImageRow>, known: ImageRow, repository: string, tag: string, at: nat)
    requires Consistent(rows) && known in rows && at <= |rows|
    ensures var row := known.(repository := repository, tag := tag);
            UsedSize(rows[..at] + [row] + rows[at..]) == UsedSize(rows)
  {
    var row := known.(repository := repository, tag := tag);
    var more := rows[..at] + [row] + rows[at..];
    assert rows == rows[..at] + rows[at..];
    forall x ensures x in more <==> x in rows || x == row {
    }
    assert Facts(more) == Facts(rows) by {
      assert (row.imageID, Contribution(row) as int) == (known.imageID, Contribution(known) as int);
    }
    UsedSizeDependsOnFacts(rows, more);
  }

  /** Exchanging the first row of an image with a later one exchanges their contributions. */
  lemma UsedSizeOfSwap(rows: seq<ImageRow>, i: nat, j: nat)
    requires i < j < |rows| && rows[i].imageID == rows[j].imageID
    requires forall k :: 0 <= k < i ==> rows[k].imageID != rows[i].imageID
    ensures UsedSize(rows[i := rows[j]][j := rows[i]]) == UsedSize(rows) - Contribution(rows[i]) + Contribution(rows[j])
  {
    var swapped := rows[i := rows[j]][j := rows[i]];
    var id := rows[i].imageID;
    forall k | 0 <= k < |rows| ensures swapped[k].imageID == rows[k].imageID && (swapped[k] == rows[k] || rows[k].imageID == id) {
    }
    assert IDs(swapped) == IDs(rows) by {
      forall k | 0 <= k < |rows| ensures rows[k].imageID in IDs(swapped) && swapped[k].imageID in IDs(rows) {
        assert swapped[k] in swapped && rows[k] in rows;
      }
    }
    var f, g := FirstContributions(rows), FirstContributions(swapped);
    assert rows[i] in rows && id in IDs(rows);
    forall x | x in IDs(rows) - {id} ensures f[x] == g[x] {
      var k := FirstContributionIsOfSomeRow(rows, x);
      var l := FirstContributionIsOfSomeRow(swapped, x);
      assert k == l;
    }
    var k := FirstContributionIsOfSomeRow(rows, id);
    var l := FirstContributionIsOfSomeRow(swapped, id);
    assert k == i && l == i;
    SumOverRemove(IDs(rows), f, id);
    SumOverRemove(IDs(rows), g, id);
    SumOverSame(IDs(rows) - {id}, f, g);
  }

  lemma SwapIsPermutation(rows: seq<ImageRow>, i: nat, j: nat)
    requires i < j < |rows|
    ensures multiset(rows[i := rows[j]][j := rows[i]]) == multiset(rows)
  {
  }

  lemma InconsistentDependsOnOrder(rows: seq<ImageRow>, imagesSize: int64) returns (other: seq<ImageRow>)
    requires !Consistent(rows)
    ensures multiset(other) == multiset(rows)
    ensures Wrap(imagesSize - UsedSize(other)) != Wrap(imagesSize - UsedSize(rows))
  {
    var c, d;
    other, c, d := ShiftedBySwap(rows);
    DifferentAfterWrap(imagesSize - UsedSize(rows), imagesSize - UsedSize(other), c, d);
  }

  lemma ShiftedBySwap(rows: seq<ImageRow>) returns (other: seq<ImageRow>, c: int64, d: int64)
    requires !Consistent(rows)
    ensures multiset(other) == multiset(rows) && c != d && UsedSize(other) == UsedSize(rows) - c + d
  {
    var i, j := FirstAndOther(rows);
    other, c, d := rows[i := rows[j]][j := rows[i]], Contribution(rows[i]), Contribution(rows[j]);
    SwapIsPermutation(rows, i, j);
    UsedSizeOfSwap(rows, i, j);
  }

  /** The first row of some image, and a later one that contributes something else. */
  lemma FirstAndOther(rows: seq<ImageRow>) returns (i: nat, j: nat)
    requires !Consistent(rows)
    ensures i < j < |rows| && rows[i].imageID == rows[j].imageID && Contribution(rows[i]) != Contribution(rows[j])
    ensures forall k :: 0 <= k < i ==> rows[k].imageID != rows[i].imageID
  {
    var a, b :| a in rows && b in rows && a.imageID == b.imageID && Contribution(a) != Contribution(b);
    i := FirstContributionIsOfSomeRow(rows, a.imageID);
    var later := if Contribution(rows[i]) != Contribution(a) then a else b;
    j :| 0 <= j < |rows| && rows[j] == later;
    assert Contribution(rows[j]) != Contribution(rows[i]) && rows[j].imageID == rows[i].imageID;
  }

  /** The reclaimable size is independent of the order of the rows exactly when rows of one image agree. */
  lemma OrderIndependentIffConsistent(rows: seq<ImageRow>, imagesSize: int64)
    ensures Consistent(rows)
       <==> forall other: seq<ImageRow> :: multiset(other) == multiset(rows)
              ==> Wrap(imagesSize - UsedSize(other)) == Wrap(imagesSize - UsedSize(rows))
  {
    if Consistent(rows) {
      forall other: seq<ImageRow> | multiset(other) == multiset(rows)
        ensures Wrap(imagesSize - UsedSize(other)) == Wrap(imagesSize - UsedSize(rows))
      {
        UsedSizeOfPermutation(rows, other);
      }
    } else {
      var other := InconsistentDependsOnOrder(rows, imagesSize);
    }
  }

  lemma DifferentAfterWrap(x: int, y: int, c: int64, d: int64)
    requires c != d && y == x + c - d
    ensures Wrap(y) != Wrap(x)
  {
  }

  // ---------------------------------------------------------------- what the summary means

  lemma {:induction false} ContainersSplit(rows: seq<ContainerRow>, i: nat)
    requires i <= |rows|
    ensures Sum(Sizes(rows)[..i]) == Sum(SizesWhere(rows, true)[..i]) + Sum(SizesWhere(rows, false)[..i])
  {
    if i > 0 {
      ContainersSplit(rows, i - 1);
      SumStep(Sizes(rows), i - 1);
      SumStep(SizesWhere(rows, true), i - 1);
      SumStep(SizesWhere(rows, false), i - 1);
    }
  }

  lemma {:induction false} SumMonotone(xs: seq<int>, ys: seq<int>)
    requires |xs| == |ys| && forall k :: 0 <= k < |xs| ==> xs[k] <= ys[k]
    ensures Sum(xs) <= Sum(ys)
  {
    if xs != [] {
      SumMonotone(xs[..|xs| - 1], ys[..|ys| - 1]);
    }
  }

  /** The size not reclaimable is what running containers use, whatever wraps on the way. */
  lemma RunningShare(report: Report)
    ensures var s := Summarized(report);
      Wrap(s.containersSize - s.containersReclaimable) == Wrap(Sum(SizesWhere(report.containers, true)))
  {
    SplitWhole(report.containers);
    var total, idle := Sum(Sizes(report.containers)), Sum(SizesWhere(report.containers, false));
    var wrappedIdle: int := Wrap(idle);
    WrapAdd(total, -wrappedIdle);
    WrapSub(total, idle);
  }

  predicate NonNegative(xs: seq<int>) {
    forall k :: 0 <= k < |xs| ==> xs[k] >= 0
  }

  /** Sums of non-negative numbers grow with every step, so what fits in the end fits on the way. */
  lemma {:induction false} PrefixSums(xs: seq<int>, i: nat)
    requires NonNegative(xs) && i <= |xs|
    ensures 0 <= Sum(xs[..i]) <= Sum(xs)
    decreases |xs|
  {
    if i == |xs| {
      assert xs[..i] == xs;
      if i > 0 {
        PrefixSums(xs[..i - 1], i - 1);
        assert xs[..i - 1][..i - 1] == xs[..i - 1];
      }
    } else {
      PrefixSums(xs[..|xs| - 1], i);
      assert xs[..|xs| - 1][..i] == xs[..i];
    }
  }

  lemma {:induction false} UsedGrows(rows: seq<ImageRow>, i: nat, j: nat)
    requires (forall k :: 0 <= k < |rows| ==> rows[k].uniqueSize >= 0) && i <= j <= |rows|
    ensures 0 <= UsedSoFar(rows[..i]) <= UsedSoFar(rows[..j])
    decreases j
  {
    if j > 0 {
      assert rows[..j][..j - 1] == rows[..j - 1];
      UsedGrows(rows, if i < j then i else j - 1, j - 1);
    }
  }

  lemma PrefixUsed(rows: seq<ImageRow>, i: nat)
    requires (forall k :: 0 <= k < |rows| ==> rows[k].uniqueSize >= 0) && i <= |rows|
    ensures 0 <= UsedSoFar(rows[..i]) <= UsedSoFar(rows)
  {
    UsedGrows(rows, i, |rows|);
    assert rows[..|rows|] == rows;
  }

  /** Nothing in the report is negative, and reclaimable volume sizes are parts of sizes. */
  predicate Plausible(report: Report) {
    && report.imagesSize >= 0
    && (forall i :: 0 <= i < |report.images| ==> report.images[i].uniqueSize >= 0)
    && (forall i :: 0 <= i < |report.containers| ==> report.containers[i].rwSize >= 0)
    && (forall i :: 0 <= i < |report.volumes| ==> 0 <= report.volumes[i].reclaimableSize <= report.volumes[i].size)
  }

  ghost predicate TotalsFit(report: Report) {
    && Fits(UsedSize(report.images))
    && Fits(Sum(Sizes(report.containers))) && Fits(Sum(VolumeSizes(report.volumes)))
  }

  /** Every partial sum of these numbers can be held. */
  predicate StepsFit(xs: seq<int>) {
    forall i :: 0 <= i <= |xs| ==> Fits(Sum(xs[..i]))
  }

  lemma NonNegativeFits(xs: seq<int>)
    requires NonNegative(xs) && Fits(Sum(xs))
    ensures 0 <= Sum(xs) && StepsFit(xs)
  {
    forall i | 0 <= i <= |xs| ensures Fits(Sum(xs[..i])) {
      PrefixSums(xs, i);
    }
    PrefixSums(xs, |xs|);
  }

  lemma ImagesFit(rows: seq<ImageRow>)
    requires (forall k :: 0 <= k < |rows| ==> rows[k].uniqueSize >= 0) && Fits(UsedSize(rows))
    ensures 0 <= UsedSize(rows) && forall i :: 0 <= i <= |rows| ==> Fits(UsedSoFar(rows[..i]))
  {
    UsedSoFarIsUsedSize(rows);
    forall i | 0 <= i <= |rows| ensures Fits(UsedSoFar(rows[..i])) {
      PrefixUsed(rows, i);
    }
    PrefixUsed(rows, 0);
  }

  lemma PartFits(part: seq<int>, whole: seq<int>)
    requires |part| == |whole| && Fits(Sum(whole)) && forall k :: 0 <= k < |part| ==> 0 <= part[k] <= whole[k]
    ensures 0 <= Sum(part) <= Sum(whole) && StepsFit(part) && StepsFit(whole)
  {
    NonNegativeFits(whole);
    SumMonotone(part, whole);
    PrefixSums(part, |part|);
    assert part[..|part|] == part;
    PrefixSums(part, 0);
    NonNegativeFits(part);
  }

  /** None of the five accumulators of the loops overflows at any iteration. */
  lemma NoStepOverflows(report: Report)
    requires Plausible(report) && TotalsFit(report)
    ensures forall i :: 0 <= i <= |report.images| ==> Fits(UsedSoFar(report.images[..i]))
    ensures StepsFit(Sizes(report.containers)) && StepsFit(SizesWhere(report.containers, false))
    ensures StepsFit(VolumeSizes(report.volumes)) && StepsFit(VolumeReclaimables(report.volumes))
  {
    ImagesFit(report.images);
    PartFits(SizesWhere(report.containers, false), Sizes(report.containers));
    PartFits(VolumeReclaimables(report.volumes), VolumeSizes(report.volumes));
  }

  /** Each part of the summary is exact when the sizes of that part are not negative and their total fits. */
  lemma ImagesExact(report: Report)
    requires report.imagesSize >= 0 && forall i :: 0 <= i < |report.images| ==> report.images[i].uniqueSize >= 0
    requires Fits(UsedSize(report.images))
    ensures Summarized(report).imagesReclaimable == report.imagesSize - UsedSize(report.images) <= report.imagesSize
  {
    ImagesFit(report.images);
  }

  lemma ContainersExact(report: Report)
    requires forall i :: 0 <= i < |report.containers| ==> report.containers[i].rwSize >= 0
    requires Fits(Sum(Sizes(report.containers)))
    ensures var s := Summarized(report);
      && s.containersSize == Sum(Sizes(report.containers))
      && s.containersReclaimable == Sum(SizesWhere(report.containers, false))
      && s.containersSize - s.containersReclaimable == Sum(SizesWhere(report.containers, true))
      && 0 <= s.containersReclaimable <= s.containersSize
  {
    PartFits(SizesWhere(report.containers, false), Sizes(report.containers));
    SplitWhole(report.containers);
  }

  lemma VolumesExact(report: Report)
    requires forall i :: 0 <= i < |report.volumes| ==> 0 <= report.volumes[i].reclaimableSize <= report.volumes[i].size
    requires Fits(Sum(VolumeSizes(report.volumes)))
    ensures var s := Summarized(report);
      && s.volumesSize == Sum(VolumeSizes(report.volumes))
      && s.volumesReclaimable == Sum(VolumeReclaimables(report.volumes))
      && 0 <= s.volumesReclaimable <= s.volumesSize
  {
    PartFits(VolumeReclaimables(report.volumes), VolumeSizes(report.volumes));
  }

  /** For sizes that are not negative and whose totals fit, the whole summary is exact and consistent in itself. */
  lemma ExactWhenTotalsFit(report: Report)
    requires Plausible(report) && TotalsFit(report)
    ensures var s := Summarized(report);
      && s.imagesReclaimable == report.imagesSize - UsedSize(report.images) <= report.imagesSize
      && s.containersSize == Sum(Sizes(report.containers))
      && s.containersReclaimable == Sum(SizesWhere(report.containers, false))
      && s.containersSize - s.containersReclaimable == Sum(SizesWhere(report.containers, true))
      && 0 <= s.containersReclaimable <= s.containersSize
      && s.volumesSize == Sum(VolumeSizes(report.volumes))
      && s.volumesReclaimable == Sum(VolumeReclaimables(report.volumes))
      && 0 <= s.volumesReclaimable <= s.volumesSize
  {
    ImagesExact(report);
    ContainersExact(report);
    VolumesExact(report);
  }

  lemma SplitWhole(rows: seq<ContainerRow>)
    ensures Sum(Sizes(rows)) == Sum(SizesWhere(rows, true)) + Sum(SizesWhere(rows, false))
  {
    var n := |rows|;
    ContainersSplit(rows, n);
    assert Sizes(rows)[..n] == Sizes(rows);
    assert SizesWhere(rows, true)[..n] == SizesWhere(rows, true);
    assert SizesWhere(rows, false)[..n] == SizesWhere(rows, false);
  }

  // ---------------------------------------------------------------- row by row

  /** An empty report: only the images size is not zero, and all of it is reclaimable. */
  lemma NothingReported(imagesSize: int64)
    ensures Summarized(Report(imagesSize, [], [], [])) == Summary(imagesSize, imagesSize, 0, 0, 0, 0)
  {
    UsedSoFarIsUsedSize([]);
  }

  /** One more container adds its size, and adds it to what is reclaimable unless its status is "running". */
  lemma OneMoreContainer(report: Report, row: ContainerRow)
    ensures var s, t := Summarized(report), Summarized(report.(containers := report.containers + [row]));
      && t.containersSize == Wrap(s.containersSize + row.rwSize)
      && t.containersReclaimable == (if row.status == "running" then s.containersReclaimable else Wrap(s.containersReclaimable + row.rwSize))
      && t == s.(containersSize := t.containersSize, containersReclaimable := t.containersReclaimable)
  {
    var rows := report.containers;
    assert Sizes(rows + [row])[..|rows|] == Sizes(rows);
    assert SizesWhere(rows + [row], false)[..|rows|] == SizesWhere(rows, false);
    WrapAdd(Sum(Sizes(rows)), row.rwSize);
    WrapAdd(Sum(SizesWhere(rows, false)), row.rwSize);
  }

  /** Running containers alone leave nothing to reclaim. */
  lemma {:induction false} AllRunning(report: Report)
    requires forall i :: 0 <= i < |report.containers| ==> report.containers[i].status == "running"
    ensures Summarized(report).containersReclaimable == 0
    decreases |report.containers|
  {
    if report.containers != [] {
      var n := |report.containers| - 1;
      var before := report.(containers := report.containers[..n]);
      AllRunning(before);
      assert report == before.(containers := before.containers + [report.containers[n]]);
      OneMoreContainer(before, report.containers[n]);
    }
  }

  /** Without a running container everything can be reclaimed. */
  lemma {:induction false} NoneRunning(report: Report)
    requires forall i :: 0 <= i < |report.containers| ==> report.containers[i].status != "running"
    ensures Summarized(report).containersReclaimable == Summarized(report).containersSize
    decreases |report.containers|
  {
    if report.containers != [] {
      var n := |report.containers| - 1;
      var before := report.(containers := report.containers[..n]);
      NoneRunning(before);
      assert report == before.(containers := before.containers + [report.containers[n]]);
      OneMoreContainer(before, report.containers[n]);
    }
  }

  /** One more volume adds its size and its reclaimable size. */
  lemma OneMoreVolume(report: Report, row: VolumeRow)
    ensures var s, t := Summarized(report), Summarized(report.(volumes := report.volumes + [row]));
      && t.volumesSize == Wrap(s.volumesSize + row.size)
      && t.volumesReclaimable == Wrap(s.volumesReclaimable + row.reclaimableSize)
      && t == s.(volumesSize := t.volumesSize, volumesReclaimable := t.volumesReclaimable)
  {
    var rows := report.volumes;
    assert VolumeSizes(rows + [row])[..|rows|] == VolumeSizes(rows);
    assert VolumeReclaimables(rows + [row])[..|rows|] == VolumeReclaimables(rows);
    WrapAdd(Sum(VolumeSizes(rows)), row.size);
    WrapAdd(Sum(VolumeReclaimables(rows)), row.reclaimableSize);
  }

  /** No row so far is of this image. */
  predicate NewImage(rows: seq<ImageRow>, row: ImageRow) {
    forall i :: 0 <= i < |rows| ==> rows[i].imageID != row.imageID
  }

  function Taken(rows: seq<ImageRow>, row: ImageRow): int {
    if row.containers > 0 && NewImage(rows, row) then row.uniqueSize else 0
  }

  /** One more image row adds its unique size to what is in use, if containers use it and no row before it was of that image. */
  lemma UsedSizeOfOneMore(rows: seq<ImageRow>, row: ImageRow)
    ensures UsedSize(rows + [row]) == UsedSize(rows) + Taken(rows, row)
  {
    var more := rows + [row];
    assert more[..|rows|] == rows && more[..|rows| + 1] == more;
    UsedStep(more, |rows|);
    NewImageIff(rows, row);
  }

  lemma NewImageIff(rows: seq<ImageRow>, row: ImageRow)
    ensures NewImage(rows, row) <==> row.imageID !in IDs(rows)
  {
    if row.imageID in IDs(rows) {
      var other :| other in rows && other.imageID == row.imageID;
      var i :| 0 <= i < |rows| && rows[i] == other;
    }
    forall i | 0 <= i < |rows| ensures rows[i].imageID in IDs(rows) {
      assert rows[i] in rows;
    }
  }

  // ---------------------------------------------------------------- the cache

  class DiskUsageReport {
    var diskUsage: Summary
    var updateErr: Option<Failure>

    /** Either an error beside a zero summary, or the summary of one whole report. */
    ghost predicate Valid()
      reads this
    {
      if updateErr.Some? then diskUsage == ZERO
      else diskUsage == ZERO || exists report :: diskUsage == Summarized(report)
    }

    constructor ()
      ensures Valid() && updateErr == None && diskUsage == ZERO
    {
      diskUsage := ZERO;
      updateErr := None;
    }

    method DiskUsageSummary() returns (r: Result<Summary, Failure>)
      ensures r == if updateErr.Some? then Err(updateErr.value) else Ok(diskUsage)
    {
      if updateErr.Some? {
        return Err(updateErr.value);
      }
      r := Ok(diskUsage);
    }

    method UpdateDiskUsage(df: Result<Report, Failure>)
      modifies this
      ensures Valid()
      ensures df.Err? ==> updateErr == Some(df.error) && diskUsage == ZERO
      ensures df.Ok? ==> updateErr == None && diskUsage == Summarized(df.value)
    {
      if df.Err? {
        updateErr := Some(df.error);
        diskUsage := ZERO;
        return;
      }
      updateErr := None;
      var s := SummarizeDiskUsage(df.value);
      diskUsage := s;
    }

    /** After any non-empty history of refreshes, a reader gets the last one and nothing of those before it. */
    method Refreshes(history: seq<Result<Report, Failure>>) returns (r: Result<Summary, Failure>)
      requires history != []
      modifies this
      ensures Valid()
      ensures var last := history[|history| - 1];
        r == match last { case Err(e) => Err(e) case Ok(report) => Ok(Summarized(report)) }
    {
      for i := 0 to |history|
        invariant i > 0 ==> Valid()
        invariant i > 0 && history[i - 1].Err? ==> updateErr == Some(history[i - 1].error)
        invariant i > 0 && history[i - 1].Ok? ==> updateErr == None && diskUsage == Summarized(history[i - 1].value)
      {
        UpdateDiskUsage(history[i]);
      }
      r := DiskUsageSummary();
    }
  }
}
