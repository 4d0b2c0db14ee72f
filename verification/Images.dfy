/** The cached image list: flattening, deduplication and publication (pdcs/image.go). */
module Images {
  import opened Common

  const NONE_REFERENCE := "<none>"

  /** One entry of the image engine's listing. */
  datatype Report = Report(
    id: string, parentId: string, repoTags: seq<string>, created: int, size: int,
    digest: string, labels: map<string, string>)

  datatype Image = Image(
    id: string, parentId: string, repository: string, tag: string, created: int, size: int,
    digest: string, labels: map<string, string>)

  /** What the reference library finds in a text: a name unless it is a bare digest, and maybe a tag. */
  datatype Reference = Reference(name: Option<string>, tag: Option<string>)

  /** The library's parser is a parameter of the model. */
  type ReferenceParser = string -> Option<Reference>

  function RepoTagDecompose(parse: ReferenceParser, repoTags: string): (string, string) {
    if repoTags == NONE_REFERENCE + ":" + NONE_REFERENCE then (NONE_REFERENCE, NONE_REFERENCE)
    else
      match parse(repoTags)
      case None => (NONE_REFERENCE, NONE_REFERENCE)
      case Some(Reference(None, _)) => (repoTags, NONE_REFERENCE)
      case Some(Reference(Some(n), t)) =>
        var name := if n == "" then NONE_REFERENCE else n;
        match t
        case None => (name, NONE_REFERENCE)
        case Some(tag) => (name, if tag == "" then NONE_REFERENCE else tag)
  }

  // ---------------------------------------------------------------- flattening

  function RowOf(rep: Report, name: (string, string)): Image {
    Image(GetID(rep.id), GetID(rep.parentId), name.0, name.1, rep.created, rep.size, rep.digest, rep.labels)
  }

  /** One row for each tag of a report, or a single unnamed row. */
  function RowsOf(parse: ReferenceParser, rep: Report): seq<Image> {
    if |rep.repoTags| > 0
    then seq(|rep.repoTags|, i requires 0 <= i < |rep.repoTags| => RowOf(rep, RepoTagDecompose(parse, rep.repoTags[i])))
    else [RowOf(rep, (NONE_REFERENCE, NONE_REFERENCE))]
  }

  function Flatten(parse: ReferenceParser, reports: seq<Report>): seq<Image> {
    if reports == [] then []
    else Flatten(parse, reports[..|reports| - 1]) + RowsOf(parse, reports[|reports| - 1])
  }

  /** How a tag is taken apart, case by case. */
  lemma RepoTagCases(parse: ReferenceParser, repoTag: string)
    ensures repoTag == "<none>:<none>" ==> RepoTagDecompose(parse, repoTag) == ("<none>", "<none>")
    ensures repoTag != "<none>:<none>" ==> var r := parse(repoTag); var d := RepoTagDecompose(parse, repoTag);
      && (r.None? ==> d == ("<none>", "<none>"))
      && (r.Some? && r.value.name.None? ==> d == (repoTag, "<none>"))
      && (r.Some? && r.value.name.Some? ==>
            && d.0 == (if r.value.name.value == "" then "<none>" else r.value.name.value)
            && d.1 == (if r.value.tag == None || r.value.tag == Some("") then "<none>" else r.value.tag.value))
  {
    assert NONE_REFERENCE + ":" + NONE_REFERENCE == "<none>:<none>";
  }

  /** How many rows a report gives: one for each tag, but at least one. */
  function RowCount(rep: Report): nat { if |rep.repoTags| == 0 then 1 else |rep.repoTags| }

  function RowsBefore(reports: seq<Report>, k: nat): nat
    requires k <= |reports|
  {
    if k == 0 then 0 else RowsBefore(reports, k - 1) + RowCount(reports[k - 1])
  }

  lemma {:induction false} RowsOfPrefix(reports: seq<Report>, n: nat, k: nat)
    requires k <= n <= |reports|
    ensures RowsBefore(reports[..n], k) == RowsBefore(reports, k)
  {
    if k > 0 {
      RowsOfPrefix(reports, n, k - 1);
    }
  }

  lemma {:induction false} FlattenLength(parse: ReferenceParser, reports: seq<Report>)
    ensures |Flatten(parse, reports)| == RowsBefore(reports, |reports|)
  {
    if reports != [] {
      var n := |reports| - 1;
      FlattenLength(parse, reports[..n]);
      RowsOfPrefix(reports, n, n);
    }
  }

  lemma {:induction false} FlattenPrefix(parse: ReferenceParser, reports: seq<Report>, m: nat)
    requires m <= |reports|
    ensures Flatten(parse, reports[..m]) <= Flatten(parse, reports)
  {
    if m == |reports| {
      assert reports[..m] == reports;
    } else {
      FlattenPrefix(parse, reports[..|reports| - 1], m);
      assert reports[..|reports| - 1][..m] == reports[..m];
    }
  }

  lemma PrefixAt(whole: seq<Image>, front: seq<Image>, back: seq<Image>, k: nat)
    requires front + back <= whole && k < |back|
    ensures |front| + k < |whole| && whole[|front| + k] == back[k]
  {
    assert (front + back)[|front| + k] == back[k];
  }

  /** The rows come report by report and tag by tag, and each has the fields of its report and the name of its tag. */
  lemma RowAt(parse: ReferenceParser, reports: seq<Report>, k: nat, i: nat)
    requires k < |reports| && i < RowCount(reports[k])
    ensures |Flatten(parse, reports)| == RowsBefore(reports, |reports|) && RowsBefore(reports, k) + i < |Flatten(parse, reports)|
    ensures var row, rep := Flatten(parse, reports)[RowsBefore(reports, k) + i], reports[k];
      && row.id == GetID(rep.id) && row.parentId == GetID(rep.parentId) && row.digest == rep.digest
      && row.created == rep.created && row.size == rep.size && row.labels == rep.labels
      && (row.repository, row.tag) == if |rep.repoTags| > 0 then RepoTagDecompose(parse, rep.repoTags[i]) else ("<none>", "<none>")
  {
    FlattenLength(parse, reports);
    FlattenPrefix(parse, reports, k + 1);
    assert reports[..k + 1][..k] == reports[..k];
    FlattenLength(parse, reports[..k]);
    RowsOfPrefix(reports, k, k);
    PrefixAt(Flatten(parse, reports), Flatten(parse, reports[..k]), RowsOf(parse, reports[k]), i);
  }

  // ---------------------------------------------------------------- deduplication

  const NUL := '\0'

  function Key(img: Image): string {
    img.id + [NUL] + (img.parentId + [NUL] + (img.repository + [NUL] + (img.tag + [NUL] + img.digest)))
  }

  /** No earlier row has the key of row `i`. */
  predicate FirstAt(images: seq<Image>, i: nat)
    requires i < |images|
  {
    forall j :: 0 <= j < i ==> Key(images[j]) != Key(images[i])
  }

  function Dedup(images: seq<Image>): seq<Image> {
    if images == [] then []
    else
      var n := |images| - 1;
      Dedup(images[..n]) + if FirstAt(images, n) then [images[n]] else []
  }

  /** What a successful update publishes. */
  function Published(parse: ReferenceParser, reports: seq<Report>): seq<Image> {
    Dedup(Flatten(parse, reports))
  }

  function Keys(images: seq<Image>): set<string> {
    set img | img in images :: Key(img)
  }

  method DedupImages(images: seq<Image>) returns (deduped: seq<Image>)
    ensures deduped == Dedup(images)
  {
    var seen: set<string> := {};
    deduped := [];
    for i := 0 to |images|
      invariant seen == Keys(images[..i])
      invariant deduped == Dedup(images[..i])
    {
      var img := images[i];
      var key := Key(img);
      assert images[..i + 1][..i] == images[..i];
      SeenIffNotFirst(images[..i + 1], i);
      KeysSnoc(images, i);
      if key in seen {
        continue;
      }
      seen := seen + {key};
      deduped := deduped + [img];
    }
    assert images[..|images|] == images;
  }

  lemma SeenIffNotFirst(images: seq<Image>, i: nat)
    requires i < |images|
    ensures Key(images[i]) in Keys(images[..i]) <==> !FirstAt(images, i)
  {
    if Key(images[i]) in Keys(images[..i]) {
      var img :| img in images[..i] && Key(img) == Key(images[i]);
    } else {
      forall j | 0 <= j < i ensures Key(images[j]) != Key(images[i]) {
        assert images[j] in images[..i];
      }
    }
  }

  lemma KeysSnoc(images: seq<Image>, i: nat)
    requires i < |images|
    ensures Keys(images[..i + 1]) == Keys(images[..i]) + {Key(images[i])}
  {
    assert images[..i + 1] == images[..i] + [images[i]];
  }

  /** The published cache. `Images()` and `UpdateImages` hold its lock while they run. */
  class ImageReport {
    var images: array<Image>   // a slice that fills its backing array; empty for nil
    var updateErr: Option<Failure>

    constructor ()
      ensures images[..] == [] && updateErr == None
    {
      images := new Image[] [];
      updateErr := None;
    }

    /** Hands out the slice itself, not a copy. */
    method Images() returns (r: Result<array<Image>, Failure>)
      ensures r == if updateErr.Some? then Err(updateErr.value) else Ok(images)
    {
      if updateErr.Some? {
        return Err(updateErr.value);
      }
      r := Ok(images);
    }

    /** Publishes a new slice; one handed out before is not written to, as only `this` is modified. */
    method UpdateImages(parse: ReferenceParser, listing: Result<seq<Report>, Failure>)
      modifies this
      ensures fresh(images)
      ensures listing.Err? ==> updateErr == Some(listing.error) && images[..] == []
      ensures listing.Ok? ==> updateErr == None && images[..] == Published(parse, listing.value)
    {
      if listing.Err? {
        updateErr := Some(listing.error);
        images := new Image[] [];
        return;
      }
      updateErr := None;
      var reports := listing.value;
      var rows: seq<Image> := [];
      for i := 0 to |reports|
        invariant rows == Flatten(parse, reports[..i])
        invariant updateErr == None
      {
        rows := AppendRows(parse, rows, reports[i]);
        assert reports[..i + 1][..i] == reports[..i];
      }
      assert reports[..|reports|] == reports;
      var deduped := DedupImages(rows);
      images := new Image[|deduped|](i requires 0 <= i < |deduped| => deduped[i]);
    }

    /** A list handed out is never changed afterwards, whatever updates follow. */
    method ReadThenUpdate(parse: ReferenceParser, listings: seq<Result<seq<Report>, Failure>>)
      returns (read: Result<array<Image>, Failure>)
      modifies this
      ensures read == if old(updateErr).Some? then Err(old(updateErr).value) else Ok(old(images))
      ensures read.Ok? ==> read.value[..] == old(images[..])
      ensures listings != [] ==> var last := listings[|listings| - 1];
        if last.Ok? then updateErr == None && images[..] == Published(parse, last.value)
        else updateErr == Some(last.error) && images[..] == []
    {
      read := Images();
      for i := 0 to |listings|
        invariant old(images)[..] == old(images[..])
        invariant i > 0 && listings[i - 1].Ok? ==> updateErr == None && images[..] == Published(parse, listings[i - 1].value)
        invariant i > 0 && listings[i - 1].Err? ==> updateErr == Some(listings[i - 1].error) && images[..] == []
      {
        UpdateImages(parse, listings[i]);
      }
    }

    /** The body of the loop over the listing. */
    static method AppendRows(parse: ReferenceParser, images: seq<Image>, rep: Report) returns (rows: seq<Image>)
      ensures rows == images + RowsOf(parse, rep)
    {
      rows := images;
      if |rep.repoTags| > 0 {
        ghost var added := RowsOf(parse, rep);
        for i := 0 to |rep.repoTags|
          invariant rows == images + added[..i]
        {
          var (repository, tag) := RepoTagDecompose(parse, rep.repoTags[i]);
          rows := rows + [Image(GetID(rep.id), GetID(rep.parentId), repository, tag, rep.created, rep.size,
                                rep.digest, rep.labels)];
        }
        assert added[..|rep.repoTags|] == added;
      } else {
        rows := rows + [Image(GetID(rep.id), GetID(rep.parentId), "<none>", "<none>", rep.created, rep.size,
                              rep.digest, rep.labels)];
      }
    }
  }

  // ---------------------------------------------------------------- what deduplication keeps

  /** The positions of the rows that are first of their key. */
  function FirstIndices(images: seq<Image>): (idx: seq<nat>)
    ensures forall i :: i in idx ==> i < |images|
  {
    if images == [] then []
    else
      var n := |images| - 1;
      FirstIndices(images[..n]) + if FirstAt(images, n) then [n] else []
  }

  lemma {:induction false} FirstIndicesIncrease(images: seq<Image>)
    ensures forall i, j :: 0 <= i < j < |FirstIndices(images)| ==> FirstIndices(images)[i] < FirstIndices(images)[j]
  {
    if images != [] {
      var before := FirstIndices(images[..|images| - 1]);
      FirstIndicesIncrease(images[..|images| - 1]);
      assert forall i :: 0 <= i < |before| ==> before[i] in before;
    }
  }

  lemma {:induction false} FirstIndicesAreFirsts(images: seq<Image>)
    ensures forall i :: 0 <= i < |images| ==> (FirstAt(images, i) <==> i in FirstIndices(images))
  {
    if images != [] {
      var n := |images| - 1;
      FirstIndicesAreFirsts(images[..n]);
      FirstAtPrefix(images, n);
      forall i | 0 <= i < |images| ensures FirstAt(images, i) <==> i in FirstIndices(images) {
        if i < n {
          assert FirstAt(images, i) <==> FirstAt(images[..n], i);
        }
      }
    }
  }

  lemma {:induction false} DedupSelects(images: seq<Image>)
    ensures |Dedup(images)| == |FirstIndices(images)|
    ensures forall k :: 0 <= k < |Dedup(images)| ==> FirstIndices(images)[k] in FirstIndices(images)
    ensures forall k :: 0 <= k < |Dedup(images)| ==> Dedup(images)[k] == images[FirstIndices(images)[k]]
  {
    if images != [] {
      DedupSelects(images[..|images| - 1]);
    }
  }

  /** Deduplication keeps exactly the first row of each key, in input order. */
  lemma DedupKeepsFirsts(images: seq<Image>) returns (idx: seq<nat>)
    ensures |idx| == |Dedup(images)| && forall i, j :: 0 <= i < j < |idx| ==> idx[i] < idx[j]
    ensures forall k :: 0 <= k < |idx| ==> idx[k] < |images| && Dedup(images)[k] == images[idx[k]]
    ensures forall i :: 0 <= i < |images| ==> (FirstAt(images, i) <==> i in idx)
  {
    idx := FirstIndices(images);
    FirstIndicesIncrease(images);
    FirstIndicesAreFirsts(images);
    DedupSelects(images);
  }

  lemma FirstAtPrefix(images: seq<Image>, n: nat)
    requires n <= |images|
    ensures forall i :: 0 <= i < n ==> (FirstAt(images, i) <==> FirstAt(images[..n], i))
  {
    forall i | 0 <= i < n ensures FirstAt(images, i) <==> FirstAt(images[..n], i) {
      assert forall j :: 0 <= j <= i ==> images[..n][j] == images[j];
      if FirstAt(images[..n], i) {
        forall j | 0 <= j < i ensures Key(images[j]) != Key(images[i]) {
          assert images[..n][j] == images[j];
        }
      }
    }
  }

  lemma {:induction false} DedupKeysDistinct(images: seq<Image>)
    ensures forall i, j :: 0 <= i < j < |Dedup(images)| ==> Key(Dedup(images)[i]) != Key(Dedup(images)[j])
  {
    var idx := DedupKeepsFirsts(images);
    forall i, j | 0 <= i < j < |Dedup(images)| ensures Key(Dedup(images)[i]) != Key(Dedup(images)[j]) {
      assert idx[j] in idx;
      assert FirstAt(images, idx[j]);
      assert idx[i] < idx[j];
    }
  }

  lemma {:induction false} FirstOfKey(images: seq<Image>, i: nat) returns (f: nat)
    requires i < |images|
    ensures f <= i && FirstAt(images, f) && Key(images[f]) == Key(images[i])
    decreases i
  {
    if FirstAt(images, i) {
      f := i;
    } else {
      var j :| 0 <= j < i && Key(images[j]) == Key(images[i]);
      f := FirstOfKey(images, j);
    }
  }

  /** Rows are dropped, never keys. */
  lemma DedupPreservesKeys(images: seq<Image>)
    ensures Keys(Dedup(images)) == Keys(images)
    ensures forall img :: img in Dedup(images) ==> img in images
  {
    var idx := DedupKeepsFirsts(images);
    var d := Dedup(images);
    forall img | img in d ensures img in images {
      var k :| 0 <= k < |d| && d[k] == img;
    }
    forall i | 0 <= i < |images| ensures Key(images[i]) in Keys(d) {
      var f := FirstOfKey(images, i);
      var k :| 0 <= k < |idx| && idx[k] == f;
      assert d[k] in d;
    }
  }

  lemma {:induction false} DistinctKeysStay(images: seq<Image>)
    requires forall i, j :: 0 <= i < j < |images| ==> Key(images[i]) != Key(images[j])
    ensures Dedup(images) == images
  {
    if images != [] {
      var n := |images| - 1;
      DistinctKeysStay(images[..n]);
      assert images == images[..n] + [images[n]];
    }
  }

  /** Deduplicating twice changes nothing. */
  lemma DedupIdempotent(images: seq<Image>)
    ensures Dedup(Dedup(images)) == Dedup(images)
  {
    DedupKeysDistinct(images);
    DistinctKeysStay(Dedup(images));
  }

  // ---------------------------------------------------------------- the key is the label set

  predicate NulFree(img: Image) {
    NUL !in img.id && NUL !in img.parentId && NUL !in img.repository && NUL !in img.tag
  }

  predicate SameLabels(a: Image, b: Image) {
    a.id == b.id && a.parentId == b.parentId && a.repository == b.repository && a.tag == b.tag && a.digest == b.digest
  }

  /** The joined key stands for the five fields, provided the first four contain no separator. */
  lemma KeyInjective(a: Image, b: Image)
    requires NulFree(a) && NulFree(b)
    ensures Key(a) == Key(b) <==> SameLabels(a, b)
  {
    if Key(a) == Key(b) {
      CutKey(a);
      CutKey(b);
    }
  }

  lemma CutKey(a: Image)
    requires NulFree(a)
    ensures Cut(Key(a), NUL) == Some((a.id, a.parentId + [NUL] + (a.repository + [NUL] + (a.tag + [NUL] + a.digest))))
    ensures Cut(a.parentId + [NUL] + (a.repository + [NUL] + (a.tag + [NUL] + a.digest)), NUL)
         == Some((a.parentId, a.repository + [NUL] + (a.tag + [NUL] + a.digest)))
    ensures Cut(a.repository + [NUL] + (a.tag + [NUL] + a.digest), NUL) == Some((a.repository, a.tag + [NUL] + a.digest))
    ensures Cut(a.tag + [NUL] + a.digest, NUL) == Some((a.tag, a.digest))
  {
    CutAt(a.id, NUL, a.parentId + [NUL] + (a.repository + [NUL] + (a.tag + [NUL] + a.digest)));
    CutAt(a.parentId, NUL, a.repository + [NUL] + (a.tag + [NUL] + a.digest));
    CutAt(a.repository, NUL, a.tag + [NUL] + a.digest);
    CutAt(a.tag, NUL, a.digest);
  }

  /** The text of the key. */
  lemma KeyText(a: Image)
    ensures Key(a) == a.id + "\0" + a.parentId + "\0" + a.repository + "\0" + a.tag + "\0" + a.digest
  {
    var nul := [NUL];
    var d := a.tag + nul + a.digest;
    var c := a.repository + nul + d;
    var front := a.id + nul + a.parentId + nul;
    assert front + c == front + a.repository + nul + d;
    assert front + a.repository + nul + d == front + a.repository + nul + a.tag + nul + a.digest;
    assert a.id + nul + (a.parentId + nul + c) == front + c;
  }

  /** A separator inside a field makes two different label sets share a key. */
  lemma NulInFieldCollides(a: Image, b: Image)
    requires a.parentId == b.id == "" && b.digest == a.digest && a.repository == b.repository && a.tag == b.tag
    requires a.id == [NUL] && b.parentId == [NUL]
    ensures Key(a) == Key(b) && !SameLabels(a, b)
  {
    var rest := a.repository + [NUL] + (a.tag + [NUL] + a.digest);
    assert [NUL] + [NUL] + ("" + [NUL] + rest) == "" + [NUL] + ([NUL] + [NUL] + rest);
  }

  // ---------------------------------------------------------------- series of the image collector

  /** The labels of the size and created series in plain mode. */
  function Series(img: Image): (string, string, string) {
    (img.id, img.repository, img.tag)
  }

  predicate DistinctSeries(images: seq<Image>) {
    forall i, j :: 0 <= i < j < |images| ==> Series(images[i]) != Series(images[j])
  }

  /**
   The deduplicated list is pairwise distinct on three of the five key fields
   exactly when these three determine the other two in the list it came from.
   */
  lemma DistinctSeriesIff(images: seq<Image>)
    requires forall img :: img in images ==> NulFree(img)
    ensures DistinctSeries(Dedup(images))
       <==> forall a, b :: a in images && b in images && Series(a) == Series(b) ==> SameLabels(a, b)
  {
    var d := Dedup(images);
    DedupPreservesKeys(images);
    DedupKeysDistinct(images);
    if DistinctSeries(d) {
      forall a, b | a in images && b in images && Series(a) == Series(b) ensures SameLabels(a, b) {
        var a' := KeptRow(images, a);
        var b' := KeptRow(images, b);
        var i :| 0 <= i < |d| && d[i] == a';
        var j :| 0 <= j < |d| && d[j] == b';
        assert Series(d[i]) == Series(d[j]);
        assert i == j;
      }
    }
    if forall a, b :: a in images && b in images && Series(a) == Series(b) ==> SameLabels(a, b) {
      forall i, j | 0 <= i < j < |d| ensures Series(d[i]) != Series(d[j]) {
        assert d[i] in images && d[j] in images;
        KeyInjective(d[i], d[j]);
      }
    }
  }

  lemma KeptRow(images: seq<Image>, a: Image) returns (kept: Image)
    requires a in images && forall img :: img in images ==> NulFree(img)
    ensures kept in Dedup(images) && kept in images && SameLabels(kept, a)
  {
    DedupPreservesKeys(images);
    assert Key(a) in Keys(images);
    kept :| kept in Dedup(images) && Key(kept) == Key(a);
    KeyInjective(kept, a);
  }

  predicate DistinctIDs(reports: seq<Report>) {
    forall i, j :: 0 <= i < j < |reports| ==> GetID(reports[i].id) != GetID(reports[j].id)
  }

  lemma {:induction false} RowComesFromReport(parse: ReferenceParser, reports: seq<Report>, row: Image) returns (k: nat)
    requires row in Flatten(parse, reports)
    ensures k < |reports| && row == RowOf(reports[k], (row.repository, row.tag))
    ensures row.id == GetID(reports[k].id) && row.parentId == GetID(reports[k].parentId) && row.digest == reports[k].digest
    ensures row.created == reports[k].created && row.size == reports[k].size && row.labels == reports[k].labels
  {
    var n := |reports| - 1;
    if row in RowsOf(parse, reports[n]) {
      k := n;
    } else {
      k := RowComesFromReport(parse, reports[..n], row);
    }
  }

  /** Rows of different reports have different identifiers, so equal series are equal rows. */
  lemma EqualSeriesAreEqualRows(parse: ReferenceParser, reports: seq<Report>, a: Image, b: Image)
    requires DistinctIDs(reports) && a in Flatten(parse, reports) && b in Flatten(parse, reports)
    ensures Series(a) == Series(b) ==> a == b
  {
    var i := RowComesFromReport(parse, reports, a);
    var j := RowComesFromReport(parse, reports, b);
    if Series(a) == Series(b) {
      assert GetID(reports[i].id) == GetID(reports[j].id);
    }
  }

  /**
   When truncated identifiers are distinct, the published list has no two rows
   with the same series, and it still contains every row of the listing: what
   was dropped equals a kept row in all fields, size and labels included.
   */
  lemma PublishedSeriesDistinct(parse: ReferenceParser, reports: seq<Report>)
    requires DistinctIDs(reports) && forall row :: row in Flatten(parse, reports) ==> NulFree(row)
    ensures DistinctSeries(Published(parse, reports))
    ensures forall row :: row in Flatten(parse, reports) <==> row in Published(parse, reports)
  {
    var rows := Flatten(parse, reports);
    forall a, b | a in rows && b in rows ensures Series(a) == Series(b) ==> a == b {
      EqualSeriesAreEqualRows(parse, reports, a, b);
    }
    DistinctSeriesIff(rows);
    DedupPreservesKeys(rows);
    forall row | row in rows ensures row in Dedup(rows) {
      var kept := KeptRow(rows, row);
    }
  }

  /** Identifiers that agree on twelve characters defeat it: two different untagged images share one series. */
  lemma SharedPrefixCollides(parse: ReferenceParser, a: Report, b: Report)
    requires a.repoTags == b.repoTags == [] && GetID(a.id) == GetID(b.id) && a.digest != b.digest
    requires NulFree(RowOf(a, (NONE_REFERENCE, NONE_REFERENCE))) && NulFree(RowOf(b, (NONE_REFERENCE, NONE_REFERENCE)))
    ensures Published(parse, [a, b]) == [RowOf(a, (NONE_REFERENCE, NONE_REFERENCE)), RowOf(b, (NONE_REFERENCE, NONE_REFERENCE))]
    ensures !DistinctSeries(Published(parse, [a, b]))
  {
    var ra, rb := RowOf(a, (NONE_REFERENCE, NONE_REFERENCE)), RowOf(b, (NONE_REFERENCE, NONE_REFERENCE));
    assert [a, b][..1] == [a] && [a][..0] == [];
    assert Flatten(parse, [a]) == [ra];
    assert Flatten(parse, [a, b]) == [ra, rb];
    KeyInjective(ra, rb);
    DistinctKeysStay([ra, rb]);
    assert Series([ra, rb][0]) == Series([ra, rb][1]);
  }
}
