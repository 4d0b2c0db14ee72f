/** One scrape of the image collector (collector/image.go). */
module ImageCollector {
  import opened Common
  import opened Labels
  import opened LabelSlices
  import opened Images
  import opened Metrics

  /** An image of a scrape with the label lists built for it. */
  datatype ImageRow = ImageRow(rep: Image, names: seq<string>, values: seq<string>)

  function PlainValues(rep: Image): seq<string> { [rep.id, rep.repository, rep.tag] }

  function OtherNames(row: ImageRow, enhance: bool): seq<string> { if enhance then row.names else IMAGE_DEFAULTS }

  function OtherValues(row: ImageRow, enhance: bool): seq<string> { if enhance then row.values else PlainValues(row.rep) }

  function RowMetrics(row: ImageRow, enhance: bool): seq<Metric> {
    [Metric(ImageInfo, row.names, row.values, Whole(1)),
     Metric(ImageSize, OtherNames(row, enhance), OtherValues(row, enhance), Whole(row.rep.size)),
     Metric(ImageCreated, OtherNames(row, enhance), OtherValues(row, enhance), Whole(row.rep.created))]
  }

  function AllMetrics(rows: seq<ImageRow>, enhance: bool): seq<Metric> {
    if rows == [] then []
    else AllMetrics(rows[..|rows| - 1], enhance) + RowMetrics(rows[|rows| - 1], enhance)
  }

  predicate AcceptedLabels(cfg: Config, rep: Image) { Acceptable(cfg, IMAGE_DESC_DEFAULTS, rep.labels.Keys) }

  /** A row as the builders may make it, with accepted label names. */
  ghost predicate RowFor(cfg: Config, rep: Image, row: ImageRow) {
    && row.rep == rep && Accepted(row.names)
    && exists order :: Built(cfg, IMAGE_DESC_DEFAULTS, ImageBase(rep), rep.labels, order, row.names, row.values)
  }

  ghost predicate RowsFor(cfg: Config, images: seq<Image>, rows: seq<ImageRow>) {
    |rows| == |images| && forall i :: 0 <= i < |rows| ==> RowFor(cfg, images[i], rows[i])
  }

  lemma AddMetrics(sent: seq<Metric>, rows: seq<ImageRow>, row: ImageRow, enhance: bool)
    ensures sent + AllMetrics(rows, enhance) + RowMetrics(row, enhance) == sent + AllMetrics(rows + [row], enhance)
  {
    assert (rows + [row])[..|rows|] == rows;
    Regroup(sent, AllMetrics(rows, enhance), RowMetrics(row, enhance));
  }

  lemma AddRow(cfg: Config, images: seq<Image>, rows: seq<ImageRow>, row: ImageRow)
    requires |rows| < |images| && RowsFor(cfg, images[..|rows|], rows) && RowFor(cfg, images[|rows|], row)
    ensures RowsFor(cfg, images[..|rows| + 1], rows + [row])
  {
  }

  class Collector {
    var info: Desc
    var size: Desc
    var created: Desc

    constructor ()
      ensures info == size == created == None
    {
      info, size, created := None, None, None;
    }

    /**
     One scrape. It fails without output when the cached listing is an error, it
     panics exactly at the first image whose label names are not accepted, and otherwise
     it emits three metrics for each image.
     */
    method Update(ch: Scrape, cfg: Config, defaults: DefaultLabels, images: Result<seq<Image>, Failure>, spare: nat)
      returns (o: UpdateResult, ghost rows: seq<ImageRow>)
      requires defaults.Intact() && !ch.panicked
      modifies this, ch
      ensures defaults.Intact()
      ensures images.Err? ==> o == Failed(images.error) && ch.sent == old(ch.sent)
      ensures images.Ok? ==>
        && !o.Failed? && |rows| <= |images.value|
        && (o.Succeeded? ==> |rows| == |images.value|)
        && (o.Crashed? ==> |rows| < |images.value| && !AcceptedLabels(cfg, images.value[|rows|]))
        && RowsFor(cfg, images.value[..|rows|], rows)
        && ch.sent == old(ch.sent) + AllMetrics(rows, cfg.enhance)
    {
      rows := [];
      var imgLabels := ["id", "repository", "tag"];
      if images.Err? {
        return Failed(images.error), rows;
      }
      var reports := images.value;
      for i := 0 to |reports|
        invariant defaults.Intact() && |rows| == i && !ch.panicked
        invariant !cfg.enhance ==> imgLabels == IMAGE_DEFAULTS
        invariant RowsFor(cfg, reports[..i], rows)
        invariant ch.sent == old(ch.sent) + AllMetrics(rows, cfg.enhance)
      {
        ghost var row;
        imgLabels, row := EmitImage(ch, cfg, defaults, reports[i], imgLabels, spare);
        if ch.panicked {
          return Crashed, rows;
        }
        AddMetrics(old(ch.sent), rows, row, cfg.enhance);
        AddRow(cfg, reports, rows, row);
        rows := rows + [row];
      }
      assert reports[..|reports|] == reports;
      o := Succeeded;
    }

    /** The body of the loop; the label list of the size and created metrics is carried from row to row. */
    method EmitImage(ch: Scrape, cfg: Config, defaults: DefaultLabels, rep: Image, carried: seq<string>, spare: nat)
      returns (imgLabels: seq<string>, ghost row: ImageRow)
      requires defaults.Intact() && !ch.panicked && (!cfg.enhance ==> carried == IMAGE_DEFAULTS)
      modifies this, ch
      ensures defaults.Intact() && (!cfg.enhance ==> imgLabels == IMAGE_DEFAULTS)
      ensures ch.panicked == !AcceptedLabels(cfg, rep)
      ensures !ch.panicked ==> RowFor(cfg, rep, row)
      ensures ch.sent == old(ch.sent) + if ch.panicked then [] else RowMetrics(row, cfg.enhance)
    {
      var imageLabelsInfo;
      ghost var order;
      imageLabelsInfo, order := defaults.GetImageDescLabels(cfg, rep, spare);
      var labels := Contents(imageLabelsInfo.labels);
      imgLabels := carried;
      if cfg.enhance {
        imgLabels := labels;
      }
      row := ImageRow(rep, labels, imageLabelsInfo.labelsValue);
      DefaultsAccepted();
      NamesAcceptedIff(cfg, IMAGE_DESC_DEFAULTS, rep.labels, order);
      info := Some(labels);
      created := Some(imgLabels);
      size := Some(imgLabels);
      Emit(ch, ImageInfo, info, Whole(1), imageLabelsInfo.labelsValue);
      if cfg.enhance {
        Emit(ch, ImageSize, size, Whole(rep.size), imageLabelsInfo.labelsValue);
        Emit(ch, ImageCreated, created, Whole(rep.created), imageLabelsInfo.labelsValue);
        return;
      }
      Emit(ch, ImageSize, size, Whole(rep.size), [rep.id, rep.repository, rep.tag]);
      Emit(ch, ImageCreated, created, Whole(rep.created), [rep.id, rep.repository, rep.tag]);
    }
  }

  // ---------------------------------------------------------------- what was emitted

  lemma {:induction false} MetricAt(rows: seq<ImageRow>, enhance: bool, k: nat, r: nat)
    requires k < |rows| && r < 3
    ensures |AllMetrics(rows, enhance)| == 3 * |rows|
    ensures AllMetrics(rows, enhance)[3 * k + r] == RowMetrics(rows[k], enhance)[r]
  {
    var n := |rows| - 1;
    if k < n {
      MetricAt(rows[..n], enhance, k, r);
    } else if n > 0 {
      MetricAt(rows[..n], enhance, 0, 0);
    }
  }

  /** The three metrics of an image: which value under which family and which labels, in both modes. */
  lemma MetricFields(row: ImageRow, enhance: bool)
    ensures var ms := RowMetrics(row, enhance);
      && |ms| == 3
      && ms[0] == Metric(ImageInfo, row.names, row.values, Whole(1))
      && ms[1].family == ImageSize && ms[1].value == Whole(row.rep.size)
      && ms[2].family == ImageCreated && ms[2].value == Whole(row.rep.created)
      && forall r :: 1 <= r < 3 ==>
        if enhance then ms[r].names == row.names && ms[r].values == row.values
        else ms[r].names == ["id", "repository", "tag"] && ms[r].values == [row.rep.id, row.rep.repository, row.rep.tag]
  {
  }

  lemma RowWellFormed(cfg: Config, row: ImageRow, r: nat)
    requires RowFor(cfg, row.rep, row) && r < 3
    ensures WellFormed(RowMetrics(row, cfg.enhance)[r].names, RowMetrics(row, cfg.enhance)[r].values)
  {
  }

  /** Rows of different series have different label values in every family, in both modes. */
  lemma RowsDiffer(cfg: Config, a: ImageRow, b: ImageRow, r: nat)
    requires RowFor(cfg, a.rep, a) && RowFor(cfg, b.rep, b) && Series(a.rep) != Series(b.rep) && r < 3
    ensures RowMetrics(a, cfg.enhance)[r].values != RowMetrics(b, cfg.enhance)[r].values
  {
    assert a.values[0] == a.rep.id && a.values[2] == a.rep.repository && a.values[3] == a.rep.tag;
    assert b.values[0] == b.rep.id && b.values[2] == b.rep.repository && b.values[3] == b.rep.tag;
    assert PlainValues(a.rep)[0] == a.rep.id && PlainValues(a.rep)[1] == a.rep.repository && PlainValues(a.rep)[2] == a.rep.tag;
    assert PlainValues(b.rep)[0] == b.rep.id && PlainValues(b.rep)[1] == b.rep.repository && PlainValues(b.rep)[2] == b.rep.tag;
  }

  lemma FamilyAt(row: ImageRow, enhance: bool, r: nat)
    requires r < 3
    ensures RowMetrics(row, enhance)[r].family == if r == 0 then ImageInfo else if r == 1 then ImageSize else ImageCreated
  {
  }

  lemma {:induction false} MetricsDiffer(cfg: Config, rows: seq<ImageRow>, k: nat, r: nat, l: nat, q: nat)
    requires k < |rows| && l < |rows| && r < 3 && q < 3 && (k != l || r != q)
    requires RowFor(cfg, rows[k].rep, rows[k]) && RowFor(cfg, rows[l].rep, rows[l])
    requires k != l ==> Series(rows[k].rep) != Series(rows[l].rep)
    ensures |AllMetrics(rows, cfg.enhance)| == 3 * |rows|
    ensures var m, n := AllMetrics(rows, cfg.enhance)[3 * k + r], AllMetrics(rows, cfg.enhance)[3 * l + q];
      (m.family == n.family ==> m.values != n.values) && WellFormed(m.names, m.values)
  {
    MetricAt(rows, cfg.enhance, k, r);
    MetricAt(rows, cfg.enhance, l, q);
    FamilyAt(rows[k], cfg.enhance, r);
    FamilyAt(rows[l], cfg.enhance, q);
    RowWellFormed(cfg, rows[k], r);
    if r == q {
      RowsDiffer(cfg, rows[k], rows[l], r);
    }
  }

  /** The row and the family of output `i`. */
  lemma {:induction false} Place(i: nat) returns (k: nat, r: nat)
    ensures r < 3 && i == 3 * k + r
  {
    if i < 3 {
      k, r := 0, i;
    } else {
      k, r := Place(i - 3);
      k := k + 1;
    }
  }

  lemma {:induction false} MetricsDifferAt(cfg: Config, images: seq<Image>, rows: seq<ImageRow>, i: nat, j: nat)
    requires DistinctSeries(images) && RowsFor(cfg, images, rows)
    requires i < j < 3 * |rows|
    ensures |AllMetrics(rows, cfg.enhance)| == 3 * |rows|
    ensures var m, n := AllMetrics(rows, cfg.enhance)[i], AllMetrics(rows, cfg.enhance)[j];
      (m.family == n.family ==> m.values != n.values) && WellFormed(m.names, m.values)
  {
    var k, r := Place(i);
    var l, q := Place(j);
    assert RowFor(cfg, images[k], rows[k]) && RowFor(cfg, images[l], rows[l]);
    assert k != l ==> Series(rows[k].rep) != Series(rows[l].rep);
    MetricsDiffer(cfg, rows, k, r, l, q);
  }

  /**
   A scrape of a published list emits three metrics for each row, never two of
   one family with the same label values, and each with one value for every one
   of its accepted names.
   */
  lemma {:induction false} SeriesNeverCollide(cfg: Config, parse: ReferenceParser, reports: seq<Report>, rows: seq<ImageRow>, i: nat, j: nat)
    requires DistinctIDs(reports) && forall row :: row in Flatten(parse, reports) ==> NulFree(row)
    requires RowsFor(cfg, Published(parse, reports), rows)
    requires i < j < 3 * |rows|
    ensures |AllMetrics(rows, cfg.enhance)| == 3 * |rows|
    ensures var m, n := AllMetrics(rows, cfg.enhance)[i], AllMetrics(rows, cfg.enhance)[j];
      (m.family == n.family ==> m.values != n.values) && WellFormed(m.names, m.values)
  {
    PublishedSeriesDistinct(parse, reports);
    MetricsDifferAt(cfg, Published(parse, reports), rows, i, j);
  }
}
