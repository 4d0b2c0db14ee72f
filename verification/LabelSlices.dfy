/**
 The label builders of the container and image collectors on Go slices:
 a slice is a backing array, a length and a capacity, and slices may share
 a backing array (collector/container.go, collector/image.go).
 */
module LabelSlices {
  import opened Common
  import opened Labels
  import Containers
  import Images

  /** A slice from the start of its backing array; its capacity is the array's length. */
  datatype Slice = Slice(arr: array<string>, len: nat)

  predicate Valid(s: Slice) { s.len <= s.arr.Length }

  function Contents(s: Slice): seq<string>
    reads s.arr
    requires Valid(s)
  {
    s.arr[..s.len]
  }

  /**
   The built-in append: in place when the capacity suffices, and otherwise into
   a new array, with `spare` more room than needed.
   */
  method Append(s: Slice, xs: seq<string>, spare: nat) returns (r: Slice)
    requires Valid(s)
    modifies if xs != [] && s.len + |xs| <= s.arr.Length then {s.arr} else {}
    ensures Valid(r) && Contents(r) == old(Contents(s)) + xs
    ensures if s.len + |xs| <= s.arr.Length then r.arr == s.arr else fresh(r.arr)
    ensures forall i :: 0 <= i < s.arr.Length && !(s.len <= i < s.len + |xs|) ==> s.arr[i] == old(s.arr[i])
  {
    if s.len + |xs| <= s.arr.Length {
      for i := 0 to |xs|
        invariant forall j :: 0 <= j < i ==> s.arr[s.len + j] == xs[j]
        invariant forall j :: 0 <= j < s.arr.Length && !(s.len <= j < s.len + i) ==> s.arr[j] == old(s.arr[j])
      {
        s.arr[s.len + i] := xs[i];
      }
      r := Slice(s.arr, s.len + |xs|);
    } else {
      var n := s.len + |xs|;
      var arr := new string[n + spare](i => "");
      for i := 0 to s.len
        invariant arr[..i] == s.arr[..i]
      {
        arr[i] := s.arr[i];
      }
      for i := 0 to |xs|
        invariant arr[..s.len] == s.arr[..s.len]
        invariant arr[s.len..s.len + i] == xs[..i]
      {
        arr[s.len + i] := xs[i];
      }
      r := Slice(arr, n);
      assert arr[..n] == arr[..s.len] + arr[s.len..n];
    }
  }

  lemma ExtrasStep(cfg: Config, defaults: seq<string>, labels: map<string, string>, order: seq<string>, key: string)
    requires key in labels
    ensures var before, after := Extras(cfg, defaults, labels, order), Extras(cfg, defaults, labels, order + [key]);
      && Firsts(after) == Firsts(before) + (if Kept(cfg, defaults, key) then [Sanitize(key)] else [])
      && Seconds(after) == Seconds(before) + (if Kept(cfg, defaults, key) then [labels[key]] else [])
  {
    assert (order + [key])[..|order|] == order;
  }

  /** The extra names and values of a label map, for some iteration order of it. */
  ghost predicate AreExtras(cfg: Config, defaults: seq<string>, labels: map<string, string>, names: seq<string>, values: seq<string>) {
    exists order :: IsOrder(order, labels.Keys)
      && names == Firsts(Extras(cfg, defaults, labels, order)) && values == Seconds(Extras(cfg, defaults, labels, order))
  }

  /** The loop over a row's labels, in whatever order the map is iterated. */
  method ExtraLabelsAndValues(cfg: Config, collectorLabels: seq<string>, labels: map<string, string>)
    returns (extraLabels: seq<string>, extraValues: seq<string>, ghost order: seq<string>)
    ensures IsOrder(order, labels.Keys)
    ensures extraLabels == Firsts(Extras(cfg, collectorLabels, labels, order))
    ensures extraValues == Seconds(Extras(cfg, collectorLabels, labels, order))
    ensures AreExtras(cfg, collectorLabels, labels, extraLabels, extraValues)
  {
    extraLabels, extraValues, order := [], [], [];
    var rest := labels.Keys;
    while rest != {}
      invariant rest <= labels.Keys && IsOrder(order, labels.Keys - rest)
      invariant extraLabels == Firsts(Extras(cfg, collectorLabels, labels, order))
      invariant extraValues == Seconds(Extras(cfg, collectorLabels, labels, order))
      decreases |rest|
    {
      var key :| key in rest;
      rest := rest - {key};
      ExtrasStep(cfg, collectorLabels, labels, order, key);
      order := order + [key];
      if SlicesContains(cfg, collectorLabels, key) {
        continue;
      }
      var validLabel := Sanitize(key);
      if cfg.storeLabels {
        extraLabels := extraLabels + [validLabel];
        extraValues := extraValues + [labels[key]];
      } else if WhitelistContains(cfg, key) {
        extraLabels := extraLabels + [validLabel];
        extraValues := extraValues + [labels[key]];
      }
    }
    assert labels.Keys - rest == labels.Keys;
  }

  datatype DescLabels = DescLabels(labels: Slice, labelsValue: seq<string>)

  function ContainerBase(rep: Containers.Container): seq<string> {
    [rep.id, rep.name, rep.image, rep.imageID, rep.ports, rep.podID, rep.podName]
  }

  function ImageBase(rep: Images.Image): seq<string> {
    [rep.id, rep.parentId, rep.repository, rep.tag, rep.digest]
  }

  /** What a builder returns for some iteration order of the row's labels. */
  predicate Built(cfg: Config, defaults: seq<string>, base: seq<string>, labels: map<string, string>,
                  order: seq<string>, names: seq<string>, values: seq<string>)
  {
    && IsOrder(order, labels.Keys)
    && names == defaults + Firsts(Extras(cfg, defaults, labels, order))
    && values == base + Seconds(Extras(cfg, defaults, labels, order))
  }

  /** What two calls of a builder for one row return is the same map from names to values. */
  lemma BuiltAlike(cfg: Config, defaults: seq<string>, base: seq<string>, labels: map<string, string>,
                   a: seq<string>, names: seq<string>, values: seq<string>,
                   b: seq<string>, others: seq<string>, otherValues: seq<string>, name: string)
    requires Accepted(defaults) && |base| == |defaults| && Accepted(names)
    requires Built(cfg, defaults, base, labels, a, names, values) && Built(cfg, defaults, base, labels, b, others, otherValues)
    ensures Accepted(others) && |names| == |values| && |others| == |otherValues|
    ensures ValueOf(names, values, name) == ValueOf(others, otherValues, name)
  {
    OrderDoesNotMatter(cfg, defaults, base, labels, a, b, name);
  }

  lemma BaseValue(cfg: Config, defaults: seq<string>, base: seq<string>, labels: map<string, string>,
                  order: seq<string>, names: seq<string>, values: seq<string>, i: nat)
    requires Built(cfg, defaults, base, labels, order, names, values) && NoDup(names) && |base| == |defaults| && i < |defaults|
    ensures |names| == |values| && ValueOf(names, values, defaults[i]) == Some(base[i])
  {
    assert names[i] == defaults[i] && values[i] == base[i];
    NamedValue(names, values, i);
  }

  /** Under each default name a container's info metric has the field of that name. */
  lemma ContainerInfoValues(cfg: Config, rep: Containers.Container, order: seq<string>, names: seq<string>, values: seq<string>)
    requires Built(cfg, CONTAINER_DEFAULTS, ContainerBase(rep), rep.labels, order, names, values) && NoDup(names)
    ensures |names| == |values|
    ensures ValueOf(names, values, "id") == Some(rep.id) && ValueOf(names, values, "name") == Some(rep.name)
    ensures ValueOf(names, values, "image") == Some(rep.image) && ValueOf(names, values, "image_id") == Some(rep.imageID)
    ensures ValueOf(names, values, "ports") == Some(rep.ports)
    ensures ValueOf(names, values, "pod_id") == Some(rep.podID) && ValueOf(names, values, "pod_name") == Some(rep.podName)
  {
    forall i | 0 <= i < 7 ensures ValueOf(names, values, CONTAINER_DEFAULTS[i]) == Some(ContainerBase(rep)[i]) {
      BaseValue(cfg, CONTAINER_DEFAULTS, ContainerBase(rep), rep.labels, order, names, values, i);
    }
    assert CONTAINER_DEFAULTS[0] == "id" && CONTAINER_DEFAULTS[1] == "name" && CONTAINER_DEFAULTS[2] == "image";
    assert CONTAINER_DEFAULTS[3] == "image_id" && CONTAINER_DEFAULTS[4] == "ports";
    assert CONTAINER_DEFAULTS[5] == "pod_id" && CONTAINER_DEFAULTS[6] == "pod_name";
  }

  lemma ImageInfoValues(cfg: Config, rep: Images.Image, order: seq<string>, names: seq<string>, values: seq<string>)
    requires Built(cfg, IMAGE_DESC_DEFAULTS, ImageBase(rep), rep.labels, order, names, values) && NoDup(names)
    ensures |names| == |values|
    ensures ValueOf(names, values, "id") == Some(rep.id) && ValueOf(names, values, "parent_id") == Some(rep.parentId)
    ensures ValueOf(names, values, "repository") == Some(rep.repository) && ValueOf(names, values, "tag") == Some(rep.tag)
    ensures ValueOf(names, values, "digest") == Some(rep.digest)
  {
    forall i | 0 <= i < 5 ensures ValueOf(names, values, IMAGE_DESC_DEFAULTS[i]) == Some(ImageBase(rep)[i]) {
      BaseValue(cfg, IMAGE_DESC_DEFAULTS, ImageBase(rep), rep.labels, order, names, values, i);
    }
    assert IMAGE_DESC_DEFAULTS[0] == "id" && IMAGE_DESC_DEFAULTS[1] == "parent_id" && IMAGE_DESC_DEFAULTS[2] == "repository";
    assert IMAGE_DESC_DEFAULTS[3] == "tag" && IMAGE_DESC_DEFAULTS[4] == "digest";
  }

  /** And under each extra name it has the label whose key was sanitized to it. */
  lemma ExtraValue(cfg: Config, defaults: seq<string>, base: seq<string>, labels: map<string, string>,
                   order: seq<string>, names: seq<string>, values: seq<string>, key: string)
    requires Built(cfg, defaults, base, labels, order, names, values) && NoDup(names) && |base| == |defaults|
    requires key in labels && Kept(cfg, defaults, key)
    ensures |names| == |values| && ValueOf(names, values, Sanitize(key)) == Some(labels[key])
  {
    var p :| 0 <= p < |order| && order[p] == key;
    var i := KeyGivesExtra(cfg, defaults, labels, order, p);
    assert names[|defaults| + i] == Sanitize(key) && values[|defaults| + i] == labels[key];
    NamedValue(names, values, |defaults| + i);
  }

  /** The package-level default label lists, made from literals and never assigned again. */
  class DefaultLabels {
    const containerDefaultLabels: Slice
    const imageDescDefaultLabels: Slice

    constructor ()
      ensures Intact()
      ensures fresh(containerDefaultLabels.arr) && fresh(imageDescDefaultLabels.arr)
    {
      var c := new string[7] ["id", "name", "image", "image_id", "ports", "pod_id", "pod_name"];
      var i := new string[5] ["id", "parent_id", "repository", "tag", "digest"];
      containerDefaultLabels := Slice(c, 7);
      imageDescDefaultLabels := Slice(i, 5);
    }

    /** Full to capacity, with the contents they were made with. */
    ghost predicate Intact()
      reads containerDefaultLabels.arr, imageDescDefaultLabels.arr
    {
      && containerDefaultLabels.len == containerDefaultLabels.arr.Length
      && imageDescDefaultLabels.len == imageDescDefaultLabels.arr.Length
      && containerDefaultLabels.arr[..] == CONTAINER_DEFAULTS
      && imageDescDefaultLabels.arr[..] == IMAGE_DESC_DEFAULTS
    }

    /** Writes to no array that existed before: `modifies` is empty. */
    method GetContainerDescLabel(cfg: Config, rep: Containers.Container, spare: nat)
      returns (r: DescLabels, ghost order: seq<string>)
      requires Intact()
      ensures Intact() && Valid(r.labels)
      ensures Built(cfg, CONTAINER_DEFAULTS, ContainerBase(rep), rep.labels, order, Contents(r.labels), r.labelsValue)
      ensures fresh(r.labels.arr) || r.labels == containerDefaultLabels
    {
      var containerLabels := containerDefaultLabels;
      var containerLabelsValue := [rep.id, rep.name, rep.image, rep.imageID, rep.ports, rep.podID, rep.podName];
      assert Contents(containerLabels) == CONTAINER_DEFAULTS;
      var extraLabels, extraValues;
      extraLabels, extraValues, order := ExtraLabelsAndValues(cfg, Contents(containerLabels), rep.labels);
      containerLabels := Append(containerLabels, extraLabels, spare);
      containerLabelsValue := containerLabelsValue + extraValues;
      r := DescLabels(containerLabels, containerLabelsValue);
    }

    method GetImageDescLabels(cfg: Config, rep: Images.Image, spare: nat)
      returns (r: DescLabels, ghost order: seq<string>)
      requires Intact()
      ensures Intact() && Valid(r.labels)
      ensures Built(cfg, IMAGE_DESC_DEFAULTS, ImageBase(rep), rep.labels, order, Contents(r.labels), r.labelsValue)
      ensures fresh(r.labels.arr) || r.labels == imageDescDefaultLabels
    {
      var imageLabels := imageDescDefaultLabels;
      var imageLabelsValue := [rep.id, rep.parentId, rep.repository, rep.tag, rep.digest];
      assert Contents(imageLabels) == IMAGE_DESC_DEFAULTS;
      var extraLabels, extraValues;
      extraLabels, extraValues, order := ExtraLabelsAndValues(cfg, Contents(imageLabels), rep.labels);
      imageLabels := Append(imageLabels, extraLabels, spare);
      imageLabelsValue := imageLabelsValue + extraValues;
      r := DescLabels(imageLabels, imageLabelsValue);
    }

    /**
     Any sequence of calls of both builders, with a copy of each list made when it
     was returned: at the end the list still reads like its copy, and the defaults are intact.
     */
    method BuildMany(cfg: Config, rows: seq<Row>, spares: seq<nat>) returns (built: seq<Slice>, seen: seq<seq<string>>)
      requires Intact() && |spares| == |rows|
      ensures Intact() && |built| == |seen| == |rows|
      ensures forall i :: 0 <= i < |rows| ==> Valid(built[i]) && Contents(built[i]) == seen[i]
      ensures forall i :: 0 <= i < |rows| ==> NamesOf(cfg, rows[i], seen[i])
    {
      built, seen := [], [];
      for i := 0 to |rows|
        invariant Intact() && |built| == |seen| == i
        invariant forall j :: 0 <= j < i ==> Valid(built[j]) && Contents(built[j]) == seen[j]
        invariant forall j :: 0 <= j < i ==> NamesOf(cfg, rows[j], seen[j])
      {
        var r;
        ghost var order;
        match rows[i] {
          case OfContainer(c) => r, order := GetContainerDescLabel(cfg, c, spares[i]);
          case OfImage(img) => r, order := GetImageDescLabels(cfg, img, spares[i]);
        }
        built := built + [r.labels];
        seen := seen + [Contents(r.labels)];
      }
    }
  }

  datatype Row = OfContainer(container: Containers.Container) | OfImage(image: Images.Image)

  ghost predicate IsNameList(cfg: Config, defaults: seq<string>, labels: map<string, string>, names: seq<string>) {
    exists order :: IsOrder(order, labels.Keys) && names == defaults + Firsts(Extras(cfg, defaults, labels, order))
  }

  ghost predicate NamesOf(cfg: Config, row: Row, names: seq<string>) {
    match row
    case OfContainer(c) => IsNameList(cfg, CONTAINER_DEFAULTS, c.labels, names)
    case OfImage(img) => IsNameList(cfg, IMAGE_DESC_DEFAULTS, img.labels, names)
  }

  /**
   Why it matters that the defaults are full: with one spare element, the second
   of two appends to the same default list overwrites what the first returned.
   */
  method SpareCapacityWouldClobber(name: string, x: string, y: string, spare: nat) returns (seen: seq<string>)
    ensures seen == [name, y]
  {
    var arr := new string[2] [name, ""];
    var defaults := Slice(arr, 1);
    var first := Append(defaults, [x], spare);
    var second := Append(defaults, [y], spare);
    seen := first.arr[..first.len];
    assert Contents(second) == [name] + [y];
  }
}
