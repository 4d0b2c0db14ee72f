/** Which labels a container or image gets, and under which names (collector/utils.go). */
module Labels {
  import opened Common

  const CONTAINER_DEFAULTS := ["id", "name", "image", "image_id", "ports", "pod_id", "pod_name"]
  const IMAGE_DESC_DEFAULTS := ["id", "parent_id", "repository", "tag", "digest"]
  const IMAGE_DEFAULTS := ["id", "repository", "tag"]
  const PLAIN_DEFAULTS := ["id", "pod_id", "pod_name"]

  /** The settings made once at the start; `lower` stands for strings.ToLower. */
  datatype Config = Config(storeLabels: bool, whitelist: seq<string>, enhance: bool, lower: string -> string)

  /** The package variables behind them; a sync.Once lets only the first registration through. */
  class VariableLabels {
    var registered: bool
    var storeLabels: bool
    var whitelistedLabels: seq<string>
    var enhanceAllMetrics: bool

    constructor ()
      ensures !registered && !storeLabels && whitelistedLabels == [] && !enhanceAllMetrics
    {
      registered, storeLabels, whitelistedLabels, enhanceAllMetrics := false, false, [], false;
    }

    method RegisterVariableLabels(storeLabel: bool, whiteListed: string, enhanceMetrics: bool)
      modifies this
      ensures registered
      ensures old(registered) ==> Settings() == old(Settings())
      ensures !old(registered) ==> Settings() == (storeLabel, Split(whiteListed, ','), enhanceMetrics)
    {
      if !registered {
        storeLabels := storeLabel;
        whitelistedLabels := Split(whiteListed, ',');
        enhanceAllMetrics := enhanceMetrics;
        registered := true;
      }
    }

    function Settings(): (bool, seq<string>, bool)
      reads this
    {
      (storeLabels, whitelistedLabels, enhanceAllMetrics)
    }
  }

  function Join(parts: seq<string>, c: char): string
    requires parts != []
  {
    if |parts| == 1 then parts[0] else parts[0] + [c] + Join(parts[1..], c)
  }

  /** What is whitelisted: exactly the pieces of the text between its commas, so the empty text whitelists the empty key. */
  lemma {:induction false} WhitelistIsSplit(parts: seq<string>)
    requires parts != [] && forall p :: p in parts ==> ',' !in p
    ensures Split(Join(parts, ','), ',') == parts
  {
    if |parts| == 1 {
      assert parts == [parts[0]];
    } else {
      CutAt(parts[0], ',', Join(parts[1..], ','));
      WhitelistIsSplit(parts[1..]);
      assert parts == [parts[0]] + parts[1..];
    }
  }

  predicate NameChar(c: char) {
    'a' <= c <= 'z' || 'A' <= c <= 'Z' || '0' <= c <= '9' || c == '_'
  }

  function Sanitize(name: string): string {
    seq(|name|, i requires 0 <= i < |name| => if NameChar(name[i]) then name[i] else '_')
  }

  predicate SlicesContains(cfg: Config, list: seq<string>, value: string) { cfg.lower(value) in list }

  predicate WhitelistContains(cfg: Config, text: string) { text in cfg.whitelist }

  /** Not a default name after lowercasing, and stored or whitelisted. */
  predicate Kept(cfg: Config, defaults: seq<string>, key: string) {
    !SlicesContains(cfg, defaults, key) && (cfg.storeLabels || WhitelistContains(cfg, key))
  }

  /** Which keys are kept: none whose lowercase form is a default, and of the others all or the whitelisted ones. */
  lemma KeptIff(cfg: Config, defaults: seq<string>, key: string)
    ensures cfg.lower(key) in defaults ==> !Kept(cfg, defaults, key)
    ensures cfg.lower(key) !in defaults && cfg.storeLabels ==> Kept(cfg, defaults, key)
    ensures cfg.lower(key) !in defaults && !cfg.storeLabels ==> (Kept(cfg, defaults, key) <==> key in cfg.whitelist)
  {
  }

  /** Sanitizing replaces every character but letters, digits and the underscore, and nothing else. */
  lemma SanitizeAt(name: string, i: nat)
    requires i < |name|
    ensures |Sanitize(name)| == |name|
    ensures var c := name[i];
      Sanitize(name)[i] == if 'a' <= c <= 'z' || 'A' <= c <= 'Z' || '0' <= c <= '9' || c == '_' then c else '_'
  {
  }

  function Entry(cfg: Config, defaults: seq<string>, labels: map<string, string>, key: string): seq<(string, string)> {
    if Kept(cfg, defaults, key) && key in labels then [(Sanitize(key), labels[key])] else []
  }

  /** The extra names with their values, for one iteration order of the label map. */
  function Extras(cfg: Config, defaults: seq<string>, labels: map<string, string>, order: seq<string>): seq<(string, string)> {
    if order == [] then []
    else
      var n := |order| - 1;
      Extras(cfg, defaults, labels, order[..n]) + Entry(cfg, defaults, labels, order[n])
  }

  function Firsts(pairs: seq<(string, string)>): (names: seq<string>)
    ensures |names| == |pairs|
  {
    seq(|pairs|, i requires 0 <= i < |pairs| => pairs[i].0)
  }

  function Seconds(pairs: seq<(string, string)>): (values: seq<string>)
    ensures |values| == |pairs|
  {
    seq(|pairs|, i requires 0 <= i < |pairs| => pairs[i].1)
  }

  // ---------------------------------------------------------------- duplicate names

  predicate Injective(cfg: Config, defaults: seq<string>, keys: set<string>) {
    forall a, b :: a in keys && b in keys && Kept(cfg, defaults, a) && Kept(cfg, defaults, b) && a != b
      ==> Sanitize(a) != Sanitize(b)
  }

  predicate MissesDefaults(cfg: Config, defaults: seq<string>, keys: set<string>) {
    forall k :: k in keys && Kept(cfg, defaults, k) ==> Sanitize(k) !in defaults
  }

  // ---------------------------------------------------------------- names the library accepts

  /** A label name is not empty and does not start with the reserved two underscores. */
  predicate LegalName(name: string) {
    name != "" && !(|name| >= 2 && name[0] == '_' && name[1] == '_')
  }

  /** Exactly the empty text and those that start with two underscores are no label names. */
  lemma LegalNameIff(name: string)
    ensures LegalName(name) <==> name != "" && !("__" <= name)
  {
  }

  predicate AllLegal(names: seq<string>) {
    forall i :: 0 <= i < |names| ==> LegalName(names[i])
  }

  /** What a descriptor can be made with: legal names without duplicates. */
  predicate Accepted(names: seq<string>) { NoDup(names) && AllLegal(names) }

  predicate LegalKept(cfg: Config, defaults: seq<string>, keys: set<string>) {
    forall k :: k in keys && Kept(cfg, defaults, k) ==> LegalName(Sanitize(k))
  }

  /** The condition on a row's labels under which its names are accepted. */
  predicate Acceptable(cfg: Config, defaults: seq<string>, keys: set<string>) {
    Injective(cfg, defaults, keys) && MissesDefaults(cfg, defaults, keys) && LegalKept(cfg, defaults, keys)
  }

  lemma DefaultsAccepted()
    ensures Accepted(CONTAINER_DEFAULTS) && Accepted(IMAGE_DESC_DEFAULTS) && Accepted(IMAGE_DEFAULTS) && Accepted(PLAIN_DEFAULTS)
  {
  }

  /** Every extra pair is the entry of a kept key. */
  lemma {:induction false} ExtraComesFromKey(
    cfg: Config, defaults: seq<string>, labels: map<string, string>, order: seq<string>, i: nat) returns (k: nat)
    requires i < |Extras(cfg, defaults, labels, order)|
    ensures k < |order| && order[k] in labels && Kept(cfg, defaults, order[k])
    ensures Extras(cfg, defaults, labels, order)[i] == (Sanitize(order[k]), labels[order[k]])
    ensures |Extras(cfg, defaults, labels, order[..k])| == i
  {
    var n := |order| - 1;
    var before := Extras(cfg, defaults, labels, order[..n]);
    if i < |before| {
      k := ExtraComesFromKey(cfg, defaults, labels, order[..n], i);
      assert order[..n][..k] == order[..k];
    } else {
      k := n;
    }
  }

  lemma {:induction false} KeyGivesExtra(
    cfg: Config, defaults: seq<string>, labels: map<string, string>, order: seq<string>, k: nat) returns (i: nat)
    requires k < |order| && order[k] in labels && Kept(cfg, defaults, order[k])
    ensures i < |Extras(cfg, defaults, labels, order)| && i == |Extras(cfg, defaults, labels, order[..k])|
    ensures Extras(cfg, defaults, labels, order)[i] == (Sanitize(order[k]), labels[order[k]])
  {
    var n := |order| - 1;
    if k < n {
      i := KeyGivesExtra(cfg, defaults, labels, order[..n], k);
      assert order[..n][..k] == order[..k];
    } else {
      i := |Extras(cfg, defaults, labels, order[..n])|;
    }
  }

  lemma {:induction false} ExtrasGrow(
    cfg: Config, defaults: seq<string>, labels: map<string, string>, order: seq<string>, j: nat, k: nat)
    requires j < k <= |order| && order[j] in labels && Kept(cfg, defaults, order[j])
    ensures |Extras(cfg, defaults, labels, order[..j])| < |Extras(cfg, defaults, labels, order[..k])|
  {
    assert order[..k][..j] == order[..j];
    var i := KeyGivesExtra(cfg, defaults, labels, order[..k], j);
  }

  /**
   The label names of a row are free of duplicates exactly when sanitizing is
   injective on the kept keys and maps none of them onto a default name.
   */
  lemma NamesDistinctIff(cfg: Config, defaults: seq<string>, labels: map<string, string>, order: seq<string>)
    requires NoDup(defaults) && IsOrder(order, labels.Keys)
    ensures NoDup(defaults + Firsts(Extras(cfg, defaults, labels, order)))
       <==> Injective(cfg, defaults, labels.Keys) && MissesDefaults(cfg, defaults, labels.Keys)
  {
    if NoDup(defaults + Firsts(Extras(cfg, defaults, labels, order))) {
      forall a, b | a in labels.Keys && b in labels.Keys && Kept(cfg, defaults, a) && Kept(cfg, defaults, b) && a != b
        ensures Sanitize(a) != Sanitize(b)
      {
        DistinctKeysDistinctNames(cfg, defaults, labels, order, a, b);
      }
      forall k | k in labels.Keys && Kept(cfg, defaults, k) ensures Sanitize(k) !in defaults {
        ExtraNameIsNoDefault(cfg, defaults, labels, order, k);
      }
    }
    if Injective(cfg, defaults, labels.Keys) && MissesDefaults(cfg, defaults, labels.Keys) {
      ExtraNamesDistinct(cfg, defaults, labels, order);
      forall i | 0 <= i < |Extras(cfg, defaults, labels, order)|
        ensures Extras(cfg, defaults, labels, order)[i].0 !in defaults
      {
        var k := ExtraComesFromKey(cfg, defaults, labels, order, i);
      }
      NoDupConcat(defaults, Firsts(Extras(cfg, defaults, labels, order)));
    }
  }

  lemma NoDupConcat(a: seq<string>, b: seq<string>)
    requires NoDup(a) && NoDup(b) && forall i :: 0 <= i < |b| ==> b[i] !in a
    ensures NoDup(a + b)
  {
    var c := a + b;
    forall i, j | 0 <= i < j < |c| ensures c[i] != c[j] {
      if i < |a| <= j {
        assert c[i] in a && c[j] == b[j - |a|];
      }
    }
  }

  lemma ExtraNameIsNoDefault(cfg: Config, defaults: seq<string>, labels: map<string, string>, order: seq<string>, k: string)
    requires IsOrder(order, labels.Keys) && NoDup(defaults + Firsts(Extras(cfg, defaults, labels, order)))
    requires k in labels && Kept(cfg, defaults, k)
    ensures Sanitize(k) !in defaults
  {
    var names := defaults + Firsts(Extras(cfg, defaults, labels, order));
    var p :| 0 <= p < |order| && order[p] == k;
    var i := KeyGivesExtra(cfg, defaults, labels, order, p);
    assert names[|defaults| + i] == Sanitize(k);
    forall j | 0 <= j < |defaults| ensures defaults[j] != Sanitize(k) {
      assert names[j] == defaults[j];
    }
  }

  lemma DistinctKeysDistinctNames(
    cfg: Config, defaults: seq<string>, labels: map<string, string>, order: seq<string>, a: string, b: string)
    requires IsOrder(order, labels.Keys) && NoDup(defaults + Firsts(Extras(cfg, defaults, labels, order)))
    requires a in labels && b in labels && Kept(cfg, defaults, a) && Kept(cfg, defaults, b) && a != b
    ensures Sanitize(a) != Sanitize(b)
  {
    var names := defaults + Firsts(Extras(cfg, defaults, labels, order));
    var p :| 0 <= p < |order| && order[p] == a;
    var q :| 0 <= q < |order| && order[q] == b;
    var i := KeyGivesExtra(cfg, defaults, labels, order, p);
    var j := KeyGivesExtra(cfg, defaults, labels, order, q);
    if p < q {
      ExtrasGrow(cfg, defaults, labels, order, p, q);
    } else {
      ExtrasGrow(cfg, defaults, labels, order, q, p);
    }
    assert names[|defaults| + i] == Sanitize(a) && names[|defaults| + j] == Sanitize(b);
  }

  /** A label whose raw name is no default but whose sanitized name is one makes the names collide. */
  lemma DashedDefaultCollides(cfg: Config, value: string)
    requires cfg.storeLabels && cfg.lower("image-id") == "image-id"
    ensures var labels := map["image-id" := value];
      !NoDup(CONTAINER_DEFAULTS + Firsts(Extras(cfg, CONTAINER_DEFAULTS, labels, ["image-id"])))
  {
    var labels := map["image-id" := value];
    assert IsOrder(["image-id"], labels.Keys);
    NamesDistinctIff(cfg, CONTAINER_DEFAULTS, labels, ["image-id"]);
    assert Kept(cfg, CONTAINER_DEFAULTS, "image-id");
    assert Sanitize("image-id") == "image_id" == CONTAINER_DEFAULTS[3];
  }

  lemma LegalNamesKept(cfg: Config, defaults: seq<string>, labels: map<string, string>, order: seq<string>, k: string)
    requires IsOrder(order, labels.Keys) && AllLegal(Firsts(Extras(cfg, defaults, labels, order)))
    requires k in labels && Kept(cfg, defaults, k)
    ensures LegalName(Sanitize(k))
  {
    var p :| 0 <= p < |order| && order[p] == k;
    var i := KeyGivesExtra(cfg, defaults, labels, order, p);
    assert Firsts(Extras(cfg, defaults, labels, order))[i] == Sanitize(k);
  }

  lemma KeptNamesLegal(cfg: Config, defaults: seq<string>, labels: map<string, string>, order: seq<string>)
    requires IsOrder(order, labels.Keys) && LegalKept(cfg, defaults, labels.Keys)
    ensures AllLegal(Firsts(Extras(cfg, defaults, labels, order)))
  {
    forall i | 0 <= i < |Extras(cfg, defaults, labels, order)| ensures LegalName(Extras(cfg, defaults, labels, order)[i].0) {
      var k := ExtraComesFromKey(cfg, defaults, labels, order, i);
    }
  }

  lemma AllLegalConcat(a: seq<string>, b: seq<string>)
    ensures AllLegal(a + b) <==> AllLegal(a) && AllLegal(b)
  {
    if AllLegal(a + b) {
      assert forall i :: 0 <= i < |a| ==> (a + b)[i] == a[i];
      assert forall i :: 0 <= i < |b| ==> (a + b)[|a| + i] == b[i];
    }
  }

  /**
   The label names of a row are accepted exactly when they are free of duplicates
   and no kept key is empty or sanitizes to a reserved name.
   */
  lemma NamesAcceptedIff(cfg: Config, defaults: seq<string>, labels: map<string, string>, order: seq<string>)
    requires Accepted(defaults) && IsOrder(order, labels.Keys)
    ensures Accepted(defaults + Firsts(Extras(cfg, defaults, labels, order))) <==> Acceptable(cfg, defaults, labels.Keys)
  {
    NamesDistinctIff(cfg, defaults, labels, order);
    AllLegalConcat(defaults, Firsts(Extras(cfg, defaults, labels, order)));
    if AllLegal(Firsts(Extras(cfg, defaults, labels, order))) {
      forall k | k in labels.Keys && Kept(cfg, defaults, k) ensures LegalName(Sanitize(k)) {
        LegalNamesKept(cfg, defaults, labels, order, k);
      }
    }
    if LegalKept(cfg, defaults, labels.Keys) {
      KeptNamesLegal(cfg, defaults, labels, order);
    }
  }

  /** A kept key whose first two characters are no letters or digits is rejected, though no names collide. */
  lemma ReservedLabelRejected(cfg: Config, key: string, value: string)
    requires Kept(cfg, CONTAINER_DEFAULTS, key) && |key| >= 2
    requires forall i :: 0 <= i < 2 ==> !NameChar(key[i]) || key[i] == '_'
    ensures var labels := map[key := value]; var names := CONTAINER_DEFAULTS + Firsts(Extras(cfg, CONTAINER_DEFAULTS, labels, [key]));
      NoDup(names) && !Accepted(names)
  {
    var labels := map[key := value];
    DefaultsAccepted();
    assert IsOrder([key], labels.Keys);
    assert Sanitize(key)[0] == '_' && Sanitize(key)[1] == '_';
    forall i | 0 <= i < |CONTAINER_DEFAULTS| ensures CONTAINER_DEFAULTS[i] != Sanitize(key) {
      assert CONTAINER_DEFAULTS[i][0] != '_';
    }
    NamesDistinctIff(cfg, CONTAINER_DEFAULTS, labels, [key]);
    NamesAcceptedIff(cfg, CONTAINER_DEFAULTS, labels, [key]);
    assert Kept(cfg, CONTAINER_DEFAULTS, key) && !LegalName(Sanitize(key));
  }

  /** Such as `__meta`, when all labels are stored. */
  lemma MetaLabelRejected(cfg: Config, value: string)
    requires cfg.storeLabels && cfg.lower("__meta") == "__meta"
    ensures var labels := map["__meta" := value];
      !Accepted(CONTAINER_DEFAULTS + Firsts(Extras(cfg, CONTAINER_DEFAULTS, labels, ["__meta"])))
  {
    assert !SlicesContains(cfg, CONTAINER_DEFAULTS, "__meta") by {
      forall i | 0 <= i < |CONTAINER_DEFAULTS| ensures CONTAINER_DEFAULTS[i] != "__meta" {
        assert CONTAINER_DEFAULTS[i][0] != '_';
      }
    }
    ReservedLabelRejected(cfg, "__meta", value);
  }

  /** The empty key is rejected as soon as it is kept, and the empty whitelist keeps it. */
  lemma EmptyKeyRejected(cfg: Config, value: string)
    requires cfg.whitelist == Split("", ',') && cfg.lower("") == ""
    ensures Kept(cfg, CONTAINER_DEFAULTS, "")
    ensures !Accepted(CONTAINER_DEFAULTS + Firsts(Extras(cfg, CONTAINER_DEFAULTS, map["" := value], [""])))
  {
    var labels := map["" := value];
    DefaultsAccepted();
    assert IsOrder([""], labels.Keys);
    assert Kept(cfg, CONTAINER_DEFAULTS, "") && Sanitize("") == "";
    NamesAcceptedIff(cfg, CONTAINER_DEFAULTS, labels, [""]);
  }

  // ---------------------------------------------------------------- iteration order

  lemma {:induction false} ExtrasConcat(
    cfg: Config, defaults: seq<string>, labels: map<string, string>, a: seq<string>, b: seq<string>)
    ensures Extras(cfg, defaults, labels, a + b) == Extras(cfg, defaults, labels, a) + Extras(cfg, defaults, labels, b)
  {
    if b == [] {
      assert a + b == a;
    } else {
      var n := |b| - 1;
      assert (a + b)[..|a| + n] == a + b[..n];
      ExtrasConcat(cfg, defaults, labels, a, b[..n]);
    }
  }

  lemma ExtrasTakeOut(
    cfg: Config, defaults: seq<string>, labels: map<string, string>, p: seq<string>, x: string, q: seq<string>)
    ensures multiset(Extras(cfg, defaults, labels, p + ([x] + q)))
         == multiset(Extras(cfg, defaults, labels, p + q)) + multiset(Extras(cfg, defaults, labels, [x]))
  {
    ExtrasConcat(cfg, defaults, labels, p, [x] + q);
    ExtrasConcat(cfg, defaults, labels, [x], q);
    ExtrasConcat(cfg, defaults, labels, p, q);
  }

  lemma TakeOut(a: seq<string>, b: seq<string>, x: string) returns (p: seq<string>, q: seq<string>)
    requires multiset(a + [x]) == multiset(b)
    ensures b == p + ([x] + q) && multiset(p + q) == multiset(a)
  {
    assert x in multiset(b);
    var j :| 0 <= j < |b| && b[j] == x;
    p, q := b[..j], b[j + 1..];
    assert b == p + ([x] + q);
    MiddleOut(p, x, q);
    assert multiset(a + [x]) == multiset(a) + multiset{x};
    Cancel(multiset(p + q), multiset(a), x);
  }

  lemma Cancel(a: multiset<string>, b: multiset<string>, x: string)
    requires a + multiset{x} == b + multiset{x}
    ensures a == b
  {
    forall y ensures a[y] == b[y] {
      assert (a + multiset{x})[y] == (b + multiset{x})[y];
    }
  }

  lemma MiddleOut(p: seq<string>, x: string, q: seq<string>)
    ensures multiset(p + ([x] + q)) == multiset(p + q) + multiset{x}
  {
  }

  lemma {:induction false} SameKeysSameExtras(
    cfg: Config, defaults: seq<string>, labels: map<string, string>, a: seq<string>, b: seq<string>)
    requires multiset(a) == multiset(b)
    ensures multiset(Extras(cfg, defaults, labels, a)) == multiset(Extras(cfg, defaults, labels, b))
  {
    if a == [] {
      assert |b| == |multiset(b)|;
    } else {
      var n := |a| - 1;
      assert a == a[..n] + [a[n]];
      var p, q := TakeOut(a[..n], b, a[n]);
      SameKeysSameExtras(cfg, defaults, labels, a[..n], p + q);
      ExtrasTakeOut(cfg, defaults, labels, p, a[n], q);
      ExtrasConcat(cfg, defaults, labels, a[..n], [a[n]]);
    }
  }

  lemma {:induction false} OrdersArePermutations(a: seq<string>, b: seq<string>, keys: set<string>)
    requires IsOrder(a, keys) && IsOrder(b, keys)
    ensures multiset(a) == multiset(b)
  {
    OrderAsMultiset(a, keys);
    OrderAsMultiset(b, keys);
  }

  lemma {:induction false} OrderAsMultiset(a: seq<string>, keys: set<string>)
    requires IsOrder(a, keys)
    ensures multiset(a) == multiset(keys)
  {
    if a == [] {
      assert keys == {};
    } else {
      var n := |a| - 1;
      assert a == a[..n] + [a[n]];
      forall k | k in keys - {a[n]} ensures k in a[..n] {
        assert k in a;
      }
      forall k | k in a[..n] ensures k in keys - {a[n]} {
        assert k in a;
      }
      OrderAsMultiset(a[..n], keys - {a[n]});
      assert a[n] in keys;
      assert multiset(keys) == multiset(keys - {a[n]}) + multiset{a[n]};
    }
  }

  function ValueOf(names: seq<string>, values: seq<string>, name: string): Option<string>
    requires |names| == |values|
  {
    if names == [] then None
    else
      var n := |names| - 1;
      if names[n] == name then Some(values[n]) else ValueOf(names[..n], values[..n], name)
  }

  /** The value under a name is the one at the name's place. */
  lemma {:induction false} NamedValue(names: seq<string>, values: seq<string>, i: nat)
    requires NoDup(names) && |names| == |values| && i < |names|
    ensures ValueOf(names, values, names[i]) == Some(values[i])
  {
    var n := |names| - 1;
    if i < n {
      assert names[i] != names[n];
      NamedValue(names[..n], values[..n], i);
    }
  }

  lemma {:induction false} ValueOfPair(pairs: seq<(string, string)>, i: nat)
    requires i < |pairs| && NoDup(Firsts(pairs))
    ensures ValueOf(Firsts(pairs), Seconds(pairs), pairs[i].0) == Some(pairs[i].1)
  {
    var n := |pairs| - 1;
    assert Firsts(pairs)[..n] == Firsts(pairs[..n]) && Seconds(pairs)[..n] == Seconds(pairs[..n]);
    if i < n {
      assert Firsts(pairs)[i] != Firsts(pairs)[n];
      ValueOfPair(pairs[..n], i);
    }
  }

  lemma {:induction false} ValueOfAbsent(names: seq<string>, values: seq<string>, name: string)
    requires |names| == |values| && name !in names
    ensures ValueOf(names, values, name) == None
  {
    if names != [] {
      ValueOfAbsent(names[..|names| - 1], values[..|values| - 1], name);
    }
  }

  /** Two iteration orders of a label map give the same pairs of a name and a value in another order. */
  lemma ExtrasOfOrders(cfg: Config, defaults: seq<string>, labels: map<string, string>, a: seq<string>, b: seq<string>, name: string)
    requires IsOrder(a, labels.Keys) && IsOrder(b, labels.Keys)
    ensures multiset(Extras(cfg, defaults, labels, a)) == multiset(Extras(cfg, defaults, labels, b))
    ensures var x, y := Extras(cfg, defaults, labels, a), Extras(cfg, defaults, labels, b);
      Injective(cfg, defaults, labels.Keys) ==> ValueOf(Firsts(x), Seconds(x), name) == ValueOf(Firsts(y), Seconds(y), name)
  {
    OrdersArePermutations(a, b, labels.Keys);
    SameKeysSameExtras(cfg, defaults, labels, a, b);
    if Injective(cfg, defaults, labels.Keys) {
      ExtraNamesDistinct(cfg, defaults, labels, a);
      ExtraNamesDistinct(cfg, defaults, labels, b);
      PermutedPairsSameValues(Extras(cfg, defaults, labels, a), Extras(cfg, defaults, labels, b), name);
    }
  }

  lemma {:induction false} ValueOfConcat(n: seq<string>, v: seq<string>, m: seq<string>, w: seq<string>, name: string)
    requires |n| == |v| && |m| == |w|
    ensures ValueOf(n + m, v + w, name) == if ValueOf(m, w, name).Some? then ValueOf(m, w, name) else ValueOf(n, v, name)
  {
    if m == [] {
      assert n + m == n && v + w == v;
    } else {
      var k := |m| - 1;
      assert (n + m)[..|n| + k] == n + m[..k] && (v + w)[..|v| + k] == v + w[..k];
      ValueOfConcat(n, v, m[..k], w[..k], name);
    }
  }

  /**
   The whole label set of a row, defaults included: any two iteration orders of
   its labels give lists that agree on whether the library accepts the names, and
   then on the value under every name, so the metric as a map from names to
   values does not depend on the order.
   */
  lemma OrderDoesNotMatter(
    cfg: Config, defaults: seq<string>, base: seq<string>, labels: map<string, string>, a: seq<string>, b: seq<string>, name: string)
    requires IsOrder(a, labels.Keys) && IsOrder(b, labels.Keys) && Accepted(defaults) && |base| == |defaults|
    ensures var x, y := Extras(cfg, defaults, labels, a), Extras(cfg, defaults, labels, b);
      && multiset(x) == multiset(y)
      && (Accepted(defaults + Firsts(x)) <==> Accepted(defaults + Firsts(y)))
      && (Accepted(defaults + Firsts(x)) ==>
            ValueOf(defaults + Firsts(x), base + Seconds(x), name) == ValueOf(defaults + Firsts(y), base + Seconds(y), name))
  {
    var x, y := Extras(cfg, defaults, labels, a), Extras(cfg, defaults, labels, b);
    ExtrasOfOrders(cfg, defaults, labels, a, b, name);
    NamesAcceptedIff(cfg, defaults, labels, a);
    NamesAcceptedIff(cfg, defaults, labels, b);
    ValueOfConcat(defaults, base, Firsts(x), Seconds(x), name);
    ValueOfConcat(defaults, base, Firsts(y), Seconds(y), name);
  }

  lemma PermutedPairsSameValues(x: seq<(string, string)>, y: seq<(string, string)>, name: string)
    requires multiset(x) == multiset(y) && NoDup(Firsts(x)) && NoDup(Firsts(y))
    ensures ValueOf(Firsts(x), Seconds(x), name) == ValueOf(Firsts(y), Seconds(y), name)
  {
    if i :| 0 <= i < |x| && x[i].0 == name {
      assert x[i] in multiset(y);
      var j :| 0 <= j < |y| && y[j] == x[i];
      ValueOfPair(x, i);
      ValueOfPair(y, j);
    } else {
      forall j | 0 <= j < |y| ensures y[j].0 != name {
        assert y[j] in multiset(x);
      }
      ValueOfAbsent(Firsts(x), Seconds(x), name);
      ValueOfAbsent(Firsts(y), Seconds(y), name);
    }
  }

  lemma ExtraNamesDistinct(cfg: Config, defaults: seq<string>, labels: map<string, string>, order: seq<string>)
    requires IsOrder(order, labels.Keys) && Injective(cfg, defaults, labels.Keys)
    ensures NoDup(Firsts(Extras(cfg, defaults, labels, order)))
  {
    var x := Extras(cfg, defaults, labels, order);
    forall i, j | 0 <= i < j < |x| ensures x[i].0 != x[j].0 {
      var p := ExtraComesFromKey(cfg, defaults, labels, order, i);
      var q := ExtraComesFromKey(cfg, defaults, labels, order, j);
      assert order[p] != order[q];
    }
  }

  /** Without a kept key there are no extra labels. */
  lemma {:induction false} NothingKeptNoExtras(cfg: Config, defaults: seq<string>, labels: map<string, string>, order: seq<string>)
    requires forall k :: k in order ==> !Kept(cfg, defaults, k)
    ensures Extras(cfg, defaults, labels, order) == []
  {
    if order != [] {
      NothingKeptNoExtras(cfg, defaults, labels, order[..|order| - 1]);
    }
  }
}
