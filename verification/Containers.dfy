/**
 The container rows of a scrape: the cache of container sizes, the rows that
 read it, and the network counters of the statistics (pdcs/container.go).
 */
module Containers {
  import opened Common
  import Ports

  // ---------------------------------------------------------------- the size cache

  datatype Size = Size(rwSize: int, rootFsSize: int)

  const NO_SIZE := Size(0, 0)

  /** A container in a listing that asks for sizes; the size may be missing. */
  datatype SizeReport = SizeReport(id: string, size: Option<Size>)

  type SizeListing = Result<seq<SizeReport>, Failure>

  /** A container in a listing for a scrape. State and health are already numbers here. */
  datatype Listed = Listed(
    id: string, pod: string, podName: string, names: seq<string>, image: string, imageID: string,
    created: int, startedAt: int, exitedAt: int, exitCode: int, state: int, health: int,
    ports: seq<Ports.PortMapping>, labels: map<string, string>)

  datatype Container = Container(
    id: string, podID: string, podName: string, name: string, labels: map<string, string>,
    image: string, imageID: string, created: int, started: int, exited: int, exitCode: int,
    ports: string, state: int, health: int, rwSize: int, rootFsSize: int)

  /** `Silent` is the answer without rows and without an error; `Crash` an index out of range. */
  datatype Answer = Rows(rows: seq<Container>) | ListFailed(error: Failure) | Silent | Crash

  function SizeOf(report: SizeReport): Size {
    match report.size
    case Some(size) => size
    case None => NO_SIZE
  }

  /** The cache after one listing: later entries overwrite earlier ones, nothing is removed. */
  function Merge(cache: map<string, Size>, reports: seq<SizeReport>): map<string, Size> {
    if reports == [] then cache
    else
      var report := reports[|reports| - 1];
      Merge(cache, reports[..|reports| - 1])[GetID(report.id) := SizeOf(report)]
  }

  function Unset(t: int): int { if t < 0 then -1 else t }

  function RowOf(rep: Listed, size: Size): Container
    requires rep.names != []
  {
    Container(GetID(rep.id), GetID(rep.pod), rep.podName, rep.names[0], rep.labels, rep.image, GetID(rep.imageID),
              rep.created, Unset(rep.startedAt), Unset(rep.exitedAt), rep.exitCode,
              Ports.Display(Ports.Normal(rep.ports)), rep.state, rep.health, size.rwSize, size.rootFsSize)
  }

  function Lookup(cache: map<string, Size>, id: string): Size {
    if id in cache then cache[id] else NO_SIZE
  }

  predicate Named(reports: seq<Listed>) {
    forall i :: 0 <= i < |reports| ==> reports[i].names != []
  }

  function RowsOf(reports: seq<Listed>, cache: map<string, Size>): (rows: seq<Container>)
    requires Named(reports)
    ensures |rows| == |reports|
  {
    if reports == [] then []
    else
      var n := |reports| - 1;
      RowsOf(reports[..n], cache) + [RowOf(reports[n], Lookup(cache, GetID(reports[n].id)))]
  }

  lemma {:induction false} RowsOfAt(reports: seq<Listed>, cache: map<string, Size>, i: nat)
    requires Named(reports) && i < |reports|
    ensures reports[i].names != [] && RowsOf(reports, cache)[i] == RowOf(reports[i], Lookup(cache, GetID(reports[i].id)))
  {
    if i < |reports| - 1 {
      RowsOfAt(reports[..|reports| - 1], cache, i);
    }
  }

  lemma RowsOfNext(reports: seq<Listed>, cache: map<string, Size>, i: nat)
    requires i < |reports| && Named(reports[..i]) && reports[i].names != []
    ensures Named(reports[..i + 1])
    ensures RowsOf(reports[..i + 1], cache)
         == RowsOf(reports[..i], cache) + [RowOf(reports[i], Lookup(cache, GetID(reports[i].id)))]
  {
    assert reports[..i + 1][..i] == reports[..i];
    assert forall j :: 0 <= j < i ==> reports[..i + 1][j] == reports[..i][j];
  }

  /** A row in the fields of the entry it was made for; the sizes are apart. */
  predicate Describes(row: Container, entry: Listed) {
    && row.id == GetID(entry.id) && row.podID == GetID(entry.pod) && row.imageID == GetID(entry.imageID)
    && row.podName == entry.podName && row.image == entry.image && row.labels == entry.labels
    && |entry.names| > 0 && row.name == entry.names[0]
    && row.created == entry.created && row.exitCode == entry.exitCode
    && row.started == (if entry.startedAt < 0 then -1 else entry.startedAt)
    && row.exited == (if entry.exitedAt < 0 then -1 else entry.exitedAt)
    && row.state == entry.state && row.health == entry.health
    && row.ports == Ports.Display(Ports.Normal(entry.ports))
  }

  /** The sizes of a row are those in the map under its identifier, or zero. */
  predicate SizedFrom(row: Container, sizes: map<string, Size>) {
    if row.id in sizes then row.rwSize == sizes[row.id].rwSize && row.rootFsSize == sizes[row.id].rootFsSize
    else row.rwSize == 0 && row.rootFsSize == 0
  }

  /** The sizes of a row are those reported, or zero when the report had none. */
  predicate HasSizes(row: Container, size: Option<Size>) {
    && (size.Some? ==> row.rwSize == size.value.rwSize && row.rootFsSize == size.value.rootFsSize)
    && (size.None? ==> row.rwSize == 0 && row.rootFsSize == 0)
  }

  predicate AreRowsOf(rows: seq<Container>, reports: seq<Listed>, sizes: map<string, Size>) {
    |rows| == |reports| && forall i :: 0 <= i < |rows| ==> Describes(rows[i], reports[i]) && SizedFrom(rows[i], sizes)
  }

  lemma RowFields(entry: Listed, sizes: map<string, Size>)
    requires entry.names != []
    ensures var row := RowOf(entry, Lookup(sizes, GetID(entry.id))); Describes(row, entry) && SizedFrom(row, sizes)
  {
  }

  lemma RowsFields(reports: seq<Listed>, sizes: map<string, Size>)
    requires Named(reports)
    ensures AreRowsOf(RowsOf(reports, sizes), reports, sizes)
  {
    forall i | 0 <= i < |reports|
      ensures Describes(RowsOf(reports, sizes)[i], reports[i]) && SizedFrom(RowsOf(reports, sizes)[i], sizes)
    {
      RowsOfAt(reports, sizes, i);
      RowFields(reports[i], sizes);
    }
  }

  /** A Go map, which is shared by reference. */
  class SizeTable {
    var sizes: map<string, Size>

    constructor ()
      ensures sizes == map[]
    {
      sizes := map[];
    }
  }

  class ContainerSizeCache {
    var cacheError: Option<Failure>
    const cache: SizeTable

    /** SetupRegistry makes the map. */
    constructor ()
      ensures cacheError == None && cache.sizes == map[] && fresh(cache)
    {
      cacheError := None;
      cache := new SizeTable();
    }

    method UpdateContainerSize(listing: SizeListing)
      modifies this, cache
      ensures listing.Err? ==> cacheError == Some(listing.error) && cache.sizes == old(cache.sizes)
      ensures listing.Ok? ==> cacheError == old(cacheError) && cache.sizes == Merge(old(cache.sizes), listing.value)
    {
      if listing.Err? {
        cacheError := Some(listing.error);
        return;
      }
      var reports := listing.value;
      for i := 0 to |reports|
        invariant cacheError == old(cacheError)
        invariant cache.sizes == Merge(old(cache.sizes), reports[..i])
      {
        var cntID := GetID(reports[i].id);
        var cntSz := NO_SIZE;
        if reports[i].size.Some? {
          cntSz := reports[i].size.value;
        }
        cache.sizes := cache.sizes[cntID := cntSz];
        assert reports[..i + 1][..i] == reports[..i];
      }
      assert reports[..|reports|] == reports;
    }

    method Containers(listing: Result<seq<Listed>, Failure>) returns (r: Answer)
      ensures r == match listing
                   case Err(e) => ListFailed(e)
                   case Ok(reports) =>
                     if cacheError.Some? then Silent
                     else if Named(reports) then Rows(RowsOf(reports, cache.sizes))
                     else Crash
      ensures r.Rows? ==> listing.Ok? && AreRowsOf(r.rows, listing.value, cache.sizes)
    {
      if listing.Err? {
        return ListFailed(listing.error);
      }
      var cacheSizeInfo, cacheErr := UnderLock();
      r := FillRows(listing.value, cacheSizeInfo, cacheErr);
      if r.Rows? {
        RowsFields(listing.value, cache.sizes);
      }
    }

    /** What Containers copies while it holds the lock: the error and the reference to the map. */
    method UnderLock() returns (cacheSizeInfo: SizeTable, cacheErr: Option<Failure>)
      ensures cacheSizeInfo == cache && cacheErr == cacheError
    {
      cacheSizeInfo, cacheErr := cache, cacheError;
    }

    /** The rest of Containers, without the lock: each row reads the map as it is then. */
    static method FillRows(reports: seq<Listed>, cacheSizeInfo: SizeTable, cacheErr: Option<Failure>) returns (r: Answer)
      ensures r == if cacheErr.Some? then Silent
                   else if Named(reports) then Rows(RowsOf(reports, cacheSizeInfo.sizes))
                   else Crash
    {
      if cacheErr.Some? {
        return Silent;
      }
      var containers: seq<Container> := [];
      for i := 0 to |reports|
        invariant Named(reports[..i])
        invariant containers == RowsOf(reports[..i], cacheSizeInfo.sizes)
      {
        var row := RowFor(reports[i], cacheSizeInfo.sizes);
        if row == None {
          assert !Named(reports);
          return Crash;
        }
        containers := containers + [row.value];
        RowsOfNext(reports, cacheSizeInfo.sizes, i);
      }
      assert reports[..|reports|] == reports;
      r := Rows(containers);
    }

    /** No snapshot: a refresh after the lock is released shows in the rows, and its failure does not. */
    method RefreshAfterLock(reports: seq<Listed>, refresh: SizeListing) returns (r: Answer)
      requires Named(reports) && cacheError == None
      modifies this, cache
      ensures r == Rows(RowsOf(reports, if refresh.Ok? then Merge(old(cache.sizes), refresh.value) else old(cache.sizes)))
    {
      var cacheSizeInfo, cacheErr := UnderLock();
      UpdateContainerSize(refresh);
      r := FillRows(reports, cacheSizeInfo, cacheErr);
    }

    /** The body of the loop; a container without a name is an index out of range. */
    static method RowFor(rep: Listed, cacheSizeInfo: map<string, Size>) returns (row: Option<Container>)
      ensures row == if rep.names == [] then None else Some(RowOf(rep, Lookup(cacheSizeInfo, GetID(rep.id))))
    {
      var rwSize, rootFsSize := 0, 0;
      var cntID := GetID(rep.id);
      if cntID in cacheSizeInfo {
        rwSize := cacheSizeInfo[cntID].rwSize;
        rootFsSize := cacheSizeInfo[cntID].rootFsSize;
      }
      var cntStartedAt, cntExitedAt := rep.startedAt, rep.exitedAt;
      if cntStartedAt < 0 {
        cntStartedAt := -1;
      }
      if cntExitedAt < 0 {
        cntExitedAt := -1;
      }
      if rep.names == [] {
        return None;
      }
      var ports := PortsOf(rep);
      row := Some(Container(
        cntID, GetID(rep.pod), rep.podName, rep.names[0], rep.labels, rep.image, GetID(rep.imageID),
        rep.created, cntStartedAt, cntExitedAt, rep.exitCode, ports, rep.state, rep.health, rwSize, rootFsSize));
    }

    static method PortsOf(rep: Listed) returns (ports: string)
      ensures ports == Ports.Display(Ports.Normal(rep.ports))
    {
      if |rep.ports| < 1 {
        return "";
      }
      ports := Ports.PortsToString(rep.ports);
    }

    /** Any history of refreshes on a new cache, then one read. */
    static method RefreshThenRead(history: seq<SizeListing>, listing: seq<Listed>) returns (r: Answer)
      requires Named(listing)
      ensures (exists h :: h in history && h.Err?) ==> r == Silent
      ensures (forall h :: h in history ==> h.Ok?) ==> r.Rows? && |r.rows| == |listing|
      ensures forall i: nat, k: nat, j: nat ::
        r.Rows? && i < |listing| && LastSeen(history, GetID(listing[i].id), k, j)
        ==> r.rows[i] == RowOf(listing[i], SizeOf(history[k].value[j]))
      ensures forall i: nat ::
        r.Rows? && i < |listing| && !Seen(history, GetID(listing[i].id)) ==> r.rows[i] == RowOf(listing[i], NO_SIZE)
      ensures r.Rows? ==> |r.rows| == |listing| && forall i :: 0 <= i < |listing| ==> Describes(r.rows[i], listing[i])
      ensures forall i: nat, k: nat, j: nat ::
        r.Rows? && i < |listing| && LastSeen(history, GetID(listing[i].id), k, j)
        ==> HasSizes(r.rows[i], history[k].value[j].size)
      ensures forall i: nat ::
        r.Rows? && i < |listing| && !Seen(history, GetID(listing[i].id)) ==> r.rows[i].rwSize == 0 && r.rows[i].rootFsSize == 0
    {
      var c := new ContainerSizeCache();
      for i := 0 to |history|
        invariant c.cache.sizes == Replay(history[..i])
        invariant c.cacheError == LastError(history[..i])
      {
        c.UpdateContainerSize(history[i]);
        assert history[..i + 1][..i] == history[..i];
      }
      assert history[..|history|] == history;
      r := c.Containers(Ok(listing));
      ErrorSticks(history);
      if r.Rows? {
        RowsFields(listing, c.cache.sizes);
        forall i: nat, k: nat, j: nat | i < |listing| && LastSeen(history, GetID(listing[i].id), k, j)
          ensures r.rows[i] == RowOf(listing[i], SizeOf(history[k].value[j])) && HasSizes(r.rows[i], history[k].value[j].size)
        {
          RowOfSeen(history, listing, i, k, j);
        }
        forall i: nat | i < |listing| && !Seen(history, GetID(listing[i].id))
          ensures r.rows[i] == RowOf(listing[i], NO_SIZE) && r.rows[i].rwSize == 0 && r.rows[i].rootFsSize == 0
        {
          RowOfUnseen(history, listing, i);
        }
      }
    }
  }

  lemma RowOfSeen(history: seq<SizeListing>, listing: seq<Listed>, i: nat, k: nat, j: nat)
    requires Named(listing) && i < |listing| && LastSeen(history, GetID(listing[i].id), k, j)
    ensures var row := RowsOf(listing, Replay(history))[i];
      listing[i].names != [] && row == RowOf(listing[i], SizeOf(history[k].value[j])) && HasSizes(row, history[k].value[j].size)
  {
    ReplayKeepsLast(history, GetID(listing[i].id), k, j);
    RowsOfAt(listing, Replay(history), i);
  }

  lemma RowOfUnseen(history: seq<SizeListing>, listing: seq<Listed>, i: nat)
    requires Named(listing) && i < |listing| && !Seen(history, GetID(listing[i].id))
    ensures var row := RowsOf(listing, Replay(history))[i];
      listing[i].names != [] && row == RowOf(listing[i], NO_SIZE) && row.rwSize == 0 && row.rootFsSize == 0
  {
    ReplayIsUnion(history, GetID(listing[i].id));
    RowsOfAt(listing, Replay(history), i);
  }

  // ---------------------------------------------------------------- what a history leaves

  function Replay(history: seq<SizeListing>): map<string, Size> {
    if history == [] then map[]
    else
      var cache := Replay(history[..|history| - 1]);
      match history[|history| - 1]
      case Err(_) => cache
      case Ok(reports) => Merge(cache, reports)
  }

  /** Never cleared by a later success. */
  function LastError(history: seq<SizeListing>): Option<Failure> {
    if history == [] then None
    else
      match history[|history| - 1]
      case Err(e) => Some(e)
      case Ok(_) => LastError(history[..|history| - 1])
  }

  /** Listing `k` is the last successful one that contains `id`, and report `j` its last entry for it. */
  predicate LastSeen(history: seq<SizeListing>, id: string, k: nat, j: nat) {
    && k < |history| && history[k].Ok?
    && j < |history[k].value| && GetID(history[k].value[j].id) == id
    && (forall i :: j < i < |history[k].value| ==> GetID(history[k].value[i].id) != id)
    && (forall l :: k < l < |history| && history[l].Ok? ==> !Contains(history[l].value, id))
  }

  predicate Contains(reports: seq<SizeReport>, id: string) {
    exists i :: 0 <= i < |reports| && GetID(reports[i].id) == id
  }

  predicate Seen(history: seq<SizeListing>, id: string) {
    exists k :: 0 <= k < |history| && history[k].Ok? && Contains(history[k].value, id)
  }

  lemma {:induction false} MergeKeepsLast(cache: map<string, Size>, reports: seq<SizeReport>, id: string, j: nat)
    requires j < |reports| && GetID(reports[j].id) == id
    requires forall i :: j < i < |reports| ==> GetID(reports[i].id) != id
    ensures id in Merge(cache, reports) && Merge(cache, reports)[id] == SizeOf(reports[j])
  {
    var n := |reports| - 1;
    if j < n {
      MergeKeepsLast(cache, reports[..n], id, j);
    }
  }

  lemma {:induction false} AbsentKept(cache: map<string, Size>, reports: seq<SizeReport>, id: string)
    requires !Contains(reports, id)
    ensures id in Merge(cache, reports) <==> id in cache
    ensures id in cache ==> Merge(cache, reports)[id] == cache[id]
  {
    if reports != [] {
      var n := |reports| - 1;
      assert GetID(reports[n].id) != id;
      forall i | 0 <= i < n ensures GetID(reports[..n][i].id) != id {
        assert reports[..n][i] == reports[i];
      }
      AbsentKept(cache, reports[..n], id);
    }
  }

  /** Each cached size is that of the last entry in the last listing that had the container. */
  lemma {:induction false} ReplayKeepsLast(history: seq<SizeListing>, id: string, k: nat, j: nat)
    requires LastSeen(history, id, k, j)
    ensures id in Replay(history) && Replay(history)[id] == SizeOf(history[k].value[j])
  {
    var n := |history| - 1;
    if k == n {
      MergeKeepsLast(Replay(history[..n]), history[n].value, id, j);
    } else {
      assert forall l :: 0 <= l < n ==> history[..n][l] == history[l];
      ReplayKeepsLast(history[..n], id, k, j);
      if history[n].Ok? {
        AbsentKept(Replay(history[..n]), history[n].value, id);
      }
    }
  }

  /** The keys of the cache are the union over all listings: nothing is ever evicted. */
  lemma {:induction false} ReplayIsUnion(history: seq<SizeListing>, id: string)
    ensures id in Replay(history) <==> Seen(history, id)
  {
    if history != [] {
      var n := |history| - 1;
      ReplayIsUnion(history[..n], id);
      SeenFront(history, id);
      if history[n].Ok? {
        MergeKeys(Replay(history[..n]), history[n].value, id);
      }
    }
  }

  lemma SeenFront(history: seq<SizeListing>, id: string)
    requires history != []
    ensures Seen(history, id)
       <==> Seen(history[..|history| - 1], id)
            || (history[|history| - 1].Ok? && Contains(history[|history| - 1].value, id))
  {
    var n := |history| - 1;
    if Seen(history[..n], id) {
      var k :| 0 <= k < n && history[..n][k].Ok? && Contains(history[..n][k].value, id);
      assert history[k] == history[..n][k];
    }
    if Seen(history, id) {
      var k :| 0 <= k < |history| && history[k].Ok? && Contains(history[k].value, id);
      assert k < n ==> history[..n][k] == history[k];
    }
  }

  lemma {:induction false} MergeKeys(cache: map<string, Size>, reports: seq<SizeReport>, id: string)
    ensures id in Merge(cache, reports) <==> id in cache || Contains(reports, id)
  {
    if Contains(reports, id) {
      var j := LastEntry(reports, id);
      MergeKeepsLast(cache, reports, id, j);
    } else {
      AbsentKept(cache, reports, id);
    }
  }

  lemma {:induction false} LastEntry(reports: seq<SizeReport>, id: string) returns (j: nat)
    requires Contains(reports, id)
    ensures j < |reports| && GetID(reports[j].id) == id
    ensures forall i :: j < i < |reports| ==> GetID(reports[i].id) != id
  {
    var n := |reports| - 1;
    if GetID(reports[n].id) == id {
      j := n;
    } else {
      var i :| 0 <= i < |reports| && GetID(reports[i].id) == id;
      assert reports[..n][i] == reports[i];
      j := LastEntry(reports[..n], id);
      forall i | j < i < |reports| ensures GetID(reports[i].id) != id {
        assert i < n ==> reports[..n][i] == reports[i];
      }
    }
  }

  /** What a refresh saw: every container of a history has a last sighting, to which the cache goes back. */
  lemma {:induction false} LastSighting(history: seq<SizeListing>, id: string) returns (k: nat, j: nat)
    requires Seen(history, id)
    ensures LastSeen(history, id, k, j)
  {
    var n := |history| - 1;
    if history[n].Ok? && Contains(history[n].value, id) {
      k := n;
      j := LastEntry(history[n].value, id);
    } else {
      SeenFront(history, id);
      k, j := LastSighting(history[..n], id);
      forall l | k < l < |history| && history[l].Ok? ensures !Contains(history[l].value, id) {
        assert l < n ==> history[..n][l] == history[l];
      }
    }
  }

  /** One failed refresh is enough, whatever comes before or after it. */
  lemma {:induction false} ErrorSticks(history: seq<SizeListing>)
    ensures LastError(history).Some? <==> exists h :: h in history && h.Err?
  {
    if history != [] {
      var n := |history| - 1;
      ErrorSticks(history[..n]);
      assert history == history[..n] + [history[n]];
    }
  }

  // ---------------------------------------------------------------- statistics

  type uint64 = x: int | 0 <= x < TWO64

  datatype NetStats = NetStats(
    rxBytes: uint64, rxDropped: uint64, rxErrors: uint64, rxPackets: uint64,
    txBytes: uint64, txDropped: uint64, txErrors: uint64, txPackets: uint64)

  datatype Counter = RxBytes | RxDropped | RxErrors | RxPackets | TxBytes | TxDropped | TxErrors | TxPackets

  function Of(net: NetStats, c: Counter): uint64 {
    match c
    case RxBytes => net.rxBytes
    case RxDropped => net.rxDropped
    case RxErrors => net.rxErrors
    case RxPackets => net.rxPackets
    case TxBytes => net.txBytes
    case TxDropped => net.txDropped
    case TxErrors => net.txErrors
    case TxPackets => net.txPackets
  }

  function Column(network: map<string, NetStats>, c: Counter): (m: map<string, int>)
    ensures m.Keys == network.Keys
  {
    map name | name in network :: Of(network[name], c) as int
  }

  /** An unsigned addition that wraps. */
  function Add64(x: uint64, y: uint64): uint64 {
    if x + y >= TWO64 then x + y - TWO64 else x + y
  }

  /** The loop over a container's interfaces, in whatever order the map is iterated. */
  method NetworkTotals(network: map<string, NetStats>) returns (t: NetStats)
    ensures forall c: Counter :: Of(t, c) == SumOver(network.Keys, Column(network, c)) % 18446744073709551616
  {
    t := NetStats(0, 0, 0, 0, 0, 0, 0, 0);
    var rest := network.Keys;
    while rest != {}
      invariant rest <= network.Keys
      invariant forall c: Counter :: Of(t, c) == SumOver(network.Keys - rest, Column(network, c)) % TWO64
      decreases |rest|
    {
      var name :| name in rest;
      var net := network[name];
      ghost var before := t;
      ghost var done := network.Keys - rest;
      t := NetStats(
        Add64(t.rxBytes, net.rxBytes), Add64(t.rxDropped, net.rxDropped),
        Add64(t.rxErrors, net.rxErrors), Add64(t.rxPackets, net.rxPackets),
        Add64(t.txBytes, net.txBytes), Add64(t.txDropped, net.txDropped),
        Add64(t.txErrors, net.txErrors), Add64(t.txPackets, net.txPackets));
      rest := rest - {name};
      assert network.Keys - rest == done + {name};
      forall c: Counter ensures Of(t, c) == SumOver(network.Keys - rest, Column(network, c)) % TWO64 {
        assert Of(t, c) == Add64(Of(before, c), Of(net, c));
        AddInterface(network, done, name, c);
      }
    }
    assert network.Keys - rest == network.Keys;
  }

  lemma AddInterface(network: map<string, NetStats>, done: set<string>, name: string, c: Counter)
    requires done <= network.Keys && name in network && name !in done
    ensures SumOver(done + {name}, Column(network, c)) % TWO64
         == Add64(SumOver(done, Column(network, c)) % TWO64, Of(network[name], c))
  {
    SumOverRemove(done + {name}, Column(network, c), name);
    assert done + {name} - {name} == done;
  }

  datatype StatReport = StatReport(
    containerID: string, name: string, pids: uint64, cpuNano: uint64, cpuSystemNano: uint64,
    memUsage: uint64, memLimit: uint64, network: map<string, NetStats>, blockInput: uint64, blockOutput: uint64)

  datatype ContainerStat = ContainerStat(
    id: string, name: string, pids: uint64, cpu: real, cpuSystem: real, memUsage: uint64, memLimit: uint64,
    net: NetStats, blockInput: uint64, blockOutput: uint64)

  const NANO := 1000000000.0

  ghost predicate StatOf(rep: StatReport, stat: ContainerStat) {
    && stat == ContainerStat(GetID(rep.containerID), rep.name, rep.pids, rep.cpuNano as real / NANO,
                             rep.cpuSystemNano as real / NANO, rep.memUsage, rep.memLimit, stat.net,
                             rep.blockInput, rep.blockOutput)
    && forall c: Counter :: Of(stat.net, c) == SumOver(rep.network.Keys, Column(rep.network, c)) % TWO64
  }

  /** The sum over all interfaces, modulo 2^64. */
  ghost function Total(network: map<string, NetStats>, c: Counter): int {
    SumOver(network.Keys, Column(network, c)) % TWO64
  }

  /** Which counter is summed into which field. */
  lemma CounterFields(net: NetStats)
    ensures Of(net, RxBytes) == net.rxBytes && Of(net, RxDropped) == net.rxDropped
    ensures Of(net, RxErrors) == net.rxErrors && Of(net, RxPackets) == net.rxPackets
    ensures Of(net, TxBytes) == net.txBytes && Of(net, TxDropped) == net.txDropped
    ensures Of(net, TxErrors) == net.txErrors && Of(net, TxPackets) == net.txPackets
  {
  }

  /** The entry of a report, field by field. */
  lemma StatFields(rep: StatReport, stat: ContainerStat)
    requires StatOf(rep, stat)
    ensures stat.id == GetID(rep.containerID) && stat.name == rep.name && stat.pids == rep.pids
    ensures stat.cpu == rep.cpuNano as real / 1000000000.0 && stat.cpuSystem == rep.cpuSystemNano as real / 1000000000.0
    ensures stat.memUsage == rep.memUsage && stat.memLimit == rep.memLimit
    ensures stat.blockInput == rep.blockInput && stat.blockOutput == rep.blockOutput
    ensures stat.net.rxBytes == Total(rep.network, RxBytes) && stat.net.rxDropped == Total(rep.network, RxDropped)
    ensures stat.net.rxErrors == Total(rep.network, RxErrors) && stat.net.rxPackets == Total(rep.network, RxPackets)
    ensures stat.net.txBytes == Total(rep.network, TxBytes) && stat.net.txDropped == Total(rep.network, TxDropped)
    ensures stat.net.txErrors == Total(rep.network, TxErrors) && stat.net.txPackets == Total(rep.network, TxPackets)
  {
    CounterFields(stat.net);
  }

  ghost predicate AreStatsOf(reports: seq<StatReport>, stats: seq<ContainerStat>) {
    |stats| == |reports| && forall i :: 0 <= i < |stats| ==> StatOf(reports[i], stats[i])
  }

  const ERR_DEADLINE := "deadline exceeded"

  /** What the select sees first: the engine's report, or the end of the time allowed. */
  datatype StatAnswer = EngineFailed(error: Failure) | Deadline | Reported(stats: seq<StatReport>)

  method ContainersStats(answer: StatAnswer) returns (r: Result<seq<ContainerStat>, Failure>)
    ensures answer.EngineFailed? ==> r == Err(answer.error)
    ensures answer.Deadline? ==> r == Err("deadline exceeded")
    ensures answer.Reported? ==> r.Ok? && AreStatsOf(answer.stats, r.value)
  {
    match answer
    case EngineFailed(error) => return Err(error);
    case Deadline => return Err(ERR_DEADLINE);
    case Reported(statReport) =>
      var stats: seq<ContainerStat> := [];
      for i := 0 to |statReport|
        invariant |stats| == i && forall j :: 0 <= j < i ==> StatOf(statReport[j], stats[j])
      {
        var rep := statReport[i];
        var net := NetworkTotals(rep.network);
        stats := stats + [ContainerStat(
          GetID(rep.containerID), rep.name, rep.pids, rep.cpuNano as real / NANO, rep.cpuSystemNano as real / NANO,
          rep.memUsage, rep.memLimit, net, rep.blockInput, rep.blockOutput)];
      }
      r := Ok(stats);
  }
}
