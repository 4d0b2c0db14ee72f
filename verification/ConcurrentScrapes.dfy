/**
 Concurrent scrapes of the one memoised container collector (collector/container.go).

 The descriptor fields are shared without a lock. A scrape is a program of
 writes to descriptor fields and of sends, each of which reads its descriptor
 field; an interleaving is a sequence of choices of the scrape that goes on.
 */
module ConcurrentScrapes {
  import opened Common
  import opened Labels
  import opened Metrics
  import opened ContainerCollector
  import Containers
  import LabelSlices

  /** `Send` carries the metric the scrape means to send: with the names it wrote itself. */
  datatype Op = Set(family: Family, names: seq<string>) | Send(metric: Metric)

  type Program = seq<Op>

  /** The shared fields, how far each scrape is, what each has sent, and whether one panicked. */
  datatype Shared = Shared(descs: map<Family, seq<string>>, pcs: seq<nat>, sent: seq<(nat, Metric)>, panicked: bool)

  function Init(n: nat): Shared {
    Shared(map[], seq(n, i => 0), [], false)
  }

  predicate Runnable(progs: seq<Program>, s: Shared, t: nat) {
    !s.panicked && t < |progs| == |s.pcs| && s.pcs[t] < |progs[t]|
  }

  /** One operation of scrape `t`; a panic ends the process. */
  function Step(progs: seq<Program>, s: Shared, t: nat): Shared {
    if !Runnable(progs, s, t) then s
    else
      match progs[t][s.pcs[t]]
      case Set(f, names) => s.(descs := s.descs[f := names], pcs := s.pcs[t := s.pcs[t] + 1])
      case Send(m) =>
        if m.family in s.descs && WellFormed(s.descs[m.family], m.values)
        then s.(sent := s.sent + [(t, m.(names := s.descs[m.family]))], pcs := s.pcs[t := s.pcs[t] + 1])
        else s.(panicked := true)
  }

  function Run(progs: seq<Program>, s: Shared, schedule: seq<nat>): Shared {
    if schedule == [] then s
    else Step(progs, Run(progs, s, schedule[..|schedule| - 1]), schedule[|schedule| - 1])
  }

  /** No interleaving panics. */
  ghost predicate Safe(progs: seq<Program>) {
    forall schedule: seq<nat> :: !Run(progs, Init(|progs|), schedule).panicked
  }

  // ---------------------------------------------------------------- programs of scrapes

  const INFO_FAMILIES := [State, Health, Created, Started, Exited, ExitCode, RwSize, RootFsSize]

  const STAT_FAMILIES := [
    Pids, Cpu, CpuSystem, MemUsage, MemLimit,
    NetInput, NetInputDropped, NetInputErrors, NetInputPackets,
    NetOutput, NetOutputDropped, NetOutputErrors, NetOutputPackets,
    BlockInput, BlockOutput]

  function Sets(fs: seq<Family>, names: seq<string>): Program {
    seq(|fs|, i requires 0 <= i < |fs| => Set(fs[i], names))
  }

  function Sends(ms: seq<Metric>): Program {
    seq(|ms|, i requires 0 <= i < |ms| => Send(ms[i]))
  }

  function Group(fs: seq<Family>, names: seq<string>, ms: seq<Metric>): Program {
    Sets(fs, names) + Sends(ms)
  }

  /** One iteration of Update: its own writes and sends, then updateInfo, then updateStats. */
  function Block(row: Row, enhance: bool): Program {
    Group([Info], row.names, [Metric(Info, row.names, row.values, Whole(1))])
    + Group(INFO_FAMILIES, OtherNames(row, enhance), InfoMetrics(row.rep, OtherNames(row, enhance), OtherValues(row, enhance)))
    + Group(STAT_FAMILIES, OtherNames(row, enhance), StatPart(row, enhance))
  }

  function ProgramOf(rows: seq<Row>, enhance: bool): Program {
    if rows == [] then []
    else ProgramOf(rows[..|rows| - 1], enhance) + Block(rows[|rows| - 1], enhance)
  }

  function ProgramsOf(scrapes: seq<seq<Row>>, enhance: bool): (progs: seq<Program>)
    ensures |progs| == |scrapes|
  {
    seq(|scrapes|, t requires 0 <= t < |scrapes| => ProgramOf(scrapes[t], enhance))
  }

  // ---------------------------------------------------------------- disciplined programs

  /** What the first `k` operations of a program wrote last to a field. */
  function LastNames(p: Program, k: nat, f: Family): Option<seq<string>>
    requires k <= |p|
  {
    if k == 0 then None
    else
      match p[k - 1]
      case Set(g, names) => if g == f then Some(names) else LastNames(p, k - 1, f)
      case Send(_) => LastNames(p, k - 1, f)
  }

  /** Every send among the first `k` operations follows the program's own write of its names. */
  predicate DisciplinedTo(p: Program, k: nat)
    requires k <= |p|
  {
    forall i :: 0 <= i < k && p[i].Send? ==>
      && LastNames(p, i, p[i].metric.family) == Some(p[i].metric.names)
      && |p[i].metric.names| == |p[i].metric.values|
  }

  predicate Disciplined(p: Program) { DisciplinedTo(p, |p|) }

  /** Every write is of names that the library accepts. */
  predicate AcceptedTo(p: Program, k: nat)
    requires k <= |p|
  {
    forall i :: 0 <= i < k && p[i].Set? ==> Accepted(p[i].names)
  }

  /** The two programs write lists of one length to each field. */
  predicate SameWidths(p: Program, q: Program) {
    forall i, j :: 0 <= i < |p| && 0 <= j < |q| && p[i].Set? && q[j].Set? && p[i].family == q[j].family
      ==> |p[i].names| == |q[j].names|
  }

  /** The two programs write the same list to each field. */
  predicate SameContents(p: Program, q: Program) {
    forall i, j :: 0 <= i < |p| && 0 <= j < |q| && p[i].Set? && q[j].Set? && p[i].family == q[j].family
      ==> p[i].names == q[j].names
  }

  lemma {:induction false} LastNamesIsSet(p: Program, k: nat, f: Family) returns (i: nat)
    requires k <= |p| && LastNames(p, k, f).Some?
    ensures i < k && p[i] == Set(f, LastNames(p, k, f).value)
  {
    if p[k - 1].Set? && p[k - 1].family == f {
      i := k - 1;
    } else {
      i := LastNamesIsSet(p, k - 1, f);
    }
  }

  lemma {:induction false} LastNamesOfPrefix(p: Program, q: Program, k: nat, f: Family)
    requires k <= |p|
    ensures LastNames(p + q, k, f) == LastNames(p, k, f)
  {
    if k > 0 {
      assert (p + q)[k - 1] == p[k - 1];
      LastNamesOfPrefix(p, q, k - 1, f);
    }
  }

  lemma {:induction false} LastNamesOfSuffix(p: Program, q: Program, k: nat, f: Family)
    requires k <= |q|
    ensures LastNames(q, k, f).Some? ==> LastNames(p + q, |p| + k, f) == LastNames(q, k, f)
  {
    if k > 0 {
      assert (p + q)[|p| + k - 1] == q[k - 1];
      LastNamesOfSuffix(p, q, k - 1, f);
    }
  }

  lemma DisciplinedConcat(p: Program, q: Program)
    requires Disciplined(p) && Disciplined(q)
    ensures Disciplined(p + q)
  {
    var r := p + q;
    forall i | 0 <= i < |r| && r[i].Send?
      ensures LastNames(r, i, r[i].metric.family) == Some(r[i].metric.names) && |r[i].metric.names| == |r[i].metric.values|
    {
      if i < |p| {
        LastNamesOfPrefix(p, q, i, r[i].metric.family);
      } else {
        LastNamesOfSuffix(p, q, i - |p|, r[i].metric.family);
      }
    }
  }

  lemma {:induction false} GroupLastNames(fs: seq<Family>, names: seq<string>, ms: seq<Metric>, k: nat, f: Family)
    requires k <= |fs| + |ms| && (k >= |fs| || exists i :: 0 <= i < k && fs[i] == f) && f in fs
    ensures LastNames(Group(fs, names, ms), k, f) == Some(names)
  {
    var p := Group(fs, names, ms);
    if k > |fs| {
      assert p[k - 1] == Send(ms[k - 1 - |fs|]);
      GroupLastNames(fs, names, ms, k - 1, f);
    } else {
      assert p[k - 1] == Set(fs[k - 1], names);
      if fs[k - 1] != f {
        GroupLastNames(fs, names, ms, k - 1, f);
      }
    }
  }

  lemma GroupDisciplined(fs: seq<Family>, names: seq<string>, ms: seq<Metric>)
    requires forall m :: m in ms ==> m.family in fs && m.names == names && |m.names| == |m.values|
    ensures Disciplined(Group(fs, names, ms))
  {
    var p := Group(fs, names, ms);
    forall i | 0 <= i < |p| && p[i].Send?
      ensures LastNames(p, i, p[i].metric.family) == Some(p[i].metric.names) && |p[i].metric.names| == |p[i].metric.values|
    {
      assert p[i].metric == ms[i - |fs|];
      GroupLastNames(fs, names, ms, i, p[i].metric.family);
    }
  }

  // ---------------------------------------------------------------- safe interleavings

  /** Each field holds what some scrape wrote last to it. */
  ghost predicate Inv(progs: seq<Program>, s: Shared) {
    && !s.panicked && |s.pcs| == |progs|
    && (forall t :: 0 <= t < |progs| ==> s.pcs[t] <= |progs[t]|)
    && (forall t, f :: 0 <= t < |progs| && LastNames(progs[t], s.pcs[t], f).Some? ==> f in s.descs)
    && (forall f :: f in s.descs ==> WrittenBySome(progs, s, f))
  }

  ghost predicate WrittenBySome(progs: seq<Program>, s: Shared, f: Family)
    requires f in s.descs && |s.pcs| == |progs| && forall t :: 0 <= t < |progs| ==> s.pcs[t] <= |progs[t]|
  {
    exists u :: 0 <= u < |progs| && LastNames(progs[u], s.pcs[u], f) == Some(s.descs[f])
  }

  predicate Good(progs: seq<Program>) {
    && (forall t :: 0 <= t < |progs| ==> Disciplined(progs[t]) && AcceptedTo(progs[t], |progs[t]|))
    && (forall t, u :: 0 <= t < |progs| && 0 <= u < |progs| && t != u ==> SameWidths(progs[t], progs[u]))
  }

  /** A send finds a descriptor as wide as the one its own scrape wrote. */
  lemma SendSucceeds(progs: seq<Program>, s: Shared, t: nat)
    requires Good(progs) && Inv(progs, s) && Runnable(progs, s, t) && progs[t][s.pcs[t]].Send?
    ensures var m := progs[t][s.pcs[t]].metric; m.family in s.descs && WellFormed(s.descs[m.family], m.values)
    ensures var m := progs[t][s.pcs[t]].metric;
      (forall u :: 0 <= u < |progs| && u != t ==> SameContents(progs[t], progs[u])) ==> s.descs[m.family] == m.names
  {
    var m := progs[t][s.pcs[t]].metric;
    var f := m.family;
    assert LastNames(progs[t], s.pcs[t], f) == Some(m.names);
    assert WrittenBySome(progs, s, f);
    var u :| 0 <= u < |progs| && LastNames(progs[u], s.pcs[u], f) == Some(s.descs[f]);
    var i := LastNamesIsSet(progs[t], s.pcs[t], f);
    var j := LastNamesIsSet(progs[u], s.pcs[u], f);
    assert u != t ==> SameWidths(progs[t], progs[u]);
  }

  lemma StepCounts(progs: seq<Program>, s: Shared, t: nat)
    requires Inv(progs, s) && Runnable(progs, s, t) && !Step(progs, s, t).panicked
    ensures var s' := Step(progs, s, t);
      && s'.pcs == s.pcs[t := s.pcs[t] + 1]
      && forall u, f :: 0 <= u < |progs| && LastNames(progs[u], s'.pcs[u], f).Some? ==> f in s'.descs
  {
    var s' := Step(progs, s, t);
    forall u, f | 0 <= u < |progs| && LastNames(progs[u], s'.pcs[u], f).Some? ensures f in s'.descs {
      if u != t {
        assert LastNames(progs[u], s.pcs[u], f).Some?;
      } else if progs[t][s.pcs[t]].Send? || progs[t][s.pcs[t]].family != f {
        assert LastNames(progs[t], s.pcs[t], f).Some?;
      }
    }
  }

  lemma InvStep(progs: seq<Program>, s: Shared, t: nat)
    requires Good(progs) && Inv(progs, s)
    ensures Inv(progs, Step(progs, s, t))
  {
    if Runnable(progs, s, t) {
      var s' := Step(progs, s, t);
      assert !s'.panicked by {
        if progs[t][s.pcs[t]].Send? {
          SendSucceeds(progs, s, t);
        }
      }
      StepCounts(progs, s, t);
      forall f | f in s'.descs ensures WrittenBySome(progs, s', f) {
        StillWritten(progs, s, t, f);
      }
    }
  }

  lemma StillWritten(progs: seq<Program>, s: Shared, t: nat, f: Family)
    requires Inv(progs, s) && Runnable(progs, s, t) && !Step(progs, s, t).panicked && f in Step(progs, s, t).descs
    ensures WrittenBySome(progs, Step(progs, s, t), f)
  {
    var s' := Step(progs, s, t);
    if progs[t][s.pcs[t]].Set? && progs[t][s.pcs[t]].family == f {
      assert LastNames(progs[t], s'.pcs[t], f) == Some(s'.descs[f]);
    } else {
      assert WrittenBySome(progs, s, f);
      var u :| 0 <= u < |progs| && LastNames(progs[u], s.pcs[u], f) == Some(s.descs[f]);
      assert LastNames(progs[u], s'.pcs[u], f) == Some(s'.descs[f]);
    }
  }

  lemma InvInit(progs: seq<Program>)
    ensures Inv(progs, Init(|progs|))
  {
  }

  lemma {:induction false} GoodRun(progs: seq<Program>, schedule: seq<nat>)
    requires Good(progs)
    ensures Inv(progs, Run(progs, Init(|progs|), schedule))
  {
    if schedule == [] {
      InvInit(progs);
    } else {
      GoodRun(progs, schedule[..|schedule| - 1]);
      InvStep(progs, Run(progs, Init(|progs|), schedule[..|schedule| - 1]), schedule[|schedule| - 1]);
    }
  }

  // ---------------------------------------------------------------- what each scrape sends

  /** The metrics that the first `k` operations of a program mean to send. */
  function Meant(p: Program, k: nat): seq<Metric>
    requires k <= |p|
  {
    if k == 0 then []
    else Meant(p, k - 1) + if p[k - 1].Send? then [p[k - 1].metric] else []
  }

  /** What scrape `t` has sent. */
  function SentBy(sent: seq<(nat, Metric)>, t: nat): seq<Metric> {
    if sent == [] then []
    else SentBy(sent[..|sent| - 1], t) + if sent[|sent| - 1].0 == t then [sent[|sent| - 1].1] else []
  }

  predicate AllSameContents(progs: seq<Program>) {
    forall t, u :: 0 <= t < |progs| && 0 <= u < |progs| && t != u ==> SameContents(progs[t], progs[u])
  }

  lemma SendStep(progs: seq<Program>, s: Shared, u: nat, t: nat)
    requires Good(progs) && AllSameContents(progs) && Inv(progs, s) && t < |progs|
    requires SentBy(s.sent, t) == Meant(progs[t], s.pcs[t])
    ensures var s' := Step(progs, s, u);
      t < |s'.pcs| && s'.pcs[t] <= |progs[t]| && SentBy(s'.sent, t) == Meant(progs[t], s'.pcs[t])
  {
    if Runnable(progs, s, u) && progs[u][s.pcs[u]].Send? {
      SendSucceeds(progs, s, u);
      var m := progs[u][s.pcs[u]].metric;
      assert m.(names := s.descs[m.family]) == m;
      assert (s.sent + [(u, m)])[..|s.sent|] == s.sent;
    }
  }

  /** When all scrapes write the same names, each sends exactly the metrics it means to, in its order. */
  lemma {:induction false} EachSendsItsOwn(progs: seq<Program>, schedule: seq<nat>, t: nat)
    requires Good(progs) && AllSameContents(progs) && t < |progs|
    ensures var s := Run(progs, Init(|progs|), schedule);
      t < |s.pcs| && s.pcs[t] <= |progs[t]| && SentBy(s.sent, t) == Meant(progs[t], s.pcs[t])
  {
    if schedule != [] {
      var n := |schedule| - 1;
      EachSendsItsOwn(progs, schedule[..n], t);
      GoodRun(progs, schedule[..n]);
      SendStep(progs, Run(progs, Init(|progs|), schedule[..n]), schedule[n], t);
    }
  }

  // ---------------------------------------------------------------- programs made from rows

  /** Rows have as many values as names. */
  predicate Even(scrapes: seq<seq<Row>>) {
    forall t, i :: 0 <= t < |scrapes| && 0 <= i < |scrapes[t]| ==> |scrapes[t][i].names| == |scrapes[t][i].values|
  }

  lemma BlockDisciplined(row: Row, enhance: bool)
    requires |row.names| == |row.values|
    ensures Disciplined(Block(row, enhance))
  {
    var names, values := OtherNames(row, enhance), OtherValues(row, enhance);
    var a := Group([Info], row.names, [Metric(Info, row.names, row.values, Whole(1))]);
    var b := Group(INFO_FAMILIES, names, InfoMetrics(row.rep, names, values));
    var c := Group(STAT_FAMILIES, names, StatPart(row, enhance));
    assert Disciplined(a) by {
      GroupDisciplined([Info], row.names, [Metric(Info, row.names, row.values, Whole(1))]);
    }
    assert Disciplined(b) by {
      InfoFamilies(row.rep, names, values);
      GroupDisciplined(INFO_FAMILIES, names, InfoMetrics(row.rep, names, values));
    }
    assert Disciplined(c) by {
      StatFamilies(row, enhance);
      GroupDisciplined(STAT_FAMILIES, names, StatPart(row, enhance));
    }
    DisciplinedConcat(a, b);
    DisciplinedConcat(a + b, c);
  }

  lemma InfoFamilies(rep: Containers.Container, names: seq<string>, values: seq<string>)
    ensures forall m :: m in InfoMetrics(rep, names, values) ==> m.family in INFO_FAMILIES && m.names == names && m.values == values
  {
    assert forall m :: m in StatusMetrics(rep, names, values) ==> m.family in INFO_FAMILIES && m.names == names && m.values == values;
    assert forall m :: m in OutcomeMetrics(rep, names, values) ==> m.family in INFO_FAMILIES && m.names == names && m.values == values;
  }

  predicate StatLike(m: Metric, names: seq<string>, values: seq<string>) {
    m.family in STAT_FAMILIES && m.names == names && m.values == values
  }

  lemma StatFamilies(row: Row, enhance: bool)
    ensures forall m :: m in StatPart(row, enhance) ==> StatLike(m, OtherNames(row, enhance), OtherValues(row, enhance))
  {
    var names, values := OtherNames(row, enhance), OtherValues(row, enhance);
    if row.stat.Some? {
      var stat := row.stat.value;
      assert forall m :: m in UsageMetrics(stat, names, values) ==> StatLike(m, names, values);
      assert forall m :: m in InputMetrics(stat, names, values) ==> StatLike(m, names, values);
      assert forall m :: m in OutputMetrics(stat, names, values) ==> StatLike(m, names, values);
      assert forall m :: m in BlockMetrics(stat, names, values) ==> StatLike(m, names, values);
    }
  }

  lemma {:induction false} ProgramDisciplined(rows: seq<Row>, enhance: bool)
    requires forall i :: 0 <= i < |rows| ==> |rows[i].names| == |rows[i].values|
    ensures Disciplined(ProgramOf(rows, enhance))
  {
    if rows != [] {
      var n := |rows| - 1;
      ProgramDisciplined(rows[..n], enhance);
      BlockDisciplined(rows[n], enhance);
      DisciplinedConcat(ProgramOf(rows[..n], enhance), Block(rows[n], enhance));
    }
  }

  /** The names a row writes to a field. */
  function Written(row: Row, enhance: bool, f: Family): seq<string> {
    if f == Info then row.names else OtherNames(row, enhance)
  }

  predicate WritesOf(p: Program, row: Row, enhance: bool) {
    forall k :: 0 <= k < |p| && p[k].Set? ==> p[k].names == Written(row, enhance, p[k].family)
  }

  lemma GroupWrites(fs: seq<Family>, names: seq<string>, ms: seq<Metric>, row: Row, enhance: bool)
    requires forall i :: 0 <= i < |fs| ==> names == Written(row, enhance, fs[i])
    ensures WritesOf(Group(fs, names, ms), row, enhance)
  {
  }

  lemma BlockWrites(row: Row, enhance: bool)
    ensures WritesOf(Block(row, enhance), row, enhance)
  {
    var names := OtherNames(row, enhance);
    var info := [Metric(Info, row.names, row.values, Whole(1))];
    GroupWrites([Info], row.names, info, row, enhance);
    GroupWrites(INFO_FAMILIES, names, InfoMetrics(row.rep, names, OtherValues(row, enhance)), row, enhance);
    GroupWrites(STAT_FAMILIES, names, StatPart(row, enhance), row, enhance);
    WritesConcat(Group([Info], row.names, info),
                 Group(INFO_FAMILIES, names, InfoMetrics(row.rep, names, OtherValues(row, enhance))),
                 Group(STAT_FAMILIES, names, StatPart(row, enhance)), row, enhance);
  }

  lemma WritesConcat(p: Program, q: Program, r: Program, row: Row, enhance: bool)
    requires WritesOf(p, row, enhance) && WritesOf(q, row, enhance) && WritesOf(r, row, enhance)
    ensures WritesOf(p + q + r, row, enhance)
  {
  }

  lemma {:induction false} SetComesFromRow(rows: seq<Row>, enhance: bool, k: nat) returns (i: nat)
    requires k < |ProgramOf(rows, enhance)| && ProgramOf(rows, enhance)[k].Set?
    ensures i < |rows| && ProgramOf(rows, enhance)[k].names == Written(rows[i], enhance, ProgramOf(rows, enhance)[k].family)
  {
    var n := |rows| - 1;
    var before := ProgramOf(rows[..n], enhance);
    if k < |before| {
      i := SetComesFromRow(rows[..n], enhance, k);
    } else {
      i := n;
      BlockWrites(rows[n], enhance);
      assert ProgramOf(rows, enhance)[k] == Block(rows[n], enhance)[k - |before|];
    }
  }

  predicate SameLengths(a: seq<Row>, b: seq<Row>) {
    forall i, j :: 0 <= i < |a| && 0 <= j < |b| ==> |a[i].names| == |b[j].names|
  }

  /** No two containers of different scrapes have label lists of different lengths. */
  predicate EqualWidths(scrapes: seq<seq<Row>>) {
    forall t, u :: 0 <= t < |scrapes| && 0 <= u < |scrapes| && t != u ==> SameLengths(scrapes[t], scrapes[u])
  }

  predicate AllAccepted(scrapes: seq<seq<Row>>) {
    forall t, i :: 0 <= t < |scrapes| && 0 <= i < |scrapes[t]| ==> Accepted(scrapes[t][i].names)
  }

  lemma RowsMakeGoodPrograms(scrapes: seq<seq<Row>>, enhance: bool)
    requires Even(scrapes) && AllAccepted(scrapes) && EqualWidths(scrapes)
    ensures Good(ProgramsOf(scrapes, enhance))
  {
    var progs := ProgramsOf(scrapes, enhance);
    forall t | 0 <= t < |progs| ensures Disciplined(progs[t]) && AcceptedTo(progs[t], |progs[t]|) {
      ProgramDisciplined(scrapes[t], enhance);
      forall i | 0 <= i < |progs[t]| && progs[t][i].Set? ensures Accepted(progs[t][i].names) {
        var r := SetComesFromRow(scrapes[t], enhance, i);
      }
    }
    forall t, u | 0 <= t < |progs| && 0 <= u < |progs| && t != u ensures SameWidths(progs[t], progs[u]) {
      RowsSameWidths(scrapes[t], scrapes[u], enhance);
    }
  }

  lemma RowsSameWidths(a: seq<Row>, b: seq<Row>, enhance: bool)
    requires SameLengths(a, b)
    ensures SameWidths(ProgramOf(a, enhance), ProgramOf(b, enhance))
  {
    var p, q := ProgramOf(a, enhance), ProgramOf(b, enhance);
    forall i, j | 0 <= i < |p| && 0 <= j < |q| && p[i].Set? && q[j].Set? && p[i].family == q[j].family
      ensures |p[i].names| == |q[j].names|
    {
      var r := SetComesFromRow(a, enhance, i);
      var o := SetComesFromRow(b, enhance, j);
    }
  }

  // ---------------------------------------------------------------- unsafe interleavings

  /** Let scrape `t` run `k` operations. */
  function Alone(t: nat, k: nat): seq<nat> {
    seq(k, i => t)
  }

  lemma {:induction false} RunConcat(progs: seq<Program>, s: Shared, a: seq<nat>, b: seq<nat>)
    ensures Run(progs, s, a + b) == Run(progs, Run(progs, s, a), b)
  {
    if b == [] {
      assert a + b == a;
    } else {
      assert (a + b)[..|a + b| - 1] == a + b[..|b| - 1];
      RunConcat(progs, s, a, b[..|b| - 1]);
    }
  }

  /** A scrape that runs alone from its start finds its own descriptors. */
  lemma {:induction false} AloneIsSafe(progs: seq<Program>, s: Shared, t: nat, k: nat)
    requires !s.panicked && t < |progs| == |s.pcs| && s.pcs[t] == 0 && k <= |progs[t]|
    requires DisciplinedTo(progs[t], k)
    requires SendsAcceptedTo(progs[t], k)
    ensures var s' := Run(progs, s, Alone(t, k));
      && !s'.panicked && s'.pcs == s.pcs[t := k]
      && forall f :: LastNames(progs[t], k, f).Some? ==> f in s'.descs && s'.descs[f] == LastNames(progs[t], k, f).value
  {
    if k > 0 {
      assert Alone(t, k)[..k - 1] == Alone(t, k - 1);
      AloneIsSafe(progs, s, t, k - 1);
    }
  }

  predicate SendsAcceptedTo(p: Program, k: nat)
    requires k <= |p|
  {
    forall i :: 0 <= i < k && p[i].Send? ==> Accepted(p[i].metric.names)
  }

  lemma GroupSendsAccepted(fs: seq<Family>, names: seq<string>, ms: seq<Metric>)
    requires Accepted(names) && forall m :: m in ms ==> m.names == names
    ensures SendsAcceptedTo(Group(fs, names, ms), |Group(fs, names, ms)|)
  {
    var p := Group(fs, names, ms);
    forall i | 0 <= i < |p| && p[i].Send? ensures Accepted(p[i].metric.names) {
      assert p[i].metric == ms[i - |fs|];
    }
  }

  lemma SendsAcceptedConcat(p: Program, q: Program)
    requires SendsAcceptedTo(p, |p|) && SendsAcceptedTo(q, |q|)
    ensures SendsAcceptedTo(p + q, |p + q|)
  {
  }

  lemma InfoSendsAccepted(row: Row, enhance: bool)
    requires Accepted(OtherNames(row, enhance))
    ensures var p := Group(INFO_FAMILIES, OtherNames(row, enhance), InfoMetrics(row.rep, OtherNames(row, enhance), OtherValues(row, enhance)));
      SendsAcceptedTo(p, |p|)
  {
    InfoFamilies(row.rep, OtherNames(row, enhance), OtherValues(row, enhance));
    GroupSendsAccepted(INFO_FAMILIES, OtherNames(row, enhance), InfoMetrics(row.rep, OtherNames(row, enhance), OtherValues(row, enhance)));
  }

  lemma StatSendsAccepted(row: Row, enhance: bool)
    requires Accepted(OtherNames(row, enhance))
    ensures var p := Group(STAT_FAMILIES, OtherNames(row, enhance), StatPart(row, enhance)); SendsAcceptedTo(p, |p|)
  {
    StatFamilies(row, enhance);
    GroupSendsAccepted(STAT_FAMILIES, OtherNames(row, enhance), StatPart(row, enhance));
  }

  lemma BlockSendsAccepted(row: Row, enhance: bool)
    requires Accepted(row.names)
    ensures SendsAcceptedTo(Block(row, enhance), |Block(row, enhance)|)
  {
    var names := OtherNames(row, enhance);
    var info := [Metric(Info, row.names, row.values, Whole(1))];
    var a := Group([Info], row.names, info);
    var b := Group(INFO_FAMILIES, names, InfoMetrics(row.rep, names, OtherValues(row, enhance)));
    var c := Group(STAT_FAMILIES, names, StatPart(row, enhance));
    DefaultsAccepted();
    GroupSendsAccepted([Info], row.names, info);
    InfoSendsAccepted(row, enhance);
    StatSendsAccepted(row, enhance);
    SendsAcceptedConcat(a, b);
    SendsAcceptedConcat(a + b, c);
  }

  lemma {:induction false} ProgramSendsAccepted(rows: seq<Row>, enhance: bool)
    requires forall i :: 0 <= i < |rows| ==> Accepted(rows[i].names)
    ensures SendsAcceptedTo(ProgramOf(rows, enhance), |ProgramOf(rows, enhance)|)
  {
    if rows != [] {
      var n := |rows| - 1;
      ProgramSendsAccepted(rows[..n], enhance);
      BlockSendsAccepted(rows[n], enhance);
      SendsAcceptedConcat(ProgramOf(rows[..n], enhance), Block(rows[n], enhance));
    }
  }

  lemma BlockStart(row: Row, enhance: bool)
    ensures |Block(row, enhance)| >= 2 && Block(row, enhance)[0] == Set(Info, row.names)
    ensures Block(row, enhance)[1] == Send(Metric(Info, row.names, row.values, Whole(1)))
  {
    var a := Group([Info], row.names, [Metric(Info, row.names, row.values, Whole(1))]);
    assert Block(row, enhance)[..2] == a[..2];
    assert a[0] == Set(Info, row.names) && a[1] == Send(Metric(Info, row.names, row.values, Whole(1)));
  }

  /** At `o` a program writes names to a field, and next it sends a metric of that field. */
  predicate StartsAt(p: Program, o: nat, row: Row) {
    && o + 1 < |p| && p[o] == Set(Info, row.names)
    && p[o + 1] == Send(Metric(Info, row.names, row.values, Whole(1)))
    && SendsAcceptedTo(p, o)
  }

  /** Where the iteration of row `i` starts, when the names of the rows before it are accepted. */
  lemma {:induction false} RowStart(rows: seq<Row>, enhance: bool, i: nat) returns (o: nat)
    requires i < |rows| && forall j :: 0 <= j < i ==> Accepted(rows[j].names)
    ensures StartsAt(ProgramOf(rows, enhance), o, rows[i])
  {
    var n := |rows| - 1;
    var before := ProgramOf(rows[..n], enhance);
    var block := Block(rows[n], enhance);
    var p := ProgramOf(rows, enhance);
    assert p == before + block;
    if i == n {
      o := |before|;
      BlockStart(rows[n], enhance);
      assert p[o] == block[0] && p[o + 1] == block[1];
      ProgramSendsAccepted(rows[..n], enhance);
    } else {
      o := RowStart(rows[..n], enhance, i);
      assert p[o] == before[o] && p[o + 1] == before[o + 1];
    }
  }

  /** A scrape may run alone up to and including that write. */
  lemma RunToStart(progs: seq<Program>, s: Shared, t: nat, o: nat, row: Row)
    requires !s.panicked && t < |progs| == |s.pcs| && s.pcs[t] == 0
    requires Disciplined(progs[t]) && StartsAt(progs[t], o, row)
    ensures var s' := Run(progs, s, Alone(t, o + 1));
      && !s'.panicked && s'.pcs == s.pcs[t := o + 1] && Info in s'.descs && s'.descs[Info] == row.names
  {
    AloneIsSafe(progs, s, t, o + 1);
    assert LastNames(progs[t], o + 1, Info) == Some(row.names);
  }

  lemma ThenRejected(progs: seq<Program>, t: nat, o: nat, row: Row)
    requires t < |progs| && Disciplined(progs[t]) && StartsAt(progs[t], o, row) && !Accepted(row.names)
    ensures Run(progs, Init(|progs|), Alone(t, o + 1) + [t]).panicked
  {
    RunToStart(progs, Init(|progs|), t, o, row);
    assert (Alone(t, o + 1) + [t])[..o + 1] == Alone(t, o + 1);
  }

  /** Scrape `t` is stopped behind an info write of its own, but `names` were written after it. */
  predicate Overtaken(progs: seq<Program>, s: Shared, t: nat, row: Row, names: seq<string>) {
    && Runnable(progs, s, t) && progs[t][s.pcs[t]] == Send(Metric(Info, row.names, row.values, Whole(1)))
    && Info in s.descs && s.descs[Info] == names
  }

  /** Let two scrapes stop behind their info writes: the later write is the one the earlier scrape sends with. */
  lemma BothAtStart(progs: seq<Program>, t: nat, o: nat, row: Row, u: nat, v: nat, other: Row)
    requires t < |progs| && u < |progs| && t != u && Disciplined(progs[t]) && Disciplined(progs[u])
    requires StartsAt(progs[t], o, row) && StartsAt(progs[u], v, other)
    ensures Overtaken(progs, Run(progs, Init(|progs|), Alone(t, o + 1) + Alone(u, v + 1)), t, row, other.names)
  {
    RunToStart(progs, Init(|progs|), t, o, row);
    RunToStart(progs, Run(progs, Init(|progs|), Alone(t, o + 1)), u, v, other);
    RunConcat(progs, Init(|progs|), Alone(t, o + 1), Alone(u, v + 1));
  }

  lemma OneMore(progs: seq<Program>, s: Shared, schedule: seq<nat>, t: nat)
    ensures Run(progs, s, schedule + [t]) == Step(progs, Run(progs, s, schedule), t)
  {
    assert (schedule + [t])[..|schedule|] == schedule;
  }

  lemma ThenMismatches(progs: seq<Program>, t: nat, o: nat, row: Row, u: nat, v: nat, other: Row)
    requires t < |progs| && u < |progs| && t != u && Disciplined(progs[t]) && Disciplined(progs[u])
    requires StartsAt(progs[t], o, row) && StartsAt(progs[u], v, other) && |row.values| != |other.names|
    ensures Run(progs, Init(|progs|), Alone(t, o + 1) + Alone(u, v + 1) + [t]).panicked
  {
    BothAtStart(progs, t, o, row, u, v, other);
    OneMore(progs, Init(|progs|), Alone(t, o + 1) + Alone(u, v + 1), t);
  }

  lemma {:induction false} FirstRejected(rows: seq<Row>, i: nat) returns (f: nat)
    requires i < |rows| && !Accepted(rows[i].names)
    ensures f < |rows| && !Accepted(rows[f].names) && forall j :: 0 <= j < f ==> Accepted(rows[j].names)
    decreases i
  {
    if j :| 0 <= j < i && !Accepted(rows[j].names) {
      f := FirstRejected(rows, j);
    } else {
      f := i;
    }
  }

  /** A container whose names are not accepted makes its scrape panic on its own. */
  lemma RejectionPanics(scrapes: seq<seq<Row>>, enhance: bool, t: nat, i: nat) returns (schedule: seq<nat>)
    requires Even(scrapes) && t < |scrapes| && i < |scrapes[t]| && !Accepted(scrapes[t][i].names)
    ensures Run(ProgramsOf(scrapes, enhance), Init(|scrapes|), schedule).panicked
  {
    var f := FirstRejected(scrapes[t], i);
    var o := RowStart(scrapes[t], enhance, f);
    ProgramDisciplined(scrapes[t], enhance);
    ThenRejected(ProgramsOf(scrapes, enhance), t, o, scrapes[t][f]);
    schedule := Alone(t, o + 1) + [t];
  }

  /** Two scrapes with lists of different lengths: one overwrites the descriptor before the other sends. */
  lemma OverwritePanics(scrapes: seq<seq<Row>>, enhance: bool, t: nat, u: nat, i: nat, j: nat) returns (schedule: seq<nat>)
    requires Even(scrapes) && AllAccepted(scrapes)
    requires t < |scrapes| && u < |scrapes| && t != u && i < |scrapes[t]| && j < |scrapes[u]|
    requires |scrapes[t][i].names| != |scrapes[u][j].names|
    ensures Run(ProgramsOf(scrapes, enhance), Init(|scrapes|), schedule).panicked
  {
    var o := RowStart(scrapes[t], enhance, i);
    var v := RowStart(scrapes[u], enhance, j);
    ProgramDisciplined(scrapes[t], enhance);
    ProgramDisciplined(scrapes[u], enhance);
    ThenMismatches(ProgramsOf(scrapes, enhance), t, o, scrapes[t][i], u, v, scrapes[u][j]);
    schedule := Alone(t, o + 1) + Alone(u, v + 1) + [t];
  }

  // ---------------------------------------------------------------- exactly when concurrent scrapes are safe

  /**
   No interleaving of concurrent scrapes panics exactly when the label names of
   every container are accepted and no two containers of different scrapes have
   label lists of different lengths, in plain and in enhanced mode alike.
   */
  lemma SafeIff(scrapes: seq<seq<Row>>, enhance: bool)
    requires Even(scrapes)
    ensures Safe(ProgramsOf(scrapes, enhance)) <==> AllAccepted(scrapes) && EqualWidths(scrapes)
  {
    var progs := ProgramsOf(scrapes, enhance);
    if AllAccepted(scrapes) && EqualWidths(scrapes) {
      RowsMakeGoodPrograms(scrapes, enhance);
      forall schedule: seq<nat> ensures !Run(progs, Init(|progs|), schedule).panicked {
        GoodRun(progs, schedule);
      }
    } else if !AllAccepted(scrapes) {
      var t, i :| 0 <= t < |scrapes| && 0 <= i < |scrapes[t]| && !Accepted(scrapes[t][i].names);
      var schedule := RejectionPanics(scrapes, enhance, t, i);
    } else {
      var t, u :| 0 <= t < |scrapes| && 0 <= u < |scrapes| && t != u && !SameLengths(scrapes[t], scrapes[u]);
      var i, j :| 0 <= i < |scrapes[t]| && 0 <= j < |scrapes[u]| && |scrapes[t][i].names| != |scrapes[u][j].names|;
      var schedule := OverwritePanics(scrapes, enhance, t, u, i, j);
    }
  }

  lemma {:induction false} MeantConcat(p: Program, q: Program, k: nat)
    requires k <= |q|
    ensures Meant(p + q, |p| + k) == Meant(p, |p|) + Meant(q, k)
  {
    if k == 0 {
      MeantOfPrefix(p, q, |p|);
    } else {
      assert (p + q)[|p| + k - 1] == q[k - 1];
      MeantConcat(p, q, k - 1);
    }
  }

  lemma MeantJoined(p: Program, q: Program, n: nat, ms: seq<Metric>, ns: seq<Metric>)
    requires Meant(p, |p|) == ms && Meant(q, |q|) == ns && n == |p| + |q|
    ensures Meant(p + q, n) == ms + ns
  {
    MeantConcat(p, q, |q|);
  }

  lemma {:induction false} MeantOfPrefix(p: Program, q: Program, k: nat)
    requires k <= |p|
    ensures Meant(p + q, k) == Meant(p, k)
  {
    if k > 0 {
      assert (p + q)[k - 1] == p[k - 1];
      MeantOfPrefix(p, q, k - 1);
    }
  }

  lemma {:induction false} MeantOfSets(fs: seq<Family>, names: seq<string>, k: nat)
    requires k <= |fs|
    ensures Meant(Sets(fs, names), k) == []
  {
    if k > 0 {
      MeantOfSets(fs, names, k - 1);
    }
  }

  lemma {:induction false} MeantOfSends(ms: seq<Metric>, k: nat)
    requires k <= |ms|
    ensures Meant(Sends(ms), k) == ms[..k]
  {
    if k > 0 {
      MeantOfSends(ms, k - 1);
    }
  }

  lemma MeantOfGroup(fs: seq<Family>, names: seq<string>, ms: seq<Metric>)
    ensures Meant(Group(fs, names, ms), |Group(fs, names, ms)|) == ms
  {
    MeantOfSets(fs, names, |fs|);
    MeantOfSends(ms, |ms|);
    MeantConcat(Sets(fs, names), Sends(ms), |ms|);
  }

  lemma MeantOfBlock(row: Row, enhance: bool)
    ensures Meant(Block(row, enhance), |Block(row, enhance)|) == RowMetrics(row, enhance)
  {
    var names, values := OtherNames(row, enhance), OtherValues(row, enhance);
    var a := Group([Info], row.names, [Metric(Info, row.names, row.values, Whole(1))]);
    var b := Group(INFO_FAMILIES, names, InfoMetrics(row.rep, names, values));
    var c := Group(STAT_FAMILIES, names, StatPart(row, enhance));
    MeantOfGroup([Info], row.names, [Metric(Info, row.names, row.values, Whole(1))]);
    MeantOfGroup(INFO_FAMILIES, names, InfoMetrics(row.rep, names, values));
    MeantOfGroup(STAT_FAMILIES, names, StatPart(row, enhance));
    MeantConcat(a, b, |b|);
    MeantConcat(a + b, c, |c|);
  }

  /** The program of a scrape means to send exactly what the sequential Update emits. */
  lemma {:induction false} MeantOfProgram(rows: seq<Row>, enhance: bool)
    ensures Meant(ProgramOf(rows, enhance), |ProgramOf(rows, enhance)|) == AllMetrics(rows, enhance)
  {
    if rows != [] {
      var n := |rows| - 1;
      MeantOfProgram(rows[..n], enhance);
      MeantOfBlock(rows[n], enhance);
      var before, block := ProgramOf(rows[..n], enhance), Block(rows[n], enhance);
      MeantJoined(before, block, |before + block|, AllMetrics(rows[..n], enhance), RowMetrics(rows[n], enhance));
    }
  }

  /** No interleaving panics, and each scrape sends exactly the metrics it means to, under its own names. */
  ghost predicate Faithful(progs: seq<Program>) {
    forall schedule: seq<nat>, t: nat :: t < |progs| ==> FaithfulRun(progs, Run(progs, Init(|progs|), schedule), t)
  }

  predicate FaithfulRun(progs: seq<Program>, s: Shared, t: nat)
    requires t < |progs|
  {
    !s.panicked && t < |s.pcs| && s.pcs[t] <= |progs[t]| && SentBy(s.sent, t) == Meant(progs[t], s.pcs[t])
  }

  predicate SameNames(a: seq<Row>, b: seq<Row>) {
    forall i, j :: 0 <= i < |a| && 0 <= j < |b| ==> a[i].names == b[j].names
  }

  /** All containers of different scrapes have the same label names in the same order. */
  predicate EqualNames(scrapes: seq<seq<Row>>) {
    forall t, u :: 0 <= t < |scrapes| && 0 <= u < |scrapes| && t != u ==> SameNames(scrapes[t], scrapes[u])
  }

  lemma RowsSameContents(a: seq<Row>, b: seq<Row>, enhance: bool)
    requires SameNames(a, b)
    ensures SameContents(ProgramOf(a, enhance), ProgramOf(b, enhance))
  {
    var p, q := ProgramOf(a, enhance), ProgramOf(b, enhance);
    forall i, j | 0 <= i < |p| && 0 <= j < |q| && p[i].Set? && q[j].Set? && p[i].family == q[j].family
      ensures p[i].names == q[j].names
    {
      var r := SetComesFromRow(a, enhance, i);
      var o := SetComesFromRow(b, enhance, j);
    }
  }

  lemma EqualNamesFaithful(scrapes: seq<seq<Row>>, enhance: bool)
    requires Even(scrapes) && AllAccepted(scrapes) && EqualNames(scrapes)
    ensures Faithful(ProgramsOf(scrapes, enhance))
  {
    var progs := ProgramsOf(scrapes, enhance);
    assert EqualWidths(scrapes);
    RowsMakeGoodPrograms(scrapes, enhance);
    forall t, u | 0 <= t < |progs| && 0 <= u < |progs| && t != u ensures SameContents(progs[t], progs[u]) {
      RowsSameContents(scrapes[t], scrapes[u], enhance);
    }
    forall schedule: seq<nat>, t: nat | t < |progs| ensures FaithfulRun(progs, Run(progs, Init(|progs|), schedule), t) {
      GoodRun(progs, schedule);
      EachSendsItsOwn(progs, schedule, t);
    }
  }

  /** A metric that goes out under the names of another scrape is not the one meant. */
  lemma SentUnderOthers(progs: seq<Program>, s: Shared, t: nat, m: Metric)
    requires Runnable(progs, s, t) && progs[t][s.pcs[t]] == Send(m)
    requires m.family in s.descs && WellFormed(s.descs[m.family], m.values) && s.descs[m.family] != m.names
    ensures !FaithfulRun(progs, Step(progs, s, t), t)
  {
    var s' := Step(progs, s, t);
    assert s'.sent[..|s.sent|] == s.sent;
    var sent, meant := SentBy(s'.sent, t), Meant(progs[t], s'.pcs[t]);
    assert sent[|sent| - 1].names == s.descs[m.family];
    assert meant[|meant| - 1] == m;
  }

  /** With lists of one length but other names or another order, a metric goes out under the wrong names. */
  lemma ThenMislabels(progs: seq<Program>, t: nat, o: nat, row: Row, u: nat, v: nat, other: Row)
    requires t < |progs| && u < |progs| && t != u && Disciplined(progs[t]) && Disciplined(progs[u])
    requires StartsAt(progs[t], o, row) && StartsAt(progs[u], v, other)
    requires WellFormed(other.names, row.values) && other.names != row.names
    ensures !FaithfulRun(progs, Run(progs, Init(|progs|), Alone(t, o + 1) + Alone(u, v + 1) + [t]), t)
  {
    var schedule := Alone(t, o + 1) + Alone(u, v + 1);
    BothAtStart(progs, t, o, row, u, v, other);
    OneMore(progs, Init(|progs|), schedule, t);
    SentUnderOthers(progs, Run(progs, Init(|progs|), schedule), t, Metric(Info, row.names, row.values, Whole(1)));
  }

  lemma EqualWidthsMislabel(scrapes: seq<seq<Row>>, enhance: bool, t: nat, u: nat, i: nat, j: nat) returns (schedule: seq<nat>)
    requires Even(scrapes) && AllAccepted(scrapes)
    requires t < |scrapes| && u < |scrapes| && t != u && i < |scrapes[t]| && j < |scrapes[u]|
    requires |scrapes[t][i].names| == |scrapes[u][j].names| && scrapes[t][i].names != scrapes[u][j].names
    ensures !FaithfulRun(ProgramsOf(scrapes, enhance), Run(ProgramsOf(scrapes, enhance), Init(|scrapes|), schedule), t)
  {
    var o := RowStart(scrapes[t], enhance, i);
    var v := RowStart(scrapes[u], enhance, j);
    ProgramDisciplined(scrapes[t], enhance);
    ProgramDisciplined(scrapes[u], enhance);
    ThenMislabels(ProgramsOf(scrapes, enhance), t, o, scrapes[t][i], u, v, scrapes[u][j]);
    schedule := Alone(t, o + 1) + Alone(u, v + 1) + [t];
  }

  lemma UnequalNamesUnfaithful(scrapes: seq<seq<Row>>, enhance: bool, t: nat, u: nat, i: nat, j: nat)
    requires Even(scrapes) && AllAccepted(scrapes)
    requires t < |scrapes| && u < |scrapes| && t != u && i < |scrapes[t]| && j < |scrapes[u]|
    requires scrapes[t][i].names != scrapes[u][j].names
    ensures !Faithful(ProgramsOf(scrapes, enhance))
  {
    var progs := ProgramsOf(scrapes, enhance);
    var schedule;
    if |scrapes[t][i].names| != |scrapes[u][j].names| {
      schedule := OverwritePanics(scrapes, enhance, t, u, i, j);
    } else {
      schedule := EqualWidthsMislabel(scrapes, enhance, t, u, i, j);
    }
    assert !FaithfulRun(progs, Run(progs, Init(|progs|), schedule), t);
  }

  /**
   Concurrent scrapes do not disturb each other exactly when the label names of
   every container are accepted and all containers of different scrapes have the
   same names in the same order.
   */
  lemma FaithfulIff(scrapes: seq<seq<Row>>, enhance: bool)
    requires Even(scrapes)
    ensures Faithful(ProgramsOf(scrapes, enhance)) <==> AllAccepted(scrapes) && EqualNames(scrapes)
  {
    var progs := ProgramsOf(scrapes, enhance);
    if AllAccepted(scrapes) && EqualNames(scrapes) {
      EqualNamesFaithful(scrapes, enhance);
    } else if !AllAccepted(scrapes) {
      var t, i :| 0 <= t < |scrapes| && 0 <= i < |scrapes[t]| && !Accepted(scrapes[t][i].names);
      var schedule := RejectionPanics(scrapes, enhance, t, i);
      assert !FaithfulRun(progs, Run(progs, Init(|progs|), schedule), t);
    } else {
      var t, u :| 0 <= t < |scrapes| && 0 <= u < |scrapes| && t != u && !SameNames(scrapes[t], scrapes[u]);
      var i, j :| 0 <= i < |scrapes[t]| && 0 <= j < |scrapes[u]| && scrapes[t][i].names != scrapes[u][j].names;
      UnequalNamesUnfaithful(scrapes, enhance, t, u, i, j);
    }
  }

  predicate NoExtraLabels(scrapes: seq<seq<Row>>) {
    forall t, i :: 0 <= t < |scrapes| && 0 <= i < |scrapes[t]| ==> scrapes[t][i].names == CONTAINER_DEFAULTS
  }

  /**
   If no container has a kept extra label, no interleaving panics, and a scrape
   that has come to its end has sent exactly what it would have sent alone.
   */
  lemma NoExtraLabelsNoInterference(scrapes: seq<seq<Row>>, enhance: bool, schedule: seq<nat>, t: nat)
    requires Even(scrapes) && NoExtraLabels(scrapes) && t < |scrapes|
    ensures var progs := ProgramsOf(scrapes, enhance);
      var s := Run(progs, Init(|scrapes|), schedule);
      && !s.panicked && t < |s.pcs|
      && (s.pcs[t] == |progs[t]| ==> SentBy(s.sent, t) == AllMetrics(scrapes[t], enhance))
  {
    var progs := ProgramsOf(scrapes, enhance);
    assert Faithful(progs) by {
      assert AllAccepted(scrapes) && EqualNames(scrapes) by {
        NoExtraIsEqual(scrapes);
      }
      FaithfulIff(scrapes, enhance);
    }
    assert FaithfulRun(progs, Run(progs, Init(|progs|), schedule), t);
    MeantOfProgram(scrapes[t], enhance);
  }

  lemma NoExtraIsEqual(scrapes: seq<seq<Row>>)
    requires NoExtraLabels(scrapes)
    ensures AllAccepted(scrapes) && EqualNames(scrapes)
  {
    assert Accepted(CONTAINER_DEFAULTS);
  }

  /** A row whose lists the builder made from its container, none of whose labels is kept. */
  predicate Unlabelled(cfg: Config, row: Row, order: seq<string>) {
    && LabelSlices.Built(cfg, CONTAINER_DEFAULTS, LabelSlices.ContainerBase(row.rep), row.rep.labels, order, row.names, row.values)
    && forall k :: k in row.rep.labels ==> !Kept(cfg, CONTAINER_DEFAULTS, k)
  }

  ghost predicate AllUnlabelled(cfg: Config, scrapes: seq<seq<Row>>) {
    forall t, i :: 0 <= t < |scrapes| && 0 <= i < |scrapes[t]| ==> exists order :: Unlabelled(cfg, scrapes[t][i], order)
  }

  /** The same from the settings and the labels: rows as the builder makes them when no label is kept. */
  lemma NoKeptLabelsNoInterference(cfg: Config, scrapes: seq<seq<Row>>, schedule: seq<nat>, t: nat)
    requires AllUnlabelled(cfg, scrapes) && t < |scrapes|
    ensures var progs := ProgramsOf(scrapes, cfg.enhance);
      var s := Run(progs, Init(|scrapes|), schedule);
      && !s.panicked && t < |s.pcs|
      && (s.pcs[t] == |progs[t]| ==> SentBy(s.sent, t) == AllMetrics(scrapes[t], cfg.enhance))
  {
    forall u, i | 0 <= u < |scrapes| && 0 <= i < |scrapes[u]|
      ensures scrapes[u][i].names == CONTAINER_DEFAULTS && |scrapes[u][i].names| == |scrapes[u][i].values|
    {
      var order :| Unlabelled(cfg, scrapes[u][i], order);
      NothingKeptNoExtras(cfg, CONTAINER_DEFAULTS, scrapes[u][i].rep.labels, order);
    }
    NoExtraLabelsNoInterference(scrapes, cfg.enhance, schedule, t);
  }
}
