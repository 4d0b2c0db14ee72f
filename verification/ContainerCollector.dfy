/** One scrape of the container collector (collector/container.go). */
module ContainerCollector {
  import opened Common
  import opened Labels
  import opened LabelSlices
  import opened Containers
  import opened Metrics

  // ---------------------------------------------------------------- what a row should emit

  function StatusMetrics(rep: Container, names: seq<string>, values: seq<string>): seq<Metric> {
    [Metric(State, names, values, Whole(rep.state)),
     Metric(Health, names, values, Whole(rep.health)),
     Metric(Created, names, values, Whole(rep.created)),
     Metric(Started, names, values, Whole(rep.started))]
  }

  function OutcomeMetrics(rep: Container, names: seq<string>, values: seq<string>): seq<Metric> {
    [Metric(Exited, names, values, Whole(rep.exited)),
     Metric(ExitCode, names, values, Whole(rep.exitCode)),
     Metric(RwSize, names, values, Whole(rep.rwSize)),
     Metric(RootFsSize, names, values, Whole(rep.rootFsSize))]
  }

  function InfoMetrics(rep: Container, names: seq<string>, values: seq<string>): seq<Metric> {
    StatusMetrics(rep, names, values) + OutcomeMetrics(rep, names, values)
  }

  function UsageMetrics(stat: ContainerStat, names: seq<string>, values: seq<string>): seq<Metric> {
    [Metric(Pids, names, values, Whole(stat.pids)),
     Metric(Cpu, names, values, Fraction(stat.cpu)),
     Metric(CpuSystem, names, values, Fraction(stat.cpuSystem)),
     Metric(MemUsage, names, values, Whole(stat.memUsage)),
     Metric(MemLimit, names, values, Whole(stat.memLimit))]
  }

  function InputMetrics(stat: ContainerStat, names: seq<string>, values: seq<string>): seq<Metric> {
    [Metric(NetInput, names, values, Whole(stat.net.rxBytes)),
     Metric(NetInputDropped, names, values, Whole(stat.net.rxDropped)),
     Metric(NetInputErrors, names, values, Whole(stat.net.rxErrors)),
     Metric(NetInputPackets, names, values, Whole(stat.net.rxPackets))]
  }

  function OutputMetrics(stat: ContainerStat, names: seq<string>, values: seq<string>): seq<Metric> {
    [Metric(NetOutput, names, values, Whole(stat.net.txBytes)),
     Metric(NetOutputDropped, names, values, Whole(stat.net.txDropped)),
     Metric(NetOutputErrors, names, values, Whole(stat.net.txErrors)),
     Metric(NetOutputPackets, names, values, Whole(stat.net.txPackets))]
  }

  function BlockMetrics(stat: ContainerStat, names: seq<string>, values: seq<string>): seq<Metric> {
    [Metric(BlockInput, names, values, Whole(stat.blockInput)),
     Metric(BlockOutput, names, values, Whole(stat.blockOutput))]
  }

  function StatMetrics(stat: ContainerStat, names: seq<string>, values: seq<string>): seq<Metric> {
    UsageMetrics(stat, names, values) + InputMetrics(stat, names, values)
    + OutputMetrics(stat, names, values) + BlockMetrics(stat, names, values)
  }

  /** A container of a scrape with its statistics, and the label lists built for it. */
  datatype Row = Row(rep: Container, stat: Option<ContainerStat>, names: seq<string>, values: seq<string>)

  function PlainValues(rep: Container): seq<string> { [rep.id, rep.podID, rep.podName] }

  /** The label names and values of the metrics other than info. */
  function OtherNames(row: Row, enhance: bool): seq<string> { if enhance then row.names else PLAIN_DEFAULTS }

  function OtherValues(row: Row, enhance: bool): seq<string> { if enhance then row.values else PlainValues(row.rep) }

  function StatPart(row: Row, enhance: bool): seq<Metric> {
    match row.stat
    case Some(stat) => StatMetrics(stat, OtherNames(row, enhance), OtherValues(row, enhance))
    case None => []
  }

  function RestMetrics(row: Row, enhance: bool): seq<Metric> {
    InfoMetrics(row.rep, OtherNames(row, enhance), OtherValues(row, enhance)) + StatPart(row, enhance)
  }

  lemma RowParts(sent: seq<Metric>, row: Row, enhance: bool)
    ensures sent + [Metric(Info, row.names, row.values, Whole(1))] + RestMetrics(row, enhance) == sent + RowMetrics(row, enhance)
  {
    var first := [Metric(Info, row.names, row.values, Whole(1))];
    var info := InfoMetrics(row.rep, OtherNames(row, enhance), OtherValues(row, enhance));
    Regroup(first, info, StatPart(row, enhance));
    Regroup(sent, first, info + StatPart(row, enhance));
  }

  function RowMetrics(row: Row, enhance: bool): seq<Metric> {
    [Metric(Info, row.names, row.values, Whole(1))]
    + InfoMetrics(row.rep, OtherNames(row, enhance), OtherValues(row, enhance))
    + StatPart(row, enhance)
  }

  function AllMetrics(rows: seq<Row>, enhance: bool): seq<Metric> {
    if rows == [] then []
    else AllMetrics(rows[..|rows| - 1], enhance) + RowMetrics(rows[|rows| - 1], enhance)
  }

  /** The statistics entry of a container is the first with its truncated identifier. */
  predicate IsStatOf(id: string, stats: seq<ContainerStat>, stat: Option<ContainerStat>) {
    match stat
    case None => forall s :: s in stats ==> s.id != id
    case Some(s) => exists i :: 0 <= i < |stats| && stats[i] == s && s.id == id && forall j :: 0 <= j < i ==> stats[j].id != id
  }

  /** A row as the builders may make it, with accepted label names. */
  ghost predicate RowFor(cfg: Config, rep: Container, stats: seq<ContainerStat>, row: Row) {
    && row.rep == rep && IsStatOf(rep.id, stats, row.stat) && Accepted(row.names)
    && exists order :: Built(cfg, CONTAINER_DEFAULTS, ContainerBase(rep), rep.labels, order, row.names, row.values)
  }

  // ---------------------------------------------------------------- the collector

  /** Entry `i` is the first of this container. */
  predicate FirstWith(stats: seq<ContainerStat>, id: string, i: nat)
    requires i < |stats|
  {
    stats[i].id == id && forall j :: 0 <= j < i ==> stats[j].id != id
  }

  method GetContainerStat(containerID: string, statReport: seq<ContainerStat>) returns (r: Option<ContainerStat>)
    ensures IsStatOf(containerID, statReport, r)
    ensures r.None? ==> forall j :: 0 <= j < |statReport| ==> statReport[j].id != containerID
    ensures r.Some? ==> exists i :: 0 <= i < |statReport| && statReport[i] == r.value && FirstWith(statReport, containerID, i)
  {
    for i := 0 to |statReport|
      invariant forall j :: 0 <= j < i ==> statReport[j].id != containerID
    {
      if statReport[i].id == containerID {
        assert FirstWith(statReport, containerID, i);
        return Some(statReport[i]);
      }
    }
    r := None;
  }

  class Collector {
    var info: Desc
    var state: Desc
    var health: Desc
    var created: Desc
    var started: Desc
    var exited: Desc
    var exitCode: Desc
    var rwSize: Desc
    var rootFsSize: Desc
    var pids: Desc
    var cpu: Desc
    var cpuSystem: Desc
    var memUsage: Desc
    var memLimit: Desc
    var netInput: Desc
    var netInputDropped: Desc
    var netInputErrors: Desc
    var netInputPackets: Desc
    var netOutput: Desc
    var netOutputDropped: Desc
    var netOutputErrors: Desc
    var netOutputPackets: Desc
    var blockInput: Desc
    var blockOutput: Desc

    constructor ()
      ensures info == None && state == None && pids == None
    {
      info := None;
      state := None;
      health := None;
      created := None;
      started := None;
      exited := None;
      exitCode := None;
      rwSize := None;
      rootFsSize := None;
      pids := None;
      cpu := None;
      cpuSystem := None;
      memUsage := None;
      memLimit := None;
      netInput := None;
      netInputDropped := None;
      netInputErrors := None;
      netInputPackets := None;
      netOutput := None;
      netOutputDropped := None;
      netOutputErrors := None;
      netOutputPackets := None;
      blockInput := None;
      blockOutput := None;
    }

    method UpdateInfo(ch: Scrape, rep: Container, labelsValue: seq<string>, defaultLabels: seq<string>, enhance: bool)
      modifies ch, `state, `health, `created, `started, `exited, `exitCode, `rwSize, `rootFsSize
      ensures state == health == created == started == exited == exitCode == rwSize == rootFsSize == Some(defaultLabels)
      ensures var values := if enhance then labelsValue else PlainValues(rep);
        && ch.panicked == (old(ch.panicked) || !WellFormed(defaultLabels, values))
        && ch.sent == old(ch.sent) + if ch.panicked then [] else InfoMetrics(rep, defaultLabels, values)
    {
      state := Some(defaultLabels);
      health := Some(defaultLabels);
      created := Some(defaultLabels);
      started := Some(defaultLabels);
      exited := Some(defaultLabels);
      exitCode := Some(defaultLabels);
      rwSize := Some(defaultLabels);
      rootFsSize := Some(defaultLabels);
      var values := if enhance then labelsValue else [rep.id, rep.podID, rep.podName];
      ghost var sent := ch.sent;
      EmitStatus(ch, rep, values, defaultLabels);
      EmitOutcome(ch, rep, values, defaultLabels);
      Regroup(sent, StatusMetrics(rep, defaultLabels, values), OutcomeMetrics(rep, defaultLabels, values));
    }

    // The sends of updateInfo, in two groups.

    method EmitStatus(ch: Scrape, rep: Container, values: seq<string>, ghost names: seq<string>)
      requires state == health == created == started == Some(names)
      modifies ch
      ensures ch.panicked == (old(ch.panicked) || !WellFormed(names, values))
      ensures ch.sent == old(ch.sent) + if ch.panicked then [] else StatusMetrics(rep, names, values)
    {
      Emit(ch, State, state, Whole(rep.state), values);
      Emit(ch, Health, health, Whole(rep.health), values);
      Emit(ch, Created, created, Whole(rep.created), values);
      Emit(ch, Started, started, Whole(rep.started), values);
    }

    method EmitOutcome(ch: Scrape, rep: Container, values: seq<string>, ghost names: seq<string>)
      requires exited == exitCode == rwSize == rootFsSize == Some(names)
      modifies ch
      ensures ch.panicked == (old(ch.panicked) || !WellFormed(names, values))
      ensures ch.sent == old(ch.sent) + if ch.panicked then [] else OutcomeMetrics(rep, names, values)
    {
      Emit(ch, Exited, exited, Whole(rep.exited), values);
      Emit(ch, ExitCode, exitCode, Whole(rep.exitCode), values);
      Emit(ch, RwSize, rwSize, Whole(rep.rwSize), values);
      Emit(ch, RootFsSize, rootFsSize, Whole(rep.rootFsSize), values);
    }

    method UpdateStats(ch: Scrape, rep: Container, cntStat: Option<ContainerStat>, labelsValue: seq<string>,
                       defaultLabels: seq<string>, enhance: bool)
      modifies ch, `pids, `cpu, `cpuSystem, `memUsage, `memLimit,
        `netInput, `netInputDropped, `netInputErrors, `netInputPackets,
        `netOutput, `netOutputDropped, `netOutputErrors, `netOutputPackets, `blockInput, `blockOutput
      ensures pids == cpu == cpuSystem == memUsage == memLimit == Some(defaultLabels)
      ensures netInput == netInputDropped == netInputErrors == netInputPackets == Some(defaultLabels)
      ensures netOutput == netOutputDropped == netOutputErrors == netOutputPackets == blockInput == blockOutput
        == Some(defaultLabels)
      ensures var values := if enhance then labelsValue else PlainValues(rep);
        && ch.panicked == (old(ch.panicked) || (cntStat.Some? && !WellFormed(defaultLabels, values)))
        && ch.sent == old(ch.sent)
             + if ch.panicked || cntStat == None then [] else StatMetrics(cntStat.value, defaultLabels, values)
    {
      SetUsageDescs(defaultLabels);
      SetInputDescs(defaultLabels);
      SetOutputDescs(defaultLabels);
      SetBlockDescs(defaultLabels);
      var values := if enhance then labelsValue else [rep.id, rep.podID, rep.podName];
      if cntStat.Some? {
        EmitStats(ch, cntStat.value, values, defaultLabels);
      }
    }

    // Its descriptors, in four groups.

    method SetUsageDescs(names: seq<string>)
      modifies `pids, `cpu, `cpuSystem, `memUsage, `memLimit
      ensures pids == cpu == cpuSystem == memUsage == memLimit == Some(names)
    {
      pids := Some(names);
      cpu := Some(names);
      cpuSystem := Some(names);
      memUsage := Some(names);
      memLimit := Some(names);
    }

    method SetInputDescs(names: seq<string>)
      modifies `netInput, `netInputDropped, `netInputErrors, `netInputPackets
      ensures netInput == netInputDropped == netInputErrors == netInputPackets == Some(names)
    {
      netInput := Some(names);
      netInputDropped := Some(names);
      netInputErrors := Some(names);
      netInputPackets := Some(names);
    }

    method SetOutputDescs(names: seq<string>)
      modifies `netOutput, `netOutputDropped, `netOutputErrors, `netOutputPackets
      ensures netOutput == netOutputDropped == netOutputErrors == netOutputPackets == Some(names)
    {
      netOutputDropped := Some(names);
      netOutputErrors := Some(names);
      netOutputPackets := Some(names);
      netOutput := Some(names);
    }

    method SetBlockDescs(names: seq<string>)
      modifies `blockInput, `blockOutput
      ensures blockInput == blockOutput == Some(names)
    {
      blockInput := Some(names);
      blockOutput := Some(names);
    }

    method EmitStats(ch: Scrape, stat: ContainerStat, values: seq<string>, ghost names: seq<string>)
      requires pids == cpu == cpuSystem == memUsage == memLimit == Some(names)
      requires netInput == netInputDropped == netInputErrors == netInputPackets == Some(names)
      requires netOutput == netOutputDropped == netOutputErrors == netOutputPackets == Some(names)
      requires blockInput == blockOutput == Some(names)
      modifies ch
      ensures ch.panicked == (old(ch.panicked) || !WellFormed(names, values))
      ensures ch.sent == old(ch.sent) + if ch.panicked then [] else StatMetrics(stat, names, values)
    {
      EmitUsage(ch, stat, values, names);
      EmitInput(ch, stat, values, names);
      EmitOutput(ch, stat, values, names);
      EmitBlock(ch, stat, values, names);
      Regroup4(old(ch.sent), UsageMetrics(stat, names, values), InputMetrics(stat, names, values),
               OutputMetrics(stat, names, values), BlockMetrics(stat, names, values));
    }

    // The four groups of these sends.

    method EmitUsage(ch: Scrape, stat: ContainerStat, values: seq<string>, ghost names: seq<string>)
      requires pids == cpu == cpuSystem == memUsage == memLimit == Some(names)
      modifies ch
      ensures ch.panicked == (old(ch.panicked) || !WellFormed(names, values))
      ensures ch.sent == old(ch.sent) + if ch.panicked then [] else UsageMetrics(stat, names, values)
    {
      Emit(ch, Pids, pids, Whole(stat.pids), values);
      Emit(ch, Cpu, cpu, Fraction(stat.cpu), values);
      Emit(ch, CpuSystem, cpuSystem, Fraction(stat.cpuSystem), values);
      Emit(ch, MemUsage, memUsage, Whole(stat.memUsage), values);
      Emit(ch, MemLimit, memLimit, Whole(stat.memLimit), values);
    }

    method EmitInput(ch: Scrape, stat: ContainerStat, values: seq<string>, ghost names: seq<string>)
      requires netInput == netInputDropped == netInputErrors == netInputPackets == Some(names)
      modifies ch
      ensures ch.panicked == (old(ch.panicked) || !WellFormed(names, values))
      ensures ch.sent == old(ch.sent) + if ch.panicked then [] else InputMetrics(stat, names, values)
    {
      Emit(ch, NetInput, netInput, Whole(stat.net.rxBytes), values);
      Emit(ch, NetInputDropped, netInputDropped, Whole(stat.net.rxDropped), values);
      Emit(ch, NetInputErrors, netInputErrors, Whole(stat.net.rxErrors), values);
      Emit(ch, NetInputPackets, netInputPackets, Whole(stat.net.rxPackets), values);
    }

    method EmitOutput(ch: Scrape, stat: ContainerStat, values: seq<string>, ghost names: seq<string>)
      requires netOutput == netOutputDropped == netOutputErrors == netOutputPackets == Some(names)
      modifies ch
      ensures ch.panicked == (old(ch.panicked) || !WellFormed(names, values))
      ensures ch.sent == old(ch.sent) + if ch.panicked then [] else OutputMetrics(stat, names, values)
    {
      Emit(ch, NetOutput, netOutput, Whole(stat.net.txBytes), values);
      Emit(ch, NetOutputDropped, netOutputDropped, Whole(stat.net.txDropped), values);
      Emit(ch, NetOutputErrors, netOutputErrors, Whole(stat.net.txErrors), values);
      Emit(ch, NetOutputPackets, netOutputPackets, Whole(stat.net.txPackets), values);
    }

    method EmitBlock(ch: Scrape, stat: ContainerStat, values: seq<string>, ghost names: seq<string>)
      requires blockInput == blockOutput == Some(names)
      modifies ch
      ensures ch.panicked == (old(ch.panicked) || !WellFormed(names, values))
      ensures ch.sent == old(ch.sent) + if ch.panicked then [] else BlockMetrics(stat, names, values)
    {
      Emit(ch, BlockInput, blockInput, Whole(stat.blockInput), values);
      Emit(ch, BlockOutput, blockOutput, Whole(stat.blockOutput), values);
    }

    /**
     One scrape. It fails without output when a listing failed; it panics
     exactly when the label names of some container are not accepted, after all
     containers before it were emitted in full; and otherwise it emits every
     metric of every container.
     */
    method Update(ch: Scrape, cfg: Config, defaults: DefaultLabels,
                  containers: Result<seq<Container>, Failure>, stats: Result<seq<ContainerStat>, Failure>, spare: nat)
      returns (o: UpdateResult, ghost rows: seq<Row>)
      requires defaults.Intact() && !ch.panicked
      modifies this, ch
      ensures defaults.Intact()
      ensures containers.Err? ==> o == Failed(containers.error) && ch.sent == old(ch.sent)
      ensures containers.Ok? && stats.Err? ==> o == Failed(stats.error) && ch.sent == old(ch.sent)
      ensures containers.Ok? && stats.Ok? ==>
        && !o.Failed? && |rows| <= |containers.value|
        && (o.Succeeded? ==> |rows| == |containers.value|)
        && (o.Crashed? ==> |rows| < |containers.value| && !AcceptedLabels(cfg, containers.value[|rows|]))
        && Scraped(cfg, containers.value[..|rows|], stats.value, rows, old(ch.sent), ch.sent)
    {
      rows := [];
      var defaultContainersLabel := ["id", "pod_id", "pod_name"];
      if containers.Err? {
        return Failed(containers.error), rows;
      }
      if stats.Err? {
        return Failed(stats.error), rows;
      }
      var reports := containers.value;
      ghost var sent := ch.sent;
      for i := 0 to |reports|
        invariant defaults.Intact() && |rows| == i && !ch.panicked
        invariant !cfg.enhance ==> defaultContainersLabel == PLAIN_DEFAULTS
        invariant Scraped(cfg, reports[..i], stats.value, rows, sent, ch.sent)
      {
        defaultContainersLabel, rows :=
          NextContainer(ch, cfg, defaults, reports, i, stats.value, defaultContainersLabel, spare, rows, sent);
        if ch.panicked {
          return Crashed, rows;
        }
      }
      assert reports[..|reports|] == reports;
      o := Succeeded;
    }

    method NextContainer(ch: Scrape, cfg: Config, defaults: DefaultLabels, reports: seq<Container>, i: nat,
                         statReports: seq<ContainerStat>, carried: seq<string>, spare: nat,
                         ghost before: seq<Row>, ghost sent: seq<Metric>)
      returns (defaultContainersLabel: seq<string>, ghost rows: seq<Row>)
      requires defaults.Intact() && !ch.panicked && (!cfg.enhance ==> carried == PLAIN_DEFAULTS)
      requires i < |reports| && |before| == i && Scraped(cfg, reports[..i], statReports, before, sent, ch.sent)
      modifies this, ch
      ensures defaults.Intact() && (!cfg.enhance ==> defaultContainersLabel == PLAIN_DEFAULTS)
      ensures ch.panicked == !AcceptedLabels(cfg, reports[i])
      ensures if ch.panicked then rows == before && Scraped(cfg, reports[..i], statReports, rows, sent, ch.sent)
              else |rows| == i + 1 && Scraped(cfg, reports[..i + 1], statReports, rows, sent, ch.sent)
    {
      ghost var row;
      defaultContainersLabel, row := EmitContainer(ch, cfg, defaults, reports[i], statReports, carried, spare);
      rows := before;
      if !ch.panicked {
        AddScraped(cfg, reports, statReports, before, row, sent, old(ch.sent), ch.sent);
        rows := before + [row];
      }
    }

    /** The body of the loop; the label list of the other metrics is carried from row to row. */
    method EmitContainer(ch: Scrape, cfg: Config, defaults: DefaultLabels, rep: Container,
                         statReports: seq<ContainerStat>, carried: seq<string>, spare: nat)
      returns (defaultContainersLabel: seq<string>, ghost row: Row)
      requires defaults.Intact() && !ch.panicked && (!cfg.enhance ==> carried == PLAIN_DEFAULTS)
      modifies this, ch
      ensures defaults.Intact() && (!cfg.enhance ==> defaultContainersLabel == PLAIN_DEFAULTS)
      ensures ch.panicked == !AcceptedLabels(cfg, rep)
      ensures !ch.panicked ==> RowFor(cfg, rep, statReports, row)
      ensures ch.sent == old(ch.sent) + if ch.panicked then [] else RowMetrics(row, cfg.enhance)
    {
      var cntLabelsInfo;
      ghost var order;
      cntLabelsInfo, order := defaults.GetContainerDescLabel(cfg, rep, spare);
      var labels := Contents(cntLabelsInfo.labels);
      defaultContainersLabel := carried;
      if cfg.enhance {
        defaultContainersLabel := labels;
      }
      info := Some(labels);
      var cntStat := GetContainerStat(rep.id, statReports);
      var built := Row(rep, cntStat, labels, cntLabelsInfo.labelsValue);
      row := built;
      BuiltRow(cfg, order, statReports, row);
      EmitRow(ch, built, defaultContainersLabel, cfg.enhance);
    }

    /** Its sends. */
    method EmitRow(ch: Scrape, row: Row, defaultLabels: seq<string>, enhance: bool)
      requires info == Some(row.names) && !ch.panicked
      requires |row.names| == |row.values| && defaultLabels == OtherNames(row, enhance)
      modifies this, ch
      ensures ch.panicked == !Accepted(row.names)
      ensures ch.sent == old(ch.sent) + if ch.panicked then [] else RowMetrics(row, enhance)
    {
      DefaultsAccepted();
      Emit(ch, Info, info, Whole(1), row.values);
      EmitRest(ch, row, defaultLabels, enhance);
      RowParts(old(ch.sent), row, enhance);
    }

    method EmitRest(ch: Scrape, row: Row, defaultLabels: seq<string>, enhance: bool)
      requires defaultLabels == OtherNames(row, enhance)
      modifies this, ch
      ensures ch.panicked == (old(ch.panicked) || !WellFormed(defaultLabels, OtherValues(row, enhance)))
      ensures ch.sent == old(ch.sent) + if ch.panicked then [] else RestMetrics(row, enhance)
    {
      UpdateInfo(ch, row.rep, row.values, defaultLabels, enhance);
      UpdateStats(ch, row.rep, row.stat, row.values, defaultLabels, enhance);
      Regroup(old(ch.sent), InfoMetrics(row.rep, defaultLabels, OtherValues(row, enhance)), StatPart(row, enhance));
    }
  }

  ghost predicate RowsFor(cfg: Config, containers: seq<Container>, stats: seq<ContainerStat>, rows: seq<Row>) {
    |rows| == |containers| && forall i :: 0 <= i < |rows| ==> RowFor(cfg, containers[i], stats, rows[i])
  }

  /** After the output `before` came all metrics of these rows, made for these containers. */
  ghost predicate Scraped(cfg: Config, containers: seq<Container>, stats: seq<ContainerStat>, rows: seq<Row>,
                          before: seq<Metric>, after: seq<Metric>)
  {
    RowsFor(cfg, containers, stats, rows) && after == before + AllMetrics(rows, cfg.enhance)
  }

  lemma AddRow(cfg: Config, containers: seq<Container>, stats: seq<ContainerStat>, rows: seq<Row>, row: Row)
    requires |rows| < |containers| && RowsFor(cfg, containers[..|rows|], stats, rows)
    requires RowFor(cfg, containers[|rows|], stats, row)
    ensures RowsFor(cfg, containers[..|rows| + 1], stats, rows + [row])
  {
  }

  lemma AddMetrics(rows: seq<Row>, row: Row, enhance: bool)
    ensures AllMetrics(rows + [row], enhance) == AllMetrics(rows, enhance) + RowMetrics(row, enhance)
  {
    assert (rows + [row])[..|rows|] == rows;
  }

  lemma AddScraped(cfg: Config, containers: seq<Container>, stats: seq<ContainerStat>, rows: seq<Row>, row: Row,
                   before: seq<Metric>, middle: seq<Metric>, after: seq<Metric>)
    requires |rows| < |containers| && Scraped(cfg, containers[..|rows|], stats, rows, before, middle)
    requires RowFor(cfg, containers[|rows|], stats, row) && after == middle + RowMetrics(row, cfg.enhance)
    ensures Scraped(cfg, containers[..|rows| + 1], stats, rows + [row], before, after)
  {
    assert RowsFor(cfg, containers[..|rows| + 1], stats, rows + [row]) by {
      AddRow(cfg, containers, stats, rows, row);
    }
    assert after == before + AllMetrics(rows + [row], cfg.enhance) by {
      AddMetrics(rows, row, cfg.enhance);
      Regroup(before, AllMetrics(rows, cfg.enhance), RowMetrics(row, cfg.enhance));
    }
  }

  /** What decides whether the label names of a container are accepted. */
  predicate AcceptedLabels(cfg: Config, rep: Container) { Acceptable(cfg, CONTAINER_DEFAULTS, rep.labels.Keys) }

  lemma BuiltRow(cfg: Config, order: seq<string>, stats: seq<ContainerStat>, row: Row)
    requires Built(cfg, CONTAINER_DEFAULTS, ContainerBase(row.rep), row.rep.labels, order, row.names, row.values)
    ensures |row.names| == |row.values| >= 7
    ensures Accepted(row.names) <==> AcceptedLabels(cfg, row.rep)
    ensures IsStatOf(row.rep.id, stats, row.stat) && Accepted(row.names) ==> RowFor(cfg, row.rep, stats, row)
  {
    DefaultsAccepted();
    NamesAcceptedIff(cfg, CONTAINER_DEFAULTS, row.rep.labels, order);
  }

  // ---------------------------------------------------------------- what was emitted

  function WithStats(rows: seq<Row>): nat {
    if rows == [] then 0
    else WithStats(rows[..|rows| - 1]) + if rows[|rows| - 1].stat.Some? then 1 else 0
  }

  /** Nine metrics for each container, and fifteen more for each with a statistics entry. */
  lemma {:induction false} MetricCount(rows: seq<Row>, enhance: bool)
    ensures |AllMetrics(rows, enhance)| == 9 * |rows| + 15 * WithStats(rows)
  {
    if rows != [] {
      MetricCount(rows[..|rows| - 1], enhance);
    }
  }

  predicate Labelled(m: Metric, names: seq<string>, values: seq<string>) { m.names == names && m.values == values }

  lemma InfoLabelled(rep: Container, names: seq<string>, values: seq<string>)
    ensures forall m :: m in InfoMetrics(rep, names, values) ==> Labelled(m, names, values)
  {
    assert forall m :: m in StatusMetrics(rep, names, values) ==> Labelled(m, names, values);
    assert forall m :: m in OutcomeMetrics(rep, names, values) ==> Labelled(m, names, values);
  }

  lemma StatLabelled(stat: ContainerStat, names: seq<string>, values: seq<string>)
    ensures forall m :: m in StatMetrics(stat, names, values) ==> Labelled(m, names, values)
  {
    assert forall m :: m in UsageMetrics(stat, names, values) ==> Labelled(m, names, values);
    assert forall m :: m in InputMetrics(stat, names, values) ==> Labelled(m, names, values);
    assert forall m :: m in OutputMetrics(stat, names, values) ==> Labelled(m, names, values);
    assert forall m :: m in BlockMetrics(stat, names, values) ==> Labelled(m, names, values);
  }

  lemma RowLabelled(row: Row, enhance: bool, m: Metric)
    requires m in RowMetrics(row, enhance)
    ensures Labelled(m, row.names, row.values) || Labelled(m, OtherNames(row, enhance), OtherValues(row, enhance))
  {
    InfoLabelled(row.rep, OtherNames(row, enhance), OtherValues(row, enhance));
    if row.stat.Some? {
      StatLabelled(row.stat.value, OtherNames(row, enhance), OtherValues(row, enhance));
    }
  }

  lemma {:induction false} MetricComesFromRow(rows: seq<Row>, enhance: bool, m: Metric) returns (i: nat)
    requires m in AllMetrics(rows, enhance)
    ensures i < |rows| && m in RowMetrics(rows[i], enhance)
  {
    var n := |rows| - 1;
    if m in RowMetrics(rows[n], enhance) {
      i := n;
    } else {
      i := MetricComesFromRow(rows[..n], enhance, m);
    }
  }

  /**
   Every metric of a scrape has accepted names and one value for each, and in
   both modes carries the identifier and the pod of some container under their names.
   */
  lemma {:induction false} EveryMetricIdentifiesItsContainer(cfg: Config, containers: seq<Container>, stats: seq<ContainerStat>,
                                          rows: seq<Row>, m: Metric)
    requires RowsFor(cfg, containers, stats, rows) && m in AllMetrics(rows, cfg.enhance)
    ensures WellFormed(m.names, m.values)
    ensures exists i :: 0 <= i < |rows| && m in RowMetrics(rows[i], cfg.enhance) && Identifies(m, containers[i])
  {
    var i := MetricComesFromRow(rows, cfg.enhance, m);
    RowIdentifies(cfg, stats, rows[i], m);
    assert Identifies(m, containers[i]);
  }

  predicate Identifies(m: Metric, rep: Container) {
    && |m.names| == |m.values|
    && ValueOf(m.names, m.values, "id") == Some(rep.id)
    && ValueOf(m.names, m.values, "pod_id") == Some(rep.podID)
    && ValueOf(m.names, m.values, "pod_name") == Some(rep.podName)
  }

  lemma FullIdentifies(cfg: Config, row: Row, order: seq<string>, m: Metric)
    requires Built(cfg, CONTAINER_DEFAULTS, ContainerBase(row.rep), row.rep.labels, order, row.names, row.values)
    requires Accepted(row.names) && Labelled(m, row.names, row.values)
    ensures WellFormed(m.names, m.values) && Identifies(m, row.rep)
  {
    assert m.names[0] == "id" && m.names[5] == "pod_id" && m.names[6] == "pod_name";
    NamedValue(m.names, m.values, 0);
    NamedValue(m.names, m.values, 5);
    NamedValue(m.names, m.values, 6);
  }

  lemma PlainIdentifies(rep: Container, m: Metric)
    requires Labelled(m, PLAIN_DEFAULTS, PlainValues(rep))
    ensures WellFormed(m.names, m.values) && Identifies(m, rep)
  {
    NamedValue(m.names, m.values, 0);
    NamedValue(m.names, m.values, 1);
    NamedValue(m.names, m.values, 2);
  }

  lemma RowIdentifies(cfg: Config, stats: seq<ContainerStat>, row: Row, m: Metric)
    requires RowFor(cfg, row.rep, stats, row) && m in RowMetrics(row, cfg.enhance)
    ensures WellFormed(m.names, m.values) && Identifies(m, row.rep)
  {
    RowLabelled(row, cfg.enhance, m);
    if Labelled(m, row.names, row.values) {
      var order :| Built(cfg, CONTAINER_DEFAULTS, ContainerBase(row.rep), row.rep.labels, order, row.names, row.values);
      FullIdentifies(cfg, row, order, m);
    } else {
      PlainIdentifies(row.rep, m);
    }
  }

  // ---------------------------------------------------------------- which value under which family

  predicate InfoValue(rep: Container, m: Metric) {
    && (m.family == State ==> m.value == Whole(rep.state))
    && (m.family == Health ==> m.value == Whole(rep.health))
    && (m.family == Created ==> m.value == Whole(rep.created))
    && (m.family == Started ==> m.value == Whole(rep.started))
    && (m.family == Exited ==> m.value == Whole(rep.exited))
    && (m.family == ExitCode ==> m.value == Whole(rep.exitCode))
    && (m.family == RwSize ==> m.value == Whole(rep.rwSize))
    && (m.family == RootFsSize ==> m.value == Whole(rep.rootFsSize))
  }

  predicate UsageValue(stat: ContainerStat, m: Metric) {
    && (m.family == Pids ==> m.value == Whole(stat.pids))
    && (m.family == Cpu ==> m.value == Fraction(stat.cpu))
    && (m.family == CpuSystem ==> m.value == Fraction(stat.cpuSystem))
    && (m.family == MemUsage ==> m.value == Whole(stat.memUsage))
    && (m.family == MemLimit ==> m.value == Whole(stat.memLimit))
    && (m.family == BlockInput ==> m.value == Whole(stat.blockInput))
    && (m.family == BlockOutput ==> m.value == Whole(stat.blockOutput))
  }

  predicate NetValue(stat: ContainerStat, m: Metric) {
    && (m.family == NetInput ==> m.value == Whole(stat.net.rxBytes))
    && (m.family == NetInputDropped ==> m.value == Whole(stat.net.rxDropped))
    && (m.family == NetInputErrors ==> m.value == Whole(stat.net.rxErrors))
    && (m.family == NetInputPackets ==> m.value == Whole(stat.net.rxPackets))
    && (m.family == NetOutput ==> m.value == Whole(stat.net.txBytes))
    && (m.family == NetOutputDropped ==> m.value == Whole(stat.net.txDropped))
    && (m.family == NetOutputErrors ==> m.value == Whole(stat.net.txErrors))
    && (m.family == NetOutputPackets ==> m.value == Whole(stat.net.txPackets))
  }

  /** A metric has the value that its family stands for. */
  predicate RightValue(row: Row, m: Metric) {
    && (m.family == Info ==> m.value == Whole(1))
    && InfoValue(row.rep, m)
    && (row.stat.Some? ==> UsageValue(row.stat.value, m) && NetValue(row.stat.value, m))
    && (row.stat.None? ==> Rank(m.family) < 9)
  }

  predicate AllRight(row: Row, ms: seq<Metric>) {
    forall i :: 0 <= i < |ms| ==> RightValue(row, ms[i])
  }

  lemma RightConcat(row: Row, a: seq<Metric>, b: seq<Metric>)
    requires AllRight(row, a) && AllRight(row, b)
    ensures AllRight(row, a + b)
  {
  }

  lemma InfoRight(row: Row, names: seq<string>, values: seq<string>)
    ensures AllRight(row, InfoMetrics(row.rep, names, values))
  {
    assert AllRight(row, StatusMetrics(row.rep, names, values));
    assert AllRight(row, OutcomeMetrics(row.rep, names, values));
    RightConcat(row, StatusMetrics(row.rep, names, values), OutcomeMetrics(row.rep, names, values));
  }

  lemma UsageRight(row: Row, names: seq<string>, values: seq<string>)
    requires row.stat.Some?
    ensures AllRight(row, UsageMetrics(row.stat.value, names, values)) && AllRight(row, BlockMetrics(row.stat.value, names, values))
  {
  }

  lemma NetRight(row: Row, names: seq<string>, values: seq<string>)
    requires row.stat.Some?
    ensures AllRight(row, InputMetrics(row.stat.value, names, values)) && AllRight(row, OutputMetrics(row.stat.value, names, values))
  {
  }

  lemma StatRight(row: Row, names: seq<string>, values: seq<string>)
    requires row.stat.Some?
    ensures AllRight(row, StatMetrics(row.stat.value, names, values))
  {
    var stat := row.stat.value;
    var u, i := UsageMetrics(stat, names, values), InputMetrics(stat, names, values);
    var o, b := OutputMetrics(stat, names, values), BlockMetrics(stat, names, values);
    UsageRight(row, names, values);
    NetRight(row, names, values);
    RightConcat(row, u, i);
    RightConcat(row, u + i, o);
    RightConcat(row, u + i + o, b);
  }

  /** Every metric of a container has the value of its family. */
  lemma ValuesAreRight(row: Row, enhance: bool)
    ensures AllRight(row, RowMetrics(row, enhance))
  {
    var names, values := OtherNames(row, enhance), OtherValues(row, enhance);
    var first := [Metric(Info, row.names, row.values, Whole(1))];
    assert AllRight(row, first);
    InfoRight(row, names, values);
    RightConcat(row, first, InfoMetrics(row.rep, names, values));
    if row.stat.Some? {
      StatRight(row, names, values);
    }
    RightConcat(row, first + InfoMetrics(row.rep, names, values), StatPart(row, enhance));
  }

  /** The labels of the metrics other than info: three of their own in plain mode, those of info in enhanced mode. */
  predicate RightLabels(row: Row, enhance: bool, m: Metric) {
    if m.family == Info || enhance then m.names == row.names && m.values == row.values
    else m.names == ["id", "pod_id", "pod_name"] && m.values == [row.rep.id, row.rep.podID, row.rep.podName]
  }

  lemma LabelsAreRight(row: Row, enhance: bool, i: nat)
    requires i < |RowMetrics(row, enhance)|
    ensures RightLabels(row, enhance, RowMetrics(row, enhance)[i])
  {
    var names, values := OtherNames(row, enhance), OtherValues(row, enhance);
    var m := RowMetrics(row, enhance)[i];
    if i > 0 {
      RowRanked(row, enhance);
      InfoLabelled(row.rep, names, values);
      if row.stat.Some? {
        StatLabelled(row.stat.value, names, values);
      }
      assert m in InfoMetrics(row.rep, names, values) || m in StatPart(row, enhance);
    }
  }

  // ---------------------------------------------------------------- series never collide

  /** The place of a family among the metrics of a container. */
  function Rank(f: Family): nat {
    match f
    case Info => 0
    case State => 1
    case Health => 2
    case Created => 3
    case Started => 4
    case Exited => 5
    case ExitCode => 6
    case RwSize => 7
    case RootFsSize => 8
    case Pids => 9
    case Cpu => 10
    case CpuSystem => 11
    case MemUsage => 12
    case MemLimit => 13
    case NetInput => 14
    case NetInputDropped => 15
    case NetInputErrors => 16
    case NetInputPackets => 17
    case NetOutput => 18
    case NetOutputDropped => 19
    case NetOutputErrors => 20
    case NetOutputPackets => 21
    case BlockInput => 22
    case BlockOutput => 23
    case _ => 24
  }

  predicate RankedFrom(ms: seq<Metric>, first: nat) {
    forall r :: 0 <= r < |ms| ==> Rank(ms[r].family) == first + r
  }

  lemma RankedConcat(a: seq<Metric>, b: seq<Metric>, first: nat)
    requires RankedFrom(a, first) && RankedFrom(b, first + |a|)
    ensures RankedFrom(a + b, first)
  {
  }

  lemma InfoRanked(rep: Container, names: seq<string>, values: seq<string>)
    ensures |InfoMetrics(rep, names, values)| == 8 && RankedFrom(InfoMetrics(rep, names, values), 1)
  {
    RankedConcat(StatusMetrics(rep, names, values), OutcomeMetrics(rep, names, values), 1);
  }

  lemma UsageRanked(stat: ContainerStat, names: seq<string>, values: seq<string>)
    ensures |UsageMetrics(stat, names, values)| == 5 && RankedFrom(UsageMetrics(stat, names, values), 9)
  {
  }

  lemma NetRanked(stat: ContainerStat, names: seq<string>, values: seq<string>)
    ensures |InputMetrics(stat, names, values)| == |OutputMetrics(stat, names, values)| == 4
    ensures RankedFrom(InputMetrics(stat, names, values), 14) && RankedFrom(OutputMetrics(stat, names, values), 18)
  {
  }

  lemma FourRanked(a: seq<Metric>, b: seq<Metric>, c: seq<Metric>, d: seq<Metric>, first: nat)
    requires RankedFrom(a, first) && RankedFrom(b, first + |a|) && RankedFrom(c, first + |a| + |b|)
    requires RankedFrom(d, first + |a| + |b| + |c|)
    ensures RankedFrom(a + b + c + d, first)
  {
    RankedConcat(a, b, first);
    RankedConcat(a + b, c, first);
    RankedConcat(a + b + c, d, first);
  }

  lemma StatRanked(stat: ContainerStat, names: seq<string>, values: seq<string>)
    ensures RankedFrom(StatMetrics(stat, names, values), 9)
  {
    UsageRanked(stat, names, values);
    NetRanked(stat, names, values);
    assert RankedFrom(BlockMetrics(stat, names, values), 22);
    FourRanked(UsageMetrics(stat, names, values), InputMetrics(stat, names, values),
                OutputMetrics(stat, names, values), BlockMetrics(stat, names, values), 9);
  }

  /** The metrics of one container are of pairwise different families. */
  lemma RowRanked(row: Row, enhance: bool)
    ensures RankedFrom(RowMetrics(row, enhance), 0)
  {
    var names, values := OtherNames(row, enhance), OtherValues(row, enhance);
    var first := [Metric(Info, row.names, row.values, Whole(1))];
    InfoRanked(row.rep, names, values);
    RankedConcat(first, InfoMetrics(row.rep, names, values), 0);
    if row.stat.Some? {
      StatRanked(row.stat.value, names, values);
    }
    RankedConcat(first + InfoMetrics(row.rep, names, values), StatPart(row, enhance), 0);
  }

  /** Output `i` is metric `r` of row `k`. */
  predicate At(rows: seq<Row>, enhance: bool, i: nat, k: nat, r: nat) {
    && i < |AllMetrics(rows, enhance)| && k < |rows| && r < |RowMetrics(rows[k], enhance)|
    && i == |AllMetrics(rows[..k], enhance)| + r
    && AllMetrics(rows, enhance)[i] == RowMetrics(rows[k], enhance)[r]
  }

  lemma {:induction false} Locate(rows: seq<Row>, enhance: bool, i: nat) returns (k: nat, r: nat)
    requires i < |AllMetrics(rows, enhance)|
    ensures At(rows, enhance, i, k, r)
  {
    var n := |rows| - 1;
    var before := AllMetrics(rows[..n], enhance);
    if i < |before| {
      k, r := Locate(rows[..n], enhance, i);
      assert rows[..n][..k] == rows[..k];
    } else {
      k, r := n, i - |before|;
    }
  }

  lemma StartsWithId(cfg: Config, stats: seq<ContainerStat>, row: Row, m: Metric)
    requires RowFor(cfg, row.rep, stats, row) && m in RowMetrics(row, cfg.enhance)
    ensures m.values != [] && m.values[0] == row.rep.id
  {
    RowLabelled(row, cfg.enhance, m);
    var order :| Built(cfg, CONTAINER_DEFAULTS, ContainerBase(row.rep), row.rep.labels, order, row.names, row.values);
    assert row.values[0] == ContainerBase(row.rep)[0];
    assert PlainValues(row.rep)[0] == row.rep.id;
  }

  predicate DistinctIDs(containers: seq<Container>) {
    forall i, j :: 0 <= i < j < |containers| ==> containers[i].id != containers[j].id
  }

  /**
   When truncated identifiers are distinct, a scrape never emits two metrics of
   one family with the same label values, in either mode.
   */
  lemma {:induction false} SeriesNeverCollide(cfg: Config, containers: seq<Container>, stats: seq<ContainerStat>, rows: seq<Row>, i: nat, j: nat)
    requires DistinctIDs(containers) && RowsFor(cfg, containers, stats, rows)
    requires i < j < |AllMetrics(rows, cfg.enhance)|
    ensures var m, n := AllMetrics(rows, cfg.enhance)[i], AllMetrics(rows, cfg.enhance)[j];
      m.family == n.family ==> m.values != n.values
  {
    var k, r := Locate(rows, cfg.enhance, i);
    var l, q := Locate(rows, cfg.enhance, j);
    var m, n := AllMetrics(rows, cfg.enhance)[i], AllMetrics(rows, cfg.enhance)[j];
    if k == l {
      RowRanked(rows[k], cfg.enhance);
      assert Rank(m.family) == r && Rank(n.family) == q && r != q;
    } else {
      assert RowFor(cfg, containers[k], stats, rows[k]) && RowFor(cfg, containers[l], stats, rows[l]);
      StartsWithId(cfg, stats, rows[k], m);
      StartsWithId(cfg, stats, rows[l], n);
    }
  }
}
