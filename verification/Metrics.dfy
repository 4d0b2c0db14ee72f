/** Metrics, their descriptors, and the channel of a scrape (collector/collector.go). */
module Metrics {
  import opened Common
  import opened Labels

  /** The metric families of the container and image collectors; each has a descriptor field. */
  datatype Family =
    | Info | State | Health | Created | Started | Exited | ExitCode | RwSize | RootFsSize
    | Pids | Cpu | CpuSystem | MemUsage | MemLimit
    | NetInput | NetInputDropped | NetInputErrors | NetInputPackets
    | NetOutput | NetOutputDropped | NetOutputErrors | NetOutputPackets
    | BlockInput | BlockOutput
    | ImageInfo | ImageSize | ImageCreated

  /** The value of a metric before its conversion to float64. */
  datatype Value = Whole(n: int) | Fraction(r: real)

  /** A metric with the label names of the descriptor it was made from. */
  datatype Metric = Metric(family: Family, names: seq<string>, values: seq<string>, value: Value)

  /** NewDesc keeps an error unless it accepts the names, and MustNewConstMetric panics on it or on a wrong number of values. */
  predicate WellFormed(names: seq<string>, values: seq<string>) {
    Accepted(names) && |names| == |values|
  }

  datatype UpdateResult = Succeeded | Failed(error: Failure) | Crashed

  /** What the goroutine of one scrape has sent. Once it has panicked it does nothing more. */
  class Scrape {
    var sent: seq<Metric>
    var panicked: bool

    constructor ()
      ensures sent == [] && !panicked
    {
      sent := [];
      panicked := false;
    }
  }

  /** A descriptor field: nil, or a descriptor with these label names. */
  type Desc = Option<seq<string>>

  /** mustNewConstMetric and the send; a nil descriptor panics too. */
  method Emit(ch: Scrape, f: Family, desc: Desc, value: Value, values: seq<string>)
    modifies ch
    ensures old(ch.panicked) ==> ch.panicked && ch.sent == old(ch.sent)
    ensures !old(ch.panicked) ==>
      if desc.Some? && WellFormed(desc.value, values)
      then !ch.panicked && ch.sent == old(ch.sent) + [Metric(f, desc.value, values, value)]
      else ch.panicked && ch.sent == old(ch.sent)
  {
    if ch.panicked {
      return;
    }
    if desc.Some? && WellFormed(desc.value, values) {
      ch.sent := ch.sent + [Metric(f, desc.value, values, value)];
    } else {
      ch.panicked := true;
    }
  }

  lemma Regroup(a: seq<Metric>, b: seq<Metric>, c: seq<Metric>)
    ensures a + b + c == a + (b + c)
  {
  }

  lemma Regroup4(a: seq<Metric>, b: seq<Metric>, c: seq<Metric>, d: seq<Metric>, e: seq<Metric>)
    ensures a + b + c + d + e == a + (b + c + d + e)
  {
  }
}
