/**
 The printer of container port mappings (pdcs/utils.go), with a parser of the
 printed form. Port numbers are uint16 in the PortMapping type of the container
 libraries, so the end of a printed range may wrap.
 */
module Ports {
  import opened Common

  const LIMIT: int := 0x1_0000

  type uint16 = x: int | 0 <= x < LIMIT

  datatype PortMapping = PortMapping(
    hostIP: string, containerPort: uint16, hostPort: uint16, range: uint16, protocol: string)

  /** What one printed entry says: `span` ports from `host`, mapped from `container` on. */
  datatype Binding = Binding(ip: string, host: uint16, container: uint16, span: uint16, protocol: string)

  // ---------------------------------------------------------------- normal form

  function BindingOf(ip: string, port: PortMapping, protocol: string): Binding {
    Binding(ip, port.hostPort, port.containerPort, if port.range > 1 then port.range else 1, protocol)
  }

  function Bindings(ip: string, port: PortMapping, protocols: seq<string>): seq<Binding> {
    if protocols == [] then []
    else
      Bindings(ip, port, protocols[..|protocols| - 1]) + [BindingOf(ip, port, protocols[|protocols| - 1])]
  }

  function HostIP(port: PortMapping): string {
    if port.hostIP == "" then "0.0.0.0" else port.hostIP
  }

  /**
   The normal form of a list of mappings: the empty host address filled in, one
   binding for each comma-separated protocol, and ranges 0 and 1 identified.
   */
  function Normal(ports: seq<PortMapping>): seq<Binding> {
    if ports == [] then []
    else
      var port := ports[|ports| - 1];
      Normal(ports[..|ports| - 1]) + Bindings(HostIP(port), port, Split(port.protocol, ','))
  }

  predicate CleanIP(ip: string) {
    ',' !in ip && '-' !in ip
  }

  /** Bindings that come from mappings whose host address has no ',' and no '-'. */
  predicate Clean(b: Binding) {
    CleanIP(b.ip) && ',' !in b.protocol && b.span >= 1
  }

  // ---------------------------------------------------------------- printing

  predicate Digits(s: string) {
    forall i :: 0 <= i < |s| ==> '0' <= s[i] <= '9'
  }

  /** The decimal digits that `%d` prints. */
  function Decimal(n: nat): (s: string)
    ensures s != "" && Digits(s)
  {
    if n < 10 then [('0' as int + n) as char] else Decimal(n / 10) + [('0' as int + n % 10) as char]
  }

  /** The value of a sum or difference of two 16-bit numbers, which wraps around. */
  function Wrap16(x: int): uint16
    requires -LIMIT < x < 2 * LIMIT
  {
    if x < 0 then x + LIMIT else if x >= LIMIT then x - LIMIT else x
  }

  /** The last port of a range: `first+span-1`, where the addition may wrap in the middle. */
  function Last(first: uint16, span: uint16): uint16 {
    Wrap16(Wrap16(first + span) - 1)
  }

  function Address(b: Binding): string {
    b.ip + [':'] + Decimal(b.host)
  }

  /** What an entry prints behind its first '-'. */
  function Target(b: Binding): string {
    if b.span > 1 then
      Decimal(Last(b.host, b.span)) + ['-'] + (['>'] +
      (Decimal(b.container) + ['-'] + (Decimal(Last(b.container, b.span)) + ['/'] + b.protocol)))
    else
      ['>'] + (Decimal(b.container) + ['/'] + b.protocol)
  }

  function PrintBinding(b: Binding): string {
    Address(b) + ['-'] + Target(b)
  }

  /** Every entry followed by ", ". */
  function PrintAll(bs: seq<Binding>): (s: string)
    ensures bs != [] ==> |s| > 2
  {
    if bs == [] then "" else PrintBinding(bs[0]) + [','] + ([' '] + PrintAll(bs[1..]))
  }

  function Display(bs: seq<Binding>): string {
    var s := PrintAll(bs);
    if s == "" then "" else s[..|s| - 2]
  }

  /** portsToString: a builder is filled by two nested loops, then its last ", " is cut off. */
  method PortsToString(ports: seq<PortMapping>) returns (display: string)
    ensures display == Display(Normal(ports))
    ensures (forall p :: p in ports ==> CleanIP(p.hostIP)) ==> Parse(display) == Some(Normal(ports))
    ensures (forall p :: p in ports ==> CleanIP(p.hostIP)) ==> Parse(display).Some? && Describes(Parse(display).value, ports)
  {
    if |ports| == 0 {
      return "";
    }
    var sb := "";
    ghost var done: seq<Binding> := [];
    for i := 0 to |ports|
      invariant done == Normal(ports[..i])
      invariant sb == PrintAll(done)
    {
      var port := ports[i];
      var hostIP := port.hostIP;
      if hostIP == "" {
        hostIP := "0.0.0.0";
      }
      sb := WriteEntries(sb, hostIP, port, done);
      done := done + Bindings(hostIP, port, Split(port.protocol, ','));
      NormalStep(ports, i);
    }
    assert ports[..|ports|] == ports;
    NormalNonEmpty(ports);
    display := sb[..|sb| - 2];
    RoundTrip(ports);
    NormalDescribes(ports);
  }

  /** The inner loop: one entry for each protocol of a mapping. */
  method WriteEntries(text: string, hostIP: string, port: PortMapping, ghost done: seq<Binding>) returns (sb: string)
    requires text == PrintAll(done)
    ensures sb == PrintAll(done + Bindings(hostIP, port, Split(port.protocol, ',')))
  {
    sb := text;
    var protocols := Split(port.protocol, ',');
    ghost var bs := done;
    for j := 0 to |protocols|
      invariant bs == done + Bindings(hostIP, port, protocols[..j])
      invariant sb == PrintAll(bs)
    {
      sb := WriteEntry(sb, hostIP, port, protocols[j], bs);
      bs := bs + [BindingOf(hostIP, port, protocols[j])];
      BindingsStep(hostIP, port, protocols, j);
    }
    assert protocols[..|protocols|] == protocols;
  }

  lemma BindingsStep(ip: string, port: PortMapping, protocols: seq<string>, j: nat)
    requires j < |protocols|
    ensures Bindings(ip, port, protocols[..j + 1])
         == Bindings(ip, port, protocols[..j]) + [BindingOf(ip, port, protocols[j])]
  {
    assert protocols[..j + 1][..j] == protocols[..j];
  }

  /** Its body: the format depends on whether the mapping is a range. */
  method WriteEntry(text: string, hostIP: string, port: PortMapping, protocol: string, ghost done: seq<Binding>)
    returns (sb: string)
    requires text == PrintAll(done)
    ensures sb == PrintAll(done + [BindingOf(hostIP, port, protocol)])
  {
    var entry;
    if port.range > 1 {
      entry := FormatRange(hostIP, port, protocol);
    } else {
      entry := FormatSingle(hostIP, port, protocol);
    }
    sb := text + entry + ", ";
    PrintAllBack(done, BindingOf(hostIP, port, protocol));
  }

  /** `IP:first-last->first-last/protocol` */
  method FormatRange(hostIP: string, port: PortMapping, protocol: string) returns (entry: string)
    requires port.range > 1
    ensures entry == PrintBinding(BindingOf(hostIP, port, protocol))
  {
    var host, container := Decimal(port.hostPort), Decimal(port.containerPort);
    var hostEnd := Decimal(Wrap16(Wrap16(port.hostPort + port.range) - 1));
    var containerEnd := Decimal(Wrap16(Wrap16(port.containerPort + port.range) - 1));
    entry := hostIP + ":" + host + "-" + hostEnd + "->" + container + "-" + containerEnd + "/" + protocol;
    ghost var b := BindingOf(hostIP, port, protocol);
    RangeText(hostIP, host, hostEnd, container, containerEnd, protocol);
    assert Target(b) == hostEnd + ['-'] + (['>'] + (container + ['-'] + (containerEnd + ['/'] + protocol)));
  }

  /** `IP:port->port/protocol` */
  method FormatSingle(hostIP: string, port: PortMapping, protocol: string) returns (entry: string)
    requires port.range <= 1
    ensures entry == PrintBinding(BindingOf(hostIP, port, protocol))
  {
    var host, container := Decimal(port.hostPort), Decimal(port.containerPort);
    entry := hostIP + ":" + host + "->" + container + "/" + protocol;
    SingleText(hostIP, host, container, protocol);
  }

  lemma NormalStep(ports: seq<PortMapping>, i: nat)
    requires i < |ports|
    ensures Normal(ports[..i + 1])
         == Normal(ports[..i]) + Bindings(HostIP(ports[i]), ports[i], Split(ports[i].protocol, ','))
  {
    assert ports[..i + 1][..i] == ports[..i];
  }

  lemma RangeText(ip: string, h: string, hEnd: string, c: string, cEnd: string, protocol: string)
    ensures ip + ":" + h + "-" + hEnd + "->" + c + "-" + cEnd + "/" + protocol
         == (ip + [':'] + h) + ['-'] + (hEnd + ['-'] + (['>'] + (c + ['-'] + (cEnd + ['/'] + protocol))))
  {
    var t := cEnd + ['/'] + protocol;
    var u := c + ['-'] + t;
    var head := ip + ":" + h + "-" + hEnd;
    assert head + "->" + c + "-" + cEnd + "/" + protocol == head + "->" + c + "-" + t;
    assert head + "->" + c + "-" + t == head + "->" + u;
    assert head + "->" + u == head + (['-'] + (['>'] + u));
    assert head + (['-'] + (['>'] + u)) == (ip + [':'] + h) + ['-'] + (hEnd + ['-'] + (['>'] + u));
  }

  lemma SingleText(ip: string, h: string, c: string, protocol: string)
    ensures ip + ":" + h + "->" + c + "/" + protocol
         == (ip + [':'] + h) + ['-'] + (['>'] + (c + ['/'] + protocol))
  {
    assert ip + ":" + h + "->" + c + "/" + protocol == ip + ":" + h + "->" + (c + ['/'] + protocol);
  }

  lemma {:induction false} PrintAllBack(bs: seq<Binding>, b: Binding)
    ensures PrintAll(bs + [b]) == PrintAll(bs) + PrintBinding(b) + ", "
  {
    if bs == [] {
      assert ([b])[1..] == [];
      Concat3(PrintBinding(b));
    } else {
      PrintAllBack(bs[1..], b);
      assert (bs + [b])[1..] == bs[1..] + [b];
      Concat4(PrintBinding(bs[0]), PrintAll(bs[1..]), PrintBinding(b));
    }
  }

  lemma Concat3(p: string)
    ensures p + [','] + ([' '] + "") == "" + p + ", "
  {
  }

  lemma Concat4(p: string, q: string, r: string)
    ensures p + [','] + ([' '] + (q + r + ", ")) == p + [','] + ([' '] + q) + r + ", "
  {
  }

  lemma NormalNonEmpty(ports: seq<PortMapping>)
    requires ports != []
    ensures Normal(ports) != []
  {
  }

  // ---------------------------------------------------------------- parsing

  function DigitsValue(s: string): nat
    requires Digits(s)
  {
    if s == "" then 0
    else
      var last := s[|s| - 1];
      10 * DigitsValue(s[..|s| - 1]) + (last as int - '0' as int)
  }

  /** A port number in canonical decimal form. */
  function ParsePort(s: string): (r: Option<uint16>)
    ensures r.Some? ==> s == Decimal(r.value)
  {
    if Digits(s) then
      var n := DigitsValue(s);
      if n < LIMIT && Decimal(n) == s then Some(n) else None
    else None
  }

  /** The part of an entry behind the arrow of a mapping that is not a range. */
  function ParseSingle(ip: string, host: uint16, s: string): Option<Binding> {
    var (containerText, protocol) :- Cut(s, '/');
    var container :- ParsePort(containerText);
    Some(Binding(ip, host, container, 1, protocol))
  }

  /** The number of ports from `first` on to `last`, modulo 2^16. */
  function Span(first: uint16, last: uint16): uint16 {
    Wrap16(Wrap16(last - first) + 1)
  }

  /** The part of an entry behind the first '-' of a range. */
  function ParseRange(ip: string, host: uint16, s: string): Option<Binding> {
    var (hostEndText, tail) :- Cut(s, '-');
    var hostEnd :- ParsePort(hostEndText);
    if tail == "" || tail[0] != '>' then None
    else
      var (containerText, rest) :- Cut(tail[1..], '-');
      var container :- ParsePort(containerText);
      var (containerEndText, protocol) :- Cut(rest, '/');
      var containerEnd :- ParsePort(containerEndText);
      var span := Span(host, hostEnd);
      if span > 1 && containerEnd == Last(container, span)
      then Some(Binding(ip, host, container, span, protocol))
      else None
  }

  function ParseBinding(s: string): Option<Binding> {
    var (address, tail) :- Cut(s, '-');
    var (ip, hostText) :- CutLast(address, ':');
    var host :- ParsePort(hostText);
    if tail != "" && tail[0] == '>' then ParseSingle(ip, host, tail[1..]) else ParseRange(ip, host, tail)
  }

  /** Entries, each followed by ", ". */
  function ParseAll(s: string): Option<seq<Binding>>
    decreases |s|
  {
    if s == "" then Some([])
    else
      var (entry, tail) :- Cut(s, ',');
      var b :- ParseBinding(entry);
      if tail == "" || tail[0] != ' ' then None
      else
        var bs :- ParseAll(tail[1..]);
        Some([b] + bs)
  }

  function Parse(display: string): Option<seq<Binding>> {
    if display == "" then Some([]) else ParseAll(display + ", ")
  }

  // ---------------------------------------------------------------- the parser inverts the printer

  lemma {:induction false} DigitsOfDecimal(n: nat)
    ensures DigitsValue(Decimal(n)) == n
  {
    if n >= 10 {
      DigitsOfDecimal(n / 10);
      var s := Decimal(n);
      assert s[..|s| - 1] == Decimal(n / 10);
    } else {
      var s := Decimal(n);
      assert s[..0] == "";
    }
  }

  lemma ParsePrintedPort(n: uint16)
    ensures ParsePort(Decimal(n)) == Some(n)
  {
    DigitsOfDecimal(n);
  }

  /** Sixteen-bit wrap-around loses nothing: the length of a range is in its two ends. */
  lemma SpanFromEnds(first: uint16, span: uint16)
    ensures Span(first, Last(first, span)) == span
  {
  }

  lemma ParseSinglePrinted(b: Binding)
    requires b.span == 1
    ensures ParseSingle(b.ip, b.host, Decimal(b.container) + ['/'] + b.protocol) == Some(b)
  {
    CutAt(Decimal(b.container), '/', b.protocol);
    ParsePrintedPort(b.container);
  }

  lemma ParseRangePrinted(b: Binding)
    requires b.span > 1
    ensures ParseRange(b.ip, b.host, Target(b)) == Some(b)
  {
    var hostEnd, container, containerEnd :=
      Decimal(Last(b.host, b.span)), Decimal(b.container), Decimal(Last(b.container, b.span));
    var rest := containerEnd + ['/'] + b.protocol;
    var tail := ['>'] + (container + ['-'] + rest);
    CutAt(hostEnd, '-', tail);
    assert tail[1..] == container + ['-'] + rest;
    CutAt(container, '-', rest);
    CutAt(containerEnd, '/', b.protocol);
    ParsePrintedPort(Last(b.host, b.span));
    ParsePrintedPort(b.container);
    ParsePrintedPort(Last(b.container, b.span));
    SpanFromEnds(b.host, b.span);
  }

  lemma ParsePrintedBinding(b: Binding)
    requires Clean(b)
    ensures ParseBinding(PrintBinding(b)) == Some(b)
  {
    CutLastAt(b.ip, ':', Decimal(b.host));
    ParsePrintedPort(b.host);
    CutAt(Address(b), '-', Target(b));
    if b.span > 1 {
      assert Target(b)[0] == Decimal(Last(b.host, b.span))[0];
      ParseRangePrinted(b);
    } else {
      assert Target(b)[1..] == Decimal(b.container) + ['/'] + b.protocol;
      ParseSinglePrinted(b);
    }
  }

  lemma NoCommaPrinted(b: Binding)
    requires Clean(b)
    ensures ',' !in PrintBinding(b)
  {
    assert ',' !in Address(b);
    assert ',' !in Target(b);
  }

  lemma {:induction false} ParsePrintedAll(bs: seq<Binding>)
    requires forall b :: b in bs ==> Clean(b)
    ensures ParseAll(PrintAll(bs)) == Some(bs)
  {
    if bs != [] {
      var b, rest := bs[0], bs[1..];
      ParsePrintedAll(rest);
      ParsePrintedEntry(b, PrintAll(rest));
      assert bs == [b] + rest;
    }
  }

  lemma ParsePrintedEntry(b: Binding, rest: string)
    requires Clean(b) && ParseAll(rest).Some?
    ensures ParseAll(PrintBinding(b) + [','] + ([' '] + rest)) == Some([b] + ParseAll(rest).value)
  {
    NoCommaPrinted(b);
    ParsePrintedBinding(b);
    ParseEntry(PrintBinding(b), b, rest);
  }

  lemma ParseEntry(entry: string, b: Binding, rest: string)
    requires ',' !in entry && ParseBinding(entry) == Some(b) && ParseAll(rest).Some?
    ensures ParseAll(entry + [','] + ([' '] + rest)) == Some([b] + ParseAll(rest).value)
  {
    var tail := [' '] + rest;
    CutAt(entry, ',', tail);
    assert tail[1..] == rest;
  }

  lemma DropSeparator(s: string, t: string)
    requires |s| > 2 && s == t + ", "
    ensures s[..|s| - 2] == t
  {
  }

  lemma {:induction false} EndsInSeparator(bs: seq<Binding>) returns (t: string)
    requires bs != []
    ensures PrintAll(bs) == t + ", "
  {
    var p := PrintBinding(bs[0]);
    if bs[1..] == [] {
      t := p;
      Concat3(p);
    } else {
      var u := EndsInSeparator(bs[1..]);
      t := p + [','] + ([' '] + u);
      Concat2(p, u);
    }
  }

  lemma Concat2(p: string, u: string)
    ensures p + [','] + ([' '] + (u + ", ")) == p + [','] + ([' '] + u) + ", "
  {
  }

  lemma DisplayEnds(bs: seq<Binding>)
    requires bs != []
    ensures Display(bs) != "" && Display(bs) + ", " == PrintAll(bs)
  {
    var t := EndsInSeparator(bs);
    DropSeparator(PrintAll(bs), t);
  }

  /** Parsing what was printed gives the bindings back, wrapped ranges included. */
  lemma ParseDisplay(bs: seq<Binding>)
    requires forall b :: b in bs ==> Clean(b)
    ensures Parse(Display(bs)) == Some(bs)
  {
    if bs != [] {
      DisplayEnds(bs);
      ParsePrintedAll(bs);
    }
  }

  // ---------------------------------------------------------------- the parser accepts nothing else

  lemma ParsedSinglePrints(ip: string, host: uint16, s: string)
    requires ParseSingle(ip, host, s).Some?
    ensures var b := ParseSingle(ip, host, s).value;
            b.ip == ip && b.host == host && b.span == 1 && Target(b) == ['>'] + s
  {
  }

  lemma ParsedRangePrints(ip: string, host: uint16, s: string)
    requires ParseRange(ip, host, s).Some?
    ensures var b := ParseRange(ip, host, s).value;
            b.ip == ip && b.host == host && b.span > 1 && Target(b) == s
  {
    var b := ParseRange(ip, host, s).value;
    var (hostEndText, tail) := Cut(s, '-').value;
    var (containerText, rest) := Cut(tail[1..], '-').value;
    var (containerEndText, protocol) := Cut(rest, '/').value;
    var hostEnd := ParsePort(hostEndText).value;
    EndFromSpan(host, hostEnd);
    assert b == Binding(ip, host, ParsePort(containerText).value, Span(host, hostEnd), protocol);
    assert hostEndText == Decimal(Last(b.host, b.span));
    assert containerEndText == Decimal(Last(b.container, b.span));
    HeadAndTail(tail);
  }

  lemma HeadAndTail(s: string)
    requires s != ""
    ensures s == [s[0]] + s[1..]
  {
  }

  lemma NoCommaInParts(b: Binding)
    requires ',' !in PrintBinding(b)
    ensures ',' !in b.ip && ',' !in b.protocol
  {
    var s := PrintBinding(b);
    assert forall i :: 0 <= i < |b.ip| ==> s[i] == b.ip[i];
    var k := |s| - |b.protocol|;
    assert s[k..] == b.protocol;
  }

  lemma ParsedBindingPrints(s: string)
    requires ',' !in s && ParseBinding(s).Some?
    ensures PrintBinding(ParseBinding(s).value) == s && Clean(ParseBinding(s).value)
  {
    var b := ParseBinding(s).value;
    var (address, tail) := Cut(s, '-').value;
    var (ip, hostText) := CutLast(address, ':').value;
    var host := ParsePort(hostText).value;
    assert address == ip + [':'] + Decimal(host);
    if tail != "" && tail[0] == '>' {
      ParsedSinglePrints(ip, host, tail[1..]);
      HeadAndTail(tail);
    } else {
      ParsedRangePrints(ip, host, tail);
    }
    assert PrintBinding(b) == address + ['-'] + tail;
    NoCommaInParts(b);
  }

  lemma EndFromSpan(first: uint16, last: uint16)
    ensures Last(first, Span(first, last)) == last
  {
  }

  lemma ParsedEntryPrints(s: string) returns (b: Binding, rest: string)
    requires s != "" && ParseAll(s).Some?
    ensures Clean(b) && s == PrintBinding(b) + [','] + ([' '] + rest)
    ensures ParseAll(rest).Some? && ParseAll(s).value == [b] + ParseAll(rest).value
  {
    var (entry, tail) := Cut(s, ',').value;
    b := ParseBinding(entry).value;
    rest := tail[1..];
    ParsedBindingPrints(entry);
    HeadAndTail(tail);
  }

  lemma {:induction false} ParsedAllPrints(s: string)
    requires ParseAll(s).Some?
    ensures PrintAll(ParseAll(s).value) == s
    ensures forall b :: b in ParseAll(s).value ==> Clean(b)
    decreases |s|
  {
    if s != "" {
      var b, rest := ParsedEntryPrints(s);
      ParsedAllPrints(rest);
      assert ParseAll(s).value[1..] == ParseAll(rest).value;
    }
  }

  /** A text parses to a list of bindings exactly when it is the printed form of that clean list. */
  lemma ParseIffPrinted(s: string, bs: seq<Binding>)
    ensures Parse(s) == Some(bs) <==> (s == Display(bs) && forall b :: b in bs ==> Clean(b))
  {
    if s == Display(bs) && forall b :: b in bs ==> Clean(b) {
      ParseDisplay(bs);
    }
    if Parse(s) == Some(bs) && s != "" {
      ParsedAllPrints(s + ", ");
      DropSeparator(PrintAll(bs), s);
    }
  }

  // ---------------------------------------------------------------- what a printed list determines

  lemma {:induction false} NormalClean(ports: seq<PortMapping>)
    requires forall p :: p in ports ==> CleanIP(p.hostIP)
    ensures forall b :: b in Normal(ports) ==> Clean(b)
  {
    if ports != [] {
      var port := ports[|ports| - 1];
      NormalClean(ports[..|ports| - 1]);
      BindingsClean(HostIP(port), port, Split(port.protocol, ','));
    }
  }

  lemma {:induction false} BindingsClean(ip: string, port: PortMapping, protocols: seq<string>)
    requires CleanIP(ip) && forall p :: p in protocols ==> ',' !in p
    ensures forall b :: b in Bindings(ip, port, protocols) ==> Clean(b)
  {
    if protocols != [] {
      BindingsClean(ip, port, protocols[..|protocols| - 1]);
    }
  }

  /** The display of a list of mappings parses to the normal form of the list. */
  lemma RoundTrip(ports: seq<PortMapping>)
    ensures (forall p :: p in ports ==> CleanIP(p.hostIP)) ==> Parse(Display(Normal(ports))) == Some(Normal(ports))
  {
    if forall p :: p in ports ==> CleanIP(p.hostIP) {
      NormalClean(ports);
      ParseDisplay(Normal(ports));
    }
  }

  /** Two lists of mappings are displayed alike exactly when they have the same normal form. */
  lemma PrintedAlikeIffSameNormalForm(a: seq<PortMapping>, b: seq<PortMapping>)
    requires forall p :: p in a + b ==> CleanIP(p.hostIP)
    ensures Display(Normal(a)) == Display(Normal(b)) <==> Normal(a) == Normal(b)
  {
    assert forall p :: p in a || p in b ==> p in a + b;
    RoundTrip(a);
    RoundTrip(b);
  }

  // ---------------------------------------------------------------- field by field

  /** Decimal prints no leading zero. */
  lemma {:induction false} NoLeadingZero(n: nat)
    ensures Decimal(n) == "0" || Decimal(n)[0] != '0'
  {
    if n >= 10 {
      NoLeadingZero(n / 10);
      DigitsOfDecimal(n / 10);
      assert DigitsValue("0") == 0;
    }
  }

  /** The end of a range in sixteen bits, and without wrap-around the number that one expects. */
  lemma LastPort(first: uint16, span: uint16)
    requires span >= 1
    ensures Last(first, span) == (first + span - 1) % 65536
    ensures first + span <= 65536 ==> Last(first, span) == first + span - 1
  {
  }

  /** How many entries the first `i` mappings print: one for each piece of a protocol. */
  function EntriesBefore(ports: seq<PortMapping>, i: nat): nat
    requires i <= |ports|
  {
    if i == 0 then 0 else EntriesBefore(ports, i - 1) + |Split(ports[i - 1].protocol, ',')|
  }

  lemma {:induction false} BindingsAt(ip: string, port: PortMapping, protocols: seq<string>, j: nat)
    requires j < |protocols|
    ensures |Bindings(ip, port, protocols)| == |protocols|
    ensures Bindings(ip, port, protocols)[j] == BindingOf(ip, port, protocols[j])
  {
    var n := |protocols| - 1;
    if j < n {
      BindingsAt(ip, port, protocols[..n], j);
    } else if n > 0 {
      BindingsAt(ip, port, protocols[..n], 0);
    }
  }

  lemma {:induction false} NormalLength(ports: seq<PortMapping>)
    ensures |Normal(ports)| == EntriesBefore(ports, |ports|)
  {
    if ports != [] {
      var n := |ports| - 1;
      NormalLength(ports[..n]);
      EntriesOfPrefix(ports, n, n);
      BindingsAt(HostIP(ports[n]), ports[n], Split(ports[n].protocol, ','), 0);
    }
  }

  lemma {:induction false} NormalPrefix(ports: seq<PortMapping>, m: nat)
    requires m <= |ports|
    ensures Normal(ports[..m]) <= Normal(ports)
  {
    if m == |ports| {
      assert ports[..m] == ports;
    } else {
      NormalPrefix(ports[..|ports| - 1], m);
      assert ports[..|ports| - 1][..m] == ports[..m];
    }
  }

  lemma PrefixAt(whole: seq<Binding>, front: seq<Binding>, back: seq<Binding>, k: nat)
    requires front + back <= whole && k < |back|
    ensures |front| + k < |whole| && whole[|front| + k] == back[k]
  {
    assert (front + back)[|front| + k] == back[k];
  }

  lemma NormalAt(ports: seq<PortMapping>, i: nat, j: nat)
    requires i < |ports| && j < |Split(ports[i].protocol, ',')|
    ensures EntriesBefore(ports, i) + j < |Normal(ports)|
    ensures Normal(ports)[EntriesBefore(ports, i) + j] == BindingOf(HostIP(ports[i]), ports[i], Split(ports[i].protocol, ',')[j])
  {
    var protocols := Split(ports[i].protocol, ',');
    NormalStep(ports, i);
    NormalPrefix(ports, i + 1);
    NormalLength(ports[..i]);
    EntriesOfPrefix(ports, i, i);
    BindingsAt(HostIP(ports[i]), ports[i], protocols, j);
    PrefixAt(Normal(ports), Normal(ports[..i]), Bindings(HostIP(ports[i]), ports[i], protocols), j);
  }

  lemma {:induction false} EntriesOfPrefix(ports: seq<PortMapping>, n: nat, i: nat)
    requires i <= n <= |ports|
    ensures EntriesBefore(ports[..n], i) == EntriesBefore(ports, i)
  {
    if i > 0 {
      EntriesOfPrefix(ports, n, i - 1);
    }
  }

  /**
   What a reader of the display finds, in the fields of the mappings themselves:
   the entries come mapping by mapping and protocol by protocol.
   */
  predicate Describes(bs: seq<Binding>, ports: seq<PortMapping>) {
    && |bs| == EntriesBefore(ports, |ports|)
    && forall i, j :: 0 <= i < |ports| && 0 <= j < |Split(ports[i].protocol, ',')| ==> DescribesAt(bs, ports, i, j)
  }

  predicate DescribesAt(bs: seq<Binding>, ports: seq<PortMapping>, i: nat, j: nat)
    requires i < |ports| && j < |Split(ports[i].protocol, ',')|
  {
    var k, port := EntriesBefore(ports, i) + j, ports[i];
    && k < |bs|
    && bs[k].ip == (if port.hostIP == "" then "0.0.0.0" else port.hostIP)
    && bs[k].host == port.hostPort
    && bs[k].container == port.containerPort
    && bs[k].span == (if port.range > 1 then port.range else 1)
    && bs[k].protocol == Split(port.protocol, ',')[j]
  }

  lemma NormalDescribes(ports: seq<PortMapping>)
    ensures Describes(Normal(ports), ports)
  {
    forall i, j | 0 <= i < |ports| && 0 <= j < |Split(ports[i].protocol, ',')| ensures DescribesAt(Normal(ports), ports, i, j) {
      NormalAt(ports, i, j);
    }
    NormalLength(ports);
  }

  /** One mapping with one protocol reads back as one entry with its own fields. */
  lemma OneMappingReadsBack(port: PortMapping)
    requires CleanIP(port.hostIP) && ',' !in port.protocol
    ensures Parse(Display(Normal([port]))) == Some([Binding(
      if port.hostIP == "" then "0.0.0.0" else port.hostIP, port.hostPort, port.containerPort,
      if port.range > 1 then port.range else 1, port.protocol)])
  {
    OneMapping(port);
    RoundTrip([port]);
  }

  /** The text of a range, character by character. */
  lemma RangeDisplay(port: PortMapping)
    requires ',' !in port.protocol && port.range > 1
    ensures Display(Normal([port])) == (if port.hostIP == "" then "0.0.0.0" else port.hostIP)
      + ":" + Decimal(port.hostPort) + "-" + Decimal((port.hostPort + port.range - 1) % 65536)
      + "->" + Decimal(port.containerPort) + "-" + Decimal((port.containerPort + port.range - 1) % 65536)
      + "/" + port.protocol
  {
    OneMapping(port);
    var b := BindingOf(HostIP(port), port, port.protocol);
    var hostEnd, containerEnd := (port.hostPort + port.range - 1) % 65536, (port.containerPort + port.range - 1) % 65536;
    LastPort(port.hostPort, port.range);
    LastPort(port.containerPort, port.range);
    OneDisplayed(b);
    RangePrinted(b, hostEnd, containerEnd);
  }

  lemma RangePrinted(b: Binding, hostEnd: uint16, containerEnd: uint16)
    requires b.span > 1 && hostEnd == Last(b.host, b.span) && containerEnd == Last(b.container, b.span)
    ensures PrintBinding(b) == b.ip + ":" + Decimal(b.host) + "-" + Decimal(hostEnd)
      + "->" + Decimal(b.container) + "-" + Decimal(containerEnd) + "/" + b.protocol
  {
    RangeText(b.ip, Decimal(b.host), Decimal(hostEnd), Decimal(b.container), Decimal(containerEnd), b.protocol);
  }

  /** And of a mapping that is not a range. */
  lemma SingleDisplay(port: PortMapping)
    requires ',' !in port.protocol && port.range <= 1
    ensures Display(Normal([port])) == (if port.hostIP == "" then "0.0.0.0" else port.hostIP)
      + ":" + Decimal(port.hostPort) + "->" + Decimal(port.containerPort) + "/" + port.protocol
  {
    OneMapping(port);
    var b := BindingOf(HostIP(port), port, port.protocol);
    OneDisplayed(b);
    SingleText(b.ip, Decimal(b.host), Decimal(b.container), b.protocol);
  }

  lemma OneDisplayed(b: Binding)
    ensures Display([b]) == PrintBinding(b)
  {
    var p := PrintBinding(b);
    assert [b][1..] == [] && PrintAll([]) == "";
    assert PrintAll([b]) == p + [','] + ([' '] + "");
    assert p + [','] + ([' '] + "") == p + ", ";
    DropSeparator(PrintAll([b]), p);
  }

  /** Entries are separated by ", ". */
  lemma DisplayOfMore(bs: seq<Binding>, b: Binding)
    requires bs != []
    ensures Display(bs + [b]) == Display(bs) + ", " + PrintBinding(b)
  {
    var t := Display(bs) + ", " + PrintBinding(b);
    PrintAllBack(bs, b);
    DisplayEnds(bs);
    assert PrintAll(bs + [b]) == t + ", ";
    assert |t| >= 2 && |PrintAll(bs + [b])| == |t| + 2;
    DropSeparator(PrintAll(bs + [b]), t);
  }

  lemma OneMapping(port: PortMapping)
    requires ',' !in port.protocol
    ensures Normal([port]) == [BindingOf(HostIP(port), port, port.protocol)]
  {
    var protocols := Split(port.protocol, ',');
    assert protocols == [port.protocol];
    assert protocols[..0] == [];
    assert Bindings(HostIP(port), port, protocols[..0]) == [];
    assert [port][..0] == [];
    assert Normal([port][..0]) == [];
  }

  lemma ShiftText(ip: string, h: string, c: string, p: string, h2: string, c2: string, q: string)
    ensures ip + [':'] + h + ['-'] + (['>'] + (c + ['/'] + p)) + [':'] + h2 + ['-'] + (['>'] + (c2 + ['/'] + q))
         == ip + [':'] + h + ['-'] + (['>'] + (c + ['/'] + (p + [':'] + h2 + ['-'] + (['>'] + (c2 + ['/'] + q)))))
  {
    var tail := ['>'] + (c2 + ['/'] + q);
    var head := ip + [':'] + h + ['-'];
    var inner := head + (['>'] + (c + ['/'] + p));
    var rest := [':'] + h2 + ['-'] + tail;
    assert inner + [':'] + h2 + ['-'] + tail == inner + rest;
    assert p + [':'] + h2 + ['-'] + tail == p + rest;
    assert (c + ['/'] + p) + rest == c + ['/'] + (p + rest);
  }

  lemma DashSplitsTwoWays(na: Binding, nb: Binding)
    requires na.span == 1 && nb.span == 1
    requires exists p :: na.ip == nb.ip + [':'] + Decimal(nb.host) + ['-'] + (['>'] + (Decimal(nb.container) + ['/'] + p))
                      && nb.protocol == p + [':'] + Decimal(na.host) + ['-'] + (['>'] + (Decimal(na.container) + ['/'] + na.protocol))
    ensures na != nb && Display([na]) == Display([nb])
  {
    var p :| na.ip == nb.ip + [':'] + Decimal(nb.host) + ['-'] + (['>'] + (Decimal(nb.container) + ['/'] + p))
          && nb.protocol == p + [':'] + Decimal(na.host) + ['-'] + (['>'] + (Decimal(na.container) + ['/'] + na.protocol));
    ShiftText(nb.ip, Decimal(nb.host), Decimal(nb.container), p, Decimal(na.host), Decimal(na.container), na.protocol);
    assert |na.ip| > |nb.ip|;
    assert [na][1..] == [] && [nb][1..] == [];
  }

  /**
   The condition on addresses is needed: an entry whose address contains the
   text of an arrow can be read in two ways, whatever the ports and protocols are.
   */
  lemma ArrowInAddressIsAmbiguous(a: PortMapping, b: PortMapping, p: string)
    requires a.range <= 1 && b.range <= 1 && a.hostIP != "" && b.hostIP != ""
    requires ',' !in a.protocol && ',' !in b.protocol
    requires a.hostIP == b.hostIP + [':'] + Decimal(b.hostPort) + ['-'] + (['>'] + (Decimal(b.containerPort) + ['/'] + p))
    requires b.protocol == p + [':'] + Decimal(a.hostPort) + ['-'] + (['>'] + (Decimal(a.containerPort) + ['/'] + a.protocol))
    ensures Normal([a]) != Normal([b]) && Display(Normal([a])) == Display(Normal([b]))
  {
    OneMapping(a);
    OneMapping(b);
    DashSplitsTwoWays(BindingOf(a.hostIP, a, a.protocol), BindingOf(b.hostIP, b, b.protocol));
  }
}
