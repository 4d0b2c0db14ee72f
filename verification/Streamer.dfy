/**
 The event streamer (pdcs/events.go) as a transition system.

 A supervisor loop makes a channel, overwrites the one shared options variable
 field by field, starts an engine goroutine and a reader goroutine, and blocks
 until some reader reports that its channel was closed. Generations are
 numbered by the channels made. One step is one access to shared state.
 */
module Streamer {
  import opened Common
  import Images

  // ---------------------------------------------------------------- state

  /** What a read result carries: an event about an image or another one, or an error beside a nil event. */
  datatype Kind = ImageEvent | OtherEvent | NilEvent

  /** A read result, stamped with the version the image store had when it was sent. */
  datatype Event = Event(kind: Kind, version: nat)

  /** A channel of capacity one, with the history of what went in and out. */
  datatype Channel = Channel(buffer: seq<Event>, closed: bool, sent: seq<Event>, received: seq<Event>)

  const CAPACITY := 1

  datatype Options = Options(eventChan: Option<nat>, stream: bool, filter: seq<string>)

  /**
   A completed listing: its number in the order listings were begun, the store's
   version when it began and when it ended, and the version it saw or its error.
   */
  datatype Listing = Listing(serial: nat, begun: nat, ended: nat, result: Result<nat, Failure>)

  /** Progress of a goroutine through updateImages: List runs first, then the result is stored under the lock. */
  datatype Work = Idle | Begun(serial: nat, begun: nat) | Ready(listing: Listing)

  datatype Main =
    | Boot(work: Work)
    | MakeChannel
    | SetChan(chan: nat)
    | SetStream(chan: nat)
    | SetFilter(chan: nat)
    | SpawnEngine(chan: nat)
    | SpawnReader(chan: nat)
    | Wait(chan: nat)

  /** An engine goroutine reads the shared options, calls Events with them, and passes on its error. */
  datatype Engine =
    | ReadChan
    | ReadStream(chan: Option<nat>)
    | ReadFilter(chan: Option<nat>, stream: bool)
    | Streaming(opts: Options)
    | Failing(opts: Options)
    | Returned(opts: Options, failed: bool)

  datatype ReaderPc = Select | Updating(work: Work) | Restarting | Done

  /** A reader goroutine has captured the channel of its own iteration. */
  datatype Reader = Reader(chan: nat, pc: ReaderPc)

  /** log.Fatal ends the process, and so does reading the type of a nil event. */
  datatype Fate = Alive | KilledByFatal | KilledByNilEvent

  datatype State = State(
    main: Main,
    opts: Options,
    chans: seq<Channel>,
    engines: seq<Engine>,
    readers: seq<Reader>,
    worlds: seq<seq<Images.Report>>,   // all versions of the image store, the current one last
    listings: nat,                     // listings begun
    published: seq<Listing>,           // listings stored, the visible one last
    fate: Fate)

  datatype Config = Config(updateImage: bool, parse: Images.ReferenceParser)

  function Now(s: State): int { |s.worlds| - 1 }

  function Init(reports: seq<Images.Report>): State {
    State(Boot(Idle), Options(None, false, []), [], [], [], [reports], 0, [], Alive)
  }

  /** The options of generation `g`. */
  function OptionsOf(g: nat): Options { Options(Some(g), true, []) }

  // ---------------------------------------------------------------- steps

  datatype Step =
    | MainRuns(result: Result<nat, Failure>)      // `result` is what a listing that ends now returns
    | EngineRuns(g: nat)
    | EngineSends(g: nat, kind: Kind)
    | EngineCloses(g: nat)
    | EngineReturns(g: nat, failed: bool)
    | ReaderReceives(g: nat)
    | ReaderSeesClose(g: nat)
    | ReaderWorks(g: nat, result: Result<nat, Failure>)
    | Restart(g: nat)                             // rendezvous on restartChannel
    | Fatal(e: nat, g: nat)                       // rendezvous on errChannel
    | StoreChanges(reports: seq<Images.Report>)

  /** A listing sees the store at some moment while it runs, or fails. */
  predicate PossibleResult(s: State, begun: nat, result: Result<nat, Failure>) {
    result.Ok? ==> begun <= result.value <= Now(s)
  }

  function MainNext(cfg: Config, s: State, result: Result<nat, Failure>): State {
    match s.main
    case Boot(Idle) =>
      if cfg.updateImage && Now(s) >= 0
      then s.(main := Boot(Begun(s.listings, Now(s))), listings := s.listings + 1)
      else s.(main := MakeChannel)
    case Boot(Begun(n, begun)) =>
      if PossibleResult(s, begun, result) && Now(s) >= 0
      then s.(main := Boot(Ready(Listing(n, begun, Now(s), result))))
      else s
    case Boot(Ready(listing)) => s.(main := MakeChannel, published := s.published + [listing])
    case MakeChannel => s.(main := SetChan(|s.chans|), chans := s.chans + [Channel([], false, [], [])])
    case SetChan(c) => s.(main := SetStream(c), opts := s.opts.(eventChan := Some(c)))
    case SetStream(c) => s.(main := SetFilter(c), opts := s.opts.(stream := true))
    case SetFilter(c) => s.(main := SpawnEngine(c), opts := s.opts.(filter := []))
    case SpawnEngine(c) => s.(main := SpawnReader(c), engines := s.engines + [ReadChan])
    case SpawnReader(c) => s.(main := Wait(c), readers := s.readers + [Reader(c, Select)])
    case Wait(_) => s
  }

  function EngineNext(s: State, g: nat): State
    requires g < |s.engines|
  {
    match s.engines[g]
    case ReadChan => s.(engines := s.engines[g := ReadStream(s.opts.eventChan)])
    case ReadStream(c) => s.(engines := s.engines[g := ReadFilter(c, s.opts.stream)])
    case ReadFilter(c, stream) => s.(engines := s.engines[g := Streaming(Options(c, stream, s.opts.filter))])
    case _ => s
  }

  predicate Called(e: Engine) { e.Streaming? || e.Failing? || e.Returned? }

  /** Events may use the channel it was given from its call on, even after it returned. */
  predicate MaySend(s: State, g: nat) {
    && g < |s.engines| && Called(s.engines[g]) && s.engines[g].opts.eventChan.Some?
    && s.engines[g].opts.eventChan.value < |s.chans|
    && !s.chans[s.engines[g].opts.eventChan.value].closed
  }

  function ChanOf(s: State, g: nat): nat
    requires MaySend(s, g)
  {
    s.engines[g].opts.eventChan.value
  }

  predicate AtSelect(s: State, g: nat) {
    g < |s.readers| && s.readers[g].pc == Select && s.readers[g].chan < |s.chans|
  }

  function Goto(s: State, g: nat, pc: ReaderPc): State
    requires g < |s.readers|
  {
    s.(readers := s.readers[g := Reader(s.readers[g].chan, pc)])
  }

  function Receive(cfg: Config, s: State, g: nat): State
    requires AtSelect(s, g) && s.chans[s.readers[g].chan].buffer != []
  {
    var c := s.readers[g].chan;
    var ch := s.chans[c];
    var event := ch.buffer[0];
    var s' := s.(chans := s.chans[c := ch.(buffer := ch.buffer[1..], received := ch.received + [event])]);
    if cfg.updateImage && event.kind == NilEvent
    then s'.(fate := KilledByNilEvent)
    else if cfg.updateImage && event.kind == ImageEvent && Now(s) >= 0
    then Goto(s', g, Updating(Begun(s.listings, Now(s)))).(listings := s.listings + 1)
    else s'
  }

  function WorkNext(s: State, g: nat, result: Result<nat, Failure>): State
    requires g < |s.readers| && s.readers[g].pc.Updating?
  {
    match s.readers[g].pc.work
    case Idle => s
    case Begun(n, begun) =>
      if PossibleResult(s, begun, result) && Now(s) >= 0
      then Goto(s, g, Updating(Ready(Listing(n, begun, Now(s), result))))
      else s
    case Ready(listing) => Goto(s, g, Select).(published := s.published + [listing])
  }

  /** A step that is not enabled changes nothing; once the process is dead none is. */
  function Next(cfg: Config, s: State, step: Step): State {
    if s.fate != Alive then s
    else
      match step
      case MainRuns(result) => MainNext(cfg, s, result)
      case EngineRuns(g) => if g < |s.engines| then EngineNext(s, g) else s
      case EngineSends(g, kind) =>
        if MaySend(s, g) && |s.chans[ChanOf(s, g)].buffer| < CAPACITY && Now(s) >= 0 then
          var c := ChanOf(s, g);
          var event := Event(kind, Now(s));
          s.(chans := s.chans[c := s.chans[c].(buffer := s.chans[c].buffer + [event], sent := s.chans[c].sent + [event])])
        else s
      case EngineCloses(g) =>
        if MaySend(s, g) then
          var c := ChanOf(s, g);
          s.(chans := s.chans[c := s.chans[c].(closed := true)])
        else s
      case EngineReturns(g, failed) =>
        if g < |s.engines| && s.engines[g].Streaming? then
          var opts := s.engines[g].opts;
          s.(engines := s.engines[g := if failed then Failing(opts) else Returned(opts, false)])
        else s
      case ReaderReceives(g) =>
        if AtSelect(s, g) && s.chans[s.readers[g].chan].buffer != [] then Receive(cfg, s, g) else s
      case ReaderSeesClose(g) =>
        if AtSelect(s, g) && s.chans[s.readers[g].chan].buffer == [] && s.chans[s.readers[g].chan].closed
        then Goto(s, g, Restarting) else s
      case ReaderWorks(g, result) =>
        if g < |s.readers| && s.readers[g].pc.Updating? then WorkNext(s, g, result) else s
      case Restart(g) =>
        if g < |s.readers| && s.readers[g].pc == Restarting && s.main.Wait?
        then Goto(s, g, Done).(main := MakeChannel) else s
      case Fatal(e, g) =>
        if e < |s.engines| && s.engines[e].Failing? && AtSelect(s, g)
        then s.(engines := s.engines[e := Returned(s.engines[e].opts, true)], fate := KilledByFatal) else s
      case StoreChanges(reports) => s.(worlds := s.worlds + [reports])
  }

  function Run(cfg: Config, s: State, steps: seq<Step>): State {
    if steps == [] then s
    else Next(cfg, Run(cfg, s, steps[..|steps| - 1]), steps[|steps| - 1])
  }

  // ---------------------------------------------------------------- invariant

  /** How many channels, engines and readers there are at each point of the supervisor's loop. */
  predicate Shape(s: State) {
    match s.main
    case Boot(_) => s.chans == [] && s.engines == [] && s.readers == []
    case MakeChannel => |s.engines| == |s.readers| == |s.chans|
    case SetChan(c) => |s.chans| == c + 1 && |s.engines| == |s.readers| == c
    case SetStream(c) => |s.chans| == c + 1 && |s.engines| == |s.readers| == c
    case SetFilter(c) => |s.chans| == c + 1 && |s.engines| == |s.readers| == c
    case SpawnEngine(c) => |s.chans| == c + 1 && |s.engines| == |s.readers| == c
    case SpawnReader(c) => |s.chans| == |s.engines| == c + 1 && |s.readers| == c
    case Wait(c) => |s.chans| == |s.engines| == |s.readers| == c + 1
  }

  predicate OptionsSet(s: State) {
    match s.main
    case SetStream(c) => s.opts.eventChan == Some(c)
    case SetFilter(c) => s.opts.eventChan == Some(c) && s.opts.stream
    case SpawnEngine(c) => s.opts == OptionsOf(c)
    case SpawnReader(c) => s.opts == OptionsOf(c)
    case Wait(c) => s.opts == OptionsOf(c)
    case _ => true
  }

  /** Generation `g` has an engine, and its reader has not let the supervisor go on. */
  predicate Current(s: State, g: nat) { s.main == SpawnReader(g) || s.main == Wait(g) }

  predicate EngineOk(s: State, g: nat)
    requires g < |s.engines|
  {
    match s.engines[g]
    case ReadChan => Current(s, g)
    case ReadStream(c) => Current(s, g) && c == Some(g)
    case ReadFilter(c, stream) => Current(s, g) && c == Some(g) && stream
    case Streaming(opts) => opts == OptionsOf(g)
    case Failing(opts) => opts == OptionsOf(g)
    case Returned(opts, _) => opts == OptionsOf(g)
  }

  predicate EnginesOk(s: State) {
    forall g :: 0 <= g < |s.engines| ==> EngineOk(s, g)
  }

  predicate ChannelOk(s: State, g: nat)
    requires g < |s.chans|
  {
    var ch := s.chans[g];
    && (ch.closed || ch.sent != [] ==> g < |s.engines| && Called(s.engines[g]))
    && ch.sent == ch.received + ch.buffer
    && |ch.buffer| <= CAPACITY
    && (forall e :: e in ch.sent ==> e.version <= Now(s))
  }

  predicate ChannelsOk(s: State) {
    forall g :: 0 <= g < |s.chans| ==> ChannelOk(s, g)
  }

  predicate ReaderOk(s: State, g: nat)
    requires g < |s.readers|
  {
    var r := s.readers[g];
    && r.chan == g < |s.chans|
    && (r.pc == Restarting || r.pc == Done ==> s.chans[g].closed && s.chans[g].buffer == [])
    && (r.pc == Done <==> s.main != Wait(g))
    && (r.pc.Updating? ==> r.pc.work != Idle)
  }

  predicate ReadersOk(s: State) {
    forall g :: 0 <= g < |s.readers| ==> ReaderOk(s, g)
  }

  /** The one call of updateImages that may be in progress. */
  function CurrentWork(s: State): Work {
    if s.main.Boot? then s.main.work
    else if s.main.Wait? && s.main.chan < |s.readers| && s.readers[s.main.chan].pc.Updating?
    then s.readers[s.main.chan].pc.work
    else Idle
  }

  predicate ListingOk(s: State, l: Listing) {
    && l.begun <= l.ended <= Now(s)
    && (l.result.Ok? ==> l.begun <= l.result.value <= l.ended)
  }

  predicate HistoryOk(s: State) {
    && (forall k :: 0 <= k < |s.published| ==> s.published[k].serial == k && ListingOk(s, s.published[k]))
    && (forall k, l :: 0 <= k < l < |s.published| ==> s.published[k].ended <= s.published[l].begun)
  }

  predicate WorkOk(s: State) {
    match CurrentWork(s)
    case Idle => s.listings == |s.published|
    case Begun(n, begun) =>
      && s.listings == |s.published| + 1 && n == |s.published| && begun <= Now(s)
      && (forall k :: 0 <= k < |s.published| ==> s.published[k].ended <= begun)
    case Ready(l) =>
      && s.listings == |s.published| + 1 && l.serial == |s.published| && ListingOk(s, l)
      && (forall k :: 0 <= k < |s.published| ==> s.published[k].ended <= l.begun)
  }

  /** One listing at the start, and then one for each image event, begun when it was consumed. */
  predicate TriggersOk(cfg: Config, s: State) {
    if cfg.updateImage then s.listings == ImagesConsumed(s.chans) + if s.main == Boot(Idle) then 0 else 1
    else s.listings == 0 && !(s.main.Boot? && s.main.work.Begun?)
  }

  function ImagesIn(events: seq<Event>): nat {
    if events == [] then 0
    else ImagesIn(events[..|events| - 1]) + if events[|events| - 1].kind == ImageEvent then 1 else 0
  }

  /** How many image events readers have consumed, over all generations. */
  function ImagesConsumed(chans: seq<Channel>): nat {
    if chans == [] then 0
    else ImagesConsumed(chans[..|chans| - 1]) + ImagesIn(chans[|chans| - 1].received)
  }

  lemma {:induction false} ConsumedUpdate(chans: seq<Channel>, c: nat, ch: Channel)
    requires c < |chans|
    ensures ImagesConsumed(chans[c := ch]) == ImagesConsumed(chans) - ImagesIn(chans[c].received) + ImagesIn(ch.received)
  {
    var n := |chans| - 1;
    if c < n {
      ConsumedUpdate(chans[..n], c, ch);
      assert chans[c := ch][..n] == chans[..n][c := ch];
    } else {
      assert chans[c := ch][..n] == chans[..n];
    }
  }

  lemma ImagesInOneMore(events: seq<Event>, event: Event)
    ensures ImagesIn(events + [event]) == ImagesIn(events) + if event.kind == ImageEvent then 1 else 0
  {
    assert (events + [event])[..|events|] == events;
  }

  /** When the newest listing began: the one in progress, or else the visible one. */
  function NewestListing(s: State): int {
    match CurrentWork(s)
    case Begun(_, begun) => begun
    case Ready(l) => l.begun
    case Idle => if s.published == [] then -1 else s.published[|s.published| - 1].begun
  }

  predicate FreshChannel(s: State, g: nat)
    requires g < |s.chans|
  {
    forall e :: e in s.chans[g].received && e.kind == ImageEvent ==> e.version <= NewestListing(s)
  }

  predicate Fresh(cfg: Config, s: State) {
    if cfg.updateImage then forall g :: 0 <= g < |s.chans| ==> FreshChannel(s, g)
    else s.published == [] && CurrentWork(s) == Idle
  }

  /** The goroutine of this engine has passed the error of Events on. */
  predicate Reported(e: Engine) { e.Returned? && e.failed }

  predicate NilConsumed(ch: Channel) {
    exists k :: 0 <= k < |ch.received| && ch.received[k].kind == NilEvent
  }

  predicate FatalOk(s: State) {
    s.fate == KilledByFatal <==> exists e :: 0 <= e < |s.engines| && Reported(s.engines[e])
  }

  /** With images on, a nil event is consumed at most once, and that is the end. */
  predicate NilOk(cfg: Config, s: State) {
    && (s.fate == KilledByNilEvent ==> cfg.updateImage && exists c :: 0 <= c < |s.chans| && NilConsumed(s.chans[c]))
    && (cfg.updateImage ==>
        forall c: nat :: c < |s.chans| && NilConsumed(s.chans[c]) ==> s.fate == KilledByNilEvent && s.main == Wait(c))
  }

  predicate Structure(s: State) {
    s.worlds != [] && Shape(s) && OptionsSet(s) && EnginesOk(s) && ChannelsOk(s) && ReadersOk(s)
  }

  predicate Inv(cfg: Config, s: State) {
    && Structure(s)
    && HistoryOk(s) && WorkOk(s) && TriggersOk(cfg, s) && Fresh(cfg, s) && FatalOk(s) && NilOk(cfg, s)
  }

  lemma InvInit(cfg: Config, reports: seq<Images.Report>)
    ensures Inv(cfg, Init(reports))
  {
  }

  // Each step keeps each part of the invariant.

  predicate ByReader(step: Step) {
    step.ReaderReceives? || step.ReaderSeesClose? || step.ReaderWorks? || step.Restart?
  }

  lemma ShapeByMain(cfg: Config, s: State, step: Step)
    requires step.MainRuns?
    requires Structure(s)
    ensures Shape(Next(cfg, s, step)) && OptionsSet(Next(cfg, s, step)) && Next(cfg, s, step).worlds != []
  {
  }

  lemma ShapeByReader(cfg: Config, s: State, step: Step)
    requires ByReader(step)
    requires Structure(s)
    ensures Shape(Next(cfg, s, step)) && OptionsSet(Next(cfg, s, step)) && Next(cfg, s, step).worlds != []
  {
    if step.g < |s.readers| {
      assert ReaderOk(s, step.g);
    }
  }

  lemma ShapeByOther(cfg: Config, s: State, step: Step)
    requires !step.MainRuns? && !ByReader(step)
    requires Structure(s)
    ensures Shape(Next(cfg, s, step)) && OptionsSet(Next(cfg, s, step)) && Next(cfg, s, step).worlds != []
  {
  }

  lemma EnginesByMain(cfg: Config, s: State, step: Step)
    requires step.MainRuns?
    requires Structure(s)
    ensures EnginesOk(Next(cfg, s, step))
  {
    var s' := Next(cfg, s, step);
    forall g | 0 <= g < |s'.engines| ensures EngineOk(s', g) {
      assert g < |s.engines| ==> EngineOk(s, g);
    }
  }

  lemma EnginesByReader(cfg: Config, s: State, step: Step)
    requires ByReader(step)
    requires Structure(s)
    ensures EnginesOk(Next(cfg, s, step))
  {
    if step.g < |s.readers| {
      assert ReaderOk(s, step.g) && ChannelOk(s, step.g);
    }
    var s' := Next(cfg, s, step);
    forall g | 0 <= g < |s'.engines| ensures EngineOk(s', g) {
      assert g < |s.engines| ==> EngineOk(s, g);
    }
  }

  lemma EnginesByOther(cfg: Config, s: State, step: Step)
    requires !step.MainRuns? && !ByReader(step)
    requires Structure(s)
    ensures EnginesOk(Next(cfg, s, step))
  {
    var s' := Next(cfg, s, step);
    forall g | 0 <= g < |s'.engines| ensures EngineOk(s', g) {
      assert g < |s.engines| ==> EngineOk(s, g);
    }
  }

  lemma ChannelsByMain(cfg: Config, s: State, step: Step)
    requires step.MainRuns?
    requires Structure(s)
    ensures ChannelsOk(Next(cfg, s, step))
  {
    var s' := Next(cfg, s, step);
    forall g | 0 <= g < |s'.chans| ensures ChannelOk(s', g) {
      assert g < |s.chans| ==> ChannelOk(s, g);
    }
  }

  lemma ChannelsByReader(cfg: Config, s: State, step: Step)
    requires ByReader(step)
    requires Structure(s)
    ensures ChannelsOk(Next(cfg, s, step))
  {
    var s' := Next(cfg, s, step);
    if step.ReaderReceives? {
      if s.fate == Alive && AtSelect(s, step.g) && s.chans[s.readers[step.g].chan].buffer != [] {
        ChannelsByReceive(cfg, s, step.g);
      }
    } else {
      forall g | 0 <= g < |s'.chans| ensures ChannelOk(s', g) {
        assert ChannelOk(s, g);
      }
    }
  }

  lemma ChannelsByReceive(cfg: Config, s: State, r: nat)
    requires Structure(s) && AtSelect(s, r) && s.chans[s.readers[r].chan].buffer != []
    ensures ChannelsOk(Receive(cfg, s, r))
  {
    var s' := Receive(cfg, s, r);
    forall g | 0 <= g < |s'.chans| ensures ChannelOk(s', g) {
      assert ChannelOk(s, g);
    }
  }

  lemma ChannelsByOther(cfg: Config, s: State, step: Step)
    requires !step.MainRuns? && !ByReader(step)
    requires Structure(s)
    ensures ChannelsOk(Next(cfg, s, step))
  {
    if (step.EngineSends? || step.EngineCloses?) && MaySend(s, step.g) {
      assert EngineOk(s, step.g);
    }
    var s' := Next(cfg, s, step);
    forall g | 0 <= g < |s'.chans| ensures ChannelOk(s', g) {
      assert g < |s.chans| ==> ChannelOk(s, g);
    }
  }

  lemma ReadersByMain(cfg: Config, s: State, step: Step)
    requires step.MainRuns?
    requires Structure(s)
    ensures ReadersOk(Next(cfg, s, step))
  {
    var s' := Next(cfg, s, step);
    forall g | 0 <= g < |s'.readers| ensures ReaderOk(s', g) {
      assert g < |s.readers| ==> ReaderOk(s, g);
      assert g < |s.chans| ==> ChannelOk(s, g);
    }
  }

  lemma ReadersByReader(cfg: Config, s: State, step: Step)
    requires ByReader(step)
    requires Structure(s)
    ensures ReadersOk(Next(cfg, s, step))
  {
    if step.g < |s.readers| {
      assert ReaderOk(s, step.g);
    }
    var s' := Next(cfg, s, step);
    forall g | 0 <= g < |s'.readers| ensures ReaderOk(s', g) {
      assert g < |s.readers| ==> ReaderOk(s, g);
      assert g < |s.chans| ==> ChannelOk(s, g);
    }
  }

  lemma ReadersByOther(cfg: Config, s: State, step: Step)
    requires !step.MainRuns? && !ByReader(step)
    requires Structure(s)
    ensures ReadersOk(Next(cfg, s, step))
  {
    var s' := Next(cfg, s, step);
    forall g | 0 <= g < |s'.readers| ensures ReaderOk(s', g) {
      assert g < |s.readers| ==> ReaderOk(s, g);
      assert g < |s.chans| ==> ChannelOk(s, g);
    }
  }

  lemma ListsByMain(cfg: Config, s: State, step: Step)
    requires step.MainRuns?
    requires s.worlds != [] && Shape(s) && ReadersOk(s) && HistoryOk(s) && WorkOk(s)
    ensures HistoryOk(Next(cfg, s, step)) && WorkOk(Next(cfg, s, step))
  {
  }

  lemma ListsByReader(cfg: Config, s: State, step: Step)
    requires ByReader(step)
    requires s.worlds != [] && Shape(s) && ReadersOk(s) && HistoryOk(s) && WorkOk(s)
    ensures HistoryOk(Next(cfg, s, step)) && WorkOk(Next(cfg, s, step))
  {
    if step.g < |s.readers| {
      assert ReaderOk(s, step.g);
    }
  }

  lemma ListsByOther(cfg: Config, s: State, step: Step)
    requires !step.MainRuns? && !ByReader(step)
    requires s.worlds != [] && Shape(s) && ReadersOk(s) && HistoryOk(s) && WorkOk(s)
    ensures HistoryOk(Next(cfg, s, step)) && WorkOk(Next(cfg, s, step))
  {
    ListsKept(s, Next(cfg, s, step));
  }

  /** Nothing but the store may have changed. */
  lemma ListsKept(s: State, s': State)
    requires HistoryOk(s) && WorkOk(s)
    requires s'.main == s.main && s'.readers == s.readers && s'.published == s.published && s'.listings == s.listings
    requires Now(s') >= Now(s)
    ensures HistoryOk(s') && WorkOk(s')
  {
    forall k | 0 <= k < |s'.published| ensures s'.published[k].serial == k && ListingOk(s', s'.published[k]) {
      assert ListingOk(s, s.published[k]);
    }
    assert CurrentWork(s') == CurrentWork(s);
  }

  lemma TriggersByMain(cfg: Config, s: State, step: Step)
    requires step.MainRuns?
    requires s.worlds != [] && Shape(s) && ReadersOk(s) && TriggersOk(cfg, s)
    ensures TriggersOk(cfg, Next(cfg, s, step))
  {
    var s' := Next(cfg, s, step);
    if |s'.chans| > |s.chans| {
      assert s'.chans[..|s.chans|] == s.chans;
    }
  }

  lemma FreshByMain(cfg: Config, s: State, step: Step)
    requires step.MainRuns?
    requires s.worlds != [] && Shape(s) && ChannelsOk(s) && ReadersOk(s) && HistoryOk(s) && WorkOk(s) && Fresh(cfg, s)
    ensures Fresh(cfg, Next(cfg, s, step))
  {
    var s' := Next(cfg, s, step);
    if cfg.updateImage {
      forall g | 0 <= g < |s'.chans| ensures FreshChannel(s', g) {
        assert g < |s.chans| ==> FreshChannel(s, g);
        assert g < |s.chans| ==> ChannelOk(s, g);
      }
    }
  }

  lemma TriggersByReceive(cfg: Config, s: State, g: nat)
    requires AtSelect(s, g) && s.chans[s.readers[g].chan].buffer != []
    requires s.worlds != [] && !s.main.Boot? && TriggersOk(cfg, s)
    ensures TriggersOk(cfg, Receive(cfg, s, g))
  {
    var c := s.readers[g].chan;
    var ch := s.chans[c];
    ConsumedUpdate(s.chans, c, Receive(cfg, s, g).chans[c]);
    ImagesInOneMore(ch.received, ch.buffer[0]);
  }

  lemma TriggersByReader(cfg: Config, s: State, step: Step)
    requires ByReader(step)
    requires s.worlds != [] && Shape(s) && ReadersOk(s) && TriggersOk(cfg, s)
    ensures TriggersOk(cfg, Next(cfg, s, step))
  {
    if step.g < |s.readers| {
      assert ReaderOk(s, step.g);
      if step.ReaderReceives? && s.fate == Alive && AtSelect(s, step.g) && s.chans[s.readers[step.g].chan].buffer != [] {
        TriggersByReceive(cfg, s, step.g);
      }
    }
  }

  lemma FreshByReader(cfg: Config, s: State, step: Step)
    requires ByReader(step)
    requires s.worlds != [] && Shape(s) && ChannelsOk(s) && ReadersOk(s) && HistoryOk(s) && WorkOk(s) && Fresh(cfg, s)
    ensures Fresh(cfg, Next(cfg, s, step))
  {
    if step.ReaderReceives? {
      if s.fate == Alive && AtSelect(s, step.g) && s.chans[s.readers[step.g].chan].buffer != [] {
        FreshByReceive(cfg, s, step.g);
      }
    } else {
      FreshByStep(cfg, s, step);
    }
  }

  lemma FreshByStep(cfg: Config, s: State, step: Step)
    requires ByReader(step) && !step.ReaderReceives?
    requires Shape(s) && ReadersOk(s) && WorkOk(s) && Fresh(cfg, s)
    ensures Fresh(cfg, Next(cfg, s, step))
  {
    if step.g < |s.readers| {
      assert ReaderOk(s, step.g);
    }
    var s' := Next(cfg, s, step);
    if cfg.updateImage {
      forall g | 0 <= g < |s'.chans| ensures FreshChannel(s', g) {
        assert FreshChannel(s, g);
      }
    }
  }

  lemma FreshByReceive(cfg: Config, s: State, r: nat)
    requires AtSelect(s, r) && s.chans[s.readers[r].chan].buffer != []
    requires s.worlds != [] && ChannelsOk(s) && ReadersOk(s) && HistoryOk(s) && Fresh(cfg, s)
    ensures Fresh(cfg, Receive(cfg, s, r))
  {
    assert ReaderOk(s, r);
    var s' := Receive(cfg, s, r);
    if cfg.updateImage {
      forall g | 0 <= g < |s'.chans| ensures FreshChannel(s', g) {
        assert FreshChannel(s, g) && ChannelOk(s, g);
      }
    }
  }

  lemma TriggersByOther(cfg: Config, s: State, step: Step)
    requires !step.MainRuns? && !ByReader(step)
    requires s.worlds != [] && Shape(s) && ReadersOk(s) && TriggersOk(cfg, s)
    ensures TriggersOk(cfg, Next(cfg, s, step))
  {
    if (step.EngineSends? || step.EngineCloses?) && MaySend(s, step.g) {
      var c := ChanOf(s, step.g);
      ConsumedUpdate(s.chans, c, Next(cfg, s, step).chans[c]);
      assert s.chans[c := s.chans[c]] == s.chans;
    }
  }

  lemma FreshByOther(cfg: Config, s: State, step: Step)
    requires !step.MainRuns? && !ByReader(step)
    requires s.worlds != [] && Shape(s) && ChannelsOk(s) && ReadersOk(s) && HistoryOk(s) && WorkOk(s) && Fresh(cfg, s)
    ensures Fresh(cfg, Next(cfg, s, step))
  {
    var s' := Next(cfg, s, step);
    if cfg.updateImage {
      forall g | 0 <= g < |s'.chans| ensures FreshChannel(s', g) {
        assert g < |s.chans| ==> FreshChannel(s, g);
        assert g < |s.chans| ==> ChannelOk(s, g);
      }
    }
  }

  lemma FatalNext(cfg: Config, s: State, step: Step)
    requires FatalOk(s)
    ensures FatalOk(Next(cfg, s, step))
  {
    var s' := Next(cfg, s, step);
    if s.fate == Alive {
      if step.Fatal? && s' != s {
        assert Reported(s'.engines[step.e]);
      }
      forall e | 0 <= e < |s'.engines| && Reported(s'.engines[e]) ensures s'.fate == KilledByFatal {
        assert e < |s.engines| ==> !Reported(s.engines[e]);
      }
    }
  }

  /** A step that consumes nothing. */
  lemma NilByOther(cfg: Config, s: State, step: Step)
    requires !step.ReaderReceives? && Structure(s) && NilOk(cfg, s)
    ensures NilOk(cfg, Next(cfg, s, step))
  {
    var s' := Next(cfg, s, step);
    forall c: nat | c < |s'.chans| ensures NilConsumed(s'.chans[c]) <==> c < |s.chans| && NilConsumed(s.chans[c]) {
      assert if c < |s.chans| then s'.chans[c].received == s.chans[c].received else s'.chans[c].received == [];
    }
  }

  lemma NilByReceive(cfg: Config, s: State, step: Step)
    requires step.ReaderReceives? && Structure(s) && NilOk(cfg, s)
    ensures NilOk(cfg, Next(cfg, s, step))
  {
    var g, s' := step.g, Next(cfg, s, step);
    if s.fate == Alive && AtSelect(s, g) && s.chans[s.readers[g].chan].buffer != [] {
      assert ReaderOk(s, g);
      var was, now, event := s.chans[g].received, s'.chans[g].received, s.chans[g].buffer[0];
      assert now == was + [event];
      if event.kind == NilEvent {
        assert now[|was|].kind == NilEvent;
        assert NilConsumed(s'.chans[g]);
      }
      forall c: nat | c < |s'.chans| && NilConsumed(s'.chans[c]) ensures NilConsumed(s.chans[c]) || (c == g && event.kind == NilEvent) {
        if c == g && event.kind != NilEvent {
          var k :| 0 <= k < |now| && now[k].kind == NilEvent;
          assert was[k].kind == NilEvent;
        }
      }
    }
  }

  lemma InvNext(cfg: Config, s: State, step: Step)
    requires Inv(cfg, s)
    ensures Inv(cfg, Next(cfg, s, step))
  {
    if step.MainRuns? {
      ShapeByMain(cfg, s, step);
      EnginesByMain(cfg, s, step);
      ChannelsByMain(cfg, s, step);
      ReadersByMain(cfg, s, step);
      ListsByMain(cfg, s, step);
      TriggersByMain(cfg, s, step);
      FreshByMain(cfg, s, step);
    } else if ByReader(step) {
      ShapeByReader(cfg, s, step);
      EnginesByReader(cfg, s, step);
      ChannelsByReader(cfg, s, step);
      ReadersByReader(cfg, s, step);
      ListsByReader(cfg, s, step);
      TriggersByReader(cfg, s, step);
      FreshByReader(cfg, s, step);
    } else {
      ShapeByOther(cfg, s, step);
      EnginesByOther(cfg, s, step);
      ChannelsByOther(cfg, s, step);
      ReadersByOther(cfg, s, step);
      ListsByOther(cfg, s, step);
      TriggersByOther(cfg, s, step);
      FreshByOther(cfg, s, step);
    }
    FatalNext(cfg, s, step);
    if step.ReaderReceives? {
      NilByReceive(cfg, s, step);
    } else {
      NilByOther(cfg, s, step);
    }
  }

  lemma {:induction false} InvFrom(cfg: Config, s: State, steps: seq<Step>)
    requires Inv(cfg, s)
    ensures Inv(cfg, Run(cfg, s, steps))
  {
    if steps != [] {
      InvFrom(cfg, s, steps[..|steps| - 1]);
      InvNext(cfg, Run(cfg, s, steps[..|steps| - 1]), steps[|steps| - 1]);
    }
  }

  lemma InvRun(cfg: Config, reports: seq<Images.Report>, steps: seq<Step>)
    ensures Inv(cfg, Run(cfg, Init(reports), steps))
  {
    InvInit(cfg, reports);
    InvFrom(cfg, Init(reports), steps);
  }

  // ---------------------------------------------------------------- what holds in every run

  /**
   The options variable is shared by all generations, but an engine that has not
   called Events yet sees its own generation's options in it, the supervisor
   cannot write to it next, and what an engine subscribed with is its own channel.
   */
  lemma OptionsNeverRace(cfg: Config, reports: seq<Images.Report>, steps: seq<Step>, g: nat, result: Result<nat, Failure>)
    requires g < |Run(cfg, Init(reports), steps).engines|
    ensures var s := Run(cfg, Init(reports), steps);
      && g < |s.chans|
      && (!Called(s.engines[g]) ==>
            s.opts == Options(Some(g), true, []) && MainNext(cfg, s, result).opts == s.opts && !s.chans[g].closed)
      && (Called(s.engines[g]) ==> s.engines[g].opts == Options(Some(g), true, []))
  {
    InvRun(cfg, reports, steps);
    var s := Run(cfg, Init(reports), steps);
    assert EngineOk(s, g) && ChannelOk(s, g);
  }

  /** Only the engine goroutine of generation `c` ever sends on, or closes, channel `c`. */
  lemma OnlyOwnEngineUsesChannel(cfg: Config, reports: seq<Images.Report>, steps: seq<Step>, step: Step, c: nat)
    requires c < |Run(cfg, Init(reports), steps).chans|
    ensures var s := Run(cfg, Init(reports), steps);
      var s' := Next(cfg, s, step);
      && c < |s'.chans|
      && (s'.chans[c].closed != s.chans[c].closed ==> step == EngineCloses(c))
      && (s'.chans[c].sent != s.chans[c].sent ==> step.EngineSends? && step.g == c)
  {
    InvRun(cfg, reports, steps);
    OwnChannel(cfg, Run(cfg, Init(reports), steps), step, c);
  }

  lemma OwnChannel(cfg: Config, s: State, step: Step, c: nat)
    requires Inv(cfg, s) && c < |s.chans|
    ensures var s' := Next(cfg, s, step);
      && c < |s'.chans|
      && (s'.chans[c].closed != s.chans[c].closed ==> step == EngineCloses(c))
      && (s'.chans[c].sent != s.chans[c].sent ==> step.EngineSends? && step.g == c)
  {
    if step.EngineSends? || step.EngineCloses? {
      if MaySend(s, step.g) {
        assert EngineOk(s, step.g);
      }
    } else {
      OthersLeaveChannel(cfg, s, step, c);
    }
  }

  lemma OthersLeaveChannel(cfg: Config, s: State, step: Step, c: nat)
    requires !step.EngineSends? && !step.EngineCloses? && c < |s.chans|
    ensures var s' := Next(cfg, s, step);
      c < |s'.chans| && s'.chans[c].closed == s.chans[c].closed && s'.chans[c].sent == s.chans[c].sent
  {
  }

  /**
   The supervisor leaves generation `c` only by meeting its own reader, after
   the engine of `c` closed the channel and everything sent on it was consumed.
   */
  lemma AdvancesOnlyAfterClose(cfg: Config, reports: seq<Images.Report>, steps: seq<Step>, step: Step, c: nat)
    requires Run(cfg, Init(reports), steps).main == Wait(c)
    requires Next(cfg, Run(cfg, Init(reports), steps), step).main != Wait(c)
    ensures var s := Run(cfg, Init(reports), steps);
      && step == Restart(c)
      && c < |s.chans| && s.chans[c].closed && s.chans[c].sent == s.chans[c].received
      && c < |s.engines| && Called(s.engines[c])
  {
    InvRun(cfg, reports, steps);
    var s := Run(cfg, Init(reports), steps);
    assert ReaderOk(s, step.g) && ChannelOk(s, step.g);
  }

  /** A reader that is, or can get back, at its select or in updateImages. */
  predicate Live(r: Reader) { r.pc == Select || r.pc.Updating? }

  /** At most one goroutine can call updateImages: the supervisor before its loop, then one live reader. */
  lemma SingleUpdater(cfg: Config, reports: seq<Images.Report>, steps: seq<Step>, g: nat)
    requires g < |Run(cfg, Init(reports), steps).readers| && Live(Run(cfg, Init(reports), steps).readers[g])
    ensures var s := Run(cfg, Init(reports), steps);
      && s.main == Wait(g)
      && forall h :: 0 <= h < |s.readers| && h != g ==> s.readers[h].pc == Done
  {
    InvRun(cfg, reports, steps);
    var s := Run(cfg, Init(reports), steps);
    assert ReaderOk(s, g);
    forall h | 0 <= h < |s.readers| && h != g ensures s.readers[h].pc == Done {
      assert ReaderOk(s, h);
    }
  }

  /** A reader that has seen its channel closed never calls updateImages again. */
  lemma {:induction false} RetiredForever(cfg: Config, s: State, steps: seq<Step>, g: nat)
    requires g < |s.readers| && !Live(s.readers[g])
    ensures g < |Run(cfg, s, steps).readers| && !Live(Run(cfg, s, steps).readers[g])
  {
    if steps != [] {
      RetiredForever(cfg, s, steps[..|steps| - 1], g);
    }
  }

  /** What Images() returns. */
  function Visible(cfg: Config, s: State): Result<seq<Images.Image>, Failure>
    requires Inv(cfg, s)
  {
    if s.published == [] then Ok([])
    else
      match s.published[|s.published| - 1].result
      case Err(e) => Err(e)
      case Ok(v) => Ok(Images.Published(cfg.parse, s.worlds[v]))
  }

  /**
   Listings are stored in the order in which they were begun, none overlapping
   the next, so the visible list never goes back to an older state of the store.
   */
  lemma PublishedInOrder(cfg: Config, reports: seq<Images.Report>, steps: seq<Step>, k: nat, l: nat)
    requires k < l < |Run(cfg, Init(reports), steps).published|
    ensures var p := Run(cfg, Init(reports), steps).published;
      && p[k].serial == k && p[l].serial == l
      && p[k].begun <= p[k].ended <= p[l].begun <= p[l].ended
      && (p[k].result.Ok? && p[l].result.Ok? ==> p[k].result.value <= p[l].result.value)
  {
    InvRun(cfg, reports, steps);
  }

  /**
   Whenever a reader is back at its select, one listing has been stored for each
   image event consumed in this or an earlier generation, and one for the start;
   the visible one began at a version of the store at least as new as every image
   event consumed, and what Images() returns is that or a newer version, or its error.
   */
  lemma FreshAtSelect(cfg: Config, reports: seq<Images.Report>, steps: seq<Step>, g: nat)
    requires cfg.updateImage
    requires AtSelect(Run(cfg, Init(reports), steps), g)
    ensures UpToDate(cfg, Run(cfg, Init(reports), steps))
  {
    InvRun(cfg, reports, steps);
    UpToDateAtSelect(cfg, Run(cfg, Init(reports), steps), g);
  }

  ghost predicate UpToDate(cfg: Config, s: State) {
    && Inv(cfg, s)
    && |s.published| == 1 + ImagesConsumed(s.chans)
    && NewestSince(s, s.published[|s.published| - 1].begun)
    && ShowsListing(cfg, s, s.published[|s.published| - 1])
  }

  lemma UpToDateAtSelect(cfg: Config, s: State, g: nat)
    requires cfg.updateImage && Inv(cfg, s) && AtSelect(s, g)
    ensures UpToDate(cfg, s)
  {
    IdleAtSelect(cfg, s, g);
    NewestAtSelect(cfg, s);
    VisibleIsLast(cfg, s);
  }

  /** No image event consumed in any generation is newer than this version of the store. */
  predicate NewestSince(s: State, version: nat) {
    forall c, k :: 0 <= c < |s.chans| && 0 <= k < |s.chans[c].received| && s.chans[c].received[k].kind == ImageEvent
      ==> s.chans[c].received[k].version <= version
  }

  /** Images() returns what this listing found: its error, or the rows of a version not older than its begin. */
  ghost predicate ShowsListing(cfg: Config, s: State, l: Listing)
    requires Inv(cfg, s)
  {
    match l.result
    case Err(e) => Visible(cfg, s) == Err(e)
    case Ok(v) => l.begun <= v < |s.worlds| && Visible(cfg, s) == Ok(Images.Published(cfg.parse, s.worlds[v]))
  }

  lemma NewestAtSelect(cfg: Config, s: State)
    requires cfg.updateImage && Fresh(cfg, s) && s.published != []
    requires NewestListing(s) == s.published[|s.published| - 1].begun
    ensures NewestSince(s, s.published[|s.published| - 1].begun)
  {
    forall c, k | 0 <= c < |s.chans| && 0 <= k < |s.chans[c].received| && s.chans[c].received[k].kind == ImageEvent
      ensures s.chans[c].received[k].version <= s.published[|s.published| - 1].begun
    {
      assert FreshChannel(s, c);
      assert s.chans[c].received[k] in s.chans[c].received;
    }
  }

  lemma VisibleIsLast(cfg: Config, s: State)
    requires Inv(cfg, s) && s.published != []
    ensures ShowsListing(cfg, s, s.published[|s.published| - 1])
  {
    assert ListingOk(s, s.published[|s.published| - 1]);
  }

  /** No listing is in progress, and the last one stored is the newest. */
  lemma IdleAtSelect(cfg: Config, s: State, g: nat)
    requires cfg.updateImage && Inv(cfg, s) && AtSelect(s, g)
    ensures CurrentWork(s) == Idle && s.listings == |s.published| == 1 + ImagesConsumed(s.chans)
    ensures NewestListing(s) == s.published[|s.published| - 1].begun
  {
    assert ReaderOk(s, g);
  }

  /**
   What consuming a read result does: an image event begins one listing, with images on;
   any other result, and any result with images off, begins none, stores none, and leaves
   the reader at its select and what Images() returns as they were.
   */
  lemma ConsumeEffect(cfg: Config, s: State, g: nat)
    requires Inv(cfg, s) && s.fate == Alive && AtSelect(s, g) && s.chans[s.readers[g].chan].buffer != []
    ensures var event := s.chans[s.readers[g].chan].buffer[0];
      var s' := Next(cfg, s, ReaderReceives(g));
      && s'.published == s.published && s'.worlds == s.worlds && s'.main == s.main
      && g < |s.chans| == |s'.chans| && s'.chans[g].received == s.chans[g].received + [event]
      && if cfg.updateImage && event.kind == ImageEvent
         then s'.listings == s.listings + 1 && s'.readers == s.readers[g := Reader(g, Updating(Begun(s.listings, |s.worlds| - 1)))]
         else s'.listings == s.listings && s'.readers == s.readers
  {
    assert ReaderOk(s, g);
  }

  /** A send puts the event behind the channel's history, stamped with the current version, if the one place is free. */
  lemma SendEffect(cfg: Config, s: State, g: nat, kind: Kind)
    requires Inv(cfg, s) && s.fate == Alive && MaySend(s, g)
    ensures var s' := Next(cfg, s, EngineSends(g, kind));
      && g < |s.chans| == |s'.chans|
      && s'.chans[g].sent == s.chans[g].sent + (if s.chans[g].buffer == [] then [Event(kind, |s.worlds| - 1)] else [])
      && s'.chans[g].received == s.chans[g].received
  {
    assert EngineOk(s, g);
  }

  /** With images off nothing is ever listed or stored. */
  lemma ImagesOff(cfg: Config, reports: seq<Images.Report>, steps: seq<Step>)
    requires !cfg.updateImage
    ensures var s := Run(cfg, Init(reports), steps); s.listings == 0 && s.published == []
  {
    InvRun(cfg, reports, steps);
  }

  /** No event that an engine delivered to its channel is lost when the supervisor moves on to the next one. */
  lemma NoEventLost(cfg: Config, reports: seq<Images.Report>, steps: seq<Step>, g: nat)
    requires g < |Run(cfg, Init(reports), steps).chans|
    ensures var s := Run(cfg, Init(reports), steps);
      && |s.chans[g].sent| <= |s.chans[g].received| + 1
      && s.chans[g].received <= s.chans[g].sent
      && (g + 1 < |s.chans| ==> s.chans[g].received == s.chans[g].sent)
  {
    InvRun(cfg, reports, steps);
    var s := Run(cfg, Init(reports), steps);
    assert ChannelOk(s, g);
    if g + 1 < |s.chans| {
      assert ReaderOk(s, g);
    }
  }

  /**
   The process is dead exactly when some generation passed an error of its Events
   call on, or, with images on, some reader consumed a nil event; and these two
   ends exclude each other.
   */
  lemma DeadIff(cfg: Config, reports: seq<Images.Report>, steps: seq<Step>)
    ensures var s := Run(cfg, Init(reports), steps);
      && (s.fate == KilledByFatal <==> exists e: nat :: e < |s.engines| && s.engines[e] == Returned(OptionsOf(e), true))
      && (s.fate == KilledByNilEvent <==> cfg.updateImage && exists c: nat :: c < |s.chans| && NilConsumed(s.chans[c]))
  {
    InvRun(cfg, reports, steps);
    var s := Run(cfg, Init(reports), steps);
    if s.fate == KilledByFatal {
      var e :| 0 <= e < |s.engines| && Reported(s.engines[e]);
      assert EngineOk(s, e);
    }
    if e: nat :| e < |s.engines| && s.engines[e] == Returned(OptionsOf(e), true) {
      assert Reported(s.engines[e]);
    }
  }

  lemma {:induction false} RunFront(cfg: Config, s: State, step: Step, rest: seq<Step>)
    ensures Run(cfg, s, [step] + rest) == Run(cfg, Next(cfg, s, step), rest)
  {
    var steps := [step] + rest;
    if rest == [] {
      assert steps[..0] == [];
      assert Run(cfg, s, steps[..0]) == s;
    } else {
      assert steps[..|steps| - 1] == [step] + rest[..|rest| - 1];
      RunFront(cfg, s, step, rest[..|rest| - 1]);
    }
  }

  /** How many steps a reader is away from meeting the supervisor. */
  function Distance(s: State, c: nat): nat
    requires c < |s.readers| && c < |s.chans|
  {
    4 * |s.chans[c].buffer| +
    match s.readers[c].pc
    case Updating(Begun(_, _)) => 4
    case Updating(_) => 3
    case Select => 2
    case Restarting => 1
    case Done => 0
  }

  function Towards(s: State, c: nat): Step
    requires c < |s.readers| && c < |s.chans|
  {
    match s.readers[c].pc
    case Updating(_) => ReaderWorks(c, Err(""))
    case Select => if s.chans[c].buffer == [] then ReaderSeesClose(c) else ReaderReceives(c)
    case _ => Restart(c)
  }

  /** The reader can take in what is on the channel. */
  predicate Harmless(cfg: Config, ch: Channel) {
    cfg.updateImage ==> forall k :: 0 <= k < |ch.buffer| ==> ch.buffer[k].kind != NilEvent
  }

  lemma TowardsRestart(cfg: Config, s: State, c: nat)
    requires Inv(cfg, s) && s.fate == Alive && s.main == Wait(c) && s.chans[c].closed && s.readers[c].pc != Restarting
    requires Harmless(cfg, s.chans[c])
    ensures var s' := Next(cfg, s, Towards(s, c));
      s'.fate == Alive && s'.main == Wait(c) && c < |s'.readers| && c < |s'.chans| && s'.chans[c].closed
      && Harmless(cfg, s'.chans[c]) && Distance(s', c) < Distance(s, c)
  {
    assert ReaderOk(s, c);
  }

  /** Steps of the reader of `c` and its meeting with the supervisor. */
  predicate OnlyReader(steps: seq<Step>, c: nat) {
    forall k :: 0 <= k < |steps| ==> ByReader(steps[k]) && steps[k].g == c
  }

  /**
   Once the channel of the current generation is closed with no nil event left
   on it, its reader alone can bring the supervisor to the next generation.
   */
  lemma {:induction false} ClosedChannelRestarts(cfg: Config, s: State, c: nat) returns (steps: seq<Step>)
    requires Inv(cfg, s) && s.fate == Alive && s.main == Wait(c) && s.chans[c].closed && Harmless(cfg, s.chans[c])
    ensures Run(cfg, s, steps).main == MakeChannel && Run(cfg, s, steps).fate == Alive
    ensures |steps| <= Distance(s, c) && OnlyReader(steps, c)
    decreases Distance(s, c)
  {
    var step := Towards(s, c);
    assert ReaderOk(s, c);
    if s.readers[c].pc == Restarting {
      steps := [step];
      assert steps[..0] == [];
      assert Run(cfg, s, steps[..0]) == s;
    } else {
      InvNext(cfg, s, step);
      TowardsRestart(cfg, s, c);
      var rest := ClosedChannelRestarts(cfg, Next(cfg, s, step), c);
      steps := [step] + rest;
      RunFront(cfg, s, step, rest);
    }
  }

  /** Some result without an event was ever put on this channel. */
  predicate NilSent(ch: Channel) {
    exists k :: 0 <= k < |ch.sent| && ch.sent[k].kind == NilEvent
  }

  lemma {:induction false} SentStays(cfg: Config, s: State, steps: seq<Step>, c: nat)
    requires c < |s.chans|
    ensures c < |Run(cfg, s, steps).chans| && s.chans[c].sent <= Run(cfg, s, steps).chans[c].sent
  {
    if steps != [] {
      SentStays(cfg, s, steps[..|steps| - 1], c);
    }
  }

  /** With images on, a generation on whose channel a nil event was put is the last one. */
  lemma NilSentIsLast(cfg: Config, s: State, c: nat)
    requires Inv(cfg, s) && cfg.updateImage && c < |s.chans| && NilSent(s.chans[c])
    ensures s.main == SpawnReader(c) || s.main == Wait(c)
    ensures |s.chans| == c + 1
  {
    assert ChannelOk(s, c);
    LeftBehind(s, c);
  }

  /** The reader of a generation that the supervisor has left took in everything, a nil event too. */
  lemma LeftBehind(s: State, c: nat)
    requires Structure(s) && c < |s.chans| && NilSent(s.chans[c])
    ensures c < |s.readers| && s.main != Wait(c) ==> NilConsumed(s.chans[c])
  {
    assert ChannelOk(s, c);
    if c < |s.readers| && s.main != Wait(c) {
      assert ReaderOk(s, c);
      assert s.chans[c].sent == s.chans[c].received;
    }
  }

  /**
   A closed channel leads to the next generation, by whatever steps, exactly when
   images are off or no nil event is left on it.
   */
  lemma RestartIff(cfg: Config, s: State, c: nat)
    requires Inv(cfg, s) && s.fate == Alive && s.main == Wait(c) && s.chans[c].closed
    ensures (exists steps :: Run(cfg, s, steps).main == MakeChannel) <==> Harmless(cfg, s.chans[c])
  {
    if Harmless(cfg, s.chans[c]) {
      var steps := ClosedChannelRestarts(cfg, s, c);
    } else {
      var k :| 0 <= k < |s.chans[c].buffer| && s.chans[c].buffer[k].kind == NilEvent;
      assert ChannelOk(s, c);
      var i := |s.chans[c].received| + k;
      assert s.chans[c].sent[i].kind == NilEvent;
      forall steps ensures Run(cfg, s, steps).main != MakeChannel {
        InvFrom(cfg, s, steps);
        SentStays(cfg, s, steps, c);
        assert Run(cfg, s, steps).chans[c].sent[i].kind == NilEvent;
        NilSentIsLast(cfg, Run(cfg, s, steps), c);
      }
    }
  }

  /**
   A read error of the engine while its reader waits: with images on it kills the
   process although no Events call failed; with images off the reader goes on.
   */
  lemma ReadErrorKills(cfg: Config, s: State, g: nat)
    requires Inv(cfg, s) && s.fate == Alive && MaySend(s, g) && AtSelect(s, g) && s.chans[g].buffer == []
    ensures var s' := Run(cfg, s, [EngineSends(g, NilEvent), EngineCloses(g), ReaderReceives(g)]);
      s'.engines == s.engines && s'.fate == if cfg.updateImage then KilledByNilEvent else Alive
  {
    assert EngineOk(s, g) && ReaderOk(s, g);
    RunThree(cfg, s, EngineSends(g, NilEvent), EngineCloses(g), ReaderReceives(g));
    var s1 := Next(cfg, s, EngineSends(g, NilEvent));
    assert s1.chans[g].buffer == [Event(NilEvent, Now(s))] && MaySend(s1, g);
    var s2 := Next(cfg, s1, EngineCloses(g));
    assert AtSelect(s2, g) && s2.chans[g].buffer == s1.chans[g].buffer && s2.engines == s.engines;
  }

  /** An Events call that fails ends the process once a reader at its select takes the error, and one that returns without an error does not. */
  lemma FailedEventsKills(cfg: Config, s: State, e: nat, g: nat)
    requires Inv(cfg, s) && s.fate == Alive && e < |s.engines| && s.engines[e].Streaming? && AtSelect(s, g)
    ensures Run(cfg, s, [EngineReturns(e, true), Fatal(e, g)]).fate == KilledByFatal
    ensures Run(cfg, s, [EngineReturns(e, false), Fatal(e, g)]).fate == Alive
  {
    RunTwo(cfg, s, EngineReturns(e, true), Fatal(e, g));
    RunTwo(cfg, s, EngineReturns(e, false), Fatal(e, g));
  }

  lemma RunTwo(cfg: Config, s: State, a: Step, b: Step)
    ensures Run(cfg, s, [a, b]) == Next(cfg, Next(cfg, s, a), b)
  {
    assert [a, b][..1] == [a] && [a][..0] == [];
    assert Run(cfg, s, [a]) == Next(cfg, s, a);
  }

  lemma RunThree(cfg: Config, s: State, a: Step, b: Step, c: Step)
    ensures Run(cfg, s, [a, b, c]) == Next(cfg, Next(cfg, Next(cfg, s, a), b), c)
  {
    assert [a, b, c][..2] == [a, b] && [a, b][..1] == [a] && [a][..0] == [];
    assert Run(cfg, s, [a]) == Next(cfg, s, a);
    assert Run(cfg, s, [a, b]) == Next(cfg, Run(cfg, s, [a]), b);
  }

  lemma RunBack(cfg: Config, s: State, steps: seq<Step>, step: Step)
    ensures Run(cfg, s, steps + [step]) == Next(cfg, Run(cfg, s, steps), step)
  {
    assert (steps + [step])[..|steps|] == steps;
  }

  lemma FirstLoop(cfg: Config, reports: seq<Images.Report>) returns (steps: seq<Step>)
    ensures var s := Run(cfg, Init(reports), steps);
      s.main == MakeChannel && s.fate == Alive && s.chans == [] && s.engines == [] && s.readers == []
  {
    var next := MainRuns(Err(""));
    steps := [];
    var s := Init(reports);
    for i := 0 to 3
      invariant s == Run(cfg, Init(reports), steps) && s.worlds == [reports] && s.fate == Alive
      invariant s.chans == [] && s.engines == [] && s.readers == []
      invariant if cfg.updateImage then BootedFor(s, i) else s.main == if i == 0 then Boot(Idle) else MakeChannel
    {
      if s.main != MakeChannel {
        RunBack(cfg, Init(reports), steps, next);
        steps := steps + [next];
        s := Next(cfg, s, next);
      }
    }
  }

  predicate BootedFor(s: State, i: nat) {
    if i == 0 then s.main == Boot(Idle)
    else if i == 1 then s.main.Boot? && s.main.work.Begun? && s.main.work.begun == 0
    else if i == 2 then s.main.Boot? && s.main.work.Ready?
    else s.main == MakeChannel
  }

  /** The supervisor's points in its first generation, in order. */
  predicate LoopedFor(s: State, i: nat) {
    && |s.chans| == (if i == 0 then 0 else 1) && |s.engines| == (if i < 5 then 0 else 1) && |s.readers| == (if i < 6 then 0 else 1)
    && (i >= 1 ==> s.chans[0] == Channel([], false, [], []))
    && (i >= 2 ==> s.opts.eventChan == Some(0))
    && (i >= 5 ==> s.engines[0] == ReadChan)
    && (i >= 6 ==> s.readers[0] == Reader(0, Select))
    && s.main == if i == 0 then MakeChannel else if i == 1 then SetChan(0) else if i == 2 then SetStream(0)
      else if i == 3 then SetFilter(0) else if i == 4 then SpawnEngine(0) else if i == 5 then SpawnReader(0) else Wait(0)
  }

  lemma FirstWait(cfg: Config, reports: seq<Images.Report>) returns (steps: seq<Step>)
    ensures Run(cfg, Init(reports), steps).fate == Alive && LoopedFor(Run(cfg, Init(reports), steps), 6)
  {
    var next := MainRuns(Err(""));
    steps := FirstLoop(cfg, reports);
    var s := Run(cfg, Init(reports), steps);
    for i := 0 to 6
      invariant s == Run(cfg, Init(reports), steps) && s.fate == Alive && LoopedFor(s, i)
    {
      RunBack(cfg, Init(reports), steps, next);
      steps := steps + [next];
      s := Next(cfg, s, next);
    }
  }

  predicate EngineAt(e: Engine, i: nat) {
    if i == 0 then e == ReadChan
    else if i == 1 then e == ReadStream(Some(0))
    else if i == 2 then e.ReadFilter? && e.chan == Some(0)
    else e.Streaming? && e.opts.eventChan == Some(0)
  }

  /** A run to the first subscription, its reader waiting for an event. */
  lemma FirstSubscription(cfg: Config, reports: seq<Images.Report>) returns (steps: seq<Step>)
    ensures var s := Run(cfg, Init(reports), steps);
      s.fate == Alive && MaySend(s, 0) && AtSelect(s, 0) && s.chans[0].buffer == []
  {
    steps := FirstWait(cfg, reports);
    var s := Run(cfg, Init(reports), steps);
    for i := 0 to 3
      invariant s == Run(cfg, Init(reports), steps) && s.fate == Alive
      invariant |s.chans| == |s.engines| == |s.readers| == 1 && s.chans[0] == Channel([], false, [], [])
      invariant s.opts.eventChan == Some(0) && s.readers[0] == Reader(0, Select) && EngineAt(s.engines[0], i)
    {
      RunBack(cfg, Init(reports), steps, EngineRuns(0));
      steps := steps + [EngineRuns(0)];
      s := Next(cfg, s, EngineRuns(0));
    }
  }

  /** A run in which the first read error kills the exporter, with images on and no failed Events call. */
  lemma ReadErrorRun(cfg: Config, reports: seq<Images.Report>) returns (steps: seq<Step>)
    requires cfg.updateImage
    ensures var s := Run(cfg, Init(reports), steps);
      s.fate == KilledByNilEvent && forall e :: 0 <= e < |s.engines| ==> !Reported(s.engines[e])
  {
    var before := FirstSubscription(cfg, reports);
    var s := Run(cfg, Init(reports), before);
    InvRun(cfg, reports, before);
    ReadErrorKills(cfg, s, 0);
    var last := [EngineSends(0, NilEvent), EngineCloses(0), ReaderReceives(0)];
    steps := before + last;
    RunTwice(cfg, Init(reports), before, last);
  }

  lemma {:induction false} RunTwice(cfg: Config, s: State, a: seq<Step>, b: seq<Step>)
    ensures Run(cfg, s, a + b) == Run(cfg, Run(cfg, s, a), b)
  {
    if b == [] {
      assert a + b == a;
    } else {
      assert (a + b)[..|a + b| - 1] == a + b[..|b| - 1];
      RunTwice(cfg, s, a, b[..|b| - 1]);
    }
  }
}
