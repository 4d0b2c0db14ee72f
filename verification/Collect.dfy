/**
 One scrape of all collectors: Collect and execute (collector/collector.go).

 Each collector gets a goroutine; what its Update sends, how it ends and how
 long it takes are arbitrary, and so is every interleaving.
 */
module Collect {
  import opened Common

  /** A metric of a collector's own, known by a number, or one of the two that execute adds. */
  datatype Item = Own(metric: nat) | Duration(collector: string, seconds: real) | Success(collector: string, value: int)

  datatype Sent = Sent(worker: nat, item: Item)

  datatype Outcome = Outcome(error: Option<Failure>, seconds: real)

  datatype WorkerPc =
    | Updating
    | SendDuration(outcome: Outcome)
    | SendSuccess(outcome: Outcome)
    | Signal(outcome: Outcome)
    | Exited(outcome: Outcome)

  /** A goroutine: the name and collector it was started with, and what its Update has sent. */
  datatype Worker = Worker(name: string, collector: nat, pc: WorkerPc, own: seq<nat>)

  datatype Main = Adding | Spawning(todo: set<string>) | Waiting | Returned

  datatype State = State(main: Main, wg: int, workers: seq<Worker>, sent: seq<Sent>)

  datatype Step =
    | MainRuns(name: string)                     // `name` is the key that the range loop yields next
    | UpdateSends(w: nat, metric: nat)
    | UpdateReturns(w: nat, outcome: Outcome)
    | Reports(w: nat)

  function Init(): State { State(Adding, 0, [], []) }

  function MainNext(collectors: map<string, nat>, s: State, name: string): State {
    match s.main
    case Adding => s.(main := Spawning(collectors.Keys), wg := s.wg + |collectors.Keys|)
    case Spawning(todo) =>
      if todo == {} then s.(main := Waiting)
      else if name in todo && name in collectors
      then s.(main := Spawning(todo - {name}), workers := s.workers + [Worker(name, collectors[name], Updating, [])])
      else s
    case Waiting => if s.wg == 0 then s.(main := Returned) else s
    case Returned => s
  }

  function Goto(s: State, w: nat, pc: WorkerPc): State
    requires w < |s.workers|
  {
    s.(workers := s.workers[w := s.workers[w].(pc := pc)])
  }

  /** execute after Update has returned, and then wg.Done. */
  function Report(s: State, w: nat): State
    requires w < |s.workers|
  {
    var name := s.workers[w].name;
    match s.workers[w].pc
    case SendDuration(o) => Goto(s, w, SendSuccess(o)).(sent := s.sent + [Sent(w, Duration(name, o.seconds))])
    case SendSuccess(o) =>
      var success := if o.error.Some? then 0 else 1;
      Goto(s, w, Signal(o)).(sent := s.sent + [Sent(w, Success(name, success))])
    case Signal(o) => Goto(s, w, Exited(o)).(wg := s.wg - 1)
    case _ => s
  }

  /** A step that is not enabled changes nothing. */
  function Next(collectors: map<string, nat>, s: State, step: Step): State {
    match step
    case MainRuns(name) => MainNext(collectors, s, name)
    case UpdateSends(w, m) =>
      if w < |s.workers| && s.workers[w].pc.Updating? then
        s.(workers := s.workers[w := s.workers[w].(own := s.workers[w].own + [m])], sent := s.sent + [Sent(w, Own(m))])
      else s
    case UpdateReturns(w, o) =>
      if w < |s.workers| && s.workers[w].pc.Updating? then Goto(s, w, SendDuration(o)) else s
    case Reports(w) => if w < |s.workers| then Report(s, w) else s
  }

  function Run(collectors: map<string, nat>, s: State, steps: seq<Step>): State {
    if steps == [] then s
    else Next(collectors, Run(collectors, s, steps[..|steps| - 1]), steps[|steps| - 1])
  }

  // ---------------------------------------------------------------- what was sent

  /** What goroutine `w` has sent, in order. */
  function SentBy(sent: seq<Sent>, w: nat): seq<Item> {
    if sent == [] then []
    else
      var last := sent[|sent| - 1];
      SentBy(sent[..|sent| - 1], w) + if last.worker == w then [last.item] else []
  }

  predicate Counts(i: Item, name: string) {
    match i
    case Own(_) => false
    case Duration(c, _) => c == name
    case Success(c, _) => c == name
  }

  /** How many duration metrics labelled `name` were sent, by any goroutine. */
  function Durations(sent: seq<Sent>, name: string): nat {
    if sent == [] then 0
    else
      var last := sent[|sent| - 1].item;
      Durations(sent[..|sent| - 1], name) + if last.Duration? && Counts(last, name) then 1 else 0
  }

  /** How many success metrics labelled `name` were sent, by any goroutine. */
  function Successes(sent: seq<Sent>, name: string): nat {
    if sent == [] then 0
    else
      var last := sent[|sent| - 1].item;
      Successes(sent[..|sent| - 1], name) + if last.Success? && Counts(last, name) then 1 else 0
  }

  function Owns(own: seq<nat>): seq<Item> {
    seq(|own|, i requires 0 <= i < |own| => Own(own[i]))
  }

  /** A collector's own metrics, then one duration, then one success that is 1 exactly without an error. */
  function Full(name: string, own: seq<nat>, o: Outcome): seq<Item> {
    Owns(own) + [Duration(name, o.seconds), Success(name, if o.error == None then 1 else 0)]
  }

  // ---------------------------------------------------------------- invariant

  function Todo(s: State): set<string> {
    if s.main.Spawning? then s.main.todo else {}
  }

  function Unfinished(ws: seq<Worker>): nat {
    if ws == [] then 0
    else Unfinished(ws[..|ws| - 1]) + if ws[|ws| - 1].pc.Exited? then 0 else 1
  }

  lemma {:induction false} UnfinishedUpdate(ws: seq<Worker>, w: nat, worker: Worker)
    requires w < |ws|
    ensures var was := if ws[w].pc.Exited? then 0 else 1; var now := if worker.pc.Exited? then 0 else 1;
      Unfinished(ws[w := worker]) == Unfinished(ws) - was + now
  {
    var n := |ws| - 1;
    if w < n {
      UnfinishedUpdate(ws[..n], w, worker);
      assert ws[w := worker][..n] == ws[..n][w := worker];
    } else {
      assert ws[w := worker][..n] == ws[..n];
    }
  }

  lemma {:induction false} UnfinishedZero(ws: seq<Worker>)
    ensures Unfinished(ws) == 0 <==> forall w :: 0 <= w < |ws| ==> ws[w].pc.Exited?
  {
    if ws != [] {
      var n := |ws| - 1;
      UnfinishedZero(ws[..n]);
      assert forall w :: 0 <= w < n ==> ws[..n][w] == ws[w];
    }
  }

  /** Every collector is yet to be started or has one goroutine, started with its name and instance. */
  predicate Spawned(collectors: map<string, nat>, s: State) {
    && (forall v, w :: 0 <= v < w < |s.workers| ==> s.workers[v].name != s.workers[w].name)
    && (forall w :: 0 <= w < |s.workers| ==>
      && s.workers[w].name in collectors && s.workers[w].collector == collectors[s.workers[w].name]
      && s.workers[w].name !in Todo(s))
    && Todo(s) <= collectors.Keys
    && (s.main.Adding? ==> s.workers == [])
    && (!s.main.Adding? ==> forall name :: name in collectors && name !in Todo(s) ==> HasWorker(s, name))
  }

  predicate HasWorker(s: State, name: string) {
    exists w :: 0 <= w < |s.workers| && s.workers[w].name == name
  }

  predicate Counted(s: State) {
    && s.wg == |Todo(s)| + Unfinished(s.workers)
    && (s.main.Returned? ==> s.wg == 0)
  }

  /** What a goroutine should have sent by now. */
  function Expected(w: Worker): seq<Item> {
    match w.pc
    case Updating => Owns(w.own)
    case SendDuration(_) => Owns(w.own)
    case SendSuccess(o) => Owns(w.own) + [Duration(w.name, o.seconds)]
    case Signal(o) => Full(w.name, w.own, o)
    case Exited(o) => Full(w.name, w.own, o)
  }

  predicate Logged(s: State) {
    && (forall k :: 0 <= k < |s.sent| ==> s.sent[k].worker < |s.workers|)
    && (forall w :: 0 <= w < |s.workers| ==> SentBy(s.sent, w) == Expected(s.workers[w]))
  }

  function DurationsDue(w: Worker): nat {
    if w.pc.Updating? || w.pc.SendDuration? then 0 else 1
  }

  function SuccessesDue(w: Worker): nat {
    if w.pc.Signal? || w.pc.Exited? then 1 else 0
  }

  ghost predicate Labelled(s: State) {
    && (forall w :: 0 <= w < |s.workers| ==>
      && Durations(s.sent, s.workers[w].name) == DurationsDue(s.workers[w])
      && Successes(s.sent, s.workers[w].name) == SuccessesDue(s.workers[w]))
    && (forall name {:trigger Durations(s.sent, name)} {:trigger Successes(s.sent, name)} ::
      !HasWorker(s, name) ==> Durations(s.sent, name) == Successes(s.sent, name) == 0)
  }

  ghost predicate Inv(collectors: map<string, nat>, s: State) {
    Spawned(collectors, s) && Counted(s) && Logged(s) && Labelled(s)
  }

  /** Only main starts goroutines, and it never touches one again. */
  predicate SameStart(s: State, s': State) {
    && s'.main == s.main && |s'.workers| == |s.workers|
    && forall w :: 0 <= w < |s.workers| ==>
      s'.workers[w].name == s.workers[w].name && s'.workers[w].collector == s.workers[w].collector
  }

  lemma WorkersKeepStart(collectors: map<string, nat>, s: State, step: Step)
    requires !step.MainRuns?
    ensures SameStart(s, Next(collectors, s, step))
  {
  }

  lemma SpawnedKept(collectors: map<string, nat>, s: State, s': State)
    requires Spawned(collectors, s) && SameStart(s, s')
    ensures Spawned(collectors, s')
  {
    forall name | !s'.main.Adding? && name in collectors && name !in Todo(s') ensures HasWorker(s', name) {
      assert HasWorker(s, name);
      var w :| 0 <= w < |s.workers| && s.workers[w].name == name;
      assert s'.workers[w].name == name;
    }
  }

  lemma SpawnedByMain(collectors: map<string, nat>, s: State, name: string)
    requires Spawned(collectors, s)
    ensures Spawned(collectors, MainNext(collectors, s, name))
  {
    var s' := MainNext(collectors, s, name);
    forall n | !s'.main.Adding? && n in collectors && n !in Todo(s') ensures HasWorker(s', n) {
      if s.main.Adding? {
      } else if n !in Todo(s) {
        assert HasWorker(s, n);
        var w :| 0 <= w < |s.workers| && s.workers[w].name == n;
        assert s'.workers[w].name == n;
      } else {
        assert s'.workers[|s.workers|].name == n;
      }
    }
  }

  lemma SpawnedNext(collectors: map<string, nat>, s: State, step: Step)
    requires Spawned(collectors, s)
    ensures Spawned(collectors, Next(collectors, s, step))
  {
    if step.MainRuns? {
      SpawnedByMain(collectors, s, step.name);
    } else {
      WorkersKeepStart(collectors, s, step);
      SpawnedKept(collectors, s, Next(collectors, s, step));
    }
  }

  lemma CountedByMain(collectors: map<string, nat>, s: State, name: string)
    requires Spawned(collectors, s) && Counted(s)
    ensures Counted(MainNext(collectors, s, name))
  {
    var s' := MainNext(collectors, s, name);
    if |s'.workers| > |s.workers| {
      assert s'.workers[..|s.workers|] == s.workers;
      assert Todo(s) == Todo(s') + {name};
    }
  }

  lemma CountedByWorker(collectors: map<string, nat>, s: State, step: Step)
    requires Counted(s) && !step.MainRuns? && step.w < |s.workers|
    ensures Counted(Next(collectors, s, step))
  {
    var s' := Next(collectors, s, step);
    assert s'.workers == s.workers[step.w := s'.workers[step.w]];
    UnfinishedUpdate(s.workers, step.w, s'.workers[step.w]);
    if s.main.Returned? {
      UnfinishedZero(s.workers);
    }
  }

  lemma CountedNext(collectors: map<string, nat>, s: State, step: Step)
    requires Spawned(collectors, s) && Counted(s)
    ensures Counted(Next(collectors, s, step))
  {
    if step.MainRuns? {
      CountedByMain(collectors, s, step.name);
    } else if step.w < |s.workers| {
      CountedByWorker(collectors, s, step);
    }
  }

  lemma SentByOthers(sent: seq<Sent>, w: nat)
    requires forall k :: 0 <= k < |sent| ==> sent[k].worker != w
    ensures SentBy(sent, w) == []
  {
  }

  lemma OwnsAppend(own: seq<nat>, m: nat)
    ensures Owns(own + [m]) == Owns(own) + [Own(m)]
  {
  }

  lemma SentByAppend(sent: seq<Sent>, v: nat, item: Item, w: nat)
    ensures SentBy(sent + [Sent(v, item)], w) == SentBy(sent, w) + if w == v then [item] else []
  {
    assert (sent + [Sent(v, item)])[..|sent|] == sent;
  }

  /** One goroutine sends one metric. */
  lemma LoggedBySend(s: State, s': State, w: nat, item: Item)
    requires Logged(s) && w < |s.workers| == |s'.workers| && s'.sent == s.sent + [Sent(w, item)]
    requires Expected(s'.workers[w]) == Expected(s.workers[w]) + [item]
    requires forall v :: 0 <= v < |s.workers| && v != w ==> s'.workers[v] == s.workers[v]
    ensures Logged(s')
  {
    forall v | 0 <= v < |s'.workers| ensures SentBy(s'.sent, v) == Expected(s'.workers[v]) {
      SentByAppend(s.sent, w, item, v);
    }
  }

  lemma SendIsExpected(collectors: map<string, nat>, s: State, step: Step)
    requires !step.MainRuns? && step.w < |s.workers| && |Next(collectors, s, step).sent| > |s.sent|
    ensures var s' := Next(collectors, s, step); var item := s'.sent[|s.sent|].item;
      s'.sent == s.sent + [Sent(step.w, item)] && Expected(s'.workers[step.w]) == Expected(s.workers[step.w]) + [item]
  {
    if step.UpdateSends? {
      OwnsAppend(s.workers[step.w].own, step.metric);
    } else {
      FullByOne(s.workers[step.w]);
    }
  }

  /** A step that sends nothing leaves what is expected as it was. */
  lemma LoggedByQuiet(s: State, s': State)
    requires Logged(s) && s'.sent == s.sent && |s'.workers| == |s.workers|
    requires forall w :: 0 <= w < |s.workers| ==> Expected(s'.workers[w]) == Expected(s.workers[w])
    ensures Logged(s')
  {
  }

  lemma QuietIsExpected(collectors: map<string, nat>, s: State, step: Step, w: nat)
    requires !step.MainRuns? && w < |s.workers| && |Next(collectors, s, step).sent| == |s.sent|
    ensures Expected(Next(collectors, s, step).workers[w]) == Expected(s.workers[w])
  {
  }

  lemma LoggedByMain(collectors: map<string, nat>, s: State, name: string)
    requires Logged(s)
    ensures Logged(MainNext(collectors, s, name))
  {
    SentByOthers(s.sent, |s.workers|);
  }

  lemma LoggedNext(collectors: map<string, nat>, s: State, step: Step)
    requires Logged(s)
    ensures Logged(Next(collectors, s, step))
  {
    var s' := Next(collectors, s, step);
    if step.MainRuns? {
      LoggedByMain(collectors, s, step.name);
    } else if |s'.sent| == |s.sent| {
      forall w | 0 <= w < |s.workers| ensures Expected(s'.workers[w]) == Expected(s.workers[w]) {
        QuietIsExpected(collectors, s, step, w);
      }
      LoggedByQuiet(s, s');
    } else {
      SendIsExpected(collectors, s, step);
      LoggedBySend(s, s', step.w, s'.sent[|s.sent|].item);
    }
  }

  lemma FullByOne(w: Worker)
    ensures forall o :: w.pc == SendSuccess(o) ==>
      Expected(w) + [Success(w.name, if o.error.Some? then 0 else 1)] == Full(w.name, w.own, o)
  {
  }

  lemma CountsAppend(sent: seq<Sent>, v: nat, item: Item, name: string)
    ensures var s' := sent + [Sent(v, item)];
      && Durations(s', name) == Durations(sent, name) + (if item.Duration? && item.collector == name then 1 else 0)
      && Successes(s', name) == Successes(sent, name) + (if item.Success? && item.collector == name then 1 else 0)
  {
    assert (sent + [Sent(v, item)])[..|sent|] == sent;
  }

  lemma SameNames(s: State, s': State, name: string)
    requires |s'.workers| >= |s.workers| && forall w :: 0 <= w < |s.workers| ==> s'.workers[w].name == s.workers[w].name
    ensures HasWorker(s, name) ==> HasWorker(s', name)
  {
    if HasWorker(s, name) {
      var w :| 0 <= w < |s.workers| && s.workers[w].name == name;
      assert s'.workers[w].name == name;
    }
  }

  lemma LabelledByMain(collectors: map<string, nat>, s: State, name: string)
    requires Spawned(collectors, s) && Labelled(s)
    ensures Labelled(MainNext(collectors, s, name))
  {
    var s' := MainNext(collectors, s, name);
    if |s'.workers| > |s.workers| {
      assert !HasWorker(s, name);
    }
    forall n | !HasWorker(s', n) ensures Durations(s'.sent, n) == Successes(s'.sent, n) == 0 {
      SameNames(s, s', n);
    }
  }

  /** What a step of goroutine `w` sends counts for its own name, as often as is due. */
  lemma DueBySend(collectors: map<string, nat>, s: State, step: Step, name: string)
    requires !step.MainRuns? && step.w < |s.workers|
    ensures var s' := Next(collectors, s, step); var v := s.workers[step.w]; var v' := s'.workers[step.w];
      && Durations(s'.sent, name) - Durations(s.sent, name) == (if v.name == name then DurationsDue(v') - DurationsDue(v) else 0)
      && Successes(s'.sent, name) - Successes(s.sent, name) == (if v.name == name then SuccessesDue(v') - SuccessesDue(v) else 0)
  {
    var s' := Next(collectors, s, step);
    if |s'.sent| > |s.sent| {
      CountsAppend(s.sent, step.w, s'.sent[|s.sent|].item, name);
    }
  }

  lemma LabelledByWorker(collectors: map<string, nat>, s: State, step: Step)
    requires Spawned(collectors, s) && Labelled(s) && !step.MainRuns? && step.w < |s.workers|
    ensures Labelled(Next(collectors, s, step))
  {
    var s' := Next(collectors, s, step);
    WorkersKeepStart(collectors, s, step);
    forall w | 0 <= w < |s'.workers|
      ensures Durations(s'.sent, s'.workers[w].name) == DurationsDue(s'.workers[w])
      ensures Successes(s'.sent, s'.workers[w].name) == SuccessesDue(s'.workers[w])
    {
      DueBySend(collectors, s, step, s.workers[w].name);
      assert w != step.w ==> s'.workers[w] == s.workers[w];
    }
    forall n | !HasWorker(s', n) ensures Durations(s'.sent, n) == Successes(s'.sent, n) == 0 {
      SameNames(s, s', n);
      DueBySend(collectors, s, step, n);
      assert s'.workers[step.w].name != n;
    }
  }

  lemma LabelledNext(collectors: map<string, nat>, s: State, step: Step)
    requires Spawned(collectors, s) && Labelled(s)
    ensures Labelled(Next(collectors, s, step))
  {
    if step.MainRuns? {
      LabelledByMain(collectors, s, step.name);
    } else if step.w < |s.workers| {
      LabelledByWorker(collectors, s, step);
    }
  }

  lemma InvNext(collectors: map<string, nat>, s: State, step: Step)
    requires Inv(collectors, s)
    ensures Inv(collectors, Next(collectors, s, step))
  {
    SpawnedNext(collectors, s, step);
    CountedNext(collectors, s, step);
    LoggedNext(collectors, s, step);
    LabelledNext(collectors, s, step);
  }

  lemma {:induction false} InvRun(collectors: map<string, nat>, steps: seq<Step>)
    ensures Inv(collectors, Run(collectors, Init(), steps))
  {
    if steps != [] {
      InvRun(collectors, steps[..|steps| - 1]);
      InvNext(collectors, Run(collectors, Init(), steps[..|steps| - 1]), steps[|steps| - 1]);
    }
  }

  // ---------------------------------------------------------------- results

  // What the calls of Update did, read off the run itself.

  /** The goroutine exists and is in Update. */
  predicate InUpdate(s: State, w: nat) { w < |s.workers| && s.workers[w].pc.Updating? }

  /** What Update sent in goroutine `w`, in order. */
  function UpdateSent(collectors: map<string, nat>, steps: seq<Step>, w: nat): seq<nat> {
    if steps == [] then []
    else
      var before, step := steps[..|steps| - 1], steps[|steps| - 1];
      UpdateSent(collectors, before, w)
      + if step.UpdateSends? && step.w == w && InUpdate(Run(collectors, Init(), before), w) then [step.metric] else []
  }

  /** How Update ended in goroutine `w`, if it has. */
  function UpdateEnded(collectors: map<string, nat>, steps: seq<Step>, w: nat): Option<Outcome> {
    if steps == [] then None
    else
      var before, step := steps[..|steps| - 1], steps[|steps| - 1];
      if step.UpdateReturns? && step.w == w && InUpdate(Run(collectors, Init(), before), w) then Some(step.outcome)
      else UpdateEnded(collectors, before, w)
  }

  /** What a goroutine has recorded is what its Update did. */
  predicate Recorded(collectors: map<string, nat>, steps: seq<Step>, w: nat) {
    var s := Run(collectors, Init(), steps);
    if w < |s.workers| then
      s.workers[w].own == UpdateSent(collectors, steps, w) && Outcomes(s.workers[w].pc) == UpdateEnded(collectors, steps, w)
    else UpdateSent(collectors, steps, w) == [] && UpdateEnded(collectors, steps, w) == None
  }

  function Outcomes(pc: WorkerPc): Option<Outcome> {
    if pc.Updating? then None else Some(pc.outcome)
  }

  lemma {:induction false} RunRecords(collectors: map<string, nat>, steps: seq<Step>, w: nat)
    ensures Recorded(collectors, steps, w)
  {
    if steps != [] {
      var before, step := steps[..|steps| - 1], steps[|steps| - 1];
      RunRecords(collectors, before, w);
      StepRecords(collectors, Run(collectors, Init(), before), step, w);
    }
  }

  lemma StepRecords(collectors: map<string, nat>, s: State, step: Step, w: nat)
    ensures StepRecorded(s, Next(collectors, s, step), step, w)
  {
  }

  /** What one step adds to the record of a goroutine; a new one starts with an empty record. */
  predicate StepRecorded(s: State, s': State, step: Step, w: nat) {
    if w < |s.workers| then
      var sent := if step.UpdateSends? && step.w == w && InUpdate(s, w) then [step.metric] else [];
      && w < |s'.workers|
      && s'.workers[w].own == s.workers[w].own + sent
      && (if step.UpdateReturns? && step.w == w && InUpdate(s, w) then Outcomes(s'.workers[w].pc) == Some(step.outcome)
          else Outcomes(s'.workers[w].pc) == Outcomes(s.workers[w].pc))
    else w < |s'.workers| ==> s'.workers[w].own == [] && s'.workers[w].pc == Updating
  }

  /**
   The one goroutine of `name` got its instance, its Update returned, and it has
   sent what that Update sent, then its duration and success, and nothing else.
   */
  predicate Served(collectors: map<string, nat>, steps: seq<Step>, name: string)
    requires name in collectors
  {
    exists w :: 0 <= w < |Run(collectors, Init(), steps).workers| && ServedBy(collectors, steps, name, w)
  }

  predicate ServedBy(collectors: map<string, nat>, steps: seq<Step>, name: string, w: nat)
    requires name in collectors && w < |Run(collectors, Init(), steps).workers|
  {
    var s := Run(collectors, Init(), steps);
    && s.workers[w].name == name && s.workers[w].collector == collectors[name]
    && UpdateEnded(collectors, steps, w).Some?
    && SentBy(s.sent, w) == Full(name, UpdateSent(collectors, steps, w), UpdateEnded(collectors, steps, w).value)
  }

  lemma ServedWhenReturned(collectors: map<string, nat>, steps: seq<Step>, name: string)
    requires Run(collectors, Init(), steps).main.Returned? && name in collectors
    ensures var s := Run(collectors, Init(), steps);
      Served(collectors, steps, name) && Durations(s.sent, name) == 1 && Successes(s.sent, name) == 1
  {
    var s := Run(collectors, Init(), steps);
    InvRun(collectors, steps);
    var w := FinishedWorker(collectors, s, name);
    RunRecords(collectors, steps, w);
    assert ServedBy(collectors, steps, name, w);
  }

  lemma FinishedWorker(collectors: map<string, nat>, s: State, name: string) returns (w: nat)
    requires Inv(collectors, s) && s.main.Returned? && name in collectors
    ensures w < |s.workers| && s.workers[w].name == name && s.workers[w].collector == collectors[name]
    ensures s.workers[w].pc.Exited? && SentBy(s.sent, w) == Full(name, s.workers[w].own, s.workers[w].pc.outcome)
    ensures Durations(s.sent, name) == 1 && Successes(s.sent, name) == 1
  {
    UnfinishedZero(s.workers);
    assert HasWorker(s, name);
    w :| 0 <= w < |s.workers| && s.workers[w].name == name;
    assert SentBy(s.sent, w) == Expected(s.workers[w]);
  }

  /** Every metric came from the one goroutine of some collector, and no other name is counted. */
  predicate NothingElse(collectors: map<string, nat>, s: State) {
    && (forall k :: 0 <= k < |s.sent| ==> s.sent[k].worker < |s.workers|)
    && (forall w :: 0 <= w < |s.workers| ==> s.workers[w].name in collectors)
    && (forall v, w :: 0 <= v < w < |s.workers| ==> s.workers[v].name != s.workers[w].name)
  }

  /**
   When Collect has returned, every collector has been served, with one duration
   and one success metric under its name, and nothing came from elsewhere.
   */
  lemma EachReportsOnce(collectors: map<string, nat>, steps: seq<Step>)
    requires Run(collectors, Init(), steps).main.Returned?
    ensures var s := Run(collectors, Init(), steps);
      && NothingElse(collectors, s)
      && (forall name :: name in collectors ==>
        Served(collectors, steps, name) && Durations(s.sent, name) == 1 && Successes(s.sent, name) == 1)
      && (forall name :: name !in collectors ==> Durations(s.sent, name) == 0 && Successes(s.sent, name) == 0)
  {
    var s := Run(collectors, Init(), steps);
    InvRun(collectors, steps);
    forall name | name in collectors
      ensures Served(collectors, steps, name) && Durations(s.sent, name) == 1 && Successes(s.sent, name) == 1
    {
      ServedWhenReturned(collectors, steps, name);
    }
    forall name | name !in collectors ensures Durations(s.sent, name) == 0 && Successes(s.sent, name) == 0 {
      assert !HasWorker(s, name);
    }
  }

  /**
   The end of what each collector sent, place by place: after as many metrics as
   its Update sent comes its duration, and last its success, which is 1 exactly
   without an error and otherwise 0.
   */
  lemma ReportInOrder(collectors: map<string, nat>, steps: seq<Step>, w: nat)
    requires Run(collectors, Init(), steps).main.Returned? && w < |Run(collectors, Init(), steps).workers|
    ensures var s := Run(collectors, Init(), steps);
      var items, own, ended := SentBy(s.sent, w), UpdateSent(collectors, steps, w), UpdateEnded(collectors, steps, w);
      && ended.Some? && |items| == |own| + 2
      && (forall i :: 0 <= i < |own| ==> items[i] == Own(own[i]))
      && items[|own|] == Duration(s.workers[w].name, ended.value.seconds)
      && (ended.value.error.None? ==> items[|own| + 1] == Success(s.workers[w].name, 1))
      && (ended.value.error.Some? ==> items[|own| + 1] == Success(s.workers[w].name, 0))
  {
    var s := Run(collectors, Init(), steps);
    InvRun(collectors, steps);
    UnfinishedZero(s.workers);
    RunRecords(collectors, steps, w);
    assert SentBy(s.sent, w) == Expected(s.workers[w]);
  }

  lemma {:induction false} RunAppend(collectors: map<string, nat>, s: State, a: seq<Step>, b: seq<Step>)
    ensures Run(collectors, s, a + b) == Run(collectors, Run(collectors, s, a), b)
  {
    if b == [] {
      assert a + b == a;
    } else {
      var n := |b| - 1;
      assert (a + b)[..|a| + n] == a + b[..n];
      RunAppend(collectors, s, a, b[..n]);
    }
  }

  lemma {:induction false} SilentFrom(collectors: map<string, nat>, s: State, more: seq<Step>)
    requires s.main.Returned? && forall w :: 0 <= w < |s.workers| ==> s.workers[w].pc.Exited?
    ensures Run(collectors, s, more) == s
  {
    if more != [] {
      SilentFrom(collectors, s, more[..|more| - 1]);
    }
  }

  /** Nothing is sent once Collect has returned, so the caller may close its channel. */
  lemma NothingAfterReturn(collectors: map<string, nat>, steps: seq<Step>, more: seq<Step>)
    requires Run(collectors, Init(), steps).main.Returned?
    ensures Run(collectors, Init(), steps + more) == Run(collectors, Init(), steps)
  {
    var s := Run(collectors, Init(), steps);
    InvRun(collectors, steps);
    UnfinishedZero(s.workers);
    RunAppend(collectors, Init(), steps, more);
    SilentFrom(collectors, s, more);
  }

  // ---------------------------------------------------------------- no deadlock

  function Left(w: Worker): nat {
    match w.pc
    case Updating => 4
    case SendDuration(_) => 3
    case SendSuccess(_) => 2
    case Signal(_) => 1
    case Exited(_) => 0
  }

  function LeftOf(ws: seq<Worker>): nat {
    if ws == [] then 0 else LeftOf(ws[..|ws| - 1]) + Left(ws[|ws| - 1])
  }

  lemma {:induction false} LeftUpdate(ws: seq<Worker>, w: nat, worker: Worker)
    requires w < |ws|
    ensures LeftOf(ws[w := worker]) == LeftOf(ws) - Left(ws[w]) + Left(worker)
  {
    var n := |ws| - 1;
    if w < n {
      LeftUpdate(ws[..n], w, worker);
      assert ws[w := worker][..n] == ws[..n][w := worker];
    } else {
      assert ws[w := worker][..n] == ws[..n];
    }
  }

  /** What main has left before it waits, and the goroutines before they exit. */
  function Work(collectors: map<string, nat>, s: State): nat {
    LeftOf(s.workers) +
    match s.main
    case Adding => 5 * |collectors.Keys| + 3
    case Spawning(todo) => 5 * |todo| + 2
    case Waiting => 1
    case Returned => 0
  }

  lemma MainGoesOn(collectors: map<string, nat>, s: State, name: string)
    requires Spawned(collectors, s) && (s.main.Spawning? && s.main.todo != {} ==> name in s.main.todo)
    requires s.main.Adding? || s.main.Spawning? || (s.main.Waiting? && s.wg == 0)
    ensures Work(collectors, MainNext(collectors, s, name)) < Work(collectors, s)
  {
    var s' := MainNext(collectors, s, name);
    if s.main.Spawning? && s.main.todo != {} {
      assert s'.workers[..|s.workers|] == s.workers;
      assert s.main.todo == s'.main.todo + {name};
    }
  }

  lemma WorkerGoesOn(collectors: map<string, nat>, s: State, w: nat) returns (step: Step)
    requires w < |s.workers| && !s.workers[w].pc.Exited?
    ensures Work(collectors, Next(collectors, s, step)) < Work(collectors, s)
  {
    step := if s.workers[w].pc.Updating? then UpdateReturns(w, Outcome(None, 0.0)) else Reports(w);
    var s' := Next(collectors, s, step);
    assert s'.workers == s.workers[w := s'.workers[w]];
    LeftUpdate(s.workers, w, s'.workers[w]);
  }

  /** Unless Collect has returned, main or some goroutine can go on. */
  lemma SomeoneRuns(collectors: map<string, nat>, s: State) returns (step: Step)
    requires Inv(collectors, s) && !s.main.Returned?
    ensures Work(collectors, Next(collectors, s, step)) < Work(collectors, s)
  {
    if s.main.Waiting? && s.wg != 0 {
      UnfinishedZero(s.workers);
      var w :| 0 <= w < |s.workers| && !s.workers[w].pc.Exited?;
      step := WorkerGoesOn(collectors, s, w);
    } else {
      var name := "";
      if s.main.Spawning? && s.main.todo != {} {
        name :| name in s.main.todo;
      }
      MainGoesOn(collectors, s, name);
      step := MainRuns(name);
    }
  }

  lemma {:induction false} CanFinish(collectors: map<string, nat>, s: State) returns (more: seq<Step>)
    requires Inv(collectors, s)
    ensures Run(collectors, s, more).main.Returned?
    decreases Work(collectors, s)
  {
    if s.main.Returned? {
      more := [];
    } else {
      var step := SomeoneRuns(collectors, s);
      InvNext(collectors, s, step);
      var rest := CanFinish(collectors, Next(collectors, s, step));
      more := [step] + rest;
      assert Run(collectors, s, [step]) == Next(collectors, s, step) by {
        assert [step][..0] == [];
      }
      RunAppend(collectors, s, [step], rest);
    }
  }

  /** No interleaving gets stuck: from wherever it has got to, Collect can still return. */
  lemma NeverStuck(collectors: map<string, nat>, steps: seq<Step>)
    ensures exists more :: Run(collectors, Init(), steps + more).main.Returned?
  {
    InvRun(collectors, steps);
    var more := CanFinish(collectors, Run(collectors, Init(), steps));
    RunAppend(collectors, Init(), steps, more);
  }
}
