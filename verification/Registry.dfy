/** Which collectors exist, which are enabled, and the one instance of each (collector/collector.go). */
module Registry {
  import opened Common

  /** What a factory call that succeeded was for; the instance it made is known by its place in the list. */
  datatype Made = Made(name: string, factory: nat)

  /** The package's calls after registration; `failing` are the factories that fail during the call. */
  datatype Operation = SetState(name: string, on: bool) | Construct(failing: set<string>)

  /** What a construction returns: the collectors by name, or the error of the named factory. */
  type Constructed = Result<map<string, nat>, string>

  // ---------------------------------------------------------------- specification

  function StateAfter(state: map<string, bool>, ops: seq<Operation>): map<string, bool> {
    if ops == [] then state
    else
      var before := StateAfter(state, ops[..|ops| - 1]);
      match ops[|ops| - 1]
      case SetState(name, on) => if name in before then before[name := on] else before
      case Construct(_) => before
  }

  lemma OneMore(state: map<string, bool>, ops: seq<Operation>, n: nat)
    requires n < |ops|
    ensures StateAfter(state, ops[..n + 1]) == StateAfter(StateAfter(state, ops[..n]), [ops[n]])
  {
    assert ops[..n + 1][..n] == ops[..n];
    assert [ops[n]][..0] == [];
  }

  function Enabled(state: map<string, bool>): set<string> {
    set name | name in state && state[name]
  }

  lemma EnabledIff(state: map<string, bool>, name: string)
    ensures name in Enabled(state) <==> name in state && state[name] == true
  {
  }

  /** `name` was last switched by operation `k`. */
  predicate LastSwitch(ops: seq<Operation>, name: string, k: nat) {
    && k < |ops| && ops[k].SetState? && ops[k].name == name
    && forall j :: k < j < |ops| && ops[j].SetState? ==> ops[j].name != name
  }

  predicate Switched(ops: seq<Operation>, name: string) {
    exists k :: 0 <= k < |ops| && ops[k].SetState? && ops[k].name == name
  }

  /** The registered names never change, and a name's last switch decides; unknown names are ignored. */
  lemma {:induction false} LastSwitchDecides(state: map<string, bool>, ops: seq<Operation>, name: string)
    ensures StateAfter(state, ops).Keys == state.Keys
    ensures name in state && !Switched(ops, name) ==> StateAfter(state, ops)[name] == state[name]
    ensures forall k: nat :: name in state && LastSwitch(ops, name, k) ==> StateAfter(state, ops)[name] == ops[k].on
  {
    if ops != [] {
      var n := |ops| - 1;
      LastSwitchDecides(state, ops[..n], name);
      if !Switched(ops, name) {
        assert !Switched(ops[..n], name);
      }
      forall k: nat | name in state && LastSwitch(ops, name, k) ensures StateAfter(state, ops)[name] == ops[k].on {
        if k < n {
          assert ops[..n][k] == ops[k];
          assert LastSwitch(ops[..n], name, k);
        }
      }
    }
  }

  /** Every instance that was kept is still kept. */
  predicate KeepsAll(before: map<string, nat>, after: map<string, nat>) {
    forall name :: name in before ==> name in after && after[name] == before[name]
  }

  /** An answer is right if it has the collectors enabled by then, each with the one instance of its name. */
  predicate Right(enabled: map<string, bool>, initiated: map<string, nat>, answer: Option<Constructed>) {
    answer.Some? && answer.value.Ok? ==>
      answer.value.value.Keys == Enabled(enabled) && KeepsAll(answer.value.value, initiated)
  }

  /** All answers so far are right, whichever construction gave them. */
  predicate AllRight(state: map<string, bool>, ops: seq<Operation>, initiated: map<string, nat>, answers: seq<Option<Constructed>>) {
    |answers| <= |ops| && forall i :: 0 <= i < |answers| ==> Right(StateAfter(state, ops[..i]), initiated, answers[i])
  }

  lemma OneMoreRight(state: map<string, bool>, ops: seq<Operation>, before: map<string, nat>, after: map<string, nat>,
      answers: seq<Option<Constructed>>, answer: Option<Constructed>)
    requires AllRight(state, ops, before, answers) && KeepsAll(before, after)
    requires |answers| < |ops| && Right(StateAfter(state, ops[..|answers|]), after, answer)
    ensures AllRight(state, ops, after, answers + [answer])
  {
    var more := answers + [answer];
    forall i | 0 <= i < |more| ensures Right(StateAfter(state, ops[..i]), after, more[i]) {
      if i < |answers| {
        assert Right(StateAfter(state, ops[..i]), before, answers[i]);
      }
    }
  }

  // ---------------------------------------------------------------- the package

  class CollectorTable {
    var state: map<string, bool>       // collectorState
    var factories: map<string, nat>
    var initiated: map<string, nat>    // initiatedCollectors: the instance kept for a name
    var made: seq<Made>                // every factory call that succeeded

    /** The kept instances are exactly those that were ever made, one for each name. */
    predicate Valid()
      reads this
    {
      && state.Keys == factories.Keys
      && initiated.Keys <= factories.Keys
      && (forall i :: 0 <= i < |made| ==> made[i].name in initiated && initiated[made[i].name] == i)
      && (forall name :: name in initiated ==> initiated[name] < |made| && made[initiated[name]].name == name)
    }

    constructor ()
      ensures Valid() && state == map[] && factories == map[] && initiated == map[] && made == []
    {
      state, factories, initiated, made := map[], map[], map[], [];
    }

    method RegisterCollector(name: string, enabledByDefault: bool, factory: nat)
      requires Valid()
      modifies this`state, this`factories
      ensures Valid()
      ensures state == old(state)[name := enabledByDefault] && factories == old(factories)[name := factory]
    {
      state := state[name := enabledByDefault];
      factories := factories[name := factory];
    }

    method SetPodmanCollectorState(name: string, on: bool)
      requires Valid()
      modifies this`state
      ensures Valid()
      ensures state == StateAfter(old(state), [SetState(name, on)])
    {
      var keys := state.Keys;
      while keys != {}
        invariant keys <= state.Keys == old(state).Keys
        invariant name in keys ==> state == old(state)
        invariant name !in keys ==> state == if name in old(state) then old(state)[name := on] else old(state)
      {
        var key :| key in keys;
        keys := keys - {key};
        if key == name {
          state := state[key := on];
        }
      }
      assert [SetState(name, on)][..0] == [];
    }

    /** What may be kept after a construction: all that was, and new instances of enabled names that did not fail. */
    twostate predicate Grown(failing: set<string>)
      reads this
    {
      && state == old(state) && factories == old(factories)
      && old(made) <= made
      && KeepsAll(old(initiated), initiated)
      && (forall i :: |old(made)| <= i < |made| ==> MadeNow(made[i], failing))
    }

    twostate predicate MadeNow(m: Made, failing: set<string>)
      reads this
    {
      && m.name in Enabled(state) && m.name !in failing && m.name !in old(initiated)
      && m.name in factories && m.factory == factories[m.name]
    }

    /** Err exactly when a factory that has to be called fails; then what was already made is kept. */
    method NewPodmanCollector(failing: set<string>) returns (r: Constructed)
      requires Valid()
      modifies this`initiated, this`made
      ensures Valid() && Grown(failing)
      ensures r.Ok? <==> Enabled(state) * failing <= old(initiated).Keys
      ensures r.Ok? ==> r.value.Keys == Enabled(state) && KeepsAll(r.value, initiated)
      ensures r.Ok? ==> forall name :: name in r.value <==> name in state && state[name] == true
      ensures r.Err? ==> r.error in Enabled(state) * failing && r.error !in initiated
    {
      var collectors: map<string, nat> := map[];
      var keys := state.Keys;
      while keys != {}
        invariant Valid() && Grown(failing) && keys <= state.Keys
        invariant collectors.Keys == Enabled(state) - keys
        invariant KeepsAll(collectors, initiated)
        invariant forall name :: name in initiated && name !in old(initiated) ==> name !in keys
        invariant forall name :: name in collectors && name in failing ==> name in old(initiated)
      {
        var key :| key in keys;
        keys := keys - {key};
        if !state[key] {
          continue;
        }
        if key in initiated {
          collectors := collectors[key := initiated[key]];
        } else {
          if key in failing {
            return Err(key);
          }
          var collector := CallFactory(key);
          collectors := collectors[key := collector];
        }
      }
      return Ok(collectors);
    }

    /** A factory call that succeeds, and the new instance kept. */
    method CallFactory(key: string) returns (collector: nat)
      requires Valid() && key in factories && key !in initiated
      modifies this`initiated, this`made
      ensures Valid() && collector == |old(made)|
      ensures made == old(made) + [Made(key, factories[key])] && initiated == old(initiated)[key := collector]
    {
      collector := |made|;
      initiated := initiated[key := collector];
      made := made + [Made(key, factories[key])];
    }

    /** Any run after registration: no factory succeeds twice for a name, whatever failed on the way. */
    method Perform(ops: seq<Operation>) returns (answers: seq<Option<Constructed>>)
      requires Valid()
      modifies this`state, this`initiated, this`made
      ensures Valid() && state == StateAfter(old(state), ops)
      ensures forall i, j :: 0 <= i < j < |made| ==> made[i].name != made[j].name
      ensures old(made) <= made
      ensures |answers| == |ops| && forall i :: 0 <= i < |ops| ==> ops[i].Construct? == answers[i].Some?
      ensures AllRight(old(state), ops, initiated, answers)
    {
      answers := [];
      for n := 0 to |ops|
        invariant Valid() && state == StateAfter(old(state), ops[..n])
        invariant old(made) <= made
        invariant |answers| == n && forall i :: 0 <= i < n ==> ops[i].Construct? == answers[i].Some?
        invariant AllRight(old(state), ops, initiated, answers)
      {
        OneMore(old(state), ops, n);
        ghost var before := initiated;
        var answer := PerformOne(ops[n]);
        OneMoreRight(old(state), ops, before, initiated, answers, answer);
        answers := answers + [answer];
      }
      assert ops[..|ops|] == ops;
    }

    method PerformOne(op: Operation) returns (answer: Option<Constructed>)
      requires Valid()
      modifies this`state, this`initiated, this`made
      ensures Valid() && state == StateAfter(old(state), [op])
      ensures old(made) <= made
      ensures KeepsAll(old(initiated), initiated)
      ensures op.Construct? == answer.Some? && Right(old(state), initiated, answer)
    {
      assert [op][..0] == [];
      match op
      case SetState(name, on) =>
        SetPodmanCollectorState(name, on);
        answer := None;
      case Construct(failing) =>
        var r := NewPodmanCollector(failing);
        answer := Some(r);
    }
  }
}
