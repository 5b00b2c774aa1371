/**
 The sending half: one Publisher per discovery epoch numbers its events with
 one global sequence. Building a snapshot from its inputs is a function that
 may refuse.
 */
module Publisher {
  import opened Common
  import opened ServingView

  /** The builder's view of one function: its body, or a refusal. */
  datatype Input = Input(functionId: string, fn: FunctionInfo, trigger: TriggerInfo, route: RouteInfo,
                         endpoints: seq<Endpoint>, accepted: bool)

  function Build(i: Input, epoch: nat, sequence: nat): Snapshot {
    Snapshot(i.functionId, epoch, sequence, i.fn, i.trigger, i.route, i.endpoints, true)
  }

  /** The builder refuses, or returns a valid snapshot. */
  predicate Accepts(i: Input) {
    i.accepted && DistinctAssignments(i.endpoints)
  }

  predicate DistinctInputs(inputs: seq<Input>) {
    forall i, j :: 0 <= i < j < |inputs| ==> inputs[i].functionId != inputs[j].functionId
  }

  function BuildAll(inputs: seq<Input>, epoch: nat, sequence: nat): (r: seq<Snapshot>)
    ensures |r| == |inputs| && forall i :: 0 <= i < |r| ==> r[i] == Build(inputs[i], epoch, sequence)
  {
    seq(|inputs|, i requires 0 <= i < |inputs| => Build(inputs[i], epoch, sequence))
  }

  /** What a publisher at `sequence` sends next for one function, if it can. */
  function NextIncremental(epoch: nat, sequence: nat, input: Input): Option<Event> {
    if sequence == TWO64 - 1 || !Accepts(input) then None
    else Some(Event(false, epoch, sequence + 1, [Build(input, epoch, sequence + 1)]))
  }

  /** What a publisher at `sequence` sends next as a Full Sync, if it can. */
  function NextFull(epoch: nat, sequence: nat, inputs: seq<Input>): Option<Event> {
    if sequence == TWO64 - 1 || !DistinctInputs(inputs) || (exists i :: 0 <= i < |inputs| && !Accepts(inputs[i])) then
      None
    else Some(Event(true, epoch, sequence + 1, BuildAll(inputs, epoch, sequence + 1)))
  }

  /** A sent event has the next position, and so has every snapshot in it. */
  lemma SentIsWellPlaced(epoch: nat, sequence: nat, inputs: seq<Input>)
    ensures NextFull(epoch, sequence, inputs).Some? ==>
      var e := NextFull(epoch, sequence, inputs).value;
      && e.full && e.epoch == epoch && e.sequence == sequence + 1 && DistinctIds(e.snapshots)
      && forall i :: 0 <= i < |e.snapshots| ==> WellPlaced(e, e.snapshots[i])
  {
  }

  class Publisher {
    const epoch: nat
    var sequence: nat

    constructor (epoch: nat)
      requires epoch > 0
      ensures this.epoch == epoch && sequence == 0
    {
      this.epoch := epoch;
      sequence := 0;
    }

    method BuildOne(input: Input) returns (r: Option<Event>)
      modifies this
      ensures r == NextIncremental(epoch, old(sequence), input)
      ensures sequence == if r.Some? then old(sequence) + 1 else old(sequence)
    {
      if sequence == TWO64 - 1 || !Accepts(input) {
        return None;
      }
      sequence := sequence + 1;
      return Some(Event(false, epoch, sequence, [Build(input, epoch, sequence)]));
    }

    method BuildFull(inputs: seq<Input>) returns (r: Option<Event>)
      modifies this
      ensures r == NextFull(epoch, old(sequence), inputs)
      ensures sequence == if r.Some? then old(sequence) + 1 else old(sequence)
    {
      if sequence == TWO64 - 1 {
        return None;
      }
      var next := sequence + 1;
      var results: seq<Snapshot> := [];
      var seen: set<string> := {};
      for i := 0 to |inputs|
        invariant results == BuildAll(inputs[..i], epoch, next)
        invariant DistinctInputs(inputs[..i]) && forall j :: 0 <= j < i ==> Accepts(inputs[j])
        invariant forall f :: f in seen <==> exists j :: 0 <= j < i && inputs[j].functionId == f
      {
        if inputs[i].functionId in seen {
          assert exists j :: 0 <= j < i && inputs[j].functionId == inputs[i].functionId;
          return None;
        }
        seen := seen + {inputs[i].functionId};
        if !Accepts(inputs[i]) {
          return None;
        }
        results := results + [Build(inputs[i], epoch, next)];
      }
      assert inputs[..|inputs|] == inputs;
      sequence := next;
      return Some(Event(true, epoch, next, results));
    }
  }
}
