/**
 Runs of a state machine. A component gives its initial state and its moves;
 a property kept by every move holds from the point where it first holds on.
 */
module Runs {
  datatype Move<S, T> = Move(pre: S, step: T, post: S)

  /** states[0], steps[0], states[1], ... is a run of `moves` from `init`. */
  ghost predicate IsRun<S(!new), T(!new)>(init: S, moves: iset<Move<S, T>>, states: seq<S>, steps: seq<T>) {
    && |states| == |steps| + 1 && states[0] == init
    && forall i :: 0 <= i < |steps| ==> Move(states[i], steps[i], states[i + 1]) in moves
  }

  ghost predicate Reachable<S(!new), T(!new)>(init: S, moves: iset<Move<S, T>>, s: S) {
    exists states: seq<S>, steps: seq<T> :: IsRun(init, moves, states, steps) && s in states
  }

  ghost predicate Keeps<S(!new), T(!new)>(moves: iset<Move<S, T>>, good: iset<S>) {
    forall m :: m in moves && m.pre in good ==> m.post in good
  }

  lemma {:induction false} StaysFrom<S(!new), T(!new)>(
      init: S, moves: iset<Move<S, T>>, good: iset<S>, states: seq<S>, steps: seq<T>, i: nat, j: nat)
    requires IsRun(init, moves, states, steps) && Keeps(moves, good)
    requires i <= j < |states| && states[i] in good
    ensures states[j] in good
    decreases j
  {
    if i < j {
      StaysFrom(init, moves, good, states, steps, i, j - 1);
      assert Move(states[j - 1], steps[j - 1], states[j]) in moves;
    }
  }

  lemma ReachableIsIn<S(!new), T(!new)>(init: S, moves: iset<Move<S, T>>, good: iset<S>, s: S)
    requires init in good && Keeps(moves, good) && Reachable(init, moves, s)
    ensures s in good
  {
    var states: seq<S>, steps: seq<T> :| IsRun(init, moves, states, steps) && s in states;
    var i :| 0 <= i < |states| && states[i] == s;
    StaysFrom(init, moves, good, states, steps, 0, i);
  }

  /** One more step of a run. */
  lemma Extend<S(!new), T(!new)>(init: S, moves: iset<Move<S, T>>, states: seq<S>, steps: seq<T>, step: T, next: S)
    requires IsRun(init, moves, states, steps) && Move(states[|steps|], step, next) in moves
    ensures IsRun(init, moves, states + [next], steps + [step])
  {
    var longer, more := states + [next], steps + [step];
    forall i | 0 <= i < |more| ensures Move(longer[i], more[i], longer[i + 1]) in moves {
      assert i < |steps| ==> Move(states[i], steps[i], states[i + 1]) in moves;
    }
  }
}
