/** Runs as values, and running on from where one ends. */
module DclPaths {
  import opened DclState
  import opened DclSteps

  datatype Path = Path(states: seq<Dcl>, acts: seq<Action>)

  ghost predicate RunTo(p: Path, s: Dcl) {
    IsRun(p.states, p.acts) && p.states[|p.states| - 1] == s
  }

  lemma Then(p: Path, s: Dcl, a: Action, s': Dcl) returns (p': Path)
    requires RunTo(p, s) && Step(s, a, s')
    ensures RunTo(p', s') && p' == Path(p.states + [s'], p.acts + [a])
  {
    p' := Path(p.states + [s'], p.acts + [a]);
    forall i | 0 <= i < |p'.acts|
      ensures Step(p'.states[i], p'.acts[i], p'.states[i + 1])
    {
      if i < |p.acts| {
        assert p'.states[i] == p.states[i] && p'.states[i + 1] == p.states[i + 1] && p'.acts[i] == p.acts[i];
      }
    }
  }
}
