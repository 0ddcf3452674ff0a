/** core/graph/backoff.go: the state keys one observation is recorded under. */
module Backoff {

  predicate AllEmpty(state: seq<string>) {
    forall i | 0 <= i < |state| :: state[i] == ""
  }

  method CheckAllEmpty(state: seq<string>) returns (empty: bool)
    ensures empty == AllEmpty(state)
  {
    for i := 0 to |state|
      invariant AllEmpty(state[..i])
    {
      if state[i] != "" {
        return false;
      }
    }
    assert state[..|state|] == state;
    return true;
  }

  function AppendIfInformative(states: seq<seq<string>>, candidate: seq<string>): seq<seq<string>> {
    if candidate == [] || AllEmpty(candidate) then states else states + [candidate]
  }

  function BackoffStates(state: seq<string>, hasCwd: bool): seq<seq<string>> {
    var states := [state];
    var (templates, states) :=
      if hasCwd && |state| > 0 then (state[1..], AppendIfInformative(states, state[1..])) else (state, states);
    if |templates| > 1 then AppendIfInformative(states, templates[1..]) else states
  }

  /** The context of a query or observation: the directory, when known, before the templates. */
  function Context(dir: string, window: seq<string>): seq<string> {
    (if dir == "" then [] else [dir]) + window
  }

  /** The exact context comes first, and no generalisation is blank. */
  lemma GeneralisationsCarryContext(state: seq<string>, hasCwd: bool)
    ensures var states := BackoffStates(state, hasCwd);
            && states[0] == state && |states| <= 3
            && forall i | 1 <= i < |states| :: !AllEmpty(states[i]) && states[i] <= state[|state| - |states[i]|..]
  {
  }

  /**
   A two-command window is recorded under exactly the keys the ladder can look it up by: the exact context, the
   window without its directory, and the last command alone, each of the last two only when not blank.
   */
  lemma WindowKeys(dir: string, p1: string, p2: string, key: seq<string>)
    ensures key in BackoffStates(Context(dir, [p1, p2]), dir != "") <==>
            || key == Context(dir, [p1, p2])
            || (key == [p1, p2] && !AllEmpty([p1, p2]))
            || (key == [p2] && p2 != "")
  {
    var full := Context(dir, [p1, p2]);
    var templates := if dir != "" then full[1..] else full;
    assert templates == [p1, p2] && templates[1..] == [p2];
    assert AllEmpty([p2]) <==> [p2][0] == "";
    if dir == "" && AllEmpty([p1, p2]) {
      assert [p1, p2][1] == "";
    }
  }
}
