/**
 * One simulated business: its name, current state, the append-only history of
 * states it has visited and the once-only completion stamp.
 */
module Businesses {
  import opened Wrappers
  import opened Chain

  class Business {
    const name: string
    var state: State
    var history: seq<State>
    var completion: Option<nat>

    /**
     * The object invariant: the history starts in S0, follows edges of the
     * table and ends in the current state, and the completion stamp is set
     * exactly when the business has been absorbed.
     */
    ghost predicate Valid()
      reads this
    {
      |history| > 0 && history[0] == S0 && state == history[|history| - 1]
      && IsPath(history)
      && (completion.Some? <==> Absorbed(state))
    }

    /** A new business starts in S0 with history [S0] and no completion stamp. */
    constructor (name: string)
      ensures this.name == name
      ensures state == S0 && history == [S0] && completion == None
      ensures Valid()
    {
      this.name := name;
      state := S0;
      history := [S0];
      completion := None;
    }

    /**
     * One step along the chain during iteration `iteration`, the successor
     * chosen by `draw`. An absorbed business is left as it is; otherwise the
     * chosen successor is appended to the history and, on landing in S6 with
     * no stamp yet, the stamp is set to `iteration`.
     */
    method UpdateState(iteration: nat, draw: nat)
      requires Valid()
      modifies this
      ensures Valid()
      ensures Absorbed(old(state)) ==>
        state == old(state) && history == old(history) && completion == old(completion)
      ensures !Absorbed(old(state)) ==>
        state == Pick(old(state), draw) && IsEdge(old(state), state)
        && history == old(history) + [state]
      ensures old(completion).Some? ==> completion == old(completion) && Absorbed(state)
      ensures completion ==
        if !Absorbed(old(state)) && Absorbed(state) && old(completion).None? then Some(iteration)
        else old(completion)
    {
      if state == S6 {
        return;
      }
      var next := Pick(state, draw);
      state := next;
      history := history + [state];
      if state == S6 && completion.None? {
        completion := Some(iteration);
      }
    }
  }
}
