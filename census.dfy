/**
 * Timeline snapshots: for one iteration, how many businesses sit in each of
 * the seven states.
 */
module Census {
  import opened Chain

  /** One timeline record: the iteration index and a count for every state label. */
  datatype Snapshot = Snapshot(iteration: nat, counts: map<State, nat>)

  /** Number of occurrences of `s` in `ss`. */
  function Count(ss: seq<State>, s: State): (c: nat)
    ensures c <= |ss|
  {
    if ss == [] then 0
    else Count(ss[..|ss| - 1], s) + (if ss[|ss| - 1] == s then 1 else 0)
  }

  /** The per-state counts of a population: every state label, including the empty ones. */
  function Tally(ss: seq<State>): (t: map<State, nat>)
    ensures t.Keys == AllStates
  {
    map s | s in AllStates :: Count(ss, s)
  }

  /** The counts with no business yet tallied: every label maps to zero. */
  function EmptyTally(): map<State, nat>
  {
    map s | s in AllStates :: 0
  }

  /** Sum of the seven counts of a snapshot. */
  function Total(counts: map<State, nat>): nat
    requires AllStates <= counts.Keys
  {
    counts[S0] + counts[S1] + counts[S2] + counts[S3] + counts[S4] + counts[S5] + counts[S6]
  }

  /** Tallying one more business adds one to its state's count and nothing else. */
  lemma TallyAppend(ss: seq<State>, x: State)
    ensures Tally(ss + [x]) == Tally(ss)[x := Tally(ss)[x] + 1]
  {
    var t := ss + [x];
    assert t[..|t| - 1] == ss;
  }

  /** The seven counts of a population add up to its size. */
  lemma {:induction false} TallyTotal(ss: seq<State>)
    ensures Tally(ss).Keys == AllStates
    ensures Total(Tally(ss)) == |ss|
  {
    if ss != [] {
      var init := ss[..|ss| - 1];
      assert ss == init + [ss[|ss| - 1]];
      TallyTotal(init);
      TallyAppend(init, ss[|ss| - 1]);
    }
  }

  /** A state's count equals the population size exactly when every member is in that state. */
  lemma {:induction false} CountAll(ss: seq<State>, s: State)
    ensures Count(ss, s) == |ss| <==> forall k :: 0 <= k < |ss| ==> ss[k] == s
  {
    if ss != [] {
      var init := ss[..|ss| - 1];
      CountAll(init, s);
      if Count(ss, s) == |ss| {
        forall k | 0 <= k < |ss| ensures ss[k] == s {
          if k < |ss| - 1 {
            assert ss[k] == init[k];
          }
        }
      }
    }
  }
}
