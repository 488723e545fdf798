/**
 * The fixed Markov chain that drives every business: seven states S0..S6,
 * the successors of each state in the order the transition table lists them,
 * and the injected choice that replaces the weighted random draw.
 */
module Chain {

  datatype State = S0 | S1 | S2 | S3 | S4 | S5 | S6

  /** The fixed state set; every snapshot counts exactly these labels. */
  const AllStates: set<State> := {S0, S1, S2, S3, S4, S5, S6}

  /**
   * The keys of `transitions[s]`, in the table's insertion order. As keys of
   * one dictionary they are pairwise distinct, and no state lists itself.
   */
  function Options(s: State): (r: seq<State>)
    ensures forall i, j :: 0 <= i < j < |r| ==> r[i] != r[j]
    ensures s !in r
  {
    match s
    case S0 => [S1, S5]
    case S1 => [S2, S5]
    case S2 => [S3, S5]
    case S3 => [S4, S1, S5]
    case S4 => [S6, S5]
    case S5 => [S0, S1]
    case S6 => []
  }

  /** `t` is a key of `transitions[s]`: the chain can move from `s` to `t` in one step. */
  predicate IsEdge(s: State, t: State)
  {
    t in Options(s)
  }

  /**
   * The simulation's terminal test, hard-coded on the label S6 rather than
   * on the table; the state it picks out has no successor in the table.
   */
  predicate Absorbed(s: State)
    ensures Absorbed(s) ==> Options(s) == []
  {
    s == S6
  }

  /** The hard-coded terminal test agrees with the table: S6 and only S6 has no successors. */
  lemma AbsorbedIffNoOptions(s: State)
    ensures Absorbed(s) <==> Options(s) == []
    ensures Absorbed(s) <==> forall t :: !IsEdge(s, t)
  {
    if !Absorbed(s) {
      assert IsEdge(s, Options(s)[0]);
    }
  }

  /**
   * The injected replacement for `random.choices`: a draw selects one key of
   * `transitions[s]` by position. Weights are not modelled; every key is reachable.
   */
  function Pick(s: State, draw: nat): (t: State)
    requires !Absorbed(s)
    ensures IsEdge(s, t)
    ensures t != s
  {
    Options(s)[draw % |Options(s)|]
  }

  /** Every key of `transitions[s]` is the outcome of some draw. */
  lemma PickCovers(s: State, t: State)
    requires !Absorbed(s) && IsEdge(s, t)
    ensures exists draw: nat :: Pick(s, draw) == t
  {
    var k :| 0 <= k < |Options(s)| && Options(s)[k] == t;
    assert Pick(s, k) == t;
  }

  /** A run of states in which every consecutive pair is an edge of the table. */
  predicate IsPath(p: seq<State>)
  {
    forall k :: 0 <= k < |p| - 1 ==> IsEdge(p[k], p[k + 1])
  }

  /** Once a path reaches S6 it ends there: S6 has no outgoing edge. */
  lemma {:induction false} AbsorbedOnlyAtEnd(p: seq<State>, k: nat)
    requires IsPath(p) && k < |p| && Absorbed(p[k])
    ensures k == |p| - 1
  {
    assert k < |p| - 1 ==> IsEdge(p[k], p[k + 1]);
  }

  /** Number of steps on the shortest route from `s` to S6 in the table. */
  function Distance(s: State): nat
  {
    match s
    case S0 => 5
    case S1 => 4
    case S2 => 3
    case S3 => 2
    case S4 => 1
    case S5 => 5
    case S6 => 0
  }

  /** One step lowers the distance to S6 by at most one. */
  lemma StepDistance(s: State, t: State)
    requires IsEdge(s, t)
    ensures Distance(s) <= Distance(t) + 1
  {
  }

  /** Distance is attained: every other state has a successor exactly one step closer. */
  lemma DistanceAttained(s: State)
    requires !Absorbed(s)
    ensures exists t :: IsEdge(s, t) && Distance(t) + 1 == Distance(s)
  {
    match s
    case S0 => assert IsEdge(S0, S1);
    case S1 => assert IsEdge(S1, S2);
    case S2 => assert IsEdge(S2, S3);
    case S3 => assert IsEdge(S3, S4);
    case S4 => assert IsEdge(S4, S6);
    case S5 => assert IsEdge(S5, S1);
  }

  /** Along a path the distance to S6 falls by at most the number of steps taken. */
  lemma {:induction false} PathDistance(p: seq<State>)
    requires |p| > 0 && IsPath(p)
    ensures Distance(p[0]) <= Distance(p[|p| - 1]) + |p| - 1
  {
    if |p| > 1 {
      var q := p[..|p| - 1];
      assert IsPath(q) by {
        forall k | 0 <= k < |q| - 1 ensures IsEdge(q[k], q[k + 1]) {
          assert q[k] == p[k] && q[k + 1] == p[k + 1];
        }
      }
      PathDistance(q);
      StepDistance(p[|p| - 2], p[|p| - 1]);
    }
  }

  /** A path from S0 that ends in S6 visits at least six states (five steps). */
  lemma ShortestCompletion(p: seq<State>)
    requires |p| > 0 && IsPath(p) && p[0] == S0 && Absorbed(p[|p| - 1])
    ensures |p| >= 6
  {
    PathDistance(p);
  }

  /** The bound is tight: S0, S1, S2, S3, S4, S6 is a path of the table. */
  lemma ShortestRoute()
    ensures IsPath([S0, S1, S2, S3, S4, S6])
  {
  }
}
