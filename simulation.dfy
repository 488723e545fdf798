/**
 * The simulation driver: it builds the population, then for each iteration
 * records a census snapshot, stops once every business is absorbed, and
 * otherwise advances every business that is not yet in S6.
 */
module Simulation {
  import opened Wrappers
  import opened Chain
  import opened Naming
  import opened Census
  import opened Businesses
  import Ranking

  /** The state a business was in at snapshot `j`, read off its history (its final state once the history stopped growing). */
  function StateAt(h: seq<State>, j: nat): State
    requires |h| > 0
  {
    if j < |h| then h[j] else h[|h| - 1]
  }

  /** The states of the whole population at snapshot `j`, one per history. */
  function Column(hs: seq<seq<State>>, j: nat): seq<State>
    requires forall k :: 0 <= k < |hs| ==> |hs[k]| > 0
  {
    seq(|hs|, k requires 0 <= k < |hs| && |hs[k]| > 0 => StateAt(hs[k], j))
  }

  function Last(h: seq<State>): State
    requires |h| > 0
  {
    h[|h| - 1]
  }

  function Histories(bs: seq<Business>): (r: seq<seq<State>>)
    reads bs
    ensures |r| == |bs| && forall k :: 0 <= k < |bs| ==> r[k] == bs[k].history
  {
    seq(|bs|, k requires 0 <= k < |bs| reads bs => bs[k].history)
  }

  function CurrentStates(bs: seq<Business>): (r: seq<State>)
    reads bs
    ensures |r| == |bs| && forall k :: 0 <= k < |bs| ==> r[k] == bs[k].state
  {
    seq(|bs|, k requires 0 <= k < |bs| reads bs => bs[k].state)
  }

  function Completions(bs: seq<Business>): (r: seq<Option<nat>>)
    reads bs
    ensures |r| == |bs| && forall k :: 0 <= k < |bs| ==> r[k] == bs[k].completion
  {
    seq(|bs|, k requires 0 <= k < |bs| reads bs => bs[k].completion)
  }

  /** The population holds each business object once. */
  predicate Distinct(bs: seq<Business>)
  {
    forall p, q :: 0 <= p < q < |bs| ==> bs[p] != bs[q]
  }

  ghost predicate AllValid(bs: seq<Business>)
    reads bs
  {
    forall k :: 0 <= k < |bs| ==> bs[k].Valid()
  }

  /**
   * What `i` completed iterations leave behind: a business without a stamp
   * has been advanced in every one of them; one stamped `c` was advanced in
   * iterations 0..c and then stopped.
   */
  predicate Stamped(h: seq<State>, completion: Option<nat>, i: nat)
  {
    (completion.None? ==> |h| == i + 1)
    && (completion.Some? ==> completion.value < i && |h| == completion.value + 2)
  }

  /** The census loop: one pass over the population, one increment per business. */
  method CountStates(bs: seq<Business>) returns (counts: map<State, nat>)
    ensures counts == Tally(CurrentStates(bs))
  {
    counts := EmptyTally();
    assert CurrentStates(bs[..0]) == [];
    for k := 0 to |bs|
      invariant counts == Tally(CurrentStates(bs[..k]))
    {
      ghost var done := CurrentStates(bs[..k]);
      assert CurrentStates(bs[..k + 1]) == done + [bs[k].state];
      TallyAppend(done, bs[k].state);
      counts := counts[bs[k].state := counts[bs[k].state] + 1];
    }
    assert bs[..|bs|] == bs;
  }

  /**
   * One advance round of iteration `iteration`: every business not in S6 takes
   * one step, consuming the next draw of the injected stream; absorbed ones
   * are left untouched.
   */
  method AdvanceRound(bs: seq<Business>, iteration: nat, draws: nat -> nat, used: nat) returns (used': nat)
    requires Distinct(bs) && AllValid(bs)
    modifies bs
    ensures AllValid(bs)
    ensures used' >= used
    ensures Advanced(old(Histories(bs)), old(Completions(bs)), Histories(bs), Completions(bs), iteration)
  {
    used' := used;
    for k := 0 to |bs|
      invariant AllValid(bs)
      invariant used' >= used
      invariant forall m :: 0 <= m < k ==>
        Stepped(old(bs[m].history), old(bs[m].completion), bs[m].history, bs[m].completion, iteration)
      invariant forall m :: k <= m < |bs| ==>
        bs[m].history == old(bs[m].history) && bs[m].completion == old(bs[m].completion)
    {
      if bs[k].state != S6 {
        bs[k].UpdateState(iteration, draws(used'));
        used' := used' + 1;
      }
    }
  }

  /**
   * One business's part of an advance round of iteration `i`: an absorbed
   * business keeps its history and stamp; any other gains one successor and
   * is stamped `i` exactly when that successor is S6.
   */
  predicate Stepped(h: seq<State>, c: Option<nat>, h': seq<State>, c': Option<nat>, i: nat)
  {
    |h| > 0 &&
    if Absorbed(Last(h)) then h' == h && c' == c
    else
      |h'| == |h| + 1 && h'[..|h|] == h
      && IsEdge(Last(h), Last(h'))
      && c' == (if Absorbed(Last(h')) then Some(i) else None)
  }

  /** One advance round of iteration `i` on the population's histories and stamps. */
  ghost predicate Advanced(hs: seq<seq<State>>, cs: seq<Option<nat>>,
                           hs': seq<seq<State>>, cs': seq<Option<nat>>, i: nat)
  {
    |hs'| == |hs| && |cs| == |hs| && |cs'| == |hs|
    && forall k :: 0 <= k < |hs| ==> Stepped(hs[k], cs[k], hs'[k], cs'[k], i)
  }

  /**
   * The loop invariant of the run after `i` full iterations, on the
   * population's histories and stamps: every business is stamped exactly
   * when absorbed, its history length agrees with its stamp, and each of the
   * `i` snapshots is the census of the histories at its iteration and shows
   * at least one business outside S6.
   */
  ghost predicate Progress(hs: seq<seq<State>>, cs: seq<Option<nat>>, tl: seq<Snapshot>, i: nat)
  {
    |cs| == |hs| && |tl| == i
    && (forall k :: 0 <= k < |hs| ==>
          |hs[k]| > 0 && (cs[k].Some? <==> Absorbed(Last(hs[k]))) && Stamped(hs[k], cs[k], i))
    && (forall j :: 0 <= j < i ==>
          tl[j] == Snapshot(j, Tally(Column(hs, j))) && Tally(Column(hs, j))[S6] < |hs|)
  }

  /**
   * What a finished run promises about the histories, stamps and timeline,
   * for an iteration cap `max`.
   */
  ghost predicate Outcome(hs: seq<seq<State>>, cs: seq<Option<nat>>, tl: seq<Snapshot>, max: nat)
  {
    |cs| == |hs|
    && (forall k :: 0 <= k < |hs| ==> |hs[k]| > 0)
    && |tl| <= max && (max >= 1 ==> |tl| >= 1)
    && (forall j :: 0 <= j < |tl| ==> tl[j] == Snapshot(j, Tally(Column(hs, j))))
    && (forall j :: 0 <= j < |tl| - 1 ==> tl[j].counts[S6] < |hs|)
    && (0 < |tl| < max ==>
          tl[|tl| - 1].counts[S6] == |hs| && forall k :: 0 <= k < |hs| ==> Absorbed(Last(hs[k])))
    && (forall k :: 0 <= k < |hs| && cs[k].None? ==>
          |hs[k]| == |tl| + 1 && !Absorbed(Last(hs[k])))
    && (forall k :: 0 <= k < |hs| && cs[k].Some? ==>
          cs[k].value < |tl| && |hs[k]| == cs[k].value + 2 && Absorbed(Last(hs[k])))
  }

  /** Before any iteration, every history is [S0] and nothing is stamped. */
  lemma ProgressInitial(hs: seq<seq<State>>, cs: seq<Option<nat>>)
    requires |cs| == |hs|
    requires forall k :: 0 <= k < |hs| ==> hs[k] == [S0] && cs[k] == None
    ensures Progress(hs, cs, [], 0)
  {
  }

  /** At snapshot `i` every history shows its final state. */
  lemma {:induction false} ColumnCurrent(hs: seq<seq<State>>, cs: seq<Option<nat>>, tl: seq<Snapshot>, i: nat)
    requires Progress(hs, cs, tl, i)
    ensures forall k :: 0 <= k < |hs| ==> Column(hs, i)[k] == Last(hs[k])
  {
    forall k | 0 <= k < |hs| ensures Column(hs, i)[k] == Last(hs[k]) {
      assert Stamped(hs[k], cs[k], i);
    }
  }

  /** Appending to the histories that were `i + 1` long leaves snapshots 0..i unchanged. */
  lemma ColumnStable(hs: seq<seq<State>>, cs: seq<Option<nat>>, hs': seq<seq<State>>, cs': seq<Option<nat>>,
                     tl: seq<Snapshot>, i: nat, j: nat)
    requires Progress(hs, cs, tl, i) && Advanced(hs, cs, hs', cs', i) && j <= i
    ensures forall k :: 0 <= k < |hs'| ==> |hs'[k]| > 0
    ensures Column(hs', j) == Column(hs, j)
  {
    forall k | 0 <= k < |hs| ensures |hs'[k]| > 0 && StateAt(hs'[k], j) == StateAt(hs[k], j) {
      assert Stamped(hs[k], cs[k], i);
      if !Absorbed(Last(hs[k])) {
        assert hs'[k][j] == hs'[k][..|hs[k]|][j];
      }
    }
  }

  /** An advance round after a snapshot that still shows a business outside S6 keeps the loop invariant. */
  lemma {:induction false} AdvanceStep(hs: seq<seq<State>>, cs: seq<Option<nat>>,
                                       hs': seq<seq<State>>, cs': seq<Option<nat>>,
                                       tl: seq<Snapshot>, i: nat)
    requires Progress(hs, cs, tl, i) && Advanced(hs, cs, hs', cs', i)
    requires Tally(Column(hs, i))[S6] < |hs|
    ensures Progress(hs', cs', tl + [Snapshot(i, Tally(Column(hs, i)))], i + 1)
  {
    var tl' := tl + [Snapshot(i, Tally(Column(hs, i)))];
    forall k | 0 <= k < |hs'|
      ensures |hs'[k]| > 0 && (cs'[k].Some? <==> Absorbed(Last(hs'[k]))) && Stamped(hs'[k], cs'[k], i + 1)
    {
      assert Stamped(hs[k], cs[k], i);
    }
    forall j | 0 <= j < i + 1
      ensures tl'[j] == Snapshot(j, Tally(Column(hs', j))) && Tally(Column(hs', j))[S6] < |hs'|
    {
      ColumnStable(hs, cs, hs', cs', tl, i, j);
    }
  }

  /** The S6 count of snapshot `i` is the population size exactly when every business is absorbed. */
  lemma AbsorbedCount(hs: seq<seq<State>>, cs: seq<Option<nat>>, tl: seq<Snapshot>, i: nat)
    requires Progress(hs, cs, tl, i)
    ensures Tally(Column(hs, i))[S6] == |hs| <==> forall k :: 0 <= k < |hs| ==> Absorbed(Last(hs[k]))
  {
    ColumnCurrent(hs, cs, tl, i);
    CountAll(Column(hs, i), S6);
  }

  /** A run that used up its iteration cap meets the outcome. */
  lemma ExhaustedOutcome(hs: seq<seq<State>>, cs: seq<Option<nat>>, tl: seq<Snapshot>, max: nat)
    requires Progress(hs, cs, tl, max)
    ensures Outcome(hs, cs, tl, max)
  {
    forall k | 0 <= k < |hs| && cs[k].Some?
      ensures cs[k].value < |tl| && |hs[k]| == cs[k].value + 2 && Absorbed(Last(hs[k]))
    {
      assert Stamped(hs[k], cs[k], max);
    }
  }

  /** A run that stopped at iteration `i < max` because everything was absorbed meets the outcome. */
  lemma {:induction false} AbsorbedOutcome(hs: seq<seq<State>>, cs: seq<Option<nat>>, tl: seq<Snapshot>, i: nat, max: nat)
    requires Progress(hs, cs, tl, i) && i < max
    requires forall k :: 0 <= k < |hs| ==> Absorbed(Last(hs[k]))
    ensures Outcome(hs, cs, tl + [Snapshot(i, Tally(Column(hs, i)))], max)
  {
    var tl' := tl + [Snapshot(i, Tally(Column(hs, i)))];
    ColumnCurrent(hs, cs, tl, i);
    CountAll(Column(hs, i), S6);
    forall k | 0 <= k < |hs|
      ensures cs[k].Some? && cs[k].value < |tl'| && |hs[k]| == cs[k].value + 2
    {
      assert Stamped(hs[k], cs[k], i);
    }
  }

  /** Every snapshot of a finished run counts the whole population. */
  lemma OutcomeTotals(hs: seq<seq<State>>, cs: seq<Option<nat>>, tl: seq<Snapshot>, max: nat)
    requires Outcome(hs, cs, tl, max)
    ensures forall j :: 0 <= j < |tl| ==> Total(tl[j].counts) == |hs|
  {
    forall j | 0 <= j < |tl| ensures Total(tl[j].counts) == |hs| {
      TallyTotal(Column(hs, j));
    }
  }

  /**
   * With histories that start in S0 and follow the table, no business is
   * stamped before iteration 4: its history holds `c + 2` states and reaching
   * S6 from S0 takes at least five steps.
   */
  lemma OutcomeCompletionBound(hs: seq<seq<State>>, cs: seq<Option<nat>>, tl: seq<Snapshot>, max: nat)
    requires Outcome(hs, cs, tl, max)
    requires forall k :: 0 <= k < |hs| ==> hs[k][0] == S0 && IsPath(hs[k])
    ensures forall k :: 0 <= k < |hs| && cs[k].Some? ==> cs[k].value >= 4
  {
    forall k | 0 <= k < |hs| && cs[k].Some? ensures cs[k].value >= 4 {
      ShortestCompletion(hs[k]);
    }
  }

  /**
   * The earliest stamp in action: a business advanced in iterations 0 to 4,
   * each time with draw 0, takes the first key of every table entry
   * (`Pick(s, 0)` is S1, S2, S3, S4, S6 for `s` = S0 to S4), reaches S6
   * along S0, S1, S2, S3, S4, S6 and is stamped 4.
   */
  method FirstKeyRun(name: string) returns (b: Business)
    ensures b.name == name && b.Valid()
    ensures b.history == [S0, S1, S2, S3, S4, S6] && b.completion == Some(4)
  {
    b := new Business(name);
    b.UpdateState(0, 0);
    b.UpdateState(1, 0);
    b.UpdateState(2, 0);
    b.UpdateState(3, 0);
    b.UpdateState(4, 0);
  }

  /**
   * What a finished run implies for its population: every snapshot counts
   * all businesses, and no business was stamped before iteration 4.
   */
  lemma FinishedRun(bs: seq<Business>, timeline: seq<Snapshot>, max: nat)
    requires AllValid(bs) && Outcome(Histories(bs), Completions(bs), timeline, max)
    ensures forall j :: 0 <= j < |timeline| ==> Total(timeline[j].counts) == |bs|
    ensures forall k :: 0 <= k < |bs| && bs[k].completion.Some? ==> bs[k].completion.value >= 4
  {
    var hs, cs := Histories(bs), Completions(bs);
    OutcomeTotals(hs, cs, timeline, max);
    assert forall k :: 0 <= k < |hs| ==> hs[k][0] == S0 && IsPath(hs[k]);
    OutcomeCompletionBound(hs, cs, timeline, max);
  }

  /** What the completion ranking reads from the population: each business's name and stamp. */
  function Entries(bs: seq<Business>): (r: seq<Ranking.Entry>)
    reads bs
    ensures |r| == |bs|
    ensures forall k :: 0 <= k < |bs| ==> r[k] == Ranking.Entry(bs[k].name, bs[k].completion)
  {
    seq(|bs|, k requires 0 <= k < |bs| reads bs => Ranking.Entry(bs[k].name, bs[k].completion))
  }

  /**
   * The ranking of a finished run: every business listed as completed was
   * stamped in an iteration the timeline recorded and no earlier than
   * iteration 4, and every business listed as not completed is short of S6.
   */
  lemma RankedRun(bs: seq<Business>, timeline: seq<Snapshot>, max: nat)
    requires AllValid(bs) && Outcome(Histories(bs), Completions(bs), timeline, max)
    ensures forall e :: e in Ranking.Rank(Entries(bs)).0 ==>
      e.completion.Some? && 4 <= e.completion.value < |timeline|
    ensures forall e :: e in Ranking.Rank(Entries(bs)).1 ==>
      exists k :: 0 <= k < |bs| && e.name == bs[k].name && !Absorbed(bs[k].state)
  {
    var es := Entries(bs);
    assert forall k :: 0 <= k < |es| && es[k].completion.Some? ==>
      4 <= es[k].completion.value < |timeline|
    by {
      FinishedRun(bs, timeline, max);
      assert forall k :: 0 <= k < |bs| ==> Completions(bs)[k] == es[k].completion;
    }
    Ranking.RankedEntries(es, 4, |timeline|);
    forall e | e in Ranking.Rank(es).1
      ensures exists k :: 0 <= k < |bs| && e.name == bs[k].name && !Absorbed(bs[k].state)
    {
      var k :| 0 <= k < |es| && es[k] == e && e.completion.None?;
      assert !Absorbed(bs[k].state);
    }
  }

  /** One new business per name, in the order of the names. */
  method CreatePopulation(names: seq<string>) returns (bs: seq<Business>)
    ensures |bs| == |names| && Distinct(bs) && AllValid(bs)
    ensures forall m :: 0 <= m < |bs| ==> fresh(bs[m])
    ensures forall m :: 0 <= m < |bs| ==>
      bs[m].name == names[m] && bs[m].state == S0 && bs[m].history == [S0] && bs[m].completion == None
  {
    bs := [];
    for k := 0 to |names|
      invariant |bs| == k && Distinct(bs) && AllValid(bs)
      invariant forall m :: 0 <= m < k ==> fresh(bs[m])
      invariant forall m :: 0 <= m < k ==>
        bs[m].name == names[m] && bs[m].state == S0 && bs[m].history == [S0] && bs[m].completion == None
    {
      var b := new Business(names[k]);
      bs := bs + [b];
    }
  }

  /**
   * The census of iteration `i`: the per-state counts of the population's
   * current states, which are the states its histories show at `i`.
   */
  method TakeSnapshot(bs: seq<Business>, i: nat, ghost timeline: seq<Snapshot>) returns (snapshot: Snapshot)
    requires AllValid(bs) && Progress(Histories(bs), Completions(bs), timeline, i)
    ensures snapshot == Snapshot(i, Tally(Column(Histories(bs), i)))
  {
    var counts := CountStates(bs);
    ColumnCurrent(Histories(bs), Completions(bs), timeline, i);
    assert CurrentStates(bs) == Column(Histories(bs), i);
    snapshot := Snapshot(i, counts);
  }

  /** The early-exit test: every business of the population is in S6. */
  method AllInS6(bs: seq<Business>) returns (all: bool)
    requires AllValid(bs)
    ensures all <==> forall k :: 0 <= k < |bs| ==> Absorbed(Last(Histories(bs)[k]))
  {
    all := forall m :: 0 <= m < |bs| ==> bs[m].state == S6;
    assert forall k :: 0 <= k < |bs| ==> Last(Histories(bs)[k]) == bs[k].state;
  }

  /**
   * One pass of the run loop, iteration `i`: record the census; if every
   * business is in S6, report the run finished; otherwise advance every
   * business not in S6 with stamp `i`.
   */
  method Iterate(businesses: seq<Business>, i: nat, maxIterations: nat, draws: nat -> nat, used: nat,
                 timeline: seq<Snapshot>)
    returns (timeline': seq<Snapshot>, used': nat, finished: bool)
    requires i < maxIterations
    requires Distinct(businesses) && AllValid(businesses)
    requires Progress(Histories(businesses), Completions(businesses), timeline, i)
    modifies businesses
    ensures AllValid(businesses)
    ensures timeline' == timeline + [Snapshot(i, Tally(Column(old(Histories(businesses)), i)))]
    ensures finished <==> forall k :: 0 <= k < |businesses| ==> old(businesses[k].state) == S6
    ensures finished ==>
      Histories(businesses) == old(Histories(businesses)) && Completions(businesses) == old(Completions(businesses))
    ensures !finished ==>
      Advanced(old(Histories(businesses)), old(Completions(businesses)), Histories(businesses), Completions(businesses), i)
    ensures finished ==> Outcome(Histories(businesses), Completions(businesses), timeline', maxIterations)
    ensures !finished ==> Progress(Histories(businesses), Completions(businesses), timeline', i + 1)
  {
    ghost var hs, cs := Histories(businesses), Completions(businesses);
    var snapshot := TakeSnapshot(businesses, i, timeline);
    timeline' := timeline + [snapshot];
    used' := used;

    finished := AllInS6(businesses);
    assert Histories(businesses) == hs;
    if finished {
      assert Outcome(hs, cs, timeline', maxIterations) by {
        AbsorbedOutcome(hs, cs, timeline, i, maxIterations);
      }
      return;
    }
    assert Tally(Column(hs, i))[S6] < |hs| by {
      AbsorbedCount(hs, cs, timeline, i);
    }
    used' := AdvanceRound(businesses, i, draws, used);
    ghost var hs', cs' := Histories(businesses), Completions(businesses);
    assert Progress(hs', cs', timeline', i + 1) by {
      AdvanceStep(hs, cs, hs', cs', timeline, i);
    }
  }

  /**
   * The iteration loop of a run over an existing population, for iterations
   * 0 up to `maxIterations - 1`, left early once every business is in S6.
   */
  method RunIterations(businesses: seq<Business>, maxIterations: nat, draws: nat -> nat)
    returns (timeline: seq<Snapshot>)
    requires Distinct(businesses) && AllValid(businesses)
    requires Progress(Histories(businesses), Completions(businesses), [], 0)
    modifies businesses
    ensures AllValid(businesses)
    ensures Outcome(Histories(businesses), Completions(businesses), timeline, maxIterations)
  {
    timeline := [];
    var used := 0;
    var i := 0;
    while i < maxIterations
      invariant i <= maxIterations
      invariant AllValid(businesses)
      invariant Progress(Histories(businesses), Completions(businesses), timeline, i)
    {
      var finished;
      timeline, used, finished := Iterate(businesses, i, maxIterations, draws, used, timeline);
      if finished {
        return;
      }
      i := i + 1;
    }
    ExhaustedOutcome(Histories(businesses), Completions(businesses), timeline, maxIterations);
  }

  /**
   * The whole run: `numBusinesses` businesses named by `Names`, then at most
   * `maxIterations` snapshots, each the census of the histories at its
   * iteration; the run stops early exactly when every business is in S6.
   */
  method RunSimulation(numBusinesses: nat, maxIterations: nat, draws: nat -> nat)
    returns (businesses: seq<Business>, timeline: seq<Snapshot>)
    ensures |businesses| == numBusinesses && Distinct(businesses) && AllValid(businesses)
    ensures forall k :: 0 <= k < numBusinesses ==> businesses[k].name == Names(numBusinesses)[k]
    ensures forall p, q :: 0 <= p < q < numBusinesses ==> businesses[p].name != businesses[q].name
    ensures Outcome(Histories(businesses), Completions(businesses), timeline, maxIterations)
    ensures forall j :: 0 <= j < |timeline| ==> Total(timeline[j].counts) == numBusinesses
    ensures forall k :: 0 <= k < numBusinesses && businesses[k].completion.Some? ==>
      businesses[k].completion.value >= 4
  {
    var names := Names(numBusinesses);
    NamesDistinct(numBusinesses);
    businesses := CreatePopulation(names);
    ProgressInitial(Histories(businesses), Completions(businesses));
    timeline := RunIterations(businesses, maxIterations, draws);

    FinishedRun(businesses, timeline, maxIterations);
  }
}
