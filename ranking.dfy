/**
 * The completion ranking shown after a run: the businesses are split into the
 * completed and the not-completed ones, each keeping the population order, and
 * the completed ones are sorted by completion iteration. The sort is stable,
 * as Python's `sorted` is: businesses completed in the same iteration keep
 * their population order.
 */
module Ranking {
  import opened Wrappers

  /** What the ranking reads from one business: its name and completion stamp. */
  datatype Entry = Entry(name: string, completion: Option<nat>)

  predicate IsCompleted(e: Entry)
  {
    e.completion.Some?
  }

  /** The businesses with a completion stamp, in population order. */
  function Completed(es: seq<Entry>): (r: seq<Entry>)
    ensures forall k :: 0 <= k < |r| ==> IsCompleted(r[k])
  {
    if es == [] then []
    else Completed(es[..|es| - 1]) + (if IsCompleted(es[|es| - 1]) then [es[|es| - 1]] else [])
  }

  /** The businesses without a completion stamp, in population order. */
  function NotCompleted(es: seq<Entry>): (r: seq<Entry>)
    ensures forall k :: 0 <= k < |r| ==> !IsCompleted(r[k])
  {
    if es == [] then []
    else NotCompleted(es[..|es| - 1]) + (if IsCompleted(es[|es| - 1]) then [] else [es[|es| - 1]])
  }

  /** The two lists partition the population: every entry lands in exactly one of them, as often as it occurs. */
  lemma {:induction false} Partition(es: seq<Entry>)
    ensures multiset(Completed(es)) + multiset(NotCompleted(es)) == multiset(es)
  {
    if es != [] {
      var init := es[..|es| - 1];
      var x := es[|es| - 1];
      Partition(init);
      assert es == init + [x];
      if IsCompleted(x) {
        assert Completed(es) == Completed(init) + [x];
      } else {
        assert NotCompleted(es) == NotCompleted(init) + [x];
      }
    }
  }

  /** Partitioning a longer population extends both lists at their ends: each keeps population order. */
  lemma {:induction false} PartitionAppend(xs: seq<Entry>, ys: seq<Entry>)
    ensures Completed(xs + ys) == Completed(xs) + Completed(ys)
    ensures NotCompleted(xs + ys) == NotCompleted(xs) + NotCompleted(ys)
  {
    if ys == [] {
      assert xs + ys == xs;
    } else {
      var init := ys[..|ys| - 1];
      assert xs + ys == (xs + init) + [ys[|ys| - 1]];
      assert (xs + ys)[..|xs + ys| - 1] == xs + init;
      PartitionAppend(xs, init);
    }
  }

  predicate AllCompleted(es: seq<Entry>)
  {
    forall k :: 0 <= k < |es| ==> IsCompleted(es[k])
  }

  /** The sort key: the completion iteration. */
  function Key(e: Entry): nat
    requires IsCompleted(e)
  {
    e.completion.value
  }

  /** Non-decreasing in completion iteration. */
  predicate Sorted(es: seq<Entry>)
    requires AllCompleted(es)
  {
    forall i, j :: 0 <= i < j < |es| ==> Key(es[i]) <= Key(es[j])
  }

  /** The entries completed at iteration `c`, in their order in `es`. */
  function CompletedAt(es: seq<Entry>, c: nat): (r: seq<Entry>)
    ensures forall k :: 0 <= k < |r| ==> r[k].completion == Some(c)
  {
    if es == [] then []
    else CompletedAt(es[..|es| - 1], c) + (if es[|es| - 1].completion == Some(c) then [es[|es| - 1]] else [])
  }

  lemma {:induction false} CompletedAtAppend(xs: seq<Entry>, ys: seq<Entry>, c: nat)
    ensures CompletedAt(xs + ys, c) == CompletedAt(xs, c) + CompletedAt(ys, c)
  {
    if ys == [] {
      assert xs + ys == xs;
    } else {
      var init := ys[..|ys| - 1];
      assert xs + ys == (xs + init) + [ys[|ys| - 1]];
      assert (xs + ys)[..|xs + ys| - 1] == xs + init;
      CompletedAtAppend(xs, init, c);
    }
  }

  /**
   * Places `x` into the sorted `s` after every entry whose key is at most
   * `x`'s, so that `x` follows the entries of equal key already in `s`.
   */
  function Insert(x: Entry, s: seq<Entry>): (r: seq<Entry>)
    requires IsCompleted(x) && AllCompleted(s)
    ensures AllCompleted(r)
    ensures multiset(r) == multiset(s) + multiset{x}
  {
    if s == [] || Key(s[|s| - 1]) <= Key(x) then s + [x]
    else
      var init := s[..|s| - 1];
      assert s == init + [s[|s| - 1]];
      Insert(x, init) + [s[|s| - 1]]
  }

  /** Keys bounded by `b` before insertion stay bounded by `b` after it. */
  lemma InsertBounded(x: Entry, s: seq<Entry>, b: nat)
    requires IsCompleted(x) && AllCompleted(s)
    requires Key(x) <= b && forall k :: 0 <= k < |s| ==> Key(s[k]) <= b
    ensures forall k :: 0 <= k < |Insert(x, s)| ==> Key(Insert(x, s)[k]) <= b
  {
    var r := Insert(x, s);
    forall k | 0 <= k < |r| ensures Key(r[k]) <= b {
      assert r[k] in multiset(s) + multiset{x};
    }
  }

  /** Insertion keeps a sorted list sorted. */
  lemma {:induction false} InsertSorted(x: Entry, s: seq<Entry>)
    requires IsCompleted(x) && AllCompleted(s) && Sorted(s)
    ensures Sorted(Insert(x, s))
  {
    if s != [] && Key(s[|s| - 1]) > Key(x) {
      var init := s[..|s| - 1];
      var last := s[|s| - 1];
      assert Sorted(init) by {
        forall i, j | 0 <= i < j < |init| ensures Key(init[i]) <= Key(init[j]) {
          assert init[i] == s[i] && init[j] == s[j];
        }
      }
      InsertSorted(x, init);
      InsertBounded(x, init, Key(last));
      var r := Insert(x, init);
      assert Insert(x, s) == r + [last];
    }
  }

  lemma CompletedAtSingle(y: Entry, c: nat)
    ensures CompletedAt([y], c) == if y.completion == Some(c) then [y] else []
  {
    assert [y][..0] == [];
  }

  /** Insertion adds `x` behind the entries of its own key and changes no other key's group. */
  lemma {:induction false} InsertStable(x: Entry, s: seq<Entry>, c: nat)
    requires IsCompleted(x) && AllCompleted(s)
    ensures CompletedAt(Insert(x, s), c) == CompletedAt(s, c) + CompletedAt([x], c)
  {
    if s == [] || Key(s[|s| - 1]) <= Key(x) {
      CompletedAtAppend(s, [x], c);
    } else {
      var init := s[..|s| - 1];
      var last := s[|s| - 1];
      var r := Insert(x, init);
      assert s == init + [last];
      assert Insert(x, s) == r + [last];
      InsertStable(x, init, c);
      CompletedAtAppend(r, [last], c);
      CompletedAtAppend(init, [last], c);
      var before, mine, theirs := CompletedAt(init, c), CompletedAt([x], c), CompletedAt([last], c);
      assert mine == [] || theirs == [] by {
        CompletedAtSingle(x, c);
        CompletedAtSingle(last, c);
      }
      assert before + mine + theirs == before + theirs + mine;
    }
  }

  /** The stable sort of the completed entries by completion iteration. */
  function SortByCompletion(es: seq<Entry>): (r: seq<Entry>)
    requires AllCompleted(es)
    ensures AllCompleted(r)
    ensures multiset(r) == multiset(es)
  {
    if es == [] then []
    else
      var init := es[..|es| - 1];
      assert es == init + [es[|es| - 1]];
      Insert(es[|es| - 1], SortByCompletion(init))
  }

  /** The sorted list is non-decreasing in completion iteration. */
  lemma {:induction false} SortSorted(es: seq<Entry>)
    requires AllCompleted(es)
    ensures Sorted(SortByCompletion(es))
  {
    if es != [] {
      var init := es[..|es| - 1];
      SortSorted(init);
      InsertSorted(es[|es| - 1], SortByCompletion(init));
    }
  }

  /**
   * Stability: the entries completed at any one iteration appear in the
   * sorted list in the same order as in the input.
   */
  lemma {:induction false} SortStable(es: seq<Entry>, c: nat)
    requires AllCompleted(es)
    ensures CompletedAt(SortByCompletion(es), c) == CompletedAt(es, c)
  {
    if es != [] {
      var init := es[..|es| - 1];
      var x := es[|es| - 1];
      assert es == init + [x];
      SortStable(init, c);
      SortSorted(init);
      InsertStable(x, SortByCompletion(init), c);
      CompletedAtAppend(init, [x], c);
    }
  }

  /**
   * The ranking shown after a run: the completed businesses sorted by
   * completion iteration, and the businesses that never completed. Together
   * the two lists are a permutation of the population; the first holds
   * exactly the completed entries, non-decreasing in completion iteration
   * and stable for ties; the second holds exactly the others.
   */
  function Rank(es: seq<Entry>): (r: (seq<Entry>, seq<Entry>))
    ensures multiset(r.0) + multiset(r.1) == multiset(es)
    ensures AllCompleted(r.0) && Sorted(r.0)
    ensures forall e :: e in r.0 <==> e in es && IsCompleted(e)
    ensures forall e :: e in r.1 <==> e in es && !IsCompleted(e)
    ensures forall c: nat :: CompletedAt(r.0, c) == CompletedAt(es, c)
  {
    RankSpec(es);
    (SortByCompletion(Completed(es)), NotCompleted(es))
  }

  /** The facts `Rank` promises, proved about its two components. */
  lemma RankSpec(es: seq<Entry>)
    ensures multiset(SortByCompletion(Completed(es))) + multiset(NotCompleted(es)) == multiset(es)
    ensures Sorted(SortByCompletion(Completed(es)))
    ensures forall e :: e in SortByCompletion(Completed(es)) <==> e in es && IsCompleted(e)
    ensures forall e :: e in NotCompleted(es) <==> e in es && !IsCompleted(e)
    ensures forall c: nat :: CompletedAt(SortByCompletion(Completed(es)), c) == CompletedAt(es, c)
  {
    var done := Completed(es);
    var sorted := SortByCompletion(done);
    Partition(es);
    SortSorted(done);
    forall e ensures e in sorted <==> e in es && IsCompleted(e) {
      assert e in sorted <==> e in multiset(done);
      CompletedMembers(es, e);
    }
    forall e ensures e in NotCompleted(es) <==> e in es && !IsCompleted(e) {
      assert e in es <==> e in multiset(es);
      if e in es && !IsCompleted(e) {
        assert e !in done;
      }
    }
    forall c: nat ensures CompletedAt(sorted, c) == CompletedAt(es, c) {
      SortStable(done, c);
      CompletedAtOfCompleted(es, c);
    }
  }

  /**
   * Bounds on the population's stamps carry over to the ranking, and every
   * entry of the not-completed list is an unstamped entry of the population.
   */
  lemma RankedEntries(es: seq<Entry>, lo: nat, hi: nat)
    requires forall k :: 0 <= k < |es| && IsCompleted(es[k]) ==> lo <= Key(es[k]) < hi
    ensures forall e :: e in Rank(es).0 ==> IsCompleted(e) && lo <= Key(e) < hi
    ensures forall e :: e in Rank(es).1 ==> exists k :: 0 <= k < |es| && es[k] == e && !IsCompleted(e)
  {
    var r := Rank(es);
    forall e | e in r.0 ensures IsCompleted(e) && lo <= Key(e) < hi {
      var k :| 0 <= k < |es| && es[k] == e;
    }
  }

  /** The completed list holds exactly the completed entries of the population. */
  lemma {:induction false} CompletedMembers(es: seq<Entry>, e: Entry)
    ensures e in Completed(es) <==> e in es && IsCompleted(e)
  {
    if es != [] {
      var init := es[..|es| - 1];
      CompletedMembers(init, e);
      assert es == init + [es[|es| - 1]];
    }
  }

  /** The entries completed at `c` are found among the completed ones, in the same order. */
  lemma {:induction false} CompletedAtOfCompleted(es: seq<Entry>, c: nat)
    ensures CompletedAt(Completed(es), c) == CompletedAt(es, c)
  {
    if es != [] {
      var init := es[..|es| - 1];
      var x := es[|es| - 1];
      CompletedAtOfCompleted(init, c);
      CompletedAtAppend(Completed(init), if IsCompleted(x) then [x] else [], c);
    }
  }
}
