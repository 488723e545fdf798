# Twenty Markov Businesses — a verified model of the simulation core

The program simulates the creation of a population of businesses. Each
business walks a fixed seven-state Markov chain (S0 "market discovery" through
S6, the absorbing "business created" state). A run does three things:

- it names the businesses: the twenty curated names first, then
  "Business 21", "Business 22" and so on;
- once per iteration it records a census of how many businesses sit in each
  state, and it stops early once everyone is in S6;
- otherwise it advances every business that has not yet reached S6 by one
  step, stamping the iteration in which a business first lands in S6.

After the run, the businesses are split into completed and not-completed
ones, and the completed ones are ranked by completion iteration.

The Dafny project models this core:

- `chain.dfy`, module `Chain`: the state set, the transition table, and the
  choice of a successor. The weighted random draw is replaced by an injected
  draw that selects a key of the table by position (`Pick`). The file also
  proves distance-to-S6 facts about paths of the table.
- `wrappers.dfy`, module `Wrappers`: the `Option` type of the completion stamp.
- `naming.dfy`, module `Naming`: the curated names, the decimal rendering
  used for "Business k", and the name list of a run with its distinctness
  proof.
- `business.dfy`, module `Businesses`: the `Business` class. Its fields are
  `name`, `state`, the append-only `history` and the once-only `completion`
  stamp. Its object invariant `Valid` says the history starts in S0, follows
  the table and ends in the current state, and the stamp is set exactly when
  the state is S6.
- `census.dfy`, module `Census`: the per-state counts of a snapshot.
- `simulation.dfy`, module `Simulation`: the run itself, written as
  imperative methods over the business objects. Their loop invariants are
  stated as pure predicates over the histories, stamps and timeline:
  - `Progress` is the run loop's invariant;
  - `Advanced` and `Stepped` describe one advance round;
  - `Outcome` is what a finished run promises.
- `ranking.dfy`, module `Ranking`: the completed/not-completed partition and
  the stable sort by completion iteration, on values.

Randomness is a parameter. `RunSimulation` takes a draw stream
`draws: nat -> nat`. Each call of `UpdateState` consumes the next draw, and
the draw chooses `Options(state)[draw % |Options(state)|]`. Every key of the
table is reachable this way (`PickCovers`), so every run the program can
perform is a run of the model for some stream.

A business's stamp is the loop index `i` of the round in which it lands in
S6, and rounds count from 0. Its history then holds `i + 2` states. The
shortest route through the table, S0→S1→S2→S3→S4→S6, takes five advances, in
rounds 0 to 4, so the earliest stamp is 4. `OutcomeCompletionBound` proves the
bound, and `FirstKeyRun` shows that a business reaches it.

Table closure needs no proof: every destination in the table is a value of
the `State` datatype, so a destination outside the seven states cannot be
written.

## Model

| member | source | states |
|---|---|---|
| Chain.Options | Twenty_Markov_Businesses/app.py:8-16 | The keys of a state's table entry, in the table's order. They are pairwise distinct, as dictionary keys are, and no state lists itself. |
| Chain.Absorbed | Twenty_Markov_Businesses/app.py:50 | The hard-coded `== "S6"` test (also used in app.py lines 57, 78 and 83). The state it accepts has an empty table entry. |
| Chain.AbsorbedIffNoOptions | Twenty_Markov_Businesses/app.py:8-16 | The hard-coded terminal test `state == "S6"` agrees with the table: a state is S6 exactly when its option list is empty, and exactly when it has no outgoing edge. |
| Chain.Pick | Twenty_Markov_Businesses/app.py:52-53 | The chosen successor of a non-S6 state is a key of its table entry, and is never the state itself. |
| Chain.PickCovers | Twenty_Markov_Businesses/app.py:52-53 | Every key of a non-S6 state's table entry is chosen by some draw. |
| Chain.AbsorbedOnlyAtEnd | Twenty_Markov_Businesses/app.py:15 | On a path of the table, S6 can only be the last state: nothing leaves S6. |
| Chain.StepDistance | Twenty_Markov_Businesses/app.py:8-16 | One step of the table lowers the distance to S6 by at most one. |
| Chain.DistanceAttained | Twenty_Markov_Businesses/app.py:8-16 | Every state other than S6 has a successor exactly one step closer to S6, so the distance table is exact. |
| Chain.PathDistance | Twenty_Markov_Businesses/app.py:8-16 | Along any path of the table, the distance to S6 falls by at most the number of steps taken. |
| Chain.ShortestCompletion | Twenty_Markov_Businesses/app.py:8-16 | A path from S0 that ends in S6 holds at least six states. |
| Chain.ShortestRoute | Twenty_Markov_Businesses/app.py:9-13 | S0, S1, S2, S3, S4, S6 is a path of the table. |
| Naming.BusinessNames | Twenty_Markov_Businesses/app.py:18-39 | The twenty curated names, in the list's order. |
| Naming.Decimal | Twenty_Markov_Businesses/app.py:62 | The rendering of a number is a non-empty string of digits, with no leading zero unless the number is 0. |
| Naming.DecimalRoundTrip | Twenty_Markov_Businesses/app.py:62 | Parsing the rendering of `k` gives back `k`. |
| Naming.DecimalInjective | Twenty_Markov_Businesses/app.py:62 | Different numbers have different renderings. |
| Naming.SynthName | Twenty_Markov_Businesses/app.py:62 | A synthesised name starts with "Business " and ends in a digit. |
| Naming.Names | Twenty_Markov_Businesses/app.py:61-64 | The list has exactly `n` names. The first `min(n, 20)` are the curated names in order. Position `k` from 20 on is "Business k+1". |
| Naming.CuratedDistinct | Twenty_Markov_Businesses/app.py:18-39 | The twenty curated names are pairwise distinct. |
| Naming.CuratedEndsInLetter | Twenty_Markov_Businesses/app.py:18-39 | Every curated name is non-empty and ends in a non-digit, so none equals a synthesised name. |
| Naming.SynthDistinct | Twenty_Markov_Businesses/app.py:62 | Synthesised names for different positions differ. |
| Naming.NamePairDistinct | Twenty_Markov_Businesses/app.py:61-64 | Any two positions of a run's name list hold different names. |
| Naming.NamesDistinct | Twenty_Markov_Businesses/app.py:61-64 | All names of a run are pairwise distinct, for every population size. |
| Census.Count | Twenty_Markov_Businesses/app.py:72-73 | A state's count never exceeds the population size. |
| Census.Tally | Twenty_Markov_Businesses/app.py:71 | The counts cover exactly the seven state labels, the empty ones included. |
| Census.TallyAppend | Twenty_Markov_Businesses/app.py:73 | Counting one more business adds one to its state's count and changes no other count. |
| Census.TallyTotal | Twenty_Markov_Businesses/app.py:71-75 | The seven counts of a snapshot add up to the population size. |
| Census.CountAll | Twenty_Markov_Businesses/app.py:78 | A state's count equals the population size exactly when every business is in that state. |
| Businesses.Business.constructor | Twenty_Markov_Businesses/app.py:43-47 | A new business has its name, state S0, history [S0], no stamp, and satisfies the object invariant. |
| Businesses.Business.UpdateState | Twenty_Markov_Businesses/app.py:49-58 | Keeps the invariant. An S6 business is left unchanged. Any other business moves to the chosen successor along an edge, and that successor is appended to the history. The stamp is set to the iteration exactly when the step lands in S6 with no stamp yet; a set stamp never changes. |
| Simulation.CountStates | Twenty_Markov_Businesses/app.py:71-73 | The counting loop yields the per-state counts of the population's current states. |
| Simulation.AdvanceRound | Twenty_Markov_Businesses/app.py:82-84 | Every business not in S6 takes exactly one step with stamp `i`; S6 businesses keep their history and stamp. The invariant of every business is preserved. |
| Simulation.ProgressInitial | Twenty_Markov_Businesses/app.py:66-67 | A fresh population with an empty timeline satisfies the run-loop invariant at iteration 0. |
| Simulation.ColumnCurrent | Twenty_Markov_Businesses/app.py:72-73 | Under the loop invariant at iteration `i`, each history's state at `i` is the business's current state. |
| Simulation.ColumnStable | Twenty_Markov_Businesses/app.py:82-84 | An advance round leaves the states the histories show at earlier iterations unchanged. |
| Simulation.AdvanceStep | Twenty_Markov_Businesses/app.py:69-84 | A snapshot followed by an advance round takes the loop invariant from iteration `i` to `i + 1`, provided the snapshot still shows a business outside S6. |
| Simulation.AbsorbedCount | Twenty_Markov_Businesses/app.py:78 | The S6 count of the current snapshot equals the population size exactly when every business is in S6. |
| Simulation.ExhaustedOutcome | Twenty_Markov_Businesses/app.py:69 | A run that used every iteration meets the finished-run outcome. |
| Simulation.AbsorbedOutcome | Twenty_Markov_Businesses/app.py:77-79 | A run that stops after the snapshot in which every business is in S6 meets the finished-run outcome. |
| Simulation.OutcomeTotals | Twenty_Markov_Businesses/app.py:71-75 | Every snapshot of a finished run counts the whole population. |
| Simulation.OutcomeCompletionBound | Twenty_Markov_Businesses/app.py:57-58 | In a finished run whose histories follow the table from S0, every stamp is at least 4. |
| Simulation.FirstKeyRun | Twenty_Markov_Businesses/app.py:43-58 | A new business advanced in rounds 0 to 4 with draw 0 each time is valid, has history S0, S1, S2, S3, S4, S6, and is stamped 4. |
| Simulation.FinishedRun | Twenty_Markov_Businesses/app.py:60-86 | For the objects of a finished run, every snapshot totals the population and every stamp is at least 4. |
| Simulation.RankedRun | Twenty_Markov_Businesses/app.py:115-117 | In the ranking of a finished run, every completed entry carries a stamp from 4 up to the number of snapshots, and every not-completed entry names a business not in S6. |
| Simulation.CreatePopulation | Twenty_Markov_Businesses/app.py:66 | Creates one fresh, distinct business per name, in name order, each in its initial state. |
| Simulation.TakeSnapshot | Twenty_Markov_Businesses/app.py:70-75 | The record of iteration `i` is `i` together with the per-state counts of the histories at `i`. |
| Simulation.AllInS6 | Twenty_Markov_Businesses/app.py:78 | The early-exit test is true exactly when every business's current state is S6. |
| Simulation.Iterate | Twenty_Markov_Businesses/app.py:69-84 | One pass appends the census of the histories at `i` to the timeline. It reports the run finished exactly when every business was in S6 before the pass. In that case histories and stamps are unchanged and the finished-run outcome holds. Otherwise every business not in S6 takes one step with stamp `i`, the others keep their history and stamp, and the loop invariant moves to `i + 1`. |
| Simulation.RunIterations | Twenty_Markov_Businesses/app.py:69-84 | The loop ends with the finished-run outcome. At most `max` snapshots are taken, at least one when `max >= 1`. Snapshot `j` is the census of the histories at `j`. Every snapshot but the last shows a business outside S6. Stopping before `max` means everyone is in S6. An unstamped business was advanced in every iteration and is not in S6. A business stamped `c` holds `c + 2` states and ends in S6. |
| Simulation.RunSimulation | Twenty_Markov_Businesses/app.py:60-86 | The run returns `n` distinct, valid businesses. Their names are the run's name list and are pairwise distinct. The timeline meets the finished-run outcome. Every snapshot totals `n`. Every stamp is at least 4. |
| Ranking.Completed | Twenty_Markov_Businesses/app.py:115 | Every entry of the completed list has a stamp. |
| Ranking.NotCompleted | Twenty_Markov_Businesses/app.py:116 | No entry of the not-completed list has a stamp. |
| Ranking.Partition | Twenty_Markov_Businesses/app.py:115-116 | The two lists together are a permutation of the population. |
| Ranking.PartitionAppend | Twenty_Markov_Businesses/app.py:115-116 | Both lists distribute over concatenation of populations, so each keeps population order. |
| Ranking.CompletedMembers | Twenty_Markov_Businesses/app.py:115 | An entry is in the completed list exactly when it is in the population and has a stamp. |
| Ranking.Insert | Twenty_Markov_Businesses/app.py:117 | Insertion into the sorted list adds exactly the new entry, as a multiset, and keeps every entry stamped. |
| Ranking.InsertBounded | Twenty_Markov_Businesses/app.py:117 | Insertion keeps every stamp below a common bound. |
| Ranking.InsertSorted | Twenty_Markov_Businesses/app.py:117 | Insertion keeps a list sorted by stamp. |
| Ranking.InsertStable | Twenty_Markov_Businesses/app.py:117 | Insertion appends the new entry after the entries with the same stamp and leaves every other stamp's group unchanged. |
| Ranking.SortByCompletion | Twenty_Markov_Businesses/app.py:117 | The sort returns a permutation of its input. |
| Ranking.SortSorted | Twenty_Markov_Businesses/app.py:117 | The sorted list is non-decreasing in completion iteration. |
| Ranking.SortStable | Twenty_Markov_Businesses/app.py:117 | For every iteration, the entries stamped with it appear in the sorted list in their input order. |
| Ranking.CompletedAtOfCompleted | Twenty_Markov_Businesses/app.py:115-117 | The entries stamped `c` in the completed list are the population's entries stamped `c`, in the same order. |
| Ranking.Rank | Twenty_Markov_Businesses/app.py:115-117 | The ranking is a permutation of the population. Its first list is exactly the stamped entries, sorted by stamp and stable for ties. Its second list is exactly the unstamped entries. |
| Ranking.RankedEntries | Twenty_Markov_Businesses/app.py:115-117 | Bounds on the population's stamps hold for every ranked completed entry, and every not-completed entry is an unstamped entry of the population. |
| Ranking.RankSpec | Twenty_Markov_Businesses/app.py:115-117 | Proves the same facts for the sorted completed list and the not-completed list built from the population. |

## Left out

- The Streamlit user interface, the Altair chart, the pandas data frame and all text output (app.py lines 1-4 and 88-134, except the ranking at 115-117). `RunSimulation` returns the timeline as a sequence of `Snapshot` values instead of a data frame.
- The transition weights and the probability distribution of `random.choices`: floating point and randomness are outside the model. The draw stream fixes only which key is chosen, and every key is reachable, but the model says nothing about frequencies.
- Simulation.AdvanceRound: its contract says every non-S6 business takes one step along an edge. It does not say which draw of the stream feeds which business; only `Business.UpdateState` ties the successor to its draw.
- Simulation.RunSimulation: the population size is a natural number. A negative `num_businesses` (a Python slice giving fewer names) and non-integer inputs are not modelled. `maxIterations` is a natural number too; a negative `max_iterations` gives an empty `range` at app.py line 69, so its timeline is empty, exactly as for 0. The contract does not state that a run is a function of `draws`: it bounds and characterises every outcome of any draw stream, but does not say which histories a given stream produces. The user interface only offers 1 to 50 businesses and 10 to 500 iterations.
- The code never validates the table or the sizes and raises no error for them, so the model has no error path.
- Ranking.SortByCompletion: Python's `sorted` (Timsort) is modelled by a stable insertion sort. Both are stable sorts by the same key, so they return the same list.
- Dictionary key order is modelled by the order of `Options`, which follows the order in which the table lists the keys.
