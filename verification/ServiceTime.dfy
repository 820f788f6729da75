/**
  The moving average of service times (`note_service_us` and its term in
  `load`, src/courierust_client/h2.rs): a compare-exchange loop run by any
  number of threads on one atomic cell.
 */
module ServiceTime {
  import opened ConnPool

  /** A thread inside `note_service_us`. */
  datatype Thread =
    | Entering(sample: nat)                 // before the first load
    | Trying(sample: nat, current: nat)     // about to compare-exchange
    | Left(sample: nat)

  datatype Cell = Cell(value: nat, threads: seq<Thread>, folded: seq<nat>)

  datatype Step =
    | Enter(sample: nat)
    | Read(who: nat)
    | Exchange(who: nat, spurious: bool)    // the weak form may fail for no reason

  function Next(c: Cell, step: Step): Cell {
    match step
    case Enter(sample) => c.(threads := c.threads + [Entering(sample)])
    case Read(who) =>
      if who < |c.threads| && c.threads[who].Entering?
      then c.(threads := c.threads[who := Trying(c.threads[who].sample, c.value)]) else c
    case Exchange(who, spurious) =>
      if who < |c.threads| && c.threads[who].Trying? then
        var t := c.threads[who];
        if t.current == c.value && !spurious
        then Cell(Fold(t.current, t.sample), c.threads[who := Left(t.sample)], c.folded + [t.sample])
        else c.(threads := c.threads[who := Trying(t.sample, c.value)])
      else c
  }

  function Exec(c: Cell, steps: seq<Step>): Cell {
    if steps == [] then c else Next(Exec(c, steps[..|steps| - 1]), steps[|steps| - 1])
  }

  /** The average of samples taken one after the other. */
  function FoldAll(samples: seq<nat>): nat {
    if samples == [] then 0 else Fold(FoldAll(samples[..|samples| - 1]), samples[|samples| - 1])
  }

  /** The samples of the threads that have left. */
  function Finished(threads: seq<Thread>): multiset<nat> {
    if threads == [] then multiset{}
    else
      var t := threads[|threads| - 1];
      Finished(threads[..|threads| - 1]) + if t.Left? then multiset{t.sample} else multiset{}
  }

  function Samples(threads: seq<Thread>): seq<nat> {
    seq(|threads|, i requires 0 <= i < |threads| => threads[i].sample)
  }

  /** The samples handed in, in order. */
  function Entered(steps: seq<Step>): seq<nat> {
    if steps == [] then []
    else
      var step := steps[|steps| - 1];
      Entered(steps[..|steps| - 1]) + if step.Enter? then [step.sample] else []
  }

  /** A thread that leaves adds its sample; one that tries again adds nothing. */
  lemma {:induction false} FinishedUpdate(threads: seq<Thread>, who: nat, t: Thread)
    requires who < |threads| && !threads[who].Left?
    ensures Finished(threads[who := t]) == Finished(threads) + if t.Left? then multiset{t.sample} else multiset{}
  {
    var n := |threads| - 1;
    if who < n {
      FinishedUpdate(threads[..n], who, t);
      assert threads[who := t][..n] == threads[..n][who := t];
    } else {
      assert threads[who := t][..n] == threads[..n];
    }
  }

  ghost predicate CellLaw(c: Cell) {
    c.value == FoldAll(c.folded) && c.value <= EWMA_CAP && multiset(c.folded) == Finished(c.threads)
  }

  lemma EnterFolds(c: Cell, sample: nat)
    requires CellLaw(c)
    ensures CellLaw(Next(c, Enter(sample))) && Samples(Next(c, Enter(sample)).threads) == Samples(c.threads) + [sample]
  {
    assert (c.threads + [Entering(sample)])[..|c.threads|] == c.threads;
  }

  /** A thread that only looks again. */
  lemma LookFolds(c: Cell, who: nat, t: Thread)
    requires CellLaw(c) && who < |c.threads| && !c.threads[who].Left? && !t.Left? && t.sample == c.threads[who].sample
    ensures CellLaw(c.(threads := c.threads[who := t])) && Samples(c.threads[who := t]) == Samples(c.threads)
  {
    FinishedUpdate(c.threads, who, t);
  }

  /** A thread whose exchange succeeds. */
  lemma LeaveFolds(c: Cell, who: nat)
    requires CellLaw(c) && who < |c.threads| && !c.threads[who].Left?
    ensures var s := c.threads[who].sample;
            && CellLaw(Cell(Fold(c.value, s), c.threads[who := Left(s)], c.folded + [s]))
            && Samples(c.threads[who := Left(s)]) == Samples(c.threads)
  {
    var s := c.threads[who].sample;
    FinishedUpdate(c.threads, who, Left(s));
    assert (c.folded + [s])[..|c.folded|] == c.folded;
  }

  lemma StepFolds(c: Cell, step: Step)
    requires CellLaw(c)
    ensures CellLaw(Next(c, step))
    ensures Samples(Next(c, step).threads) == Samples(c.threads) + if step.Enter? then [step.sample] else []
  {
    assert Samples(c.threads) + [] == Samples(c.threads);
    match step
    case Enter(sample) => EnterFolds(c, sample);
    case Read(who) =>
      if who < |c.threads| && c.threads[who].Entering? {
        LookFolds(c, who, Trying(c.threads[who].sample, c.value));
      }
    case Exchange(who, spurious) =>
      if who < |c.threads| && c.threads[who].Trying? {
        if c.threads[who].current == c.value && !spurious {
          LeaveFolds(c, who);
        } else {
          LookFolds(c, who, Trying(c.threads[who].sample, c.value));
        }
      }
  }

  lemma CapAddsTen(conn: Conn, v: nat)
    requires v <= EWMA_CAP
    ensures Load(conn.(ewma := v)) <= conn.reservations + conn.bodyLoad + 10
  {
  }

  /**
    Every interleaving is a sequential one: the cell is the average of the
    samples in the order their exchanges succeeded, the sample of each thread
    that has left exactly once and no other; no thread's sample is lost or
    changed. The cell never passes the cap and adds at most ten units to a
    connection's load.
   */
  lemma {:induction false} EveryInterleavingIsSequential(steps: seq<Step>, conn: Conn)
    ensures var c := Exec(Cell(0, [], []), steps);
            && c.value == FoldAll(c.folded)
            && multiset(c.folded) == Finished(c.threads)
            && Samples(c.threads) == Entered(steps)
            && c.value <= EWMA_CAP
            && Load(conn.(ewma := c.value)) <= conn.reservations + conn.bodyLoad + 10
  {
    if steps != [] {
      EveryInterleavingIsSequential(steps[..|steps| - 1], conn);
      StepFolds(Exec(Cell(0, [], []), steps[..|steps| - 1]), steps[|steps| - 1]);
    }
    CapAddsTen(conn, Exec(Cell(0, [], []), steps).value);
  }

  /** The cell after `n` more samples of `s`. */
  function Repeat(v: nat, s: nat, n: nat): nat {
    if n == 0 then v else Fold(Repeat(v, s, n - 1), s)
  }

  function Distance(a: nat, b: nat): nat {
    if a >= b then a - b else b - a
  }

  /** One step towards a sample within the cap: closer, and never past it. */
  lemma OneStepCloser(v: nat, s: nat)
    requires 0 < v <= EWMA_CAP && s <= EWMA_CAP
    ensures v >= s ==> s <= Fold(v, s) <= v
    ensures v <= s ==> v <= Fold(v, s) <= s
    ensures v > s ==> Fold(v, s) < v
    ensures v + 7 < s ==> Fold(v, s) > v
    ensures v <= s <= v + 7 ==> Fold(v, s) == v
  {
  }

  /**
    Repeating one sample moves the average monotonically and without overshoot;
    after as many steps as it was away it lies between `s - 7` and `s`, and is
    exactly `s` if it started at or above it, or at zero.
   */
  lemma {:induction false} RepeatedSampleSettles(v: nat, s: nat, n: nat)
    requires v <= EWMA_CAP && s <= EWMA_CAP
    ensures v >= s ==> s <= Repeat(v, s, n) <= v
    ensures 0 < v <= s ==> v <= Repeat(v, s, n) <= s
    ensures n >= Distance(v, s) && v >= s ==> Repeat(v, s, n) == s
    ensures n >= Distance(v, s) && 0 < v <= s ==> Repeat(v, s, n) <= s <= Repeat(v, s, n) + 7
    ensures n > 0 && v == 0 ==> Repeat(v, s, n) == s
    ensures v >= s ==> Repeat(v, s, n) <= s + (if n <= v - s then v - s - n else 0)
    ensures 0 < v <= s ==> Repeat(v, s, n) + 7 >= s || Repeat(v, s, n) >= v + n
  {
    if n > 0 {
      RepeatedSampleSettles(v, s, n - 1);
      var r := Repeat(v, s, n - 1);
      if r > 0 {
        OneStepCloser(r, s);
      }
    }
  }
}
