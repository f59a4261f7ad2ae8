/** The load generator: how its threads divide the simulated workers, and the percentiles it prints
    (benchmarks/manager_fake_worker.cpp). */
module FakeWorkers {
  import opened Words
  import opened Collections

  // ------------------------------------------------------------------------------------------
  // Striding
  // ------------------------------------------------------------------------------------------

  /** One report: which iteration, for which worker. */
  datatype Visit = Visit(iteration: nat, worker: nat)

  /** The workers thread `t` visits in one iteration, from `w` on. */
  function Stride(w: nat, concurrency: nat, workers: nat): seq<nat>
    requires concurrency >= 1
    decreases workers - w
  {
    if w >= workers then [] else [w] + Stride(w + concurrency, concurrency, workers)
  }

  function VisitsOf(iteration: nat, ws: seq<nat>): seq<Visit> {
    seq(|ws|, i requires 0 <= i < |ws| => Visit(iteration, ws[i]))
  }

  /** Everything thread `t` does. */
  function ThreadVisits(t: nat, concurrency: nat, workers: nat, iterations: nat): seq<Visit>
    requires concurrency >= 1
  {
    if iterations == 0 then []
    else ThreadVisits(t, concurrency, workers, iterations - 1) + VisitsOf(iterations - 1, Stride(t, concurrency, workers))
  }

  /** Everything the first `threads` threads do, thread by thread. */
  function AllVisits(threads: nat, concurrency: nat, workers: nat, iterations: nat): seq<Visit>
    requires concurrency >= 1
  {
    if threads == 0 then []
    else AllVisits(threads - 1, concurrency, workers, iterations) + ThreadVisits(threads - 1, concurrency, workers, iterations)
  }

  function ThreadCount(concurrency: nat, workers: nat): nat {
    Min(concurrency, workers)
  }

  /** How often an element occurs. */
  function Occurrences<T(==)>(s: seq<T>, x: T): nat {
    multiset(s)[x]
  }

  lemma OccurrencesConcat<T>(a: seq<T>, b: seq<T>, x: T)
    ensures Occurrences(a + b, x) == Occurrences(a, x) + Occurrences(b, x)
  {
    assert multiset(a + b) == multiset(a) + multiset(b);
  }

  /** The index modulo the concurrency, by repeated subtraction: the thread a worker belongs to. */
  function Owner(i: nat, concurrency: nat): (t: nat)
    requires concurrency >= 1
    ensures t < concurrency && t <= i
  {
    if i < concurrency then i else Owner(i - concurrency, concurrency)
  }

  lemma {:induction false} StrideVisitsClass(w: nat, concurrency: nat, workers: nat, i: nat)
    requires concurrency >= 1
    ensures Occurrences(Stride(w, concurrency, workers), i)
            == if w <= i < workers && Owner(i - w, concurrency) == 0 then 1 else 0
    decreases workers - w
  {
    hide Occurrences;
    if w < workers {
      StrideVisitsClass(w + concurrency, concurrency, workers, i);
      OccurrencesConcat([w], Stride(w + concurrency, concurrency, workers), i);
      OccursInSingle(w, i);
    } else {
      OccursInNone(i);
    }
  }

  lemma OccursInSingle<T>(y: T, x: T)
    ensures Occurrences([y], x) == if x == y then 1 else 0
  {
  }

  lemma OccursInNone<T>(x: T)
    ensures Occurrences([], x) == 0
  {
  }

  lemma VisitsOccur(iteration: nat, ws: seq<nat>, v: Visit)
    ensures Occurrences(VisitsOf(iteration, ws), v) == if v.iteration == iteration then Occurrences(ws, v.worker) else 0
  {
    if ws != [] {
      VisitsOccur(iteration, Front(ws), v);
      assert VisitsOf(iteration, ws) == VisitsOf(iteration, Front(ws)) + [Visit(iteration, Last(ws))];
      assert ws == Front(ws) + [Last(ws)];
    }
  }

  lemma {:induction false} ThreadVisitsOccur(t: nat, concurrency: nat, workers: nat, iterations: nat, v: Visit)
    requires concurrency >= 1
    ensures Occurrences(ThreadVisits(t, concurrency, workers, iterations), v)
            == if v.iteration < iterations then Occurrences(Stride(t, concurrency, workers), v.worker) else 0
  {
    hide Occurrences, VisitsOf, Stride;
    if iterations > 0 {
      var round := VisitsOf(iterations - 1, Stride(t, concurrency, workers));
      ThreadVisitsOccur(t, concurrency, workers, iterations - 1, v);
      VisitsOccur(iterations - 1, Stride(t, concurrency, workers), v);
      OccurrencesConcat(ThreadVisits(t, concurrency, workers, iterations - 1), round, v);
    } else {
      OccursInNone(v);
    }
  }

  lemma {:induction false} OwnerShift(t: nat, concurrency: nat, i: nat)
    requires t < concurrency
    ensures Owner(i, concurrency) == t <==> t <= i && Owner(i - t, concurrency) == 0
  {
    if i >= concurrency {
      OwnerShift(t, concurrency, i - concurrency);
      if i - concurrency < t {
        assert Owner(i - concurrency, concurrency) == i - concurrency;
      }
    }
  }

  /** A thread visits a worker exactly when the worker's index is its own modulo the concurrency, and then once
      per iteration. */
  lemma OwnClass(t: nat, concurrency: nat, workers: nat, i: nat)
    requires t < concurrency
    ensures Occurrences(Stride(t, concurrency, workers), i) == if i < workers && Owner(i, concurrency) == t then 1 else 0
  {
    hide Occurrences;
    StrideVisitsClass(t, concurrency, workers, i);
    OwnerShift(t, concurrency, i);
  }

  lemma {:induction false} AllVisitsOccur(threads: nat, concurrency: nat, workers: nat, iterations: nat, v: Visit)
    requires concurrency >= 1 && threads <= concurrency
    ensures Occurrences(AllVisits(threads, concurrency, workers, iterations), v)
            == if v.iteration < iterations && v.worker < workers && Owner(v.worker, concurrency) < threads then 1 else 0
  {
    hide Occurrences, ThreadVisits, Stride, Owner;
    if threads > 0 {
      AllVisitsOccur(threads - 1, concurrency, workers, iterations, v);
      ThreadVisitsOccur(threads - 1, concurrency, workers, iterations, v);
      OwnClass(threads - 1, concurrency, workers, v.worker);
      OccurrencesConcat(AllVisits(threads - 1, concurrency, workers, iterations),
                        ThreadVisits(threads - 1, concurrency, workers, iterations), v);
    } else {
      OccursInNone(v);
    }
  }

  /** The threads that are started visit every worker exactly once per iteration, and no other index. */
  lemma WorkIsPartitioned(concurrency: nat, workers: nat, iterations: nat, v: Visit)
    requires concurrency >= 1
    ensures Occurrences(AllVisits(ThreadCount(concurrency, workers), concurrency, workers, iterations), v)
            == if v.iteration < iterations && v.worker < workers then 1 else 0
  {
    hide Occurrences, AllVisits;
    AllVisitsOccur(ThreadCount(concurrency, workers), concurrency, workers, iterations, v);
  }

  // ------------------------------------------------------------------------------------------
  // The stride variable is an int
  // ------------------------------------------------------------------------------------------

  const INT_MAX: nat := 0x7FFF_FFFF

  /** Every value thread `t`'s loop variable takes from `w` on, the one that ends the loop included. */
  function StrideValues(w: nat, concurrency: nat, workers: nat): seq<nat>
    requires concurrency >= 1
    decreases workers - w
  {
    if w >= workers then [w] else [w] + StrideValues(w + concurrency, concurrency, workers)
  }

  /** No started thread's loop variable ever exceeds an int. */
  ghost predicate NeverOverflows(concurrency: nat, workers: nat)
    requires concurrency >= 1
  {
    forall t, w :: 0 <= t < ThreadCount(concurrency, workers) && w in StrideValues(t, concurrency, workers) ==> w <= INT_MAX
  }

  lemma {:induction false} StrideStaysBelow(w: nat, concurrency: nat, workers: nat, x: nat)
    requires concurrency >= 1 && w < workers + concurrency && x in StrideValues(w, concurrency, workers)
    ensures x < workers + concurrency
    decreases workers - w
  {
    if w < workers && x != w {
      StrideStaysBelow(w + concurrency, concurrency, workers, x);
    }
  }

  /** The thread that owns a worker steps over it. */
  lemma {:induction false} StepsOver(w: nat, concurrency: nat, workers: nat, i: nat)
    requires concurrency >= 1 && w <= i < workers && Owner(i - w, concurrency) == 0
    ensures i + concurrency in StrideValues(w, concurrency, workers)
    decreases workers - w
  {
    var next := w + concurrency;
    if i == w {
      assert StrideValues(next, concurrency, workers)[0] == next;
    } else {
      StepsOver(next, concurrency, workers, i);
    }
  }

  /** The striding stays within an int if and only if workers and concurrency add up to at most 2^31; beyond that, the
      thread of the last worker overflows when it steps over it. */
  lemma StrideFitsExactly(concurrency: nat, workers: nat)
    requires concurrency >= 1 && workers >= 1
    ensures NeverOverflows(concurrency, workers) <==> workers + concurrency <= INT_MAX + 1
  {
    hide StrideValues, Owner;
    var i := workers - 1;
    var t := Owner(i, concurrency);
    OwnerShift(t, concurrency, i);
    StepsOver(t, concurrency, workers, i);
    if workers + concurrency <= INT_MAX + 1 {
      forall t, w | 0 <= t < ThreadCount(concurrency, workers) && w in StrideValues(t, concurrency, workers)
        ensures w <= INT_MAX
      {
        StrideStaysBelow(t, concurrency, workers, w);
      }
    }
  }

  /** Options the program accepts and with which thread 1 overflows. */
  lemma StrideCanOverflow()
    ensures ThreadCount(INT_MAX, 2) == 2 && INT_MAX + 1 in StrideValues(1, INT_MAX, 2)
    ensures !NeverOverflows(INT_MAX, 2)
  {
    hide StrideValues, Owner;
    OwnerOfItself(1, INT_MAX);
    StepsOver(1, INT_MAX, 2, 1);
  }

  lemma OwnerOfItself(w: nat, concurrency: nat)
    requires concurrency >= 1
    ensures Owner(w - w, concurrency) == 0
  {
  }

  // ------------------------------------------------------------------------------------------
  // Counting the reports
  // ------------------------------------------------------------------------------------------

  function UpTo(n: nat): seq<nat> {
    if n == 0 then [] else UpTo(n - 1) + [n - 1]
  }

  /** The same visits listed iteration by iteration. */
  function Grid(workers: nat, iterations: nat): seq<Visit> {
    if iterations == 0 then [] else Grid(workers, iterations - 1) + VisitsOf(iterations - 1, UpTo(workers))
  }

  lemma {:induction false} GridOccurs(workers: nat, iterations: nat, v: Visit)
    ensures Occurrences(Grid(workers, iterations), v) == if v.iteration < iterations && v.worker < workers then 1 else 0
  {
    hide Occurrences;
    if iterations > 0 {
      GridOccurs(workers, iterations - 1, v);
      VisitsOccur(iterations - 1, UpTo(workers), v);
      UpToOccurs(workers, v.worker);
      OccurrencesConcat(Grid(workers, iterations - 1), VisitsOf(iterations - 1, UpTo(workers)), v);
    } else {
      OccursInNone(v);
    }
  }

  lemma {:induction false} GridSize(workers: nat, iterations: nat)
    ensures |Grid(workers, iterations)| == workers * iterations
  {
    hide UpTo, Occurrences;
    if iterations > 0 {
      GridSize(workers, iterations - 1);
      UpToOccurs(workers, 0);
      assert workers * iterations == workers * (iterations - 1) + workers;
    }
  }

  lemma {:induction false} UpToOccurs(n: nat, x: nat)
    ensures Occurrences(UpTo(n), x) == if x < n then 1 else 0
    ensures |UpTo(n)| == n
  {
    hide Occurrences;
    if n > 0 {
      UpToOccurs(n - 1, x);
      OccurrencesConcat<nat>(UpTo(n - 1), [n - 1], x);
      OccursInSingle<nat>(n - 1, x);
    } else {
      OccursInNone<nat>(x);
    }
  }

  /** Whatever the interleaving of the started threads, workers * iterations reports are made. */
  lemma ReportCount(concurrency: nat, workers: nat, iterations: nat, interleaved: seq<Visit>)
    requires concurrency >= 1
    requires multiset(interleaved) == multiset(AllVisits(ThreadCount(concurrency, workers), concurrency, workers, iterations))
    ensures |interleaved| == workers * iterations
  {
    hide AllVisits, Grid;
    var all, grid := AllVisits(ThreadCount(concurrency, workers), concurrency, workers, iterations), Grid(workers, iterations);
    forall v: Visit
      ensures multiset(all)[v] == multiset(grid)[v]
    {
      WorkIsPartitioned(concurrency, workers, iterations, v);
      GridOccurs(workers, iterations, v);
    }
    assert multiset(interleaved) == multiset(grid);
    GridSize(workers, iterations);
    assert |interleaved| == |multiset(interleaved)| == |multiset(grid)| == |grid|;
  }

  datatype Outcome = Outcome(elapsedMs: real, ok: bool)

  /** How many of the reports succeed. */
  function Successes(outcome: Visit -> Outcome, visits: seq<Visit>): (n: nat)
    ensures n <= |visits|
  {
    if visits == [] then 0
    else Successes(outcome, Front(visits)) + (if outcome(Last(visits)).ok then 1 else 0)
  }

  lemma OneMoreSuccess(outcome: Visit -> Outcome, visits: seq<Visit>, v: Visit)
    ensures Successes(outcome, visits + [v]) == Successes(outcome, visits) + (if outcome(v).ok then 1 else 0)
  {
    FrontOfAppend(visits, v);
  }

  class Metrics {
    var ok: nat
    var failed: nat
    var latenciesMs: seq<real>
    ghost var visits: seq<Visit>

    ghost predicate Valid()
      reads this
    {
      ok + failed == |visits| == |latenciesMs|
    }

    /** Every report is counted as what it came to, and its time is kept. */
    ghost predicate Tallied(outcome: Visit -> Outcome)
      reads this
    {
      && ok == Successes(outcome, visits) && failed == |visits| - Successes(outcome, visits)
      && |latenciesMs| == |visits| && forall i :: 0 <= i < |visits| ==> latenciesMs[i] == outcome(visits[i]).elapsedMs
    }

    constructor ()
      ensures Valid() && visits == []
    {
      ok, failed, latenciesMs, visits := 0, 0, [], [];
    }

    lemma TalliedAtStart(outcome: Visit -> Outcome)
      requires Valid() && visits == []
      ensures Tallied(outcome)
    {
    }

    method Record(v: Visit, o: Outcome, ghost outcome: Visit -> Outcome)
      requires Valid() && Tallied(outcome) && o == outcome(v)
      modifies this
      ensures Tallied(outcome)
      ensures Valid() && visits == old(visits) + [v]
      ensures latenciesMs == old(latenciesMs) + [o.elapsedMs]
      ensures ok == old(ok) + (if o.ok then 1 else 0) && failed == old(failed) + (if o.ok then 0 else 1)
    {
      hide Successes;
      OneMoreSuccess(outcome, visits, v);
      latenciesMs := latenciesMs + [o.elapsedMs];
      if o.ok {
        ok := ok + 1;
      } else {
        failed := failed + 1;
      }
      visits := visits + [v];
    }

    method RunIteration(t: nat, iteration: nat, concurrency: nat, workers: nat, outcome: Visit -> Outcome)
      requires Valid() && Tallied(outcome) && concurrency >= 1
      modifies this
      ensures Valid() && Tallied(outcome) && visits == old(visits) + VisitsOf(iteration, Stride(t, concurrency, workers))
    {
      hide VisitsOf, Tallied, Stride;
      var worker := t;
      ghost var done: seq<nat> := [];
      NoVisits(iteration);
      while worker < workers
        invariant Valid() && Tallied(outcome) && Stride(t, concurrency, workers) == done + Stride(worker, concurrency, workers)
        invariant visits == old(visits) + VisitsOf(iteration, done)
        decreases workers - worker
      {
        StrideNext(done, worker, concurrency, workers);
        Record(Visit(iteration, worker), outcome(Visit(iteration, worker)), outcome);
        OneMoreVisit(iteration, done, worker);
        done := done + [worker];
        worker := worker + concurrency;
      }
      StrideOver(done, worker, concurrency, workers);
    }

    method RunThread(t: nat, concurrency: nat, workers: nat, iterations: nat, outcome: Visit -> Outcome)
      requires Valid() && Tallied(outcome) && concurrency >= 1
      modifies this
      ensures Valid() && Tallied(outcome) && visits == old(visits) + ThreadVisits(t, concurrency, workers, iterations)
    {
      for iteration := 0 to iterations
        invariant Valid() && Tallied(outcome) && visits == old(visits) + ThreadVisits(t, concurrency, workers, iteration)
      {
        RunIteration(t, iteration, concurrency, workers, outcome);
      }
    }

    /** Starts min(concurrency, workers) threads and waits for all of them: at every step any thread that is not done
        makes its next report and advances its own two loop variables. */
    method RunAll(concurrency: nat, workers: nat, iterations: nat, outcome: Visit -> Outcome)
      requires Valid() && visits == [] && concurrency >= 1
      modifies this
      ensures Valid() && ok + failed == workers * iterations
      ensures Tallied(outcome)
      ensures multiset(visits) == multiset(AllVisits(ThreadCount(concurrency, workers), concurrency, workers, iterations))
    {
      hide AllVisits, ThreadVisits, Stride, Left, InLoop, Tallied;
      var threadCount := Min(concurrency, workers);
      var threads := seq(threadCount, t requires 0 <= t < threadCount => Visit(0, t));
      ghost var all := multiset(AllVisits(threadCount, concurrency, workers, iterations));
      LeftAtStart(threads, concurrency, workers, iterations);
      assert multiset(visits) == multiset{};
      TalliedAtStart(outcome);
      while exists t :: 0 <= t < |threads| && threads[t].iteration < iterations
        invariant Valid() && Tallied(outcome) && InLoop(threads, workers)
        invariant multiset(visits) + Left(threads, concurrency, workers, iterations) == all
        decreases |Left(threads, concurrency, workers, iterations)|
      {
        var t :| 0 <= t < |threads| && threads[t].iteration < iterations;
        var at := threads[t];
        LeftNext(threads, t, concurrency, workers, iterations);
        MoveOne(visits, at, Left(threads, concurrency, workers, iterations),
                Left(threads[t := After(at, t, concurrency, workers)], concurrency, workers, iterations));
        Record(at, outcome(at), outcome);
        at := at.(worker := at.worker + concurrency);
        if at.worker >= workers {
          at := Visit(at.iteration + 1, t);
        }
        threads := threads[t := at];
      }
      LeftAtEnd(threads, concurrency, workers, iterations);
      ReportCount(concurrency, workers, iterations, visits);
    }
  }

  // ------------------------------------------------------------------------------------------
  // What is left at a point of an interleaving
  // ------------------------------------------------------------------------------------------

  /** What thread `t` has still to do when its loop variables stand at `at`. */
  function Rest(t: nat, at: Visit, concurrency: nat, workers: nat, iterations: nat): seq<Visit>
    requires concurrency >= 1
    decreases iterations - at.iteration
  {
    if at.iteration >= iterations then []
    else VisitsOf(at.iteration, Stride(at.worker, concurrency, workers))
         + Rest(t, Visit(at.iteration + 1, t), concurrency, workers, iterations)
  }

  lemma MoveOne(done: seq<Visit>, v: Visit, before: multiset<Visit>, after: multiset<Visit>)
    requires before == after + multiset{v}
    ensures multiset(done + [v]) + after == multiset(done) + before
  {
  }

  /** Where thread `t` stands after its report. */
  function After(at: Visit, t: nat, concurrency: nat, workers: nat): Visit {
    if at.worker + concurrency < workers then Visit(at.iteration, at.worker + concurrency) else Visit(at.iteration + 1, t)
  }

  ghost predicate InLoop(threads: seq<Visit>, workers: nat) {
    |threads| <= workers && forall t :: 0 <= t < |threads| ==> threads[t].worker < workers
  }

  function TodoOf(threads: seq<Visit>, concurrency: nat, workers: nat, iterations: nat): seq<seq<Visit>>
    requires concurrency >= 1
  {
    seq(|threads|, t requires 0 <= t < |threads| => Rest(t, threads[t], concurrency, workers, iterations))
  }

  /** The reports that threads standing there have still to make. */
  function Left(threads: seq<Visit>, concurrency: nat, workers: nat, iterations: nat): multiset<Visit>
    requires concurrency >= 1
  {
    Remaining(TodoOf(threads, concurrency, workers, iterations))
  }

  lemma LeftAtStart(threads: seq<Visit>, concurrency: nat, workers: nat, iterations: nat)
    requires concurrency >= 1 && |threads| <= workers && forall t :: 0 <= t < |threads| ==> threads[t] == Visit(0, t)
    ensures InLoop(threads, workers)
    ensures Left(threads, concurrency, workers, iterations) == multiset(AllVisits(|threads|, concurrency, workers, iterations))
  {
    hide Rest, ThreadVisits, AllVisits, Remaining;
    var todo := TodoOf(threads, concurrency, workers, iterations);
    forall t | 0 <= t < |todo|
      ensures todo[t] == ThreadVisits(t, concurrency, workers, iterations)
    {
      RestAtStart(t, concurrency, workers, iterations);
    }
    TodoAtStart(todo, concurrency, workers, iterations);
  }

  lemma LeftNext(threads: seq<Visit>, t: nat, concurrency: nat, workers: nat, iterations: nat)
    requires concurrency >= 1 && InLoop(threads, workers) && t < |threads| && threads[t].iteration < iterations
    ensures var next := threads[t := After(threads[t], t, concurrency, workers)];
            && InLoop(next, workers)
            && Left(threads, concurrency, workers, iterations)
               == Left(next, concurrency, workers, iterations) + multiset{threads[t]}
            && |Left(next, concurrency, workers, iterations)| < |Left(threads, concurrency, workers, iterations)|
  {
    hide Rest, Remaining;
    var next := threads[t := After(threads[t], t, concurrency, workers)];
    RestNext(t, threads[t], concurrency, workers, iterations);
    TakeFrom(TodoOf(threads, concurrency, workers, iterations), t, TodoOf(next, concurrency, workers, iterations), threads[t]);
  }

  lemma LeftAtEnd(threads: seq<Visit>, concurrency: nat, workers: nat, iterations: nat)
    requires concurrency >= 1 && forall t :: 0 <= t < |threads| ==> threads[t].iteration >= iterations
    ensures Left(threads, concurrency, workers, iterations) == multiset{}
  {
    hide Remaining;
    NothingLeft(TodoOf(threads, concurrency, workers, iterations));
  }

  /** The next report is the one the loop variables stand at, and leaves what the advanced ones stand for. */
  lemma RestNext(t: nat, at: Visit, concurrency: nat, workers: nat, iterations: nat)
    requires concurrency >= 1 && at.iteration < iterations && at.worker < workers
    ensures var next := After(at, t, concurrency, workers);
            Rest(t, at, concurrency, workers, iterations) == [at] + Rest(t, next, concurrency, workers, iterations)
  {
    hide VisitsOf;
    var later := Stride(at.worker + concurrency, concurrency, workers);
    FirstVisit(at.iteration, at.worker, later);
    NoVisits(at.iteration);
  }

  lemma FirstVisit(iteration: nat, w: nat, ws: seq<nat>)
    ensures VisitsOf(iteration, [w] + ws) == [Visit(iteration, w)] + VisitsOf(iteration, ws)
  {
  }

  lemma NoVisits(iteration: nat)
    ensures VisitsOf(iteration, []) == []
  {
  }

  lemma StrideNext(done: seq<nat>, w: nat, concurrency: nat, workers: nat)
    requires concurrency >= 1 && w < workers
    ensures done + Stride(w, concurrency, workers) == (done + [w]) + Stride(w + concurrency, concurrency, workers)
  {
  }

  lemma StrideOver(done: seq<nat>, w: nat, concurrency: nat, workers: nat)
    requires concurrency >= 1 && w >= workers
    ensures done + Stride(w, concurrency, workers) == done
  {
  }

  lemma OneMoreVisit(iteration: nat, ws: seq<nat>, w: nat)
    ensures VisitsOf(iteration, ws + [w]) == VisitsOf(iteration, ws) + [Visit(iteration, w)]
  {
  }

  lemma RestAtStart(t: nat, concurrency: nat, workers: nat, iterations: nat)
    requires concurrency >= 1
    ensures ThreadVisits(t, concurrency, workers, iterations) == Rest(t, Visit(0, t), concurrency, workers, iterations)
  {
    hide Stride, VisitsOf;
    RestFrom(t, 0, concurrency, workers, iterations);
    assert ThreadVisits(t, concurrency, workers, 0) == [];
  }

  lemma {:induction false} RestFrom(t: nat, i: nat, concurrency: nat, workers: nat, iterations: nat)
    requires concurrency >= 1 && i <= iterations
    ensures ThreadVisits(t, concurrency, workers, iterations)
            == ThreadVisits(t, concurrency, workers, i) + Rest(t, Visit(i, t), concurrency, workers, iterations)
    decreases iterations - i
  {
    hide Stride, VisitsOf;
    if i < iterations {
      RestFrom(t, i + 1, concurrency, workers, iterations);
    }
  }

  /** What the threads have still to do. */
  function Remaining(todo: seq<seq<Visit>>): multiset<Visit> {
    if todo == [] then multiset{} else Remaining(Front(todo)) + multiset(Last(todo))
  }

  lemma {:induction false} TodoAtStart(todo: seq<seq<Visit>>, concurrency: nat, workers: nat, iterations: nat)
    requires concurrency >= 1
    requires forall t :: 0 <= t < |todo| ==> todo[t] == ThreadVisits(t, concurrency, workers, iterations)
    ensures Remaining(todo) == multiset(AllVisits(|todo|, concurrency, workers, iterations))
  {
    hide ThreadVisits;
    if todo != [] {
      TodoAtStart(Front(todo), concurrency, workers, iterations);
    }
  }

  lemma {:induction false} TakeFrom(todo: seq<seq<Visit>>, t: nat, less: seq<seq<Visit>>, v: Visit)
    requires t < |todo| == |less| && todo[t] == [v] + less[t]
    requires forall i :: 0 <= i < |todo| && i != t ==> less[i] == todo[i]
    ensures Remaining(todo) == Remaining(less) + multiset{v}
  {
    if t == |todo| - 1 {
      assert Front(less) == Front(todo);
      assert multiset([v] + less[t]) == multiset{v} + multiset(less[t]);
    } else {
      TakeFrom(Front(todo), t, Front(less), v);
    }
  }

  lemma {:induction false} NothingLeft(todo: seq<seq<Visit>>)
    requires forall t :: 0 <= t < |todo| ==> todo[t] == []
    ensures Remaining(todo) == multiset{}
  {
    if todo != [] {
      NothingLeft(Front(todo));
    }
  }

  // ------------------------------------------------------------------------------------------
  // Percentiles
  // ------------------------------------------------------------------------------------------

  ghost predicate Ascending(s: seq<real>) {
    forall i, j :: 0 <= i < j < |s| ==> s[i] <= s[j]
  }

  function Insert(x: real, s: seq<real>): (r: seq<real>) {
    if s == [] || x <= s[0] then [x] + s else [s[0]] + Insert(x, s[1..])
  }

  lemma {:induction false} InsertElements(x: real, s: seq<real>)
    ensures multiset(Insert(x, s)) == multiset(s) + multiset{x}
  {
    if s != [] && x > s[0] {
      InsertElements(x, s[1..]);
      assert s == [s[0]] + s[1..];
    }
  }

  lemma Prepend(y: real, s: seq<real>)
    requires Ascending(s) && forall i :: 0 <= i < |s| ==> y <= s[i]
    ensures Ascending([y] + s)
  {
  }

  lemma {:induction false} InsertAscends(x: real, s: seq<real>)
    requires Ascending(s)
    ensures Ascending(Insert(x, s))
  {
    if s == [] || x <= s[0] {
      Prepend(x, s);
    } else {
      var t := Insert(x, s[1..]);
      InsertAscends(x, s[1..]);
      InsertElements(x, s[1..]);
      forall i | 0 <= i < |t|
        ensures s[0] <= t[i]
      {
        assert t[i] in multiset(t);
        assert t[i] == x || t[i] in s[1..];
      }
      Prepend(s[0], t);
    }
  }

  lemma InsertSorts(s: seq<real>, t: seq<real>)
    requires s != [] && Ascending(t) && multiset(t) == multiset(Front(s))
    ensures var r := Insert(Last(s), t); Ascending(r) && multiset(r) == multiset(s) && |r| == |s|
  {
    hide Ascending, Insert;
    var r := Insert(Last(s), t);
    InsertAscends(Last(s), t);
    InsertElements(Last(s), t);
    assert s == Front(s) + [Last(s)];
    assert |r| == |multiset(r)| == |multiset(s)| == |s|;
  }

  function Sort(s: seq<real>): (r: seq<real>)
    ensures Ascending(r) && multiset(r) == multiset(s) && |r| == |s|
  {
    if s == [] then []
    else
      var t := Sort(Front(s));
      InsertSorts(s, t);
      Insert(Last(s), t)
  }

  function Index(n: nat, pct: real): int
    requires n > 0
  {
    ((n - 1) as real * pct).Floor
  }

  lemma IndexInRange(n: nat, p: real, q: real)
    requires n > 0 && 0.0 <= p <= q <= 1.0
    ensures 0 <= Index(n, p) <= Index(n, q) < n
  {
    var top := (n - 1) as real;
    ScaleReal(top, 0.0, p);
    ScaleReal(top, p, q);
    ScaleReal(top, q, 1.0);
  }

  lemma ScaleReal(t: real, x: real, y: real)
    requires t >= 0.0 && x <= y
    ensures t * x <= t * y
  {
    assert t * (y - x) >= 0.0;
  }

  function PercentileOf(values: seq<real>, pct: real): real
    requires 0.0 <= pct <= 1.0
  {
    if values == [] then 0.0
    else
      IndexInRange(|values|, pct, pct);
      Sort(values)[Index(|values|, pct)]
  }

  lemma FirstIsLeast(s: seq<real>, x: real)
    requires Ascending(s) && x in multiset(s)
    ensures s != [] && s[0] <= x
  {
    assert x in s;
  }

  /** A sorted sequence is determined by its elements. */
  lemma {:induction false} SortedIsUnique(a: seq<real>, b: seq<real>)
    requires Ascending(a) && Ascending(b) && multiset(a) == multiset(b)
    ensures a == b
  {
    hide Ascending;
    if a == [] {
      assert |multiset(b)| == 0;
    } else {
      SameHead(a, b);
      WithoutFirst(a);
      WithoutFirst(b);
      SortedIsUnique(a[1..], b[1..]);
      assert a == [a[0]] + a[1..] && b == [b[0]] + b[1..];
    }
  }

  lemma SameHead(a: seq<real>, b: seq<real>)
    requires Ascending(a) && Ascending(b) && multiset(a) == multiset(b) && a != []
    ensures b != [] && a[0] == b[0]
  {
    hide Ascending;
    assert a[0] in multiset(b);
    FirstIsLeast(b, a[0]);
    assert b[0] in multiset(a);
    FirstIsLeast(a, b[0]);
  }

  lemma WithoutFirst(s: seq<real>)
    requires Ascending(s) && s != []
    ensures Ascending(s[1..]) && multiset(s[1..]) == multiset(s) - multiset{s[0]}
  {
    assert s == [s[0]] + s[1..];
  }

  /** The order of the samples does not matter. */
  lemma PercentileIgnoresOrder(a: seq<real>, b: seq<real>, pct: real)
    requires 0.0 <= pct <= 1.0 && multiset(a) == multiset(b)
    ensures PercentileOf(a, pct) == PercentileOf(b, pct)
  {
    SortedIsUnique(Sort(a), Sort(b));
    assert |a| == |multiset(a)| == |b|;
  }

  function CountAtMost(s: seq<real>, x: real): nat {
    if s == [] then 0 else CountAtMost(Front(s), x) + (if Last(s) <= x then 1 else 0)
  }

  function CountAtLeast(s: seq<real>, x: real): nat {
    if s == [] then 0 else CountAtLeast(Front(s), x) + (if Last(s) >= x then 1 else 0)
  }

  lemma {:induction false} CountsRemove(s: seq<real>, k: nat, x: real)
    requires k < |s|
    ensures CountAtMost(s, x) == CountAtMost(s[..k] + s[k + 1..], x) + (if s[k] <= x then 1 else 0)
    ensures CountAtLeast(s, x) == CountAtLeast(s[..k] + s[k + 1..], x) + (if s[k] >= x then 1 else 0)
  {
    if k == |s| - 1 {
      assert s[..k] + s[k + 1..] == Front(s);
    } else {
      CountsRemove(Front(s), k, x);
      var rest := s[..k] + s[k + 1..];
      assert Front(rest) == Front(s)[..k] + Front(s)[k + 1..] && Last(rest) == Last(s);
    }
  }

  lemma {:induction false} CountsIgnoreOrder(a: seq<real>, b: seq<real>, x: real)
    requires multiset(a) == multiset(b)
    ensures CountAtMost(a, x) == CountAtMost(b, x) && CountAtLeast(a, x) == CountAtLeast(b, x)
  {
    hide CountAtMost, CountAtLeast;
    if a == [] {
      assert |multiset(b)| == 0;
    } else {
      var n := |a| - 1;
      assert a[n] in multiset(b);
      var k :| 0 <= k < |b| && b[k] == a[n];
      SameRemoved(a, n, b, k);
      CountsIgnoreOrder(a[..n] + a[n + 1..], b[..k] + b[k + 1..], x);
      CountsRemove(a, n, x);
      CountsRemove(b, k, x);
    }
  }

  lemma {:induction false} SortedCounts(s: seq<real>, k: nat)
    requires Ascending(s) && k < |s|
    ensures CountAtMost(s, s[k]) >= k + 1 && CountAtLeast(s, s[k]) >= |s| - k
  {
    SortedCountsUpTo(s, |s|, s[k], k);
    assert s[..|s|] == s;
  }

  lemma {:induction false} SortedCountsUpTo(s: seq<real>, n: nat, x: real, k: nat)
    requires Ascending(s) && k < |s| && n <= |s| && x == s[k]
    ensures CountAtMost(s[..n], x) >= Min(n, k + 1) && CountAtLeast(s[..n], x) >= n - k
  {
    if n > 0 {
      SortedCountsUpTo(s, n - 1, x, k);
      assert Front(s[..n]) == s[..n - 1];
    }
  }

  /** The percentile is an order statistic of the samples as given: at least index + 1 of them are no larger
      and at least n - index no smaller. */
  lemma PercentileIsOrderStatistic(values: seq<real>, pct: real)
    requires values != [] && 0.0 <= pct <= 1.0
    ensures var idx, r := Index(|values|, pct), PercentileOf(values, pct);
            && 0 <= idx < |values| && r in values
            && CountAtMost(values, r) >= idx + 1 && CountAtLeast(values, r) >= |values| - idx
  {
    var idx, r := Index(|values|, pct), PercentileOf(values, pct);
    IndexInRange(|values|, pct, pct);
    SortedCounts(Sort(values), idx);
    CountsIgnoreOrder(Sort(values), values, r);
    assert r in multiset(Sort(values));
  }

  /** Percentiles grow with the rank asked for and never exceed the largest sample. */
  lemma PercentilesAreOrdered(values: seq<real>, p: real, q: real)
    requires values != [] && 0.0 <= p <= q <= 1.0
    ensures PercentileOf(values, p) <= PercentileOf(values, q)
    ensures PercentileOf(values, 1.0) in values && forall x :: x in values ==> x <= PercentileOf(values, 1.0)
  {
    hide Sort, Index;
    IndexInRange(|values|, p, q);
    IndexInRange(|values|, 1.0, 1.0);
    LastIndex(|values|);
    LastIsLargest(values, Sort(values));
  }

  lemma LastIsLargest(values: seq<real>, s: seq<real>)
    requires values != [] && Ascending(s) && multiset(s) == multiset(values)
    ensures s != [] && Last(s) in values && forall x :: x in values ==> x <= Last(s)
  {
    assert values[0] in multiset(s);
    assert Last(s) in multiset(values);
    forall x | x in values
      ensures x <= Last(s)
    {
      assert x in multiset(s);
    }
  }

  lemma LastIndex(n: nat)
    requires n > 0
    ensures Index(n, 1.0) == n - 1
  {
  }

  /** The order statistic is the only value with those counts. */
  lemma OrderStatisticIsUnique(values: seq<real>, idx: nat, x: real, y: real)
    requires idx < |values|
    requires x in values && CountAtMost(values, x) >= idx + 1 && CountAtLeast(values, x) >= |values| - idx
    requires y in values && CountAtMost(values, y) >= idx + 1 && CountAtLeast(values, y) >= |values| - idx
    ensures x == y
  {
    if x < y {
      BelowAndAbove(values, x, y);
    } else if y < x {
      BelowAndAbove(values, y, x);
    }
  }

  lemma {:induction false} BelowAndAbove(s: seq<real>, x: real, y: real)
    requires x < y
    ensures CountAtMost(s, x) + CountAtLeast(s, y) <= |s|
  {
    if s != [] {
      BelowAndAbove(Front(s), x, y);
    }
  }

  /** The sample at the given rank: at least idx + 1 samples are no larger and at least n - idx no smaller, which
      no other sample satisfies; 0 when there are no samples. */
  method Percentile(values: seq<real>, pct: real) returns (r: real)
    requires 0.0 <= pct <= 1.0
    ensures values == [] ==> r == 0.0
    ensures values != [] ==>
              var idx := ((|values| - 1) as real * pct).Floor;
              && 0 <= idx < |values| && r in values
              && CountAtMost(values, r) >= idx + 1 && CountAtLeast(values, r) >= |values| - idx
    ensures r == PercentileOf(values, pct)
  {
    hide Sort;
    if values == [] {
      return 0.0;
    }
    PercentileIsOrderStatistic(values, pct);
    var sorted := Sort(values);
    var index := ((|sorted| - 1) as real * pct).Floor;
    r := sorted[index];
  }
}
