/**
 * `AsyncWorkHub`: a FIFO waiting queue, a working list bounded by
 * `concurrency`, and an optional retry resolver. Each call of `CruiserTick` is
 * one tick of the cruiser thread; the thread itself is not modelled.
 */
module WorkHub {
  import opened Works
  import opened Resolvers
  import opened HubTick

  /** What a tick reads and changes, as a value: the two lists, the logs, the ledger and the resolver's answers. */
  datatype HubState = HubState(waiting: seq<Work>, working: seq<Work>, started: seq<Work>, finalized: seq<Work>,
                               ledger: set<Work>, answers: seq<(Work, bool)>)

  class AsyncWorkHub {
    /** Milliseconds between ticks (used only by the cruiser thread). */
    var interval: int
    /** Max count of concurrent works; callers may change it at any time. */
    var concurrency: int
    /** Retry policy; null means that nothing is ever retried. */
    var resolver: RetryResolver?

    var waitingWorks: seq<Work>   // the queue, head first
    var workingWorks: seq<Work>   // the working list

    /** Every `ExecuteAsync` call the hub made, in order. */
    ghost var started: seq<Work>
    /** Every `AbortAsync` call the hub made, in order. */
    ghost var aborted: seq<Work>
    /** Every `OnWorkIsDone` call, in order. */
    ghost var finalized: seq<Work>

    /** The source's defaults: a 250 ms interval, three works at a time and no resolver. */
    constructor (interval: int := 250, concurrency: int := 3, resolver: RetryResolver? := null)
      ensures this.interval == interval && this.concurrency == concurrency && this.resolver == resolver
      ensures waitingWorks == [] && workingWorks == []
      ensures started == [] && aborted == [] && finalized == []
    {
      this.interval := interval;
      this.concurrency := concurrency;
      this.resolver := resolver;
      waitingWorks, workingWorks := [], [];
      started, aborted, finalized := [], [], [];
    }

    /** Count of waiting works: zero exactly when nothing waits. */
    function Waitings(): (n: nat)
      reads this
      ensures n == 0 <==> waitingWorks == []
    {
      |waitingWorks|
    }

    /** Count of working works: zero exactly when nothing works. */
    function Workings(): (n: nat)
      reads this
      ensures n == 0 <==> workingWorks == []
    {
      |workingWorks|
    }

    /** The admission bound. */
    ghost predicate WithinConcurrency()
      reads this
    {
      |workingWorks| <= concurrency
    }

    /** The works the resolver holds a retry history for (none without a resolver). */
    ghost function Ledger(): set<Work>
      reads this, resolver
    {
      if resolver != null then resolver.ledger else {}
    }

    /** The questions put to the resolver and its answers, in order (none without a resolver). */
    ghost function Answers(): seq<(Work, bool)>
      reads this, resolver
    {
      if resolver != null then resolver.answers else []
    }

    /** The state a tick reads and changes, as a value. */
    ghost function State(): HubState
      reads this, resolver
    {
      HubState(waitingWorks, workingWorks, started, finalized, Ledger(), Answers())
    }

    /** The resolver holds a history only for works still in the working list. */
    ghost predicate LedgerClean()
      reads this, resolver
    {
      Ledger() <= Elems(workingWorks)
    }

    /** Add a work at the tail of the queue and hand it back. */
    method Enqueue(work: Work) returns (r: Work)
      modifies this`waitingWorks
      ensures r == work
      ensures waitingWorks == old(waitingWorks) + [work]
    {
      waitingWorks := waitingWorks + [work];
      r := work;
    }

    /**
     * Stop tracking works: with `workings`, abort every working work in list
     * order, empty the working list and wipe the whole ledger; with `waitings`,
     * empty the queue. The two flags act independently.
     */
    method Clear(workings: bool, waitings: bool)
      modifies this`waitingWorks, this`workingWorks, this`aborted, resolver
      ensures workingWorks == (if workings then [] else old(workingWorks))
      ensures aborted == old(aborted) + (if workings then old(workingWorks) else [])
      ensures waitingWorks == (if waitings then [] else old(waitingWorks))
      ensures Ledger() == (if workings then {} else old(Ledger()))
      ensures workings ==> LedgerClean()
      ensures Answers() == old(Answers())
    {
      if workings {
        for k := 0 to |workingWorks|
          invariant workingWorks == old(workingWorks) && waitingWorks == old(waitingWorks)
          invariant aborted == old(aborted) + workingWorks[..k]
          invariant Ledger() == old(Ledger()) && Answers() == old(Answers())
        {
          AbortAsync(workingWorks[k]);
        }
        assert workingWorks[..|workingWorks|] == workingWorks;
        workingWorks := [];
        if resolver != null {
          resolver.ClearAll();
        }
      }
      if waitings {
        waitingWorks := [];
      }
    }

    /**
     * One cruiser tick: the admission phase, then the completion phase. The
     * ghost result holds the resolver's answers, one per position of the
     * working list the completion phase scans.
     */
    method CruiserTick(obs: Observer) returns (ghost granted: seq<bool>)
      modifies this`waitingWorks, this`workingWorks, this`started, this`finalized, resolver
      ensures var a := Admit(old(waitingWorks), old(workingWorks), concurrency, obs);
              |granted| == |a.working| &&
              var s := Check(a.working, obs, granted);
              waitingWorks == a.waiting &&
              workingWorks == s.kept &&
              started == old(started) + a.started + s.retried &&
              finalized == old(finalized) + a.finalized + s.finalized
      ensures resolver == null ==> true !in granted
      ensures var a := Admit(old(waitingWorks), old(workingWorks), concurrency, obs);
              Answers() == old(Answers()) + (if resolver == null then [] else Asked(a.working, obs, granted))
      ensures resolver != null ==>
                var a := Admit(old(waitingWorks), old(workingWorks), concurrency, obs);
                started == old(started) + a.started + Granted(Answers()[|old(Answers())|..])
      ensures old(WithinConcurrency()) ==> WithinConcurrency()
      ensures Waitings() + Workings() + (|finalized| - old(|finalized|)) == old(Waitings() + Workings())
      ensures var a := Admit(old(waitingWorks), old(workingWorks), concurrency, obs);
              Ledger() <= old(Ledger()) + Elems(Check(a.working, obs, granted).retried)
      ensures forall w :: w in Ledger() && w in finalized[|old(finalized)|..] ==> w in workingWorks
      ensures old(LedgerClean()) ==> LedgerClean()
    {
      ghost var pre := State();
      AdmitWaitings(obs);
      ghost var mid := State();
      granted := CheckWorkings(obs);
      ghost var post, hasResolver := State(), resolver != null;
      TickLogs(pre, mid, post, concurrency, obs, granted, hasResolver);
      TickCounts(pre, mid, post, concurrency, obs, granted, hasResolver);
      TickHistory(pre, mid, post, concurrency, obs, granted, hasResolver);
    }

    /** Admission phase of a tick (lines 105-117 of the source). */
    method AdmitWaitings(obs: Observer)
      modifies this`waitingWorks, this`workingWorks, this`started, this`finalized, resolver
      ensures var a := Admit(old(waitingWorks), old(workingWorks), concurrency, obs);
              waitingWorks == a.waiting && workingWorks == a.working &&
              started == old(started) + a.started && finalized == old(finalized) + a.finalized
      ensures waitingWorks == [] || |workingWorks| >= concurrency
      ensures Ledger() == old(Ledger()) - Elems(finalized[|old(finalized)|..])
      ensures Answers() == old(Answers())
    {
      ghost var start := State();
      ghost var done := [];
      AdmitSaturates(waitingWorks, workingWorks, concurrency, obs);
      while |waitingWorks| > 0 && |workingWorks| < concurrency
        invariant Admitting(obs, start, done)
        decreases |waitingWorks|
      {
        done := AdmitOne(obs, start, done);
      }
      assert finalized[|old(finalized)|..] == done;
    }

    /**
     * The state of the admission loop, from the state `start` it began in and
     * the works `done` it has finalized so far: one more step of `Admit` from
     * here ends where `Admit` from `start` ends, the logs have grown by the steps
     * taken, the finalized works lost their history, and the resolver was not
     * asked anything.
     */
    ghost predicate Admitting(obs: Observer, start: HubState, done: seq<Work>)
      reads this, resolver
    {
      var a0 := Admit(start.waiting, start.working, concurrency, obs);
      var a := Admit(waitingWorks, workingWorks, concurrency, obs);
      a.waiting == a0.waiting && a.working == a0.working &&
      start.started + a0.started == started + a.started &&
      done + a.finalized == a0.finalized &&
      finalized == start.finalized + done &&
      (forall w :: w in Ledger() <==> w in start.ledger && w !in done) &&
      Answers() == start.answers
    }

    /**
     * One dequeue of the admission loop (lines 107-116 of the source): a done
     * work is finalized without running, any other is started and joins the
     * working list. The loop state covers one more step.
     */
    method AdmitOne(obs: Observer, ghost start: HubState, ghost done: seq<Work>) returns (ghost done': seq<Work>)
      requires |waitingWorks| > 0 && |workingWorks| < concurrency
      requires Admitting(obs, start, done)
      modifies this`waitingWorks, this`workingWorks, this`started, this`finalized, resolver
      ensures |waitingWorks| < old(|waitingWorks|)
      ensures Admitting(obs, start, done')
    {
      var work := waitingWorks[0];
      waitingWorks := waitingWorks[1..];
      if obs(work).isDone {
        ClearRetryHistory(work);
        OnWorkIsDone(work);
        done' := done + [work];
        return;
      }
      done' := done;
      ExecuteAsync(work);
      workingWorks := workingWorks + [work];
    }

    /**
     * Completion phase of a tick (lines 120-136 of the source): the scan with
     * `RemoveAt(i); i--`. Position i of the scan is position `|granted|` of the
     * list the phase started from.
     */
    method CheckWorkings(obs: Observer) returns (ghost granted: seq<bool>)
      modifies this`workingWorks, this`started, this`finalized, resolver
      ensures |granted| == |old(workingWorks)|
      ensures var s := Check(old(workingWorks), obs, granted);
              workingWorks == s.kept &&
              started == old(started) + s.retried &&
              finalized == old(finalized) + s.finalized
      ensures resolver == null ==> true !in granted
      ensures ScanLedger(Ledger(), old(Ledger()), Check(old(workingWorks), obs, granted))
      ensures Answers() == old(Answers()) + (if resolver == null then [] else Asked(old(workingWorks), obs, granted))
    {
      ghost var start := State();
      granted := [];
      var i := 0;
      assert workingWorks[..0] == [];
      while i < |workingWorks|
        invariant Scanned(obs, start, granted, i)
        decreases |workingWorks| - i
      {
        var retry;
        retry, i := ScanOne(i, obs, start, granted);
        granted := granted + [retry];
      }
      assert start.working[..|granted|] == start.working;
    }

    /** The completion scan's state, read from the hub: `ScanAt` of the current state. */
    ghost predicate Scanned(obs: Observer, start: HubState, granted: seq<bool>, i: int)
      reads this, resolver
    {
      ScanAt(obs, start, State(), granted, i, resolver != null)
    }

    /**
     * Position i of the scan (lines 122-135 of the source): the work there is
     * visited, and the scan state covers one more position, with the answer
     * `retry` the resolver gave for it (false when it was not asked).
     */
    method ScanOne(i: int, obs: Observer, ghost start: HubState, ghost granted: seq<bool>)
      returns (retry: bool, next: int)
      requires Scanned(obs, start, granted, i) && |granted| < |start.working|
      modifies this`workingWorks, this`started, this`finalized, resolver
      ensures Scanned(obs, start, granted + [retry], next)
    {
      ghost var before := State();
      ScanAtNext(obs, start, before, granted, i, resolver != null);
      var work := workingWorks[i];
      retry := false;
      next := i + 1;
      if obs(work).isDone {
        retry := RestartOrRetire(i, obs);
        if !retry {
          next := i;
        }
      }
      VisitStep(obs, start, before, State(), granted, i, retry, next, resolver != null);
    }

    /**
     * The done work at position i of the scan either fails, is granted a retry
     * and is restarted where it is, or leaves the list at position i, loses its
     * retry history and is finalized (lines 125-134 of the source).
     */
    method RestartOrRetire(i: int, obs: Observer) returns (retry: bool)
      requires 0 <= i < |workingWorks| && obs(workingWorks[i]).isDone
      modifies this`workingWorks, this`started, this`finalized, resolver
      ensures var w := old(workingWorks[i]);
              retry ==> obs(w).error.Some? && resolver != null && w in Ledger()
      ensures var w := old(workingWorks[i]);
              Answers() == old(Answers()) + (if resolver == null then [] else Ask(w, obs, retry))
      ensures var w := old(workingWorks[i]);
              retry ==> workingWorks == old(workingWorks) && started == old(started) + [w] &&
                        finalized == old(finalized) && Ledger() <= old(Ledger()) + {w}
      ensures var w := old(workingWorks[i]);
              !retry ==> workingWorks == old(workingWorks[..i] + workingWorks[i + 1..]) && started == old(started) &&
                         finalized == old(finalized) + [w] && Ledger() == old(Ledger()) - {w}
    {
      var work := workingWorks[i];
      if obs(work).error.Some? {
        retry := CheckRetrieable(work);
      } else {
        retry := false;
      }
      if retry {
        ExecuteAsync(work);
        return;
      }
      workingWorks := workingWorks[..i] + workingWorks[i + 1..];
      ClearRetryHistory(work);
      OnWorkIsDone(work);
    }

    /** The base hook: a finished work loses its retry history and is finalized. */
    method OnWorkIsDone(work: Work)
      modifies this`finalized, resolver
      ensures finalized == old(finalized) + [work]
      ensures Ledger() == old(Ledger()) - {work}
      ensures Answers() == old(Answers())
    {
      ClearRetryHistory(work);
      finalized := finalized + [work];
    }

    /** A retry needs a resolver, and the resolver's yes: the answer is the one it logs. */
    method CheckRetrieable(work: Work) returns (ok: bool)
      modifies resolver
      ensures resolver == null ==> !ok
      ensures Answers() == old(Answers()) + (if resolver == null then [] else [(work, ok)])
      ensures ok ==> work in Ledger()
      ensures old(Ledger()) - {work} <= Ledger() <= old(Ledger()) + {work}
    {
      if resolver == null {
        return false;
      }
      ok := resolver.Retrieable(work);
    }

    /** Drop the work's entry from the resolver's ledger, if there is a resolver. */
    method ClearRetryHistory(work: Work)
      modifies resolver
      ensures Ledger() == old(Ledger()) - {work}
      ensures Answers() == old(Answers())
    {
      if resolver != null {
        resolver.Clear(work);
      }
    }

    /** Start (or restart) a work: an effect on the work only, recorded in `started`. */
    method ExecuteAsync(work: Work)
      modifies this`started
      ensures started == old(started) + [work]
    {
      started := started + [work];
    }

    /** Abort a work: an effect on the work only, recorded in `aborted`. */
    method AbortAsync(work: Work)
      modifies this`aborted
      ensures aborted == old(aborted) + [work]
    {
      aborted := aborted + [work];
    }
  }

  /** What the admission phase guarantees, as a relation between the states before and after it. */
  ghost predicate AdmitStep(pre: HubState, mid: HubState, concurrency: int, obs: Observer)
  {
    var a := Admit(pre.waiting, pre.working, concurrency, obs);
    mid.waiting == a.waiting && mid.working == a.working &&
    mid.started == pre.started + a.started && mid.finalized == pre.finalized + a.finalized &&
    mid.ledger == pre.ledger - Elems(mid.finalized[|pre.finalized|..]) && mid.answers == pre.answers
  }

  /** What the completion scan guarantees, as a relation between the states before and after it. */
  ghost predicate ScanStep(mid: HubState, post: HubState, obs: Observer, granted: seq<bool>, hasResolver: bool)
  {
    |granted| == |mid.working| &&
    var s := Check(mid.working, obs, granted);
    post.waiting == mid.waiting && post.working == s.kept &&
    post.started == mid.started + s.retried && post.finalized == mid.finalized + s.finalized &&
    ScanLedger(post.ledger, mid.ledger, s) &&
    post.answers == mid.answers + (if hasResolver then Asked(mid.working, obs, granted) else [])
  }

  /**
   * The logs over a tick: what was started and finalized, and the resolver's
   * answers, whose yeses are exactly the works restarted.
   */
  lemma TickLogs(pre: HubState, mid: HubState, post: HubState, concurrency: int, obs: Observer,
                 granted: seq<bool>, hasResolver: bool)
    requires AdmitStep(pre, mid, concurrency, obs) && ScanStep(mid, post, obs, granted, hasResolver)
    ensures var a := Admit(pre.waiting, pre.working, concurrency, obs);
            |granted| == |a.working| &&
            var s := Check(a.working, obs, granted);
            post.started == pre.started + a.started + s.retried &&
            post.finalized == pre.finalized + a.finalized + s.finalized &&
            post.answers == pre.answers + (if hasResolver then Asked(a.working, obs, granted) else []) &&
            (hasResolver ==> post.started == pre.started + a.started + Granted(post.answers[|pre.answers|..]))
  {
    var a := Admit(pre.waiting, pre.working, concurrency, obs);
    CheckRetriesAnswered(a.working, obs, granted);
    if hasResolver {
      assert post.answers[|pre.answers|..] == Asked(a.working, obs, granted);
    }
  }

  /** The counts over a tick: the concurrency bound holds on, and every work is accounted for. */
  lemma TickCounts(pre: HubState, mid: HubState, post: HubState, concurrency: int, obs: Observer,
                   granted: seq<bool>, hasResolver: bool)
    requires AdmitStep(pre, mid, concurrency, obs) && ScanStep(mid, post, obs, granted, hasResolver)
    ensures |pre.working| <= concurrency ==> |post.working| <= concurrency
    ensures |post.waiting| + |post.working| + (|post.finalized| - |pre.finalized|) == |pre.waiting| + |pre.working|
  {
    TickBoundedAndConserving(pre.waiting, pre.working, concurrency, obs, granted);
  }

  /**
   * Retry history over a tick: only restarted works gain history, a work
   * finalized in the tick keeps none unless it is still working, and a clean
   * ledger stays clean.
   */
  lemma TickHistory(pre: HubState, mid: HubState, post: HubState, concurrency: int, obs: Observer,
                    granted: seq<bool>, hasResolver: bool)
    requires AdmitStep(pre, mid, concurrency, obs) && ScanStep(mid, post, obs, granted, hasResolver)
    ensures post.ledger <= pre.ledger + Elems(Check(mid.working, obs, granted).retried)
    ensures forall w :: w in post.ledger && w in post.finalized[|pre.finalized|..] ==> w in post.working
    ensures pre.ledger <= Elems(pre.working) ==> post.ledger <= Elems(post.working)
  {
    var a := Admit(pre.waiting, pre.working, concurrency, obs);
    var s := Check(a.working, obs, granted);
    AdmitOnlyPending(pre.waiting, pre.working, concurrency, obs);
    assert mid.finalized[|pre.finalized|..] == a.finalized;
    assert post.finalized[|pre.finalized|..] == a.finalized + s.finalized;
    assert pre.ledger <= Elems(pre.working) ==> mid.ledger <= Elems(a.working) by {
      assert pre.working == a.working[..|pre.working|];
    }
    TickLedger(pre.ledger, mid.ledger, post.ledger, a.finalized, a.working, obs, granted);
  }

  /**
   * The completion scan after the positions `granted` answers for, from the
   * state `start` it began in: as `ScanFrom` says, for the sweep `Check` and
   * the questions `Asked` over those positions, with the works still to visit
   * after them. Without a resolver, nothing is granted.
   */
  ghost predicate ScanAt(obs: Observer, start: HubState, now: HubState, granted: seq<bool>, i: int, hasResolver: bool)
  {
    |granted| <= |start.working| &&
    (!hasResolver ==> true !in granted) &&
    ScanFrom(start, now, start.working[|granted|..], Check(start.working[..|granted|], obs, granted),
             Asked(start.working[..|granted|], obs, granted), i, hasResolver)
  }

  /**
   * The hub `now`, part-way through a scan that began in `start`, has done
   * what the sweep `sw` says and asked the questions `asked`: the list is the
   * kept works followed by those still to visit (`rest`), `i` points at the
   * first of these, the logs and the resolver's answers have grown by what
   * `sw` and `asked` say, and the ledger is bounded as `ScanLedger` says.
   */
  ghost predicate ScanFrom(start: HubState, now: HubState, rest: seq<Work>, sw: Sweep,
                           asked: seq<(Work, bool)>, i: int, hasResolver: bool)
  {
    now.working == sw.kept + rest && i == |sw.kept| &&
    now.started == start.started + sw.retried && now.finalized == start.finalized + sw.finalized &&
    ScanLedger(now.ledger, start.ledger, sw) &&
    now.answers == start.answers + (if hasResolver then asked else [])
  }

  /** While positions remain, `i` points at the next work to visit. */
  lemma ScanAtNext(obs: Observer, start: HubState, now: HubState, granted: seq<bool>, i: int, hasResolver: bool)
    requires ScanAt(obs, start, now, granted, i, hasResolver) && |granted| < |start.working|
    ensures 0 <= i < |now.working| && now.working[i] == start.working[|granted|]
  {
  }

  /**
   * What visiting the work `w` at position i does, from state `before` to
   * `after`: a running work is left alone; a restarted one stays and is
   * started again, and may gain history; any other done work leaves the list,
   * loses its history and is finalized. The resolver's log grows by the
   * question about `w`, if any.
   */
  ghost predicate VisitEffect(obs: Observer, w: Work, before: HubState, after: HubState, i: int,
                              retry: bool, next: int, hasResolver: bool)
  {
    (!obs(w).isDone ==> !retry && next == i + 1 && after == before) &&
    (obs(w).isDone && retry ==>
       obs(w).error.Some? && hasResolver && next == i + 1 &&
       after.working == before.working && after.started == before.started + [w] &&
       after.finalized == before.finalized && after.ledger <= before.ledger + {w}) &&
    (obs(w).isDone && !retry ==>
       next == i && 0 <= i < |before.working| &&
       after.working == before.working[..i] + before.working[i + 1..] && after.started == before.started &&
       after.finalized == before.finalized + [w] && after.ledger == before.ledger - {w}) &&
    after.answers == before.answers + (if hasResolver then Ask(w, obs, retry) else [])
  }

  /** One visit carries the scan state over one more position. */
  lemma VisitStep(obs: Observer, start: HubState, before: HubState, after: HubState, granted: seq<bool>,
                  i: int, retry: bool, next: int, hasResolver: bool)
    requires ScanAt(obs, start, before, granted, i, hasResolver) && |granted| < |start.working|
    requires VisitEffect(obs, start.working[|granted|], before, after, i, retry, next, hasResolver)
    ensures ScanAt(obs, start, after, granted + [retry], next, hasResolver)
  {
    var j, w0 := |granted|, start.working;
    CheckExtend(w0, obs, granted, retry);
    assert (granted + [retry])[..j] == granted;
    assert w0[j..] == [w0[j]] + w0[j + 1..];
    VisitFrom(obs, start, before, after, w0[j], w0[j + 1..], Check(w0[..j], obs, granted),
              Asked(w0[..j], obs, granted), i, retry, next, hasResolver);
  }

  /** The same step, for any sweep and questions so far. */
  lemma VisitFrom(obs: Observer, start: HubState, before: HubState, after: HubState, w: Work, rest: seq<Work>,
                  sw: Sweep, asked: seq<(Work, bool)>, i: int, retry: bool, next: int, hasResolver: bool)
    requires ScanFrom(start, before, [w] + rest, sw, asked, i, hasResolver)
    requires VisitEffect(obs, w, before, after, i, retry, next, hasResolver)
    ensures ScanFrom(start, after, rest, Visit(sw, w, obs, retry), asked + Ask(w, obs, retry), next, hasResolver)
  {
    VisitWorking(sw.kept, w, rest, before.working, after.working, i, next, obs, retry);
    VisitLogs(sw, w, obs, retry, start.started, start.finalized, before.started, before.finalized,
              after.started, after.finalized);
    VisitLedger(before.ledger, after.ledger, start.ledger, sw, w, obs, retry);
    if hasResolver {
      assert after.answers == start.answers + (asked + Ask(w, obs, retry));
    }
  }

  /** One visit extends the started and finalized logs as `Visit` says. */
  lemma VisitLogs(sw: Sweep, w: Work, obs: Observer, retry: bool, s0: seq<Work>, f0: seq<Work>,
                  started: seq<Work>, finalized: seq<Work>, started': seq<Work>, finalized': seq<Work>)
    requires started == s0 + sw.retried && finalized == f0 + sw.finalized
    requires !obs(w).isDone ==> !retry && started' == started && finalized' == finalized
    requires obs(w).isDone && retry ==> obs(w).error.Some? && started' == started + [w] && finalized' == finalized
    requires obs(w).isDone && !retry ==> started' == started && finalized' == finalized + [w]
    ensures var s := Visit(sw, w, obs, retry);
            started' == s0 + s.retried && finalized' == f0 + s.finalized
  {
  }

  /** One visit moves the working list on by one position, as `Visit` says of the kept works. */
  lemma VisitWorking(kept: seq<Work>, w: Work, rest: seq<Work>, before: seq<Work>, after: seq<Work>,
                     i: int, next: int, obs: Observer, retry: bool)
    requires before == kept + ([w] + rest) && i == |kept|
    requires !obs(w).isDone ==> !retry && next == i + 1 && after == before
    requires obs(w).isDone && retry ==> obs(w).error.Some? && next == i + 1 && after == before
    requires obs(w).isDone && !retry ==> next == i && after == before[..i] + before[i + 1..]
    ensures var k := Visit(Sweep(kept, [], []), w, obs, retry).kept;
            after == k + rest && next == |k|
  {
    if obs(w).isDone && !retry {
      assert before[..i] == kept;
      assert before[i + 1..] == rest;
    }
  }

  /**
   * The ledger during the completion phase, from a ledger `l0` at its start
   * and the part `sw` scanned so far: only restarted works gained an entry, and
   * a finalized work has none unless it is still in the list.
   */
  ghost predicate ScanLedger(ledger: set<Work>, l0: set<Work>, sw: Sweep)
  {
    (forall w :: w in ledger ==> w in l0 || w in sw.retried) &&
    (forall w :: w in ledger && w in sw.finalized ==> w in sw.kept)
  }

  /** One visit keeps the ledger bounds of the scan, given what the visit did to the ledger. */
  lemma VisitLedger(ledger: set<Work>, ledger': set<Work>, l0: set<Work>, sw: Sweep, w: Work, obs: Observer, retry: bool)
    requires ScanLedger(ledger, l0, sw)
    requires !obs(w).isDone ==> ledger' == ledger && !retry
    requires obs(w).isDone && retry ==> obs(w).error.Some? && ledger' <= ledger + {w}
    requires obs(w).isDone && !retry ==> ledger' == ledger - {w}
    ensures ScanLedger(ledger', l0, Visit(sw, w, obs, retry))
  {
  }

  /**
   * The ledger over a whole tick, from the ledger `l0` before it, `mid` after
   * admission (which dropped the works in `early`) and `l1` after the scan.
   */
  lemma TickLedger(l0: set<Work>, mid: set<Work>, l1: set<Work>, early: seq<Work>,
                   admitted: seq<Work>, obs: Observer, granted: seq<bool>)
    requires |granted| == |admitted|
    requires mid == l0 - Elems(early)
    requires ScanLedger(l1, mid, Check(admitted, obs, granted))
    ensures var s := Check(admitted, obs, granted);
            l1 <= l0 + Elems(s.retried) &&
            (forall w :: w in l1 && w in early + s.finalized ==> w in s.kept) &&
            (mid <= Elems(admitted) ==> l1 <= Elems(s.kept))
  {
    var s := Check(admitted, obs, granted);
    CheckPartitions(admitted, obs, granted);
    forall w | w in l1 && w in early + s.finalized
      ensures w in s.kept
    {
      if w !in s.finalized {
        assert w in s.retried;
        assert w in multiset(s.kept);
      }
    }
    if mid <= Elems(admitted) {
      forall w | w in l1
        ensures w in Elems(s.kept)
      {
        if w in s.retried {
          assert w in multiset(s.retried);
        } else {
          assert w in multiset(admitted);
          if w !in s.finalized {
            assert w in multiset(s.kept);
          }
        }
      }
    }
  }
}
