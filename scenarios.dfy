/**
 * The situations the repository's hub tests set up, replayed on the model. A
 * work that runs for seconds is one that no tick observes as done.
 */
module HubScenarios {
  import opened Wrappers
  import opened Works
  import opened HubTick
  import opened WorkHub
  import opened StatusHub
  import opened WorkHubFactory

  /** Every work is still running. */
  function Running(w: Work): Status
  {
    Status(false, None)
  }

  /** Every work has finished without error. */
  function AllDone(w: Work): Status
  {
    Status(true, None)
  }

  /**
   * One tick over works that are all still running takes them from the head
   * of the queue into the working list until the list is full, and the scan
   * then keeps all of them.
   */
  lemma TickOverRunningWorks(waiting: seq<Work>, concurrency: int, granted: seq<bool>)
    requires |granted| == |Admit(waiting, [], concurrency, Running).working|
    ensures var a := Admit(waiting, [], concurrency, Running);
            Check(a.working, Running, granted).kept == a.working && waiting == a.working + a.waiting &&
            (a.waiting == [] || |a.working| >= concurrency) && |a.working| <= if concurrency < 0 then 0 else concurrency
  {
    var a := Admit(waiting, [], concurrency, Running);
    var taken := Taken(waiting, [], concurrency, Running);
    AdmitTakesQueueHead(waiting, [], concurrency, Running);
    AdmitSortsTaken(waiting, [], concurrency, Running);
    FiltersNoneDone(taken, Running);
    assert a.working == taken;
    AdmitSaturates(waiting, [], concurrency, Running);
    AdmitRespectsConcurrency(waiting, [], concurrency, Running);
    var s := Check(a.working, Running, granted);
    CheckKeepsPending(a.working, Running, granted);
    FiltersNoneDone(s.kept, Running);
    FiltersNoneDone(a.working, Running);
  }

  /** Four long works on a hub of concurrency 3: after a tick, one waits and three work. */
  method ConcurrencyTest() returns (waitings: nat, workings: nat)
    ensures waitings == 1 && workings == 3
  {
    var hub := CreateHub(250, 3);
    var w1 := hub.Enqueue(Work(1, "1"));
    var w2 := hub.Enqueue(Work(2, "2"));
    var w3 := hub.Enqueue(Work(3, "3"));
    var w4 := hub.Enqueue(Work(4, "4"));
    ghost var queue := hub.waitingWorks;
    assert |queue| == 4 && hub.workingWorks == [];
    ghost var granted := hub.CruiserTick(Running);
    TickOverRunningWorks(queue, 3, granted);
    waitings, workings := hub.Waitings(), hub.Workings();
  }

  /** Hubs built with no arguments take the defaults: 250 ms, three works at a time, no resolver, no cachers. */
  method DefaultSettings() returns (interval: int, concurrency: int, statusInterval: int, statusConcurrency: int,
                                    resolved: bool, cached: bool)
    ensures interval == 250 && concurrency == 3 && statusInterval == 250 && statusConcurrency == 3
    ensures !resolved && !cached
  {
    var hub := new AsyncWorkHub();
    var status := new AsyncWorkStatusHub();
    interval, concurrency := hub.interval, hub.concurrency;
    statusInterval, statusConcurrency := status.hub.interval, status.hub.concurrency;
    resolved := hub.resolver != null || status.hub.resolver != null;
    cached := status.resultCacher.Some? || status.workCacher.Some?;
  }

  /** Three works, a tick, then `Clear(true, true)`: nothing waits and nothing works. */
  method ClearTest() returns (waitings: nat, workings: nat)
    ensures waitings == 0 && workings == 0
  {
    var hub := CreateHub(250, 3);
    var w1 := hub.Enqueue(Work(1, "1"));
    var w2 := hub.Enqueue(Work(2, "2"));
    var w3 := hub.Enqueue(Work(3, "3"));
    ghost var granted := hub.CruiserTick(Running);
    hub.Clear(true, true);
    waitings, workings := hub.Waitings(), hub.Workings();
  }

  /**
   * A handler stays filed while its work runs, is notified on each poll, and
   * is retired by the first poll that sees its work done.
   */
  method HandlerLifecycle() returns (liveAfterFirst: bool, liveAfterSecond: bool)
    ensures liveAfterFirst && !liveAfterSecond
  {
    var hub := CreateStatusHub();
    var h, enWork := hub.Enqueue(Work(1, "1"));
    ghost var order := hub.NotifyStatus(Running);
    liveAfterFirst := h.work.key in hub.handlers && hub.handlers[h.work.key] == h;
    order := hub.NotifyStatus(AllDone);
    liveAfterSecond := h.work.key in hub.handlers && hub.handlers[h.work.key] == h;
  }
}
