/**
 * What one cruiser tick of `AsyncWorkHub` does to the waiting queue and the
 * working list, as functions of the lists, the concurrency ceiling, the observed
 * state of the works and the resolver's answers. The class in `WorkHub` runs the
 * source's loops and is proved to compute exactly these functions.
 */
module HubTick {
  import opened Works

  /** The works of `s` that are not done, in their order. */
  function Pending(s: seq<Work>, obs: Observer): seq<Work>
  {
    if s == [] then []
    else if obs(s[0]).isDone then Pending(s[1..], obs)
    else [s[0]] + Pending(s[1..], obs)
  }

  /** The works of `s` that are done, in their order. */
  function Finished(s: seq<Work>, obs: Observer): seq<Work>
  {
    if s == [] then []
    else if obs(s[0]).isDone then [s[0]] + Finished(s[1..], obs)
    else Finished(s[1..], obs)
  }

  /** Outcome of the admission phase. */
  datatype Admission = Admission(
    waiting: seq<Work>,    // the queue afterwards
    working: seq<Work>,    // the working list afterwards
    finalized: seq<Work>,  // dequeued works found done, in dequeue order
    started: seq<Work>)    // works started, in dequeue order

  /**
   * Admission phase: while the queue is not empty and fewer than `concurrency`
   * works are working, take the head; finalize it if it is already done,
   * otherwise start it and append it to the working list.
   */
  function Admit(waiting: seq<Work>, working: seq<Work>, concurrency: int, obs: Observer): Admission
    decreases |waiting|
  {
    if |waiting| == 0 || |working| >= concurrency then
      Admission(waiting, working, [], [])
    else
      var w := waiting[0];
      if obs(w).isDone then
        var a := Admit(waiting[1..], working, concurrency, obs);
        a.(finalized := [w] + a.finalized)
      else
        var a := Admit(waiting[1..], working + [w], concurrency, obs);
        a.(started := [w] + a.started)
  }

  /** Outcome of the completion phase. */
  datatype Sweep = Sweep(
    kept: seq<Work>,       // the working list afterwards
    finalized: seq<Work>,  // works removed and finalized, in list order
    retried: seq<Work>)    // works started again in place, in list order

  /** What the scan does with one work `w`, given whether a retry was granted for it. */
  function Visit(s: Sweep, w: Work, obs: Observer, g: bool): Sweep
  {
    if !obs(w).isDone then s.(kept := s.kept + [w])
    else if obs(w).error.Some? && g then s.(kept := s.kept + [w], retried := s.retried + [w])
    else s.(finalized := s.finalized + [w])
  }

  /**
   * Completion phase over the working list: a work that is not done stays; a
   * done work that failed and that the resolver grants (`granted[i]` is its
   * answer at position i) is restarted and stays in place; any other done work
   * leaves the list and is finalized. Defined on the last position so that a
   * left-to-right scan extends it one position at a time.
   */
  function Check(working: seq<Work>, obs: Observer, granted: seq<bool>): Sweep
    requires |granted| == |working|
    decreases |working|
  {
    if working == [] then Sweep([], [], [])
    else
      var n := |working| - 1;
      Visit(Check(working[..n], obs, granted[..n]), working[n], obs, granted[n])
  }

  /**
   * The question the scan puts to the resolver about `w` (line 125 of the
   * source): only a done work that failed is asked about, and `g` is the answer.
   */
  function Ask(w: Work, obs: Observer, g: bool): seq<(Work, bool)>
  {
    if obs(w).isDone && obs(w).error.Some? then [(w, g)] else []
  }

  /** The questions of the whole completion scan with their answers, in list order. */
  function Asked(working: seq<Work>, obs: Observer, granted: seq<bool>): seq<(Work, bool)>
    requires |granted| == |working|
    decreases |working|
  {
    if working == [] then []
    else
      var n := |working| - 1;
      Asked(working[..n], obs, granted[..n]) + Ask(working[n], obs, granted[n])
  }

  /** The works a log of answers says yes to, in order. */
  function Granted(qs: seq<(Work, bool)>): seq<Work>
  {
    if qs == [] then []
    else
      var n := |qs| - 1;
      Granted(qs[..n]) + (if qs[n].1 then [qs[n].0] else [])
  }

  /** One more position of the scan: how `Check` and its questions grow from a prefix to the next. */
  lemma CheckExtend(working: seq<Work>, obs: Observer, granted: seq<bool>, g: bool)
    requires |granted| < |working|
    ensures var j := |granted|;
            Check(working[..j + 1], obs, granted + [g]) == Visit(Check(working[..j], obs, granted), working[j], obs, g)
    ensures var j := |granted|;
            Asked(working[..j + 1], obs, granted + [g]) == Asked(working[..j], obs, granted) + Ask(working[j], obs, g)
  {
    var j := |granted|;
    var prefix, answers := working[..j + 1], granted + [g];
    assert prefix[..j] == working[..j];
    assert answers[..j] == granted;
    assert prefix[j] == working[j] && answers[j] == g;
  }

  // ---------------------------------------------------------------------------
  // The two filters

  lemma {:induction false} PendingAppend(s: seq<Work>, t: seq<Work>, obs: Observer)
    ensures Pending(s + t, obs) == Pending(s, obs) + Pending(t, obs)
    decreases |s|
  {
    if s == [] {
      assert s + t == t;
    } else {
      assert (s + t)[0] == s[0] && (s + t)[1..] == s[1..] + t;
      PendingAppend(s[1..], t, obs);
    }
  }

  lemma {:induction false} FinishedAppend(s: seq<Work>, t: seq<Work>, obs: Observer)
    ensures Finished(s + t, obs) == Finished(s, obs) + Finished(t, obs)
    decreases |s|
  {
    if s == [] {
      assert s + t == t;
    } else {
      assert (s + t)[0] == s[0] && (s + t)[1..] == s[1..] + t;
      FinishedAppend(s[1..], t, obs);
    }
  }

  /** Every work lands in exactly one of the two filters. */
  lemma {:induction false} FiltersPartition(s: seq<Work>, obs: Observer)
    ensures multiset(Pending(s, obs)) + multiset(Finished(s, obs)) == multiset(s)
    decreases |s|
  {
    if s != [] {
      FiltersPartition(s[1..], obs);
      assert s == [s[0]] + s[1..];
    }
  }

  /** `Pending` holds only works of `s` that are not done. */
  lemma {:induction false} PendingSelects(s: seq<Work>, obs: Observer)
    ensures forall w :: w in Pending(s, obs) ==> w in s && !obs(w).isDone
    decreases |s|
  {
    if s != [] {
      PendingSelects(s[1..], obs);
      assert forall w :: w in s[1..] ==> w in s;
    }
  }

  /** `Finished` holds only works of `s` that are done. */
  lemma {:induction false} FinishedSelects(s: seq<Work>, obs: Observer)
    ensures forall w :: w in Finished(s, obs) ==> w in s && obs(w).isDone
    decreases |s|
  {
    if s != [] {
      FinishedSelects(s[1..], obs);
      assert forall w :: w in s[1..] ==> w in s;
    }
  }

  /** When no work of `s` is done, `Pending` keeps all of it and `Finished` none. */
  lemma {:induction false} FiltersNoneDone(s: seq<Work>, obs: Observer)
    requires forall w :: w in s ==> !obs(w).isDone
    ensures Pending(s, obs) == s && Finished(s, obs) == []
    decreases |s|
  {
    if s != [] {
      assert s[0] in s;
      assert forall w :: w in s[1..] ==> w in s;
      FiltersNoneDone(s[1..], obs);
      assert s == [s[0]] + s[1..];
    }
  }

  // ---------------------------------------------------------------------------
  // Admission phase

  /** The works the admission phase dequeues, in dequeue order. */
  function Taken(waiting: seq<Work>, working: seq<Work>, concurrency: int, obs: Observer): seq<Work>
    decreases |waiting|
  {
    if |waiting| == 0 || |working| >= concurrency then []
    else
      var w := waiting[0];
      [w] + Taken(waiting[1..], if obs(w).isDone then working else working + [w], concurrency, obs)
  }

  /** Admission is FIFO: what it dequeues is a prefix of the queue, and the rest stays queued. */
  lemma {:induction false} AdmitTakesQueueHead(waiting: seq<Work>, working: seq<Work>, concurrency: int, obs: Observer)
    ensures waiting == Taken(waiting, working, concurrency, obs) + Admit(waiting, working, concurrency, obs).waiting
    decreases |waiting|
  {
    if |waiting| > 0 && |working| < concurrency {
      var w := waiting[0];
      AdmitTakesQueueHead(waiting[1..], if obs(w).isDone then working else working + [w], concurrency, obs);
      assert waiting == [w] + waiting[1..];
    }
  }

  /**
   * Of the dequeued works, the pending ones are appended to the working list
   * (and started) in queue order, and the done ones are finalized in queue order.
   */
  lemma {:induction false} AdmitSortsTaken(waiting: seq<Work>, working: seq<Work>, concurrency: int, obs: Observer)
    ensures var a := Admit(waiting, working, concurrency, obs);
            var taken := Taken(waiting, working, concurrency, obs);
            a.working == working + Pending(taken, obs) &&
            a.started == Pending(taken, obs) &&
            a.finalized == Finished(taken, obs)
    decreases |waiting|
  {
    if |waiting| > 0 && |working| < concurrency {
      var w := waiting[0];
      var working' := if obs(w).isDone then working else working + [w];
      AdmitSortsTaken(waiting[1..], working', concurrency, obs);
      var taken' := Taken(waiting[1..], working', concurrency, obs);
      var taken := [w] + taken';
      assert taken[0] == w && taken[1..] == taken';
      if !obs(w).isDone {
        assert working' + Pending(taken', obs) == working + Pending(taken, obs);
      }
    }
  }

  /** Admission never pushes the working list past the ceiling, and does nothing when it is reached. */
  lemma {:induction false} AdmitRespectsConcurrency(waiting: seq<Work>, working: seq<Work>, concurrency: int, obs: Observer)
    ensures var a := Admit(waiting, working, concurrency, obs);
            |working| <= concurrency ==> |a.working| <= concurrency
    ensures |working| >= concurrency ==> Admit(waiting, working, concurrency, obs) == Admission(waiting, working, [], [])
    decreases |waiting|
  {
    if |waiting| > 0 && |working| < concurrency {
      var w := waiting[0];
      AdmitRespectsConcurrency(waiting[1..], if obs(w).isDone then working else working + [w], concurrency, obs);
    }
  }

  /** When admission stops, the queue is empty or the ceiling is reached. */
  lemma {:induction false} AdmitSaturates(waiting: seq<Work>, working: seq<Work>, concurrency: int, obs: Observer)
    ensures var a := Admit(waiting, working, concurrency, obs);
            a.waiting == [] || |a.working| >= concurrency
    decreases |waiting|
  {
    if |waiting| > 0 && |working| < concurrency {
      var w := waiting[0];
      AdmitSaturates(waiting[1..], if obs(w).isDone then working else working + [w], concurrency, obs);
    }
  }

  /** Admission neither creates nor loses works: each one is still waiting, now working, or finalized. */
  lemma AdmitConserves(waiting: seq<Work>, working: seq<Work>, concurrency: int, obs: Observer)
    ensures var a := Admit(waiting, working, concurrency, obs);
            multiset(a.waiting) + multiset(a.working) + multiset(a.finalized) == multiset(waiting) + multiset(working) &&
            |a.waiting| + |a.working| + |a.finalized| == |waiting| + |working|
  {
    var a := Admit(waiting, working, concurrency, obs);
    AdmitTakesQueueHead(waiting, working, concurrency, obs);
    AdmitSortsTaken(waiting, working, concurrency, obs);
    var taken := Taken(waiting, working, concurrency, obs);
    FiltersPartition(taken, obs);
    assert |multiset(Pending(taken, obs))| + |multiset(Finished(taken, obs))| == |multiset(taken)|;
  }

  /**
   * The working list keeps its old works as a prefix and gains only works that
   * were not done; a dequeued work that was done is finalized and takes no slot.
   */
  lemma AdmitOnlyPending(waiting: seq<Work>, working: seq<Work>, concurrency: int, obs: Observer)
    ensures var a := Admit(waiting, working, concurrency, obs);
            |working| <= |a.working| && a.working[..|working|] == working &&
            (forall i :: |working| <= i < |a.working| ==> !obs(a.working[i]).isDone) &&
            (forall w :: w in a.finalized ==> obs(w).isDone)
  {
    var a := Admit(waiting, working, concurrency, obs);
    AdmitSortsTaken(waiting, working, concurrency, obs);
    var taken := Taken(waiting, working, concurrency, obs);
    PendingSelects(taken, obs);
    FinishedSelects(taken, obs);
    assert a.working[..|working|] == working;
    forall i | |working| <= i < |a.working|
      ensures !obs(a.working[i]).isDone
    {
      assert a.working[i] == Pending(taken, obs)[i - |working|];
      assert a.working[i] in Pending(taken, obs);
    }
  }

  // ---------------------------------------------------------------------------
  // Completion phase

  /**
   * The completion scan visits each position exactly once: every work of the
   * list either stays or is finalized, none is duplicated or lost, and the
   * restarted works are among those that stay.
   */
  lemma {:induction false} CheckPartitions(working: seq<Work>, obs: Observer, granted: seq<bool>)
    requires |granted| == |working|
    ensures var s := Check(working, obs, granted);
            multiset(s.kept) + multiset(s.finalized) == multiset(working) &&
            |s.kept| + |s.finalized| == |working| &&
            multiset(s.retried) <= multiset(s.kept)
    decreases |working|
  {
    if working != [] {
      var n := |working| - 1;
      var w := working[n];
      var s := Check(working[..n], obs, granted[..n]);
      CheckPartitions(working[..n], obs, granted[..n]);
      assert working == working[..n] + [w];
      assert multiset(working) == multiset(working[..n]) + multiset{w};
      if !obs(w).isDone {
        assert multiset(s.kept + [w]) == multiset(s.kept) + multiset{w};
      } else if obs(w).error.Some? && granted[n] {
        assert multiset(s.kept + [w]) == multiset(s.kept) + multiset{w};
        assert multiset(s.retried + [w]) == multiset(s.retried) + multiset{w};
      } else {
        assert multiset(s.finalized + [w]) == multiset(s.finalized) + multiset{w};
      }
    }
  }

  /**
   * What leaves and what stays, in both directions: a finalized work is done, a
   * restarted work is done with an error, and a work that stays is either not
   * done or was restarted; conversely the work at position i stays if it is not
   * done, is restarted if it is done, failed and was granted a retry, and is
   * finalized if it is done otherwise.
   */
  lemma {:induction false} CheckDecides(working: seq<Work>, obs: Observer, granted: seq<bool>)
    requires |granted| == |working|
    ensures var s := Check(working, obs, granted);
            (forall w :: w in s.finalized ==> obs(w).isDone) &&
            (forall w :: w in s.retried ==> obs(w).isDone && obs(w).error.Some?) &&
            (forall w :: w in s.kept ==> !obs(w).isDone || w in s.retried)
    ensures var s := Check(working, obs, granted);
            forall i :: 0 <= i < |working| ==>
              (!obs(working[i]).isDone ==> working[i] in s.kept) &&
              (obs(working[i]).isDone && obs(working[i]).error.Some? && granted[i] ==>
                 working[i] in s.retried && working[i] in s.kept) &&
              (obs(working[i]).isDone && !(obs(working[i]).error.Some? && granted[i]) ==> working[i] in s.finalized)
    ensures true !in granted ==> Check(working, obs, granted).retried == []
    decreases |working|
  {
    if working != [] {
      var n := |working| - 1;
      var prefix, answers := working[..n], granted[..n];
      CheckDecides(prefix, obs, answers);
      var p := Check(prefix, obs, answers);
      var s := Check(working, obs, granted);
      forall i | 0 <= i < |working|
        ensures !obs(working[i]).isDone ==> working[i] in s.kept
        ensures obs(working[i]).isDone && obs(working[i]).error.Some? && granted[i] ==>
                  working[i] in s.retried && working[i] in s.kept
        ensures obs(working[i]).isDone && !(obs(working[i]).error.Some? && granted[i]) ==> working[i] in s.finalized
      {
        if i < n {
          assert prefix[i] == working[i] && answers[i] == granted[i];
          assert Elems(p.kept) <= Elems(s.kept) && Elems(p.retried) <= Elems(s.retried);
          assert Elems(p.finalized) <= Elems(s.finalized);
        }
      }
    }
  }

  /**
   * The resolver decides every restart: the scan restarts exactly the works
   * its answers say yes to, in order, and it asks only about done works that
   * failed.
   */
  lemma {:induction false} CheckRetriesAnswered(working: seq<Work>, obs: Observer, granted: seq<bool>)
    requires |granted| == |working|
    ensures Check(working, obs, granted).retried == Granted(Asked(working, obs, granted))
    ensures forall q :: q in Asked(working, obs, granted) ==> obs(q.0).isDone && obs(q.0).error.Some?
    decreases |working|
  {
    if working != [] {
      var n := |working| - 1;
      var w, g := working[n], granted[n];
      var qs := Asked(working[..n], obs, granted[..n]);
      CheckRetriesAnswered(working[..n], obs, granted[..n]);
      if obs(w).isDone && obs(w).error.Some? {
        assert (qs + [(w, g)])[..|qs|] == qs;
      } else {
        assert qs + [] == qs;
      }
    }
  }

  /** Works that are not done stay in the working list, in their relative order. */
  lemma {:induction false} CheckKeepsPending(working: seq<Work>, obs: Observer, granted: seq<bool>)
    requires |granted| == |working|
    ensures Pending(Check(working, obs, granted).kept, obs) == Pending(working, obs)
    decreases |working|
  {
    if working != [] {
      var n := |working| - 1;
      var s := Check(working[..n], obs, granted[..n]);
      CheckKeepsPending(working[..n], obs, granted[..n]);
      assert working == working[..n] + [working[n]];
      PendingAppend(working[..n], [working[n]], obs);
      PendingAppend(s.kept, [working[n]], obs);
    }
  }

  /**
   * With no retry granted (in particular with no resolver), the scan keeps
   * exactly the pending works and finalizes exactly the done ones, in order.
   */
  lemma {:induction false} CheckWithoutRetry(working: seq<Work>, obs: Observer, granted: seq<bool>)
    requires |granted| == |working|
    requires true !in granted
    ensures Check(working, obs, granted) == Sweep(Pending(working, obs), Finished(working, obs), [])
    decreases |working|
  {
    if working != [] {
      var n := |working| - 1;
      CheckWithoutRetry(working[..n], obs, granted[..n]);
      assert working == working[..n] + [working[n]];
      PendingAppend(working[..n], [working[n]], obs);
      FinishedAppend(working[..n], [working[n]], obs);
    }
  }

  // ---------------------------------------------------------------------------
  // A whole tick

  /**
   * A tick keeps `Workings <= Concurrency`, and it creates no work: afterwards
   * Waitings + Workings is the old sum less the number of works finalized.
   */
  lemma TickBoundedAndConserving(waiting: seq<Work>, working: seq<Work>, concurrency: int, obs: Observer, granted: seq<bool>)
    requires |granted| == |Admit(waiting, working, concurrency, obs).working|
    ensures var a := Admit(waiting, working, concurrency, obs);
            var s := Check(a.working, obs, granted);
            (|working| <= concurrency ==> |s.kept| <= concurrency) &&
            |a.waiting| + |s.kept| + |a.finalized| + |s.finalized| == |waiting| + |working|
  {
    var a := Admit(waiting, working, concurrency, obs);
    AdmitRespectsConcurrency(waiting, working, concurrency, obs);
    AdmitConserves(waiting, working, concurrency, obs);
    CheckPartitions(a.working, obs, granted);
  }
}
