/** Optional values: the model's stand-in for a C# reference that may be null. */
module Wrappers {
  datatype Option<+T> = None | Some(value: T)
}

/**
 * The collaborators the hubs handle but whose code is not part of this model:
 * the work units, the error categories they fail with, and the cachers.
 */
module Works {
  import opened Wrappers

  /** Exception types, kept as opaque tags (no type-hierarchy matching). */
  datatype ErrorType = WebException | TimeoutException | OtherException(name: string)

  /**
   * An asynchronous work as the hub tracks it: its identity and its `Key`.
   * Two enqueued values with the same `id` are the same work object.
   */
  datatype Work = Work(id: nat, key: string)

  /** What `IsDone` and `Error` read at the moment a hub looks at a work. */
  datatype Status = Status(isDone: bool, error: Option<ErrorType>)

  /**
   * The state of every work as seen by one tick (or one status poll). Works run
   * on their own threads; the hub only ever observes them, so their state enters
   * the model as this parameter.
   */
  type Observer = Work -> Status

  /** The configuration of a `Cacher` or a `TimeoutCacher` (their code is not modelled). */
  datatype Cacher =
    | PlainCacher(maxCount: int)
    | TimeoutCacher(maxCount: int, timeout: int)

  /** The set of elements of a sequence. */
  function Elems<T>(s: seq<T>): set<T>
  {
    set x | x in s
  }

  lemma ElemsAppend<T>(s: seq<T>, x: T)
    ensures Elems(s + [x]) == Elems(s) + {x}
  {
    assert forall y :: y in s + [x] <==> y in s || y == x;
  }

  /** No element occurs twice. */
  predicate Distinct<T(==)>(s: seq<T>)
  {
    forall i, j :: 0 <= i < j < |s| ==> s[i] != s[j]
  }
}

/**
 * The retry policy object a hub consults (an `IRetryResolver`). Its decision
 * rule is not part of this model: it may answer either way. What is modelled is
 * its ledger, the set of works it holds a retry history for, and the log of the
 * questions it was asked with the answers it gave.
 */
module Resolvers {
  import opened Works

  class RetryResolver {
    const retryTimes: int
    const tolerables: seq<ErrorType>
    /** Works with a retry history entry. */
    ghost var ledger: set<Work>
    /** Every `Retrieable` call, in order: the work asked about and the answer. */
    ghost var answers: seq<(Work, bool)>

    constructor (retryTimes: int, tolerables: seq<ErrorType>)
      ensures this.retryTimes == retryTimes && this.tolerables == tolerables
      ensures ledger == {} && answers == []
    {
      this.retryTimes := retryTimes;
      this.tolerables := tolerables;
      ledger, answers := {}, [];
    }

    /**
     * May `work` run again? The answer is the resolver's own; a yes spends an
     * attempt, so the work then has a ledger entry. No other entry changes, and
     * the question and its answer are logged.
     */
    method Retrieable(work: Work) returns (ok: bool)
      modifies this`ledger, this`answers
      ensures answers == old(answers) + [(work, ok)]
      ensures ok ==> work in ledger
      ensures old(ledger) - {work} <= ledger && ledger <= old(ledger) + {work}
    {
      ok := *;
      if ok {
        ledger := ledger + {work};
      }
      answers := answers + [(work, ok)];
    }

    /** Forget the history of one work. */
    method Clear(work: Work)
      modifies this`ledger
      ensures ledger == old(ledger) - {work}
    {
      ledger := ledger - {work};
    }

    /** Forget the history of all works. */
    method ClearAll()
      modifies this`ledger
      ensures ledger == {}
    {
      ledger := {};
    }
  }
}
