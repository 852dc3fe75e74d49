/**
 * `AsyncWorkStatusHub`: a hub that also keeps one handler per work key, so
 * that another thread can poll the works' status through `NotifyStatus` and
 * retire the handlers of finished works.
 */
module StatusHub {
  import opened Wrappers
  import opened Works
  import opened Resolvers
  import opened WorkHub

  /** The wrapper a caller receives for an enqueued work (its callbacks are not modelled). */
  class AsyncWorkHandler {
    const work: Work

    constructor (work: Work)
      ensures this.work == work
    {
      this.work := work;
    }
  }

  type Table = map<string, AsyncWorkHandler>

  /** Every handler is filed under its own work's key. */
  ghost predicate KeyConsistent(m: Table)
  {
    forall k :: k in m ==> m[k].work.key == k
  }

  /** The table after a poll: the entries whose work is not done. */
  function Retire(m: Table, obs: Observer): (r: Table)
  {
    map k | k in m && !obs(m[k].work).isDone :: m[k]
  }

  /** The keys of `ks` whose handler's work is done, in order. */
  function DoneKeys(ks: seq<string>, m: Table, obs: Observer): seq<string>
    requires forall k :: k in ks ==> k in m
    decreases |ks|
  {
    if ks == [] then []
    else
      var n := |ks| - 1;
      DoneKeys(ks[..n], m, obs) + (if obs(m[ks[n]].work).isDone then [ks[n]] else [])
  }

  /** The handlers filed under the keys `ks`, in the order of the keys. */
  function HandlersAt(m: Table, ks: seq<string>): seq<AsyncWorkHandler>
    requires forall k :: k in ks ==> k in m
    decreases |ks|
  {
    if ks == [] then []
    else
      var n := |ks| - 1;
      HandlersAt(m, ks[..n]) + [m[ks[n]]]
  }

  lemma DoneKeysExtend(ks: seq<string>, m: Table, obs: Observer, j: nat)
    requires j < |ks| && forall k :: k in ks ==> k in m
    ensures DoneKeys(ks[..j + 1], m, obs) ==
            DoneKeys(ks[..j], m, obs) + (if obs(m[ks[j]].work).isDone then [ks[j]] else [])
    ensures HandlersAt(m, ks[..j + 1]) == HandlersAt(m, ks[..j]) + [m[ks[j]]]
  {
    var prefix := ks[..j + 1];
    assert prefix[..j] == ks[..j] && prefix[j] == ks[j];
  }

  /** `DoneKeys` keeps exactly the keys whose work is done. */
  lemma {:induction false} DoneKeysMembers(ks: seq<string>, m: Table, obs: Observer)
    requires forall k :: k in ks ==> k in m
    ensures forall k :: k in DoneKeys(ks, m, obs) <==> k in ks && obs(m[k].work).isDone
    decreases |ks|
  {
    if ks != [] {
      var n := |ks| - 1;
      assert ks == ks[..n] + [ks[n]];
      DoneKeysMembers(ks[..n], m, obs);
    }
  }

  /**
   * Removing the done keys of an enumeration of the table's keys leaves
   * exactly the entries whose work is not done.
   */
  lemma DoneKeysRetire(ks: seq<string>, m: Table, obs: Observer)
    requires forall k :: k in ks <==> k in m
    ensures m - Elems(DoneKeys(ks, m, obs)) == Retire(m, obs)
  {
    DoneKeysMembers(ks, m, obs);
    var d := Elems(DoneKeys(ks, m, obs));
    assert forall k :: k in d <==> k in m && obs(m[k].work).isDone;
    assert (m - d).Keys == Retire(m, obs).Keys;
  }

  /**
   * Along distinct keys of a key-consistent table, every handler comes up once:
   * the sequence has no repeats and holds exactly the handlers of those keys.
   */
  lemma {:induction false} HandlersOnce(m: Table, ks: seq<string>)
    requires KeyConsistent(m) && Distinct(ks) && forall k :: k in ks ==> k in m
    ensures Distinct(HandlersAt(m, ks))
    ensures forall h :: h in HandlersAt(m, ks) <==> h in m.Values && h.work.key in ks
    decreases |ks|
  {
    if ks != [] {
      var n := |ks| - 1;
      var hs := HandlersAt(m, ks[..n]);
      var h := m[ks[n]];
      assert ks == ks[..n] + [ks[n]];
      assert Distinct(ks[..n]);
      HandlersOnce(m, ks[..n]);
      assert h.work.key == ks[n] && ks[n] !in ks[..n];
      assert h !in hs;
      assert HandlersAt(m, ks) == hs + [h];
      forall g | g in m.Values && g.work.key in ks
        ensures g in HandlersAt(m, ks)
      {
        var k :| k in m && m[k] == g;
        assert k == g.work.key;
      }
    }
  }

  /** A retired handler is gone: no key of the new table leads to it. */
  lemma RetiredGone(m: Table, obs: Observer, k: string)
    requires KeyConsistent(m) && k in m && obs(m[k].work).isDone
    ensures m[k] !in Retire(m, obs).Values
  {
    var r := Retire(m, obs);
    forall k' | k' in r
      ensures r[k'] != m[k]
    {
      assert k' != k && r[k'] == m[k'];
    }
  }

  /**
   * One poll over an enumeration `ks` of the table's keys: dropping the done
   * keys leaves the table `Retire` describes, which is still key-consistent and
   * no longer leads to any retired handler; and the handlers notified along
   * `ks` are the live ones, each once.
   */
  lemma PollOutcome(m: Table, ks: seq<string>, obs: Observer)
    requires KeyConsistent(m) && Distinct(ks) && forall k :: k in ks <==> k in m
    ensures m - Elems(DoneKeys(ks, m, obs)) == Retire(m, obs)
    ensures KeyConsistent(Retire(m, obs))
    ensures Distinct(HandlersAt(m, ks)) && forall h :: h in HandlersAt(m, ks) <==> h in m.Values
    ensures forall k :: k in m && obs(m[k].work).isDone ==> m[k] !in Retire(m, obs).Values
  {
    DoneKeysRetire(ks, m, obs);
    HandlersOnce(m, ks);
    forall k | k in m && obs(m[k].work).isDone
      ensures m[k] !in Retire(m, obs).Values
    {
      RetiredGone(m, obs, k);
    }
  }

  class AsyncWorkStatusHub {
    /** The hub part of the object: the queue, the working list, the resolver. */
    const hub: AsyncWorkHub
    /** The cachers handed to the cache layer (its own code is not modelled). */
    const resultCacher: Option<Cacher>
    const workCacher: Option<Cacher>

    var handlers: Table
    /** Scratch list of `NotifyStatus`, empty between calls. */
    var temps: seq<string>
    /** Every handler `NotifyStatus` notified, in order. */
    ghost var notified: seq<AsyncWorkHandler>

    ghost predicate Valid()
      reads this
    {
      temps == [] && KeyConsistent(handlers)
    }

    /** The source's defaults: no cachers, a 250 ms interval, three works at a time and no resolver. */
    constructor (resultCacher: Option<Cacher> := None, workCacher: Option<Cacher> := None,
                 interval: int := 250, concurrency: int := 3, resolver: RetryResolver? := null)
      ensures this.resultCacher == resultCacher && this.workCacher == workCacher
      ensures fresh(hub) && hub.interval == interval && hub.concurrency == concurrency && hub.resolver == resolver
      ensures hub.waitingWorks == [] && hub.workingWorks == []
      ensures handlers == map[] && notified == []
      ensures Valid()
    {
      this.resultCacher := resultCacher;
      this.workCacher := workCacher;
      hub := new AsyncWorkHub(interval, concurrency, resolver);
      handlers := map[];
      temps := [];
      notified := [];
    }

    /**
     * The handler for `work`: the one already filed under its key, or a new one
     * wrapping it, filed under its key.
     */
    method GetHandler(work: Work) returns (h: AsyncWorkHandler)
      modifies this`handlers
      ensures work.key in old(handlers) ==> h == old(handlers)[work.key] && handlers == old(handlers)
      ensures work.key !in old(handlers) ==> fresh(h) && h.work == work && handlers == old(handlers)[work.key := h]
      ensures old(KeyConsistent(handlers)) ==> KeyConsistent(handlers) && h.work.key == work.key
    {
      if work.key in handlers {
        return handlers[work.key];
      }
      h := new AsyncWorkHandler(work);
      handlers := handlers[work.key := h];
    }

    /**
     * The cache layer's `Enqueue`: it hands back some work to track (perhaps
     * the given one, perhaps one it holds for the same key) and may change the
     * queue in ways this model does not describe.
     */
    method CacheEnqueue(work: Work) returns (enWork: Work)
      modifies hub`waitingWorks
    {
      enWork := *;
      hub.waitingWorks := *;
    }

    /** Enqueue through the cache layer and hand back the handler of the work it returned. */
    method Enqueue(work: Work) returns (h: AsyncWorkHandler, ghost enWork: Work)
      modifies this`handlers, hub`waitingWorks
      ensures enWork.key in old(handlers) ==> h == old(handlers)[enWork.key] && handlers == old(handlers)
      ensures enWork.key !in old(handlers) ==> fresh(h) && h.work == enWork && handlers == old(handlers)[enWork.key := h]
      ensures old(Valid()) ==> Valid() && h.work.key == enWork.key
    {
      var w := CacheEnqueue(work);
      enWork := w;
      h := GetHandler(w);
    }

    /** The handler's own `NotifyStatus`, recorded in `notified`. */
    method NotifyHandler(h: AsyncWorkHandler)
      modifies this`notified
      ensures notified == old(notified) + [h]
    {
      notified := notified + [h];
    }

    /**
     * Notify every live handler once, in the order of the table's keys, then
     * retire the handlers whose work is done. `order` is that key order, which
     * the dictionary does not specify.
     */
    method NotifyStatus(obs: Observer) returns (ghost order: seq<string>)
      requires Valid()
      modifies this`handlers, this`temps, this`notified
      ensures Valid() && temps == []
      ensures handlers == Retire(old(handlers), obs)
      ensures Distinct(order) && forall k :: k in order <==> k in old(handlers)
      ensures notified == old(notified) + HandlersAt(old(handlers), order)
      ensures var calls := notified[|old(notified)|..];
              Distinct(calls) && forall h :: h in calls <==> h in old(handlers).Values
      ensures forall k :: k in old(handlers) && obs(old(handlers)[k].work).isDone ==> old(handlers)[k] !in handlers.Values
    {
      ghost var m0 := handlers;
      if |handlers| == 0 {
        order := [];
        assert m0 == map[];
      } else {
        order := NotifyAndRetire(obs);
      }
      PollOutcome(m0, order, obs);
      assert notified[|old(notified)|..] == HandlersAt(m0, order);
    }

    /**
     * The body of `NotifyStatus` past its early return (lines 69-85 of the
     * source): enumerate the keys into `temps`, notify and sift, drop the done
     * keys, clear `temps`.
     */
    method NotifyAndRetire(obs: Observer) returns (ghost order: seq<string>)
      requires Valid()
      modifies this`handlers, this`temps, this`notified
      ensures Distinct(order) && forall k :: k in order <==> k in old(handlers)
      ensures handlers == old(handlers) - Elems(DoneKeys(order, old(handlers), obs))
      ensures notified == old(notified) + HandlersAt(old(handlers), order)
      ensures temps == []
    {
      var keys := KeysOf(handlers);
      order := keys;
      temps := temps + keys;
      assert temps == keys;
      NotifyPass(obs);
      RemoveTemps();
      temps := [];
    }

    /**
     * The first loop of `NotifyStatus` (lines 70-80 of the source): notify the
     * handler of each key of `temps` in turn, keeping in `temps` only the keys
     * whose work is done (`RemoveAt(i); i--` for the others).
     */
    method NotifyPass(obs: Observer)
      requires forall k :: k in temps ==> k in handlers
      modifies this`temps, this`notified
      ensures temps == DoneKeys(old(temps), handlers, obs)
      ensures notified == old(notified) + HandlersAt(handlers, old(temps))
    {
      ghost var keys := temps;
      var i := 0;
      ghost var j := 0;
      while i < |temps|
        invariant j <= |keys| && temps == DoneKeys(keys[..j], handlers, obs) + keys[j..]
        invariant i == |DoneKeys(keys[..j], handlers, obs)|
        invariant notified == old(notified) + HandlersAt(handlers, keys[..j])
        decreases |temps| - i
      {
        i := NotifyOne(i, obs, keys, j, old(notified));
        j := j + 1;
      }
      assert keys[..j] == keys;
    }

    /** The second loop of `NotifyStatus` (lines 81-84 of the source): drop every key left in `temps`. */
    method RemoveTemps()
      modifies this`handlers
      ensures handlers == old(handlers) - Elems(temps)
    {
      for k := 0 to |temps|
        invariant handlers == old(handlers) - Elems(temps[..k])
      {
        assert temps[..k + 1] == temps[..k] + [temps[k]];
        ElemsAppend(temps[..k], temps[k]);
        handlers := handlers - {temps[k]};
      }
      assert temps[..|temps|] == temps;
    }

    /**
     * Position i of the first loop of `NotifyStatus` (lines 72-79 of the
     * source): notify the handler of `temps[i]`, and drop the key from `temps`
     * unless its work is done. `keys[j]` is the key at position i.
     */
    method NotifyOne(i: int, obs: Observer, ghost keys: seq<string>, ghost j: nat, ghost n0: seq<AsyncWorkHandler>)
      returns (next: int)
      requires j < |keys| && forall k :: k in keys ==> k in handlers
      requires temps == DoneKeys(keys[..j], handlers, obs) + keys[j..]
      requires i == |DoneKeys(keys[..j], handlers, obs)|
      requires notified == n0 + HandlersAt(handlers, keys[..j])
      modifies this`temps, this`notified
      ensures temps == DoneKeys(keys[..j + 1], handlers, obs) + keys[j + 1..]
      ensures next == |DoneKeys(keys[..j + 1], handlers, obs)|
      ensures notified == n0 + HandlersAt(handlers, keys[..j + 1])
    {
      DoneKeysExtend(keys, handlers, obs, j);
      ghost var sifted := DoneKeys(keys[..j], handlers, obs);
      assert keys[j..] == [keys[j]] + keys[j + 1..];
      assert temps == sifted + [keys[j]] + keys[j + 1..];
      var key := temps[i];
      assert key == keys[j];
      var handler := handlers[key];
      NotifyHandler(handler);
      next := i;
      if !obs(handler.work).isDone {
        assert temps[..i] == sifted && temps[i + 1..] == keys[j + 1..];
        temps := temps[..i] + temps[i + 1..];
        next := next - 1;
      }
      next := next + 1;
    }

    /** The keys of `m`, each once, in an order the dictionary leaves open. */
    method KeysOf(m: Table) returns (ks: seq<string>)
      ensures Distinct(ks) && forall k :: k in ks <==> k in m
    {
      ks := [];
      var rest := m.Keys;
      while rest != {}
        invariant Distinct(ks)
        invariant forall k :: k in m <==> k in rest || k in ks
        invariant forall k :: k in rest ==> k !in ks
        decreases rest
      {
        var k :| k in rest;
        ks := ks + [k];
        rest := rest - {k};
      }
    }

    /** The base clear, then an empty handler table. */
    method Clear(workings: bool, waitings: bool)
      modifies this`handlers, hub`waitingWorks, hub`workingWorks, hub`aborted, hub.resolver
      ensures hub.workingWorks == (if workings then [] else old(hub.workingWorks))
      ensures hub.aborted == old(hub.aborted) + (if workings then old(hub.workingWorks) else [])
      ensures hub.waitingWorks == (if waitings then [] else old(hub.waitingWorks))
      ensures hub.Ledger() == (if workings then {} else old(hub.Ledger()))
      ensures hub.Answers() == old(hub.Answers())
      ensures handlers == map[]
    {
      hub.Clear(workings, waitings);
      handlers := map[];
    }
  }
}
