/** `_PendingRequests`: the mutable map of futures. A future is a heap object; the map, its owner and whoever
    awaits it share it. `View` reads the heap back as the value `Rpc.Table` describes. */
module PendingMap {
  import opened Wire
  import opened Rpc

  class Future {
    ghost const id: nat     // its number in order of creation
    ghost const key: Key    // the key it was registered under
    var outcome: Outcome

    constructor (ghost id: nat, ghost key: Key)
      ensures this.id == id && this.key == key && outcome == Pending
    {
      this.id, this.key := id, key;
      outcome := Pending;
    }

    predicate Done()
      reads this
    {
      !outcome.Pending?
    }

    /** `set_result`, `set_exception` or `cancel`; asyncio refuses the first two on a future that is done. */
    method Settle(o: Outcome)
      requires !Done()
      modifies this
      ensures outcome == o
    {
      outcome := o;
    }
  }

  ghost function Snapshot(fs: seq<Future>): (r: seq<Fut>)
    reads fs
    ensures |r| == |fs| && forall i :: 0 <= i < |fs| ==> r[i] == Fut(fs[i].key, fs[i].outcome)
  {
    if fs == [] then [] else Snapshot(fs[..|fs| - 1]) + [Fut(fs[|fs| - 1].key, fs[|fs| - 1].outcome)]
  }

  ghost function Ids(m: map<Key, Future>): (r: map<Key, nat>)
    ensures r.Keys == m.Keys && forall k :: k in m ==> r[k] == m[k].id
  {
    map k | k in m :: m[k].id
  }

  lemma IdsUpdate(m: map<Key, Future>, key: Key, fut: Future)
    ensures Ids(m[key := fut]) == Ids(m)[key := fut.id]
    ensures Ids(m - {key}) == Ids(m) - {key}
  {
  }

  class PendingRequests {
    var counter: nat
    var futures: map<Key, Future>
    ghost var created: seq<Future>

    ghost predicate Valid()
      reads this
    {
      && (forall i :: 0 <= i < |created| ==> created[i].id == i)
      && (forall k :: k in futures ==>
            futures[k].id < |created| && created[futures[k].id] == futures[k] && futures[k].key == k)
    }

    ghost function View(): Table
      reads this, created
    {
      Table(counter, Ids(futures), Snapshot(created))
    }

    constructor ()
      ensures Valid() && View() == EMPTY && created == []
    {
      counter, futures, created := 0, map[], [];
    }

    method NextId() returns (n: nat)
      requires Valid()
      modifies this`counter
      ensures Valid() && created == old(created)
      ensures n == old(counter) + 1 && View() == old(View()).(counter := n)
    {
      counter := counter + 1;
      n := counter;
    }

    method Create(key: Key) returns (fut: Future)
      requires Valid()
      modifies this`futures, this`created
      ensures Valid() && fresh(fut) && created == old(created) + [fut]
      ensures View() == Rpc.Create(old(View()), key)
      ensures fut.id == |old(created)| && fut.key == key
    {
      fut := new Future(|created|, key);
      futures := futures[key := fut];
      created := created + [fut];
      IdsUpdate(old(futures), key, fut);
    }

    method Discard(key: Key)
      requires Valid()
      modifies this`futures
      ensures Valid() && created == old(created)
      ensures View() == Rpc.Discard(old(View()), key)
    {
      futures := futures - {key};
      assert futures == old(futures) - {key} && Ids(futures) == Ids(old(futures)) - {key};
    }

    method ExpectPong() returns (fut: Future)
      requires Valid()
      modifies this`futures, this`created
      ensures Valid() && fresh(fut) && created == old(created) + [fut]
      ensures View() == Rpc.Create(old(View()), PONG_KEY)
      ensures fut.id == |old(created)| && fut.key == PONG_KEY
    {
      fut := Create(PONG_KEY);
    }

    /** Compares by identity: only the future that holds the slot may clear it. */
    method DiscardPong(fut: Future?)
      requires Valid()
      requires fut != null ==> fut.id < |created| && created[fut.id] == fut
      modifies this`futures
      ensures Valid() && created == old(created)
      ensures View() == Rpc.DiscardPong(old(View()), if fut == null then None else Some(fut.id))
    {
      if fut == null || (PONG_KEY in futures && futures[PONG_KEY] == fut) {
        Discard(PONG_KEY);
      }
    }

    method SettleSlot(key: Key, msg: Frame) returns (found: bool)
      requires Valid()
      modifies created
      ensures Valid() && created == old(created)
      ensures found == (key in futures)
      ensures View() == if found then SettleAt(old(View()), futures[key].id, Result(msg)) else old(View())
    {
      if key !in futures {
        return false;
      }
      var fut := futures[key];
      if !fut.Done() {
        fut.Settle(Result(msg));
      }
      return true;
    }

    /** `None` when the correlation id cannot be looked up at all. */
    method Resolve(msg: Frame, key: Correlation) returns (routing: Routing)
      requires Valid()
      modifies created
      ensures Valid() && created == old(created)
      ensures routing == RoutingOf(old(View()), msg, key)
      ensures View() == Rpc.Resolve(old(View()), msg, key)
      ensures "event" in msg && msg["event"] == Str("pong") ==>
                routing == if StrKey("__pong__") in futures then Consumed else Push
    {
      if IsPong(msg) {
        var found := SettleSlot(PONG_KEY, msg);
        return if found then Consumed else Push;
      }
      if key.Unhashable? {
        return Raised;
      }
      routing := ResolveKey(msg, key);
    }

    method ResolveKey(msg: Frame, key: Correlation) returns (routing: Routing)
      requires Valid() && !IsPong(msg) && !key.Unhashable?
      modifies created
      ensures Valid() && created == old(created)
      ensures routing == RoutingOf(old(View()), msg, key)
      ensures View() == Rpc.Resolve(old(View()), msg, key)
    {
      if key.Keyed? && key.key in futures {
        var found := SettleSlot(key.key, msg);
        return Consumed;
      }
      if IsError(msg) && key.NoKey? {
        return Consumed;
      }
      return Push;
    }

    /** The shared loop of `fail_all` and `cancel_all`: settle each registered future that is not done, then
        clear the map. */
    method Flush(outcome: Outcome)
      requires Valid() && !outcome.Pending?
      modifies this`futures, created
      ensures Valid() && created == old(created)
      ensures View() == Rpc.Flush(old(View()), outcome)
    {
      ghost var before := View();
      SettleRegistered(before, outcome);
      FlushedAll(before, outcome);
      futures := map[];
      assert Ids(futures) == map[];
    }

    method SettleRegistered(ghost before: Table, outcome: Outcome)
      requires Valid() && !outcome.Pending? && before.futures == Snapshot(created)
      modifies created
      ensures Valid() && Flushed(before, futures.Keys, outcome)
    {
      var keys := futures.Keys;
      while keys != {}
        invariant keys <= futures.Keys && Valid()
        invariant Flushed(before, futures.Keys - keys, outcome)
      {
        var k :| k in keys;
        SettleUnder(k, before, futures.Keys - keys, outcome);
        assert futures.Keys - keys + {k} == futures.Keys - (keys - {k});
        keys := keys - {k};
      }
    }

    method SettleUnder(k: Key, ghost before: Table, ghost visited: set<Key>, outcome: Outcome)
      requires Valid() && !outcome.Pending? && k in futures && k !in visited && Flushed(before, visited, outcome)
      modifies futures[k]
      ensures Valid() && Flushed(before, visited + {k}, outcome)
    {
      var fut := futures[k];
      if !fut.Done() {
        fut.Settle(outcome);
      }
    }

    /** The futures registered under the keys visited so far have been settled, the others not. */
    ghost predicate Flushed(t: Table, visited: set<Key>, outcome: Outcome)
      reads this, created
    {
      && |t.futures| == |created|
      && forall i :: 0 <= i < |created| ==>
           && created[i].key == t.futures[i].key
           && created[i].outcome
              == if RegisteredUnder(created[i], visited) then SettleFut(t.futures[i], outcome).outcome
                 else t.futures[i].outcome
    }

    ghost predicate RegisteredUnder(f: Future, visited: set<Key>)
      reads this
    {
      f.key in visited && f.key in futures && futures[f.key] == f
    }

    lemma FlushedAll(t: Table, outcome: Outcome)
      requires Valid() && Flushed(t, futures.Keys, outcome)
      requires t.pending == Ids(futures)
      ensures Snapshot(created) == Rpc.Flush(t, outcome).futures
    {
      forall i | 0 <= i < |created|
        ensures Registered(t, i) <==> RegisteredUnder(created[i], futures.Keys)
      {
        if RegisteredUnder(created[i], futures.Keys) {
          assert t.pending[created[i].key] == i;
        }
      }
    }

    method FailAll(error: Failure)
      requires Valid()
      modifies this`futures, created
      ensures Valid() && created == old(created)
      ensures View() == Rpc.Flush(old(View()), Failed(error))
    {
      Flush(Failed(error));
    }

    method CancelAll()
      requires Valid()
      modifies this`futures, created
      ensures Valid() && created == old(created)
      ensures View() == Rpc.Flush(old(View()), Cancelled)
    {
      Flush(Cancelled);
    }
  }
}
