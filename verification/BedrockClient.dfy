/** The client cache as it is written, seen from one call. Other calls may change the maps
    between the two locks of a lookup. Every path gives back the lock it took, the maps are
    touched only under a lock, and each call is the atomic operation of ClientCache. */
module BedrockClient {
  import opened ClientCache

  class RWMutex {
    var readers: nat
    var writer: bool

    constructor ()
      ensures Free()
    {
      readers, writer := 0, false;
    }

    predicate Free()
      reads this
    {
      readers == 0 && !writer
    }

    method RLock()
      requires !writer
      modifies this
      ensures readers == old(readers) + 1 && !writer
    {
      readers := readers + 1;
    }

    method RUnlock()
      requires readers > 0
      modifies this
      ensures readers == old(readers) - 1 && writer == old(writer)
    {
      readers := readers - 1;
    }

    method Lock()
      requires Free()
      modifies this
      ensures writer && readers == 0
    {
      writer := true;
    }

    method Unlock()
      requires writer
      modifies this
      ensures !writer && readers == old(readers)
    {
      writer := false;
    }
  }

  class BedrockClient {
    const mu: RWMutex
    var runtime: map<Key, Client>
    var control: map<Key, Client>
    var built: nat

    constructor ()
      ensures fresh(mu) && Valid() && Contents() == EMPTY
    {
      mu := new RWMutex();
      runtime, control, built := map[], map[], 0;
    }

    /** Nobody holds the lock, and every cached client was built here. */
    ghost predicate Valid()
      reads this, mu
    {
      mu.Free() && Below(Contents(), built)
    }

    function Contents(): Tables
      reads this
    {
      Tables(runtime, control)
    }

    /** Takes the write lock after other calls have left the maps as `meanwhile` and brought
        the number of clients built to `others`. */
    method LockAfter(meanwhile: Tables, others: nat)
      requires mu.Free()
      modifies this, mu
      ensures mu.writer && mu.readers == 0 && Contents() == meanwhile && built == others
    {
      runtime, control, built := meanwhile.runtime, meanwhile.control, others;
      mu.Lock();
    }

    method LoadRuntime(key: Key) returns (found: bool, cl: Client)
      requires mu.readers > 0 || mu.writer
      ensures found <==> key in runtime
      ensures found ==> cl == runtime[key]
    {
      found := key in runtime;
      cl := if found then runtime[key] else Client(0, Runtime, key);
    }

    method LoadControl(key: Key) returns (found: bool, cl: Client)
      requires mu.readers > 0 || mu.writer
      ensures found <==> key in control
      ensures found ==> cl == control[key]
    {
      found := key in control;
      cl := if found then control[key] else Client(0, Control, key);
    }

    /** Assumes the role of the key; `ok` says whether that works. Every client is a new one. */
    method NewFromConfig(plane: Plane, key: Key, ok: bool) returns (cl: Client, err: bool)
      modifies this`built
      ensures err == !ok && cl == Client(old(built), plane, key) && built == old(built) + 1
    {
      cl, err := Client(built, plane, key), !ok;
      built := built + 1;
    }

    method RuntimeClient(key: Key, ok: bool, meanwhile: Tables, others: nat) returns (r: Result)
      requires Valid() && built <= others && Below(meanwhile, others)
      modifies this, mu
      ensures Valid() && old(built) <= built
      ensures var before := if key in old(runtime) then old(Contents()) else meanwhile;
              var point := Point(0, Lookup(Runtime, key), r);
              && Legal(before, point) && Contents() == Atomic(before, point)
              && (Creates(before, point) ==> r.client.id == others && built == others + 1)
    {
      mu.RLock();
      var found, cl := LoadRuntime(key);
      if found {
        mu.RUnlock();
        return Got(cl);
      }
      mu.RUnlock();

      LockAfter(meanwhile, others);
      found, cl := LoadRuntime(key);
      if found {
        mu.Unlock();
        return Got(cl);
      }
      var err;
      cl, err := NewFromConfig(Runtime, key, ok);
      if err {
        mu.Unlock();
        return Failed;
      }
      BelowAtomic(meanwhile, Point(0, Lookup(Runtime, key), Got(cl)), others, built);
      runtime := runtime[key := cl];
      mu.Unlock();
      return Got(cl);
    }

    method ControlClient(key: Key, ok: bool, meanwhile: Tables, others: nat) returns (r: Result)
      requires Valid() && built <= others && Below(meanwhile, others)
      modifies this, mu
      ensures Valid() && old(built) <= built
      ensures var before := if key in old(control) then old(Contents()) else meanwhile;
              var point := Point(0, Lookup(Control, key), r);
              && Legal(before, point) && Contents() == Atomic(before, point)
              && (Creates(before, point) ==> r.client.id == others && built == others + 1)
    {
      mu.RLock();
      var found, cl := LoadControl(key);
      if found {
        mu.RUnlock();
        return Got(cl);
      }
      mu.RUnlock();

      LockAfter(meanwhile, others);
      found, cl := LoadControl(key);
      if found {
        mu.Unlock();
        return Got(cl);
      }
      var err;
      cl, err := NewFromConfig(Control, key, ok);
      if err {
        mu.Unlock();
        return Failed;
      }
      BelowAtomic(meanwhile, Point(0, Lookup(Control, key), Got(cl)), others, built);
      control := control[key := cl];
      mu.Unlock();
      return Got(cl);
    }

    method InvalidateCache(key: Key)
      requires Valid()
      modifies this, mu
      ensures Valid() && built == old(built)
      ensures Contents() == Atomic(old(Contents()), Point(0, Invalidate(key), Dropped))
    {
      BelowAtomic(Contents(), Point(0, Invalidate(key), Dropped), built, built);
      mu.Lock();
      runtime := runtime - {key};
      control := control - {key};
      mu.Unlock();
    }
  }
}
