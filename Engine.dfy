// The lifecycle engine of apps/flyd-sim/internal/server/server.go.
//
// Each method is one atomic step of the Go code. The per-id operation lock
// is a registry of ids (created lazily, never shrunk) plus the set of ids
// currently locked; a step that takes the lock of an id requires that
// nobody holds it, which is how the model serialises the operations of one
// machine. The goroutine that CreateMachine starts is an entry of
// the boot queue, run later by BootComplete.
//
// The store keeps VALUES (the JSON copy of what was saved), the cache keeps
// REFERENCES to heap objects. performAction changes the cached object in
// place before it saves, so a failed save still shows in the cache.
module Engine {
  import opened Models
  import Lifecycle

  /** The heap object behind a `*models.Machine`. */
  class MachineRef {
    const id: string
    const name: string
    const region: string
    var status: Status
    var version: int
    const createdAt: nat
    var updatedAt: nat
    const metadata: map<string, string>

    /** Decoding a stored record gives a new object with its fields. */
    constructor (m: Machine)
      ensures Snapshot() == m
    {
      id, name, region := m.id, m.name, m.region;
      status, version := m.status, m.version;
      createdAt, updatedAt, metadata := m.createdAt, m.updatedAt, m.metadata;
    }

    /** The record the object holds now, as the store would encode it. */
    function Snapshot(): Machine
      reads this
    {
      Machine(id, name, region, status, version, createdAt, updatedAt, metadata)
    }

    /** The field writes of a state change: the status, the version plus one, the update time. */
    method Advance(target: Status, now: nat)
      modifies this
      ensures Snapshot() == old(Snapshot()).(status := target, version := old(version) + 1, updatedAt := now)
    {
      status := target;
      version := version + 1;
      updatedAt := now;
    }
  }

  /** storage.Store, consumed as a map from id to the record last saved under it. */
  class Store {
    var records: map<string, Machine>

    ghost predicate Valid()
      reads this
    {
      forall k :: k in records ==> records[k].id == k
    }

    constructor (initial: map<string, Machine>)
      requires forall k :: k in initial ==> initial[k].id == k
      ensures Valid() && records == initial
    {
      records := initial;
    }

    /** What a read of `id` yields, `readOk` being the read's I/O outcome. */
    ghost function Read(id: string, readOk: bool): Result<Machine>
      reads this
    {
      if !readOk then Err(ReadFailed)
      else if id in records then Ok(records[id])
      else Err(NotFound)
    }

    /** GetMachine: a new decoded object, NotFound, or a read failure. */
    method GetMachine(id: string, readOk: bool) returns (r: Result<MachineRef>)
      ensures r.Ok? <==> Read(id, readOk).Ok?
      ensures r.Err? ==> r.error == Read(id, readOk).error
      ensures r.Ok? ==> fresh(r.value) && r.value.Snapshot() == Read(id, readOk).value
    {
      if !readOk {
        return Err(ReadFailed);
      }
      if id !in records {
        return Err(NotFound);
      }
      var m := new MachineRef(records[id]);
      return Ok(m);
    }

    /** SaveMachine: a copy of the object's fields under its id, or nothing on failure. */
    method SaveMachine(m: MachineRef, saveOk: bool) returns (ok: bool)
      requires Valid()
      modifies this
      ensures Valid() && ok == saveOk
      ensures records == if saveOk then old(records)[m.id := m.Snapshot()] else old(records)
    {
      ok := saveOk;
      if ok {
        records := records[m.id := m.Snapshot()];
      }
    }
  }

  /** Server.opMu: one mutex per id, registered on first use and never removed. */
  class OpLocks {
    var registered: set<string>
    var held: set<string>

    ghost predicate Valid()
      reads this
    {
      held <= registered
    }

    constructor ()
      ensures Valid() && registered == {} && held == {}
    {
      registered, held := {}, {};
    }

    /** acquireOpLock: LoadOrStore the id's mutex, then lock it. */
    method Acquire(id: string)
      requires Valid() && id !in held
      modifies this
      ensures Valid()
      ensures registered == old(registered) + {id}
      ensures held == old(held) + {id}
    {
      registered := registered + {id};
      held := held + {id};
    }

    /** releaseOpLock: unlock the id's mutex; an id never registered is ignored. */
    method Release(id: string)
      requires Valid()
      requires id in registered ==> id in held   // Go aborts on unlocking an unlocked mutex
      modifies this
      ensures Valid() && registered == old(registered)
      ensures held == if id in old(registered) then old(held) - {id} else old(held)
    {
      if id !in registered {
        return;
      }
      held := held - {id};
    }
  }

  /**
   * natsclient.Publisher: Publish fails while the NATS connection is down
   * (never made, or closed). `published` is what reached NATS.
   */
  class Publisher {
    var connected: bool
    ghost var published: seq<Event>

    constructor (connected: bool)
      ensures this.connected == connected && published == []
    {
      this.connected := connected;
      published := [];
    }

    method Publish(ev: Event) returns (ok: bool)
      modifies this
      ensures connected == old(connected) && ok == connected
      ensures published == old(published) + (if connected then [ev] else [])
    {
      ok := connected;
      if connected {
        published := published + [ev];
      }
    }
  }

  /**
   * The transitionToRunning goroutines CreateMachine has started and that
   * have not run yet, by machine id.
   */
  class BootQueue {
    var pending: set<string>

    constructor ()
      ensures pending == {}
    {
      pending := {};
    }

    /** `go s.transitionToRunning(id)`. */
    method Spawn(id: string)
      modifies this
      ensures pending == old(pending) + {id}
    {
      pending := pending + {id};
    }

    /** The scheduler picks a started goroutine to run. */
    method Take(id: string)
      requires id in pending
      modifies this
      ensures pending == old(pending) - {id}
    {
      pending := pending - {id};
    }
  }

  datatype CreateResponse = CreateResponse(id: string, status: Status)
  datatype GetResponse = GetResponse(id: string, status: Status, region: string)

  class Server {
    const store: Store
    const opMu: OpLocks
    const boots: BootQueue
    const publisher: Publisher?                // nil: events are dropped
    var cache: map<string, MachineRef>         // Server.cache, guarded by cacheMu

    ghost predicate Valid()
      reads this, store, opMu, boots
    {
      && store.Valid()
      && opMu.Valid()
      && (forall k :: k in cache ==> cache[k].id == k)
      && cache.Keys <= store.records.Keys
      && boots.pending <= store.records.Keys
    }

    /** What the cache shows: the current contents of the cached objects. */
    ghost function CacheView(): map<string, Machine>
      reads this, cache.Values
    {
      map k | k in cache :: cache[k].Snapshot()
    }

    /** What the read-through cache yields for `id`. */
    ghost function Lookup(id: string, readOk: bool): Result<Machine>
      reads this, store, cache.Values
    {
      if id in cache then Ok(cache[id].Snapshot()) else store.Read(id, readOk)
    }

    /** Every event of this server that reached NATS so far. */
    ghost function Events(): seq<Event>
      reads publisher
    {
      if publisher == null then [] else publisher.published
    }

    /** Whether an event published now reaches NATS. */
    ghost predicate Delivers()
      reads publisher
    {
      publisher != null && publisher.connected
    }

    /** The cache gained no object that existed before the step, other than those it held. */
    twostate predicate CacheGainsOnlyNew()
      reads this
    {
      forall o :: o in cache.Values ==> o in old(cache.Values) || fresh(o)
    }

    /** New, over a store that may already hold records. */
    constructor (store: Store, publisher: Publisher?)
      requires store.Valid()
      ensures Valid() && this.store == store && this.publisher == publisher
      ensures cache == map[]
      ensures fresh(opMu) && opMu.registered == {} && opMu.held == {}
      ensures fresh(boots) && boots.pending == {}
    {
      this.store := store;
      this.publisher := publisher;
      opMu := new OpLocks();
      boots := new BootQueue();
      cache := map[];
    }

    /** publishEvent: dropped without a publisher; the publisher's error is ignored. */
    method PublishEvent(ev: Event)
      modifies publisher
      ensures Delivers() == old(Delivers())
      ensures Events() == old(Events()) + (if Delivers() then [ev] else [])
    {
      if publisher == null {
        return;
      }
      var _ := publisher.Publish(ev);
    }

    /**
     * Writing the fields of the object cached under its id changes what the
     * cache shows under that id and nowhere else: every cached object sits
     * under its own id, so no other key aliases it.
     */
    twostate lemma ObjectWriteShowsInCache(m: MachineRef)
      requires old(Valid()) && unchanged(this)
      requires m.id in old(cache) && old(cache[m.id]) == m
      requires forall o :: o in old(cache.Values) && o != m ==> unchanged(o)
      ensures CacheView() == old(CacheView())[m.id := m.Snapshot()]
    {
      forall k | k in cache && k != m.id
        ensures cache[k] != m && unchanged(cache[k])
      {
        assert cache[k].id == k;
        assert cache[k] in old(cache.Values);
      }
    }

    /** A step that writes neither the cache nor a cached object leaves the view alone. */
    twostate lemma ViewFramed()
      requires unchanged(this)
      requires forall o :: o in old(cache.Values) ==> unchanged(o)
      ensures CacheView() == old(CacheView())
    {
    }

    // ----- the read-through cache -----

    /** `s.cache[k] = m` under the cache mutex, for an object whose id is `k`. */
    method CacheStore(m: MachineRef)
      requires Valid() && m.id in store.records
      modifies this
      ensures Valid()
      ensures cache == old(cache)[m.id := m]
      ensures CacheView() == old(CacheView())[m.id := m.Snapshot()]
    {
      cache := cache[m.id := m];
    }

    /**
     * getMachineCached: a hit returns the cached object itself and reads no
     * store; a miss loads from the store and caches the new object; a store
     * error is returned and leaves the cache alone.
     */
    method GetMachineCached(id: string, readOk: bool) returns (r: Result<MachineRef>)
      requires Valid()
      modifies this
      ensures Valid() && CacheGainsOnlyNew()
      ensures r.Ok? <==> old(Lookup(id, readOk)).Ok?
      ensures r.Err? ==> r.error == old(Lookup(id, readOk)).error && cache == old(cache)
      ensures r.Ok? ==> r.value.Snapshot() == old(Lookup(id, readOk)).value
      ensures r.Ok? ==> cache == old(cache)[id := r.value]
      ensures old(id in cache) ==> r == Ok(old(cache[id]))
      ensures old(id !in cache) && r.Ok? ==> fresh(r.value)
      ensures CacheView() == if r.Ok? then old(CacheView())[id := r.value.Snapshot()] else old(CacheView())
    {
      if id in cache {
        return Ok(cache[id]);
      }
      var loaded := store.GetMachine(id, readOk);
      if loaded.Err? {
        return Err(loaded.error);
      }
      var m := loaded.value;
      CacheStore(m);
      return Ok(m);
    }

    /**
     * SaveMachine followed, only on success, by caching the object: the
     * store and the cache receive the object's record together or not at all.
     */
    method SaveThenCache(m: MachineRef, saveOk: bool) returns (saved: bool)
      requires Valid()
      modifies this, store
      ensures Valid() && saved == saveOk
      ensures store.records == if saveOk then old(store.records)[m.id := m.Snapshot()] else old(store.records)
      ensures cache == if saveOk then old(cache)[m.id := m] else old(cache)
      ensures CacheView() == if saveOk then old(CacheView())[m.id := m.Snapshot()] else old(CacheView())
    {
      saved := store.SaveMachine(m, saveOk);
      assert cache == old(cache) && CacheView() == old(CacheView());
      if saved {
        CacheStore(m);
      }
    }

    // ----- the gRPC operations -----

    /**
     * CreateMachine: rejects an empty name, then an empty region, writing
     * nothing; otherwise saves a Pending record at version 1 with empty
     * metadata under the fresh id and, only if the save succeeded,
     * publishes and starts boot completion. The cache is not written.
     */
    method CreateMachine(name: string, region: string, freshId: string, now: nat, saveOk: bool)
      returns (r: Result<CreateResponse>)
      requires Valid()
      requires freshId != "" && freshId !in store.records   // uuid.NewString()
      modifies store, boots, publisher
      ensures Valid()
      ensures Delivers() == old(Delivers())
      ensures name == "" ==> r == Err(NameRequired)
      ensures name != "" && region == "" ==> r == Err(RegionRequired)
      ensures name != "" && region != "" && !saveOk ==> r == Err(SaveFailed)
      ensures r.Err? ==>
        store.records == old(store.records) && boots.pending == old(boots.pending) && Events() == old(Events())
      ensures name != "" && region != "" && saveOk ==>
        && r == Ok(CreateResponse(freshId, Pending))
        && store.records == old(store.records)[freshId := Lifecycle.Created(freshId, name, region, now)]
        && boots.pending == old(boots.pending) + {freshId}
        && Events() == old(Events())
           + (if Delivers() then [MachineCreated(freshId, name, region)] else [])
    {
      if name == "" {
        return Err(NameRequired);
      }
      if region == "" {
        return Err(RegionRequired);
      }
      var m := new MachineRef(Lifecycle.Created(freshId, name, region, now));
      var saved := store.SaveMachine(m, saveOk);
      if !saved {
        return Err(SaveFailed);
      }
      PublishEvent(MachineCreated(m.id, m.name, m.region));
      boots.Spawn(m.id);
      return Ok(CreateResponse(m.id, m.status));
    }

    /** GetMachine: the id, status and region the read-through cache yields. */
    method GetMachine(id: string, readOk: bool) returns (r: Result<GetResponse>)
      requires Valid()
      modifies this
      ensures Valid() && CacheGainsOnlyNew()
      ensures r.Ok? <==> old(Lookup(id, readOk)).Ok?
      ensures r.Err? ==> r.error == old(Lookup(id, readOk)).error && cache == old(cache)
      ensures r.Ok? ==> var m := old(Lookup(id, readOk)).value;
        r.value == GetResponse(id, m.status, m.region) && CacheView() == old(CacheView())[id := m]
    {
      var got := GetMachineCached(id, readOk);
      if got.Err? {
        return Err(got.error);
      }
      var m := got.value;
      return Ok(GetResponse(m.id, m.status, m.region));
    }

    /**
     * The effect of performAction(id, action): a failed lookup is returned
     * and changes nothing; otherwise the looked-up record goes through
     * ActionEffect, the cache shows its `cached` record under the id (also
     * after a failed save), the store receives its `saved` record, and only
     * a saved change is published.
     */
    twostate predicate ActionDone(id: string, action: string, readOk: bool, saveOk: bool, now: nat,
                                  new r: Result<string>)
      reads this, store, publisher, cache.Values
    {
      var l := old(Lookup(id, readOk));
      if l.Err? then
        && r == Err(l.error)
        && store.records == old(store.records)
        && CacheView() == old(CacheView())
        && Events() == old(Events())
      else
        var e := Lifecycle.ActionEffect(l.value, action, saveOk, now);
        && r == e.reply
        && CacheView() == old(CacheView())[id := e.cached]
        && store.records == (if e.saved.Some? then old(store.records)[id := e.cached] else old(store.records))
        && Events() == old(Events())
           + (if e.saved.Some? && Delivers() then [MachineActed(action, id, e.cached.status)] else [])
    }

    /**
     * The `switch action` of performAction, applied to the object
     * getMachineCached returned, which is the one cached under its id.
     */
    method ActOn(m: MachineRef, action: string, saveOk: bool, now: nat) returns (r: Result<string>)
      requires Valid() && m.id in cache && cache[m.id] == m
      modifies this, store, publisher, m
      ensures Valid() && cache == old(cache)
      ensures Delivers() == old(Delivers())
      ensures var e := Lifecycle.ActionEffect(old(m.Snapshot()), action, saveOk, now);
        && r == e.reply
        && m.Snapshot() == e.cached
        && CacheView() == old(CacheView())[m.id := e.cached]
        && store.records == (if e.saved.Some? then old(store.records)[m.id := e.cached] else old(store.records))
        && Events() == old(Events())
           + (if e.saved.Some? && Delivers() then [MachineActed(action, m.id, e.cached.status)] else [])
    {
      if action == "start" {
        if m.status == Running {
          return Ok("already running");
        }
        r := CommitChange(m, Running, action, saveOk, now);
      } else if action == "stop" {
        if m.status == Stopped {
          return Ok("already stopped");
        }
        r := CommitChange(m, Stopped, action, saveOk, now);
      } else {
        return Err(UnknownAction);
      }
    }

    /**
     * The tail of performAction once the status is chosen: write the status,
     * bump the version, refresh the update time, save, and only after a
     * successful save write the cache and publish. The object is the one
     * cached under its id, so the field writes show in the cache before the
     * save is attempted.
     */
    method CommitChange(m: MachineRef, target: Status, action: string, saveOk: bool, now: nat)
      returns (r: Result<string>)
      requires Valid() && m.id in cache && cache[m.id] == m
      modifies this, store, publisher, m
      ensures Valid() && cache == old(cache)
      ensures Delivers() == old(Delivers())
      ensures m.Snapshot() == old(m.Snapshot()).(status := target, version := old(m.version) + 1, updatedAt := now)
      ensures CacheView() == old(CacheView())[m.id := m.Snapshot()]
      ensures store.records == if saveOk then old(store.records)[m.id := m.Snapshot()] else old(store.records)
      ensures r == if saveOk then Ok("ok") else Err(SaveFailed)
      ensures Events() == old(Events())
        + (if saveOk && Delivers() then [MachineActed(action, m.id, target)] else [])
    {
      m.Advance(target, now);
      ObjectWriteShowsInCache(m);
      ghost var view := CacheView();
      var saved := SaveThenCache(m, saveOk);
      OverwriteEntry(old(CacheView()), m.id, m.Snapshot(), m.Snapshot());
      assert CacheView() == view;
      if !saved {
        return Err(SaveFailed);
      }
      label Saved:
      PublishEvent(MachineActed(action, m.id, m.status));
      ViewFramed@Saved();
      return Ok("ok");
    }

    /** The body of performAction between taking and releasing the id's lock. */
    method PerformLocked(id: string, action: string, readOk: bool, saveOk: bool, now: nat)
      returns (r: Result<string>)
      requires Valid()
      modifies this, store, publisher, cache.Values
      ensures Valid() && CacheGainsOnlyNew()
      ensures Delivers() == old(Delivers())
      ensures old(id in cache) ==> cache == old(cache)
      ensures ActionDone(id, action, readOk, saveOk, now, r)
    {
      var got := GetMachineCached(id, readOk);
      if got.Err? {
        return Err(got.error);
      }
      var m := got.value;
      ghost var m0, view := m.Snapshot(), CacheView();
      assert view == old(CacheView())[id := m0];
      r := ActOn(m, action, saveOk, now);
      ghost var e := Lifecycle.ActionEffect(m0, action, saveOk, now);
      OverwriteEntry(old(CacheView()), id, m0, e.cached);
      assert CacheView() == old(CacheView())[id := e.cached];
    }

    /** performAction: the locked body, bracketed by acquireOpLock and releaseOpLock. */
    method PerformAction(id: string, action: string, readOk: bool, saveOk: bool, now: nat)
      returns (r: Result<string>)
      requires Valid() && id !in opMu.held
      modifies this, store, opMu, publisher, cache.Values
      ensures Valid() && CacheGainsOnlyNew()
      ensures Delivers() == old(Delivers())
      ensures opMu.registered == old(opMu.registered) + {id} && opMu.held == old(opMu.held)
      ensures old(id in cache) ==> cache == old(cache)
      ensures ActionDone(id, action, readOk, saveOk, now, r)
    {
      opMu.Acquire(id);
      ViewFramed();
      r := PerformLocked(id, action, readOk, saveOk, now);
      label Done:
      opMu.Release(id);
      ViewFramed@Done();
    }

    /** StartMachine: an empty id is refused before any lock, cache or store access. */
    method StartMachine(id: string, readOk: bool, saveOk: bool, now: nat) returns (r: Result<string>)
      requires Valid() && id !in opMu.held
      modifies this, store, opMu, publisher, cache.Values
      ensures Valid() && opMu.held == old(opMu.held) && CacheGainsOnlyNew()
      ensures Delivers() == old(Delivers())
      ensures id == "" ==> r == Err(IdRequired)
      ensures id == "" ==> unchanged(this, store, opMu) && unchanged(cache.Values) && Events() == old(Events())
      ensures id != "" ==> opMu.registered == old(opMu.registered) + {id}
      ensures id != "" ==> ActionDone(id, "start", readOk, saveOk, now, r)
    {
      if id == "" {
        return Err(IdRequired);
      }
      r := PerformAction(id, "start", readOk, saveOk, now);
    }

    /** StopMachine: an empty id is refused before any lock, cache or store access. */
    method StopMachine(id: string, readOk: bool, saveOk: bool, now: nat) returns (r: Result<string>)
      requires Valid() && id !in opMu.held
      modifies this, store, opMu, publisher, cache.Values
      ensures Valid() && opMu.held == old(opMu.held) && CacheGainsOnlyNew()
      ensures Delivers() == old(Delivers())
      ensures id == "" ==> r == Err(IdRequired)
      ensures id == "" ==> unchanged(this, store, opMu) && unchanged(cache.Values) && Events() == old(Events())
      ensures id != "" ==> opMu.registered == old(opMu.registered) + {id}
      ensures id != "" ==> ActionDone(id, "stop", readOk, saveOk, now, r)
    {
      if id == "" {
        return Err(IdRequired);
      }
      r := PerformAction(id, "stop", readOk, saveOk, now);
    }

    /**
     * The body of transitionToRunning between taking and releasing the
     * id's lock: it re-reads the STORE (not the cache), gives up on a read
     * error or a Terminated record, and otherwise saves the record Running
     * at the next version whatever its status was; the new object replaces
     * the cache entry only if the save succeeded, and "machine.running" is
     * published either way.
     */
    method BootLocked(id: string, readOk: bool, saveOk: bool, now: nat)
      requires Valid()
      modifies this, store, publisher
      ensures Valid() && CacheGainsOnlyNew()
      ensures Delivers() == old(Delivers())
      ensures old(store.Read(id, readOk)).Err? || old(store.records[id]).status == Terminated ==>
        store.records == old(store.records) && cache == old(cache) && Events() == old(Events())
      ensures old(store.Read(id, readOk)).Ok? && old(store.records[id]).status != Terminated ==>
        var m1 := Lifecycle.Boot(old(store.records[id]), now).value;
        && store.records == (if saveOk then old(store.records)[id := m1] else old(store.records))
        && CacheView() == (if saveOk then old(CacheView())[id := m1] else old(CacheView()))
        && Events() == old(Events()) + (if Delivers() then [MachineRunning(id)] else [])
    {
      var loaded := store.GetMachine(id, readOk);
      if loaded.Err? || loaded.value.status == Terminated {
        return;
      }
      var m := loaded.value;
      m.Advance(Running, now);
      ViewFramed();
      var saved := SaveThenCache(m, saveOk);
      label Saved:
      PublishEvent(MachineRunning(m.id));
      ViewFramed@Saved();
    }

    /** One started transitionToRunning goroutine runs to completion under the id's lock. */
    method BootComplete(id: string, readOk: bool, saveOk: bool, now: nat)
      requires Valid() && id in boots.pending && id !in opMu.held
      modifies this, store, opMu, boots, publisher
      ensures Valid() && boots.pending == old(boots.pending) - {id} && CacheGainsOnlyNew()
      ensures Delivers() == old(Delivers())
      ensures opMu.registered == old(opMu.registered) + {id} && opMu.held == old(opMu.held)
      ensures old(store.Read(id, readOk)).Err? || old(store.records[id]).status == Terminated ==>
        store.records == old(store.records) && cache == old(cache) && Events() == old(Events())
      ensures old(store.Read(id, readOk)).Ok? && old(store.records[id]).status != Terminated ==>
        var m1 := Lifecycle.Boot(old(store.records[id]), now).value;
        && store.records == (if saveOk then old(store.records)[id := m1] else old(store.records))
        && CacheView() == (if saveOk then old(CacheView())[id := m1] else old(CacheView()))
        && Events() == old(Events()) + (if Delivers() then [MachineRunning(id)] else [])
    {
      boots.Take(id);
      opMu.Acquire(id);
      ViewFramed();
      BootLocked(id, readOk, saveOk, now);
      label Done:
      opMu.Release(id);
      ViewFramed@Done();
    }
  }

  /** A second write to the same key of a map hides the first. */
  lemma OverwriteEntry(v: map<string, Machine>, id: string, a: Machine, b: Machine)
    ensures v[id := a][id := b] == v[id := b]
  {
  }
}
