// Whole runs of the engine and the HTTP handler on a fresh, empty store,
// each a serial interleaving the locks allow: the create / boot / stop
// sequence of apps/flyd-sim/tests/fsm_test.go, the two races between an
// explicit action and boot completion, the cache/store divergence after a
// failed save, and partitions and latency seen through /create and /get.
module Scenarios {
  import opened Models
  import Engine
  import Faults
  import Api

  /** A new server over an empty store, with no publisher. */
  method EmptyServer() returns (s: Engine.Server)
    ensures fresh(s) && fresh(s.store) && fresh(s.opMu) && fresh(s.boots)
    ensures s.Valid() && s.publisher == null
    ensures s.store.records == map[] && s.cache == map[] && s.boots.pending == {} && s.opMu.held == {}
  {
    var store := new Engine.Store(map[]);
    s := new Engine.Server(store, null);
  }

  /**
   * The first half of fsm_test.go: "web" is created in "eu" and its boot
   * completion runs; the store and the cache then hold it running at
   * version 2.
   */
  method CreateAndBoot(freshId: string, t0: nat, t1: nat)
    returns (s: Engine.Server, created: Result<Engine.CreateResponse>)
    requires freshId != ""
    ensures fresh(s) && fresh(s.store) && fresh(s.opMu) && fresh(s.boots)
    ensures s.Valid() && s.publisher == null && s.opMu.held == {}
    ensures created == Ok(Engine.CreateResponse(freshId, Pending))
    ensures s.store.records == map[freshId := Machine(freshId, "web", "eu", Running, 2, t0, t1, map[])]
    ensures s.CacheView() == s.store.records
    ensures forall o :: o in s.cache.Values ==> fresh(o)
  {
    s := EmptyServer();
    created := s.CreateMachine("web", "eu", freshId, t0, true);
    s.BootComplete(freshId, true, true, t1);
  }

  /**
   * fsm_test.go: after boot completion the machine reads back running;
   * stopping it succeeds and it reads back stopped.
   */
  method CreateBootStop(freshId: string, t0: nat, t1: nat, t2: nat)
    returns (afterBoot: Status, stopped: Result<string>, afterStop: Status)
    requires freshId != ""
    ensures afterBoot == Running && stopped == Ok("ok") && afterStop == Stopped
  {
    var s, _ := CreateAndBoot(freshId, t0, t1);
    var got := s.GetMachine(freshId, true);
    afterBoot := got.value.status;
    assert afterBoot == Running;
    stopped := s.StopMachine(freshId, true, true, t2);
    assert s.CacheView()[freshId].status == Stopped;
    got := s.GetMachine(freshId, true);
    afterStop := got.value.status;
  }

  /**
   * A Stop that wins the lock before boot completion is undone by it: the
   * store ends with the machine Running at version 3.
   */
  method StopDuringBoot(freshId: string, t0: nat, t1: nat, t2: nat)
    returns (stopped: Result<string>, final: Machine)
    requires freshId != ""
    ensures stopped == Ok("ok")
    ensures final.status == Running && final.version == 3
  {
    var s := EmptyServer();
    var _ := s.CreateMachine("web", "eu", freshId, t0, true);
    stopped := s.StopMachine(freshId, true, true, t1);
    s.BootComplete(freshId, true, true, t2);
    final := s.store.records[freshId];
  }

  /**
   * A Start that wins the lock before boot completion makes boot
   * completion write a second version of an already running machine.
   */
  method StartDuringBoot(freshId: string, t0: nat, t1: nat, t2: nat)
    returns (started: Result<string>, final: Machine)
    requires freshId != ""
    ensures started == Ok("ok")
    ensures final.status == Running && final.version == 3
  {
    var s := EmptyServer();
    var _ := s.CreateMachine("web", "eu", freshId, t0, true);
    started := s.StartMachine(freshId, true, true, t1);
    s.BootComplete(freshId, true, true, t2);
    final := s.store.records[freshId];
  }

  /**
   * A Stop whose save fails is reported as an error, yet later reads
   * through the cache see the machine stopped while the store still holds
   * it running at the previous version.
   */
  method FailedSaveDivergence(freshId: string, t0: nat, t1: nat, t2: nat)
    returns (stopped: Result<string>, seen: Status, stored: Machine)
    requires freshId != ""
    ensures stopped == Err(SaveFailed)
    ensures seen == Stopped
    ensures stored.status == Running && stored.version == 2
  {
    var s, _ := CreateAndBoot(freshId, t0, t1);
    stopped := s.StopMachine(freshId, true, false, t2);
    var got := s.GetMachine(freshId, true);
    seen := got.value.status;
    stored := s.store.records[freshId];
  }

  /**
   * A Stop whose save fails, then a Start: the Start reads the cached
   * object, which already carries version 3, so the store goes from
   * Running at version 2 to Running at version 4 with one write.
   */
  method FailedStopThenStart(freshId: string, t0: nat, t1: nat, t2: nat, t3: nat)
    returns (stopped: Result<string>, started: Result<string>, stored: Machine)
    requires freshId != ""
    ensures stopped == Err(SaveFailed) && started == Ok("ok")
    ensures stored.status == Running && stored.version == 4
  {
    var s, _ := CreateAndBoot(freshId, t0, t1);
    stopped := s.StopMachine(freshId, true, false, t2);
    started := s.StartMachine(freshId, true, true, t3);
    stored := s.store.records[freshId];
  }

  /**
   * /create in a partitioned region is refused with 503 and reaches no
   * engine; after a heal the same request creates the machine.
   */
  method PartitionThenHeal(freshId: string, t0: nat, t1: nat)
    returns (refused: Api.Reply, accepted: Api.Reply, stored: bool)
    requires freshId != ""
    ensures refused == Api.Failure(503, "region partitioned")
    ensures accepted == Api.Created(freshId, Pending)
    ensures stored
  {
    var s := EmptyServer();
    var h := new Api.Handler(s, null);
    var _ := h.HandlePartition("eu");
    refused := h.HandleCreate(Some(Api.CreateBody("web", "eu")), freshId, t0, true);
    var _ := h.HandleHeal("eu");
    accepted := h.HandleCreate(Some(Api.CreateBody("web", "eu")), freshId, t1, true);
    stored := freshId in s.store.records;
  }

  /**
   * A /get for a machine in a partitioned region is refused with 503, yet
   * the lookup before the partition check has already filled the cache.
   */
  method PartitionedGetFillsCache(freshId: string, t0: nat)
    returns (refused: Api.Reply, cached: bool)
    requires freshId != ""
    ensures refused == Api.Failure(503, "region partitioned")
    ensures cached
  {
    var s := EmptyServer();
    var h := new Api.Handler(s, null);
    var _ := h.HandleCreate(Some(Api.CreateBody("web", "eu")), freshId, t0, true);
    assert s.cache == map[];
    var _ := h.HandlePartition("eu");
    refused := h.HandleGet(freshId, true);
    cached := freshId in s.cache;
  }

  /** CreateAndBoot, with a new handler, no region configured, in front of the server. */
  method BootedBehindHandler(freshId: string, t0: nat, t1: nat) returns (s: Engine.Server, h: Api.Handler)
    requires freshId != ""
    ensures fresh(s) && fresh(s.store) && fresh(s.opMu) && fresh(s.boots) && fresh(h)
    ensures h.srv == s && h.Valid() && h.Overlay() == Faults.Clear
    ensures s.Lookup(freshId, true) == Ok(Machine(freshId, "web", "eu", Running, 2, t0, t1, map[]))
    ensures forall o :: o in s.cache.Values ==> fresh(o)
  {
    var created;
    s, created := CreateAndBoot(freshId, t0, t1);
    h := new Api.Handler(s, null);
  }

  /** A region's positive latency becomes the delay of a /get there. */
  method LatencyDelaysGet(freshId: string, t0: nat, t1: nat) returns (slow: Api.Reply)
    requires freshId != ""
    ensures slow == Api.Found(freshId, Running, 250)
  {
    var s, h := BootedBehindHandler(freshId, t0, t1);
    var _ := h.HandleLatency("eu", 250);
    assert h.Overlay() == Faults.Overlay(map[], map["eu" := 250]);
    slow := h.HandleGet(freshId, true);
  }

  /** A heal clears the region's latency: the next /get there is not delayed. */
  method HealedGetIsImmediate(freshId: string, t0: nat, t1: nat) returns (fast: Api.Reply)
    requires freshId != ""
    ensures fast == Api.Found(freshId, Running, 0)
  {
    var s, h := BootedBehindHandler(freshId, t0, t1);
    var _ := h.HandleLatency("eu", 250);
    var _ := h.HandleHeal("eu");
    assert h.Overlay() == Faults.Clear;
    fast := h.HandleGet(freshId, true);
  }
}
