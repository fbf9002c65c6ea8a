// The HTTP layer of apps/flyd-sim/internal/api/rest.go: the fault overlay the
// handler keeps (a partition flag and a latency per region), the chaos
// endpoints that change it, and the guard order of /create and /get in
// front of the engine. A reply is reduced to its status code and the fields
// of its JSON body; the sleep before a slow reply is the returned delay.
module Api {
  import opened Models
  import Lifecycle
  import Engine
  import Faults

  /** A reply: writeError's code and message, or the fields of a 200 body. */
  datatype Reply =
    | Failure(code: nat, msg: string)                  // writeError
    | Created(id: string, status: Status)              // /create
    | Found(id: string, status: Status, delayMs: nat)  // /get, sent after delayMs
    | RegionSet(outcome: string, region: string)       // /chaos/partition, /chaos/heal: its "status"
    | LatencySet(region: string, latencyMs: int)       // /chaos/latency

  /** The body /create decodes. */
  datatype CreateBody = CreateBody(name: string, region: string)

  class Handler {
    const srv: Engine.Server
    const publisher: Engine.Publisher?
    var partitioned: map<string, bool>
    var latencyMs: map<string, int>

    /** The fault overlay the handler holds. */
    function Overlay(): Faults.Overlay
      reads this
    {
      Faults.Overlay(partitioned, latencyMs)
    }

    ghost predicate Valid()
      reads this, srv, srv.store, srv.opMu, srv.boots
    {
      srv.Valid() && Faults.NonNegative(Overlay())
    }

    /** What the handler's own publisher delivered so far. */
    ghost function Published(): seq<Event>
      reads publisher
    {
      if publisher == null then [] else publisher.published
    }

    ghost predicate Delivers()
      reads publisher
    {
      publisher != null && publisher.connected
    }

    /** NewHTTPHandlerWithPublisher: no region partitioned or slowed. */
    constructor (srv: Engine.Server, publisher: Engine.Publisher?)
      requires srv.Valid()
      ensures Valid() && this.srv == srv && this.publisher == publisher
      ensures Overlay() == Faults.Clear
    {
      this.srv := srv;
      this.publisher := publisher;
      partitioned := map[];
      latencyMs := map[];
    }

    /** isPartitioned: a region never partitioned, or healed, reads as false. */
    method IsPartitioned(region: string) returns (b: bool)
      ensures b == Faults.Partitioned(Overlay(), region)
      ensures region !in partitioned ==> !b
    {
      b := region in partitioned && partitioned[region];
    }

    /** getLatencyMs: a region never slowed, or healed, reads as 0. */
    method GetLatencyMs(region: string) returns (ms: int)
      ensures ms == Faults.Latency(Overlay(), region)
      ensures region !in latencyMs ==> ms == 0
    {
      ms := if region in latencyMs then latencyMs[region] else 0;
    }

    // ----- the chaos endpoints -----

    /** handlePartition: 400 for an empty region, else the region's flag is raised. */
    method HandlePartition(region: string) returns (rep: Reply)
      requires Valid()
      modifies this
      ensures Valid()
      ensures Overlay() == Faults.Exec(old(Overlay()), Faults.Partition(region))
      ensures rep == if region == "" then Failure(400, "region required") else RegionSet("partitioned", region)
    {
      if region == "" {
        return Failure(400, "region required");
      }
      partitioned := partitioned[region := true];
      return RegionSet("partitioned", region);
    }

    /** handleHeal: 400 for an empty region, else both of the region's entries are deleted. */
    method HandleHeal(region: string) returns (rep: Reply)
      requires Valid()
      modifies this
      ensures Valid()
      ensures Overlay() == Faults.Exec(old(Overlay()), Faults.Heal(region))
      ensures rep == if region == "" then Failure(400, "region required") else RegionSet("healed", region)
    {
      if region == "" {
        return Failure(400, "region required");
      }
      partitioned := partitioned - {region};
      latencyMs := latencyMs - {region};
      return RegionSet("healed", region);
    }

    /** handleLatency: 400 for an empty region or a negative latency, else the latency is set. */
    method HandleLatency(region: string, ms: int) returns (rep: Reply)
      requires Valid()
      modifies this
      ensures Valid()
      ensures Overlay() == Faults.Exec(old(Overlay()), Faults.SetLatency(region, ms))
      ensures region == "" ==> rep == Failure(400, "region required")
      ensures region != "" && ms < 0 ==> rep == Failure(400, "latency_ms must be non-negative")
      ensures region != "" && ms >= 0 ==> rep == LatencySet(region, ms)
    {
      if region == "" {
        return Failure(400, "region required");
      }
      if ms < 0 {
        return Failure(400, "latency_ms must be non-negative");
      }
      latencyMs := latencyMs[region := ms];
      return LatencySet(region, ms);
    }

    // ----- the machine endpoints -----

    /** Whether a /create request passes the handler's own guards and reaches the engine. */
    predicate ReachesEngine(body: Option<CreateBody>)
      reads this
    {
      && body.Some? && body.value.name != "" && body.value.region != ""
      && !Faults.Partitioned(Overlay(), body.value.region)
    }

    /**
     * handleCreate: 400 for a body that does not decode, then 400 for an
     * empty name or region, then 503 for a partitioned region, in each case
     * without calling the engine; an engine error is a 500; otherwise the
     * handler publishes "machine.created" itself (the engine already did),
     * ignores whether that reached NATS, and replies 200 with the new id
     * and status pending.
     */
    method HandleCreate(body: Option<CreateBody>, freshId: string, now: nat, saveOk: bool)
      returns (rep: Reply)
      requires Valid()
      requires freshId != "" && freshId !in srv.store.records
      modifies srv.store, srv.boots, srv.publisher, publisher
      ensures Valid()
      ensures srv.Delivers() == old(srv.Delivers()) && Delivers() == old(Delivers())
      ensures body.None? ==> rep == Failure(400, "invalid JSON payload")
      ensures body.Some? && (body.value.name == "" || body.value.region == "") ==>
        rep == Failure(400, "name and region required")
      ensures body.Some? && body.value.name != "" && body.value.region != ""
              && Faults.Partitioned(Overlay(), body.value.region) ==>
        rep == Failure(503, "region partitioned")
      ensures ReachesEngine(body) && !saveOk ==> rep == Failure(500, "failed to create machine")
      ensures !(ReachesEngine(body) && saveOk) ==>
        && srv.store.records == old(srv.store.records)
        && srv.boots.pending == old(srv.boots.pending)
        && srv.Events() == old(srv.Events()) && Published() == old(Published())
      ensures ReachesEngine(body) && saveOk ==>
        var b := body.value;
        var ev := MachineCreated(freshId, b.name, b.region);
        && rep == Created(freshId, Pending)
        && srv.store.records == old(srv.store.records)[freshId := Lifecycle.Created(freshId, b.name, b.region, now)]
        && srv.boots.pending == old(srv.boots.pending) + {freshId}
        && srv.Events() == old(srv.Events()) + (if srv.Delivers() then [ev] else [])
                           + (if Delivers() && publisher == srv.publisher then [ev] else [])
        && (publisher != srv.publisher ==> Published() == old(Published()) + (if Delivers() then [ev] else []))
    {
      if body.None? {
        return Failure(400, "invalid JSON payload");
      }
      var b := body.value;
      if b.name == "" || b.region == "" {
        return Failure(400, "name and region required");
      }
      var cut := IsPartitioned(b.region);
      if cut {
        return Failure(503, "region partitioned");
      }
      var res := srv.CreateMachine(b.name, b.region, freshId, now, saveOk);
      if res.Err? {
        return Failure(500, "failed to create machine");
      }
      if publisher != null {
        var _ := publisher.Publish(MachineCreated(res.value.id, b.name, b.region));
      }
      return Created(res.value.id, res.value.status);
    }

    /**
     * handleGet: 400 for an empty id before any lookup; 404 when the
     * lookup fails; the partition check comes only AFTER the lookup, so a
     * 503 for a partitioned region has already read the store and filled
     * the cache; otherwise 200 after the region's positive latency.
     */
    method HandleGet(id: string, readOk: bool) returns (rep: Reply)
      requires Valid()
      modifies srv
      ensures Valid()
      ensures id == "" ==> rep == Failure(400, "id required") && srv.cache == old(srv.cache)
      ensures id != "" && old(srv.Lookup(id, readOk)).Err? ==>
        rep == Failure(404, "machine not found") && srv.cache == old(srv.cache)
      ensures id != "" && old(srv.Lookup(id, readOk)).Ok? ==>
        var m := old(srv.Lookup(id, readOk)).value;
        && srv.CacheView() == old(srv.CacheView())[id := m]
        && rep == (if Faults.Partitioned(Overlay(), m.region) then Failure(503, "region partitioned")
                   else Found(id, m.status, Faults.Delay(Overlay(), m.region)))
    {
      if id == "" {
        return Failure(400, "id required");
      }
      var got := srv.GetMachine(id, readOk);
      if got.Err? {
        return Failure(404, "machine not found");
      }
      var m := got.value;
      var cut := IsPartitioned(m.region);
      if cut {
        return Failure(503, "region partitioned");
      }
      var delay := GetLatencyMs(m.region);
      if delay <= 0 {
        delay := 0;
      }
      return Found(m.id, m.status, delay);
    }
  }
}
