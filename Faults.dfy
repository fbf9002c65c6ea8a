// The fault overlay the chaos endpoints of apps/flyd-sim/internal/api/rest.go
// keep in front of the engine, as values: a per-region partition flag and a
// per-region latency, the three commands that change them, and what a
// sequence of commands does. The HTTP handler (Api.dfy) is proved against
// these functions.
module Faults {
  import opened Models

  /** Handler.partitioned and Handler.latencyMs. */
  datatype Overlay = Overlay(partitioned: map<string, bool>, latencyMs: map<string, int>)

  /** The overlay of a new handler: no region configured. */
  const Clear: Overlay := Overlay(map[], map[])

  /** isPartitioned: the map's zero value, false, for a region never configured. */
  function Partitioned(f: Overlay, region: string): (b: bool)
    ensures region !in f.partitioned ==> !b
    ensures b ==> region in f.partitioned
  {
    region in f.partitioned && f.partitioned[region]
  }

  /** getLatencyMs: the map's zero value, 0, for a region never configured. */
  function Latency(f: Overlay, region: string): (ms: int)
    ensures region !in f.latencyMs ==> ms == 0
    ensures ms != 0 ==> region in f.latencyMs
  {
    if region in f.latencyMs then f.latencyMs[region] else 0
  }

  /** All a request handler can observe of one region. */
  datatype RegionView = RegionView(partitioned: bool, latencyMs: int)

  function View(f: Overlay, region: string): RegionView {
    RegionView(Partitioned(f, region), Latency(f, region))
  }

  /** Every latency the overlay holds is non-negative. */
  ghost predicate NonNegative(f: Overlay) {
    forall r :: r in f.latencyMs ==> f.latencyMs[r] >= 0
  }

  /**
   * The delay handleGet applies before replying: the region's latency when
   * it is positive, no delay otherwise.
   */
  function Delay(f: Overlay, region: string): (d: nat)
    ensures d > 0 <==> Latency(f, region) > 0
    ensures d > 0 ==> d == Latency(f, region)
    ensures NonNegative(f) ==> d == Latency(f, region)
  {
    var ms := Latency(f, region);
    if ms > 0 then ms else 0
  }

  /** The decoded body of a chaos request. */
  datatype Command =
    | Partition(region: string)
    | Heal(region: string)
    | SetLatency(region: string, ms: int)

  /** The guards of the chaos endpoints: the message of their 400 reply, if any. */
  function Rejection(c: Command): (msg: Option<string>)
    ensures msg.None? <==> c.region != "" && (c.SetLatency? ==> c.ms >= 0)
    ensures c.region == "" ==> msg == Some("region required")
    ensures c.region != "" && c.SetLatency? && c.ms < 0 ==> msg == Some("latency_ms must be non-negative")
  {
    if c.region == "" then Some("region required")
    else if c.SetLatency? && c.ms < 0 then Some("latency_ms must be non-negative")
    else None
  }

  /**
   * A chaos command: a rejected one changes nothing; otherwise only the
   * named region changes. Partition raises its flag and keeps its latency,
   * Heal makes it look never configured, SetLatency sets its latency (0
   * included) and keeps its flag.
   */
  function Exec(f: Overlay, c: Command): (g: Overlay)
    ensures Rejection(c).Some? ==> g == f
    ensures Rejection(c).None? ==> forall r :: r != c.region ==> View(g, r) == View(f, r)
    ensures Rejection(c).None? && c.Partition? ==> View(g, c.region) == RegionView(true, Latency(f, c.region))
    ensures Rejection(c).None? && c.Heal? ==> View(g, c.region) == View(Clear, c.region)
    ensures Rejection(c).None? && c.SetLatency? ==> View(g, c.region) == RegionView(Partitioned(f, c.region), c.ms)
    ensures NonNegative(f) ==> NonNegative(g)
  {
    if Rejection(c).Some? then f
    else
      match c
      case Partition(r) => f.(partitioned := f.partitioned[r := true])
      case Heal(r) => Overlay(f.partitioned - {r}, f.latencyMs - {r})
      case SetLatency(r, ms) => f.(latencyMs := f.latencyMs[r := ms])
  }

  /** The chaos commands of a history, applied in order. */
  function ExecAll(f: Overlay, cmds: seq<Command>): Overlay
    decreases |cmds|
  {
    if cmds == [] then f else ExecAll(Exec(f, cmds[0]), cmds[1..])
  }

  /** The commands of a history that name `region`. */
  function About(cmds: seq<Command>, region: string): (about: seq<Command>)
    ensures |about| <= |cmds|
    ensures forall i :: 0 <= i < |about| ==> about[i].region == region
    decreases |cmds|
  {
    if cmds == [] then []
    else if cmds[0].region == region then [cmds[0]] + About(cmds[1..], region)
    else About(cmds[1..], region)
  }

  /** Latencies stay non-negative whatever the history: negative ones are refused. */
  lemma {:induction false} ExecAllKeepsNonNegative(f: Overlay, cmds: seq<Command>)
    requires NonNegative(f)
    ensures NonNegative(ExecAll(f, cmds))
    decreases |cmds|
  {
    if cmds != [] {
      ExecAllKeepsNonNegative(Exec(f, cmds[0]), cmds[1..]);
    }
  }

  /**
   * Regions are independent: what a region looks like after a history
   * depends only on how it looked before and on the commands that name it.
   */
  lemma {:induction false} RegionIsolation(f1: Overlay, f2: Overlay, cmds: seq<Command>, region: string)
    requires View(f1, region) == View(f2, region)
    ensures View(ExecAll(f1, cmds), region) == View(ExecAll(f2, About(cmds, region)), region)
    decreases |cmds|
  {
    if cmds != [] {
      var c := cmds[0];
      if c.region == region {
        assert About(cmds, region) == [c] + About(cmds[1..], region);
        assert ([c] + About(cmds[1..], region))[1..] == About(cmds[1..], region);
        RegionIsolation(Exec(f1, c), Exec(f2, c), cmds[1..], region);
      } else {
        RegionIsolation(Exec(f1, c), f2, cmds[1..], region);
      }
    }
  }

  /** A partition holds until a Heal of that same region. */
  lemma {:induction false} PartitionPersists(f: Overlay, cmds: seq<Command>, region: string)
    requires Partitioned(f, region)
    requires forall i :: 0 <= i < |cmds| ==> cmds[i] != Heal(region)
    ensures Partitioned(ExecAll(f, cmds), region)
    decreases |cmds|
  {
    if cmds != [] {
      assert cmds[0] != Heal(region);
      PartitionPersists(Exec(f, cmds[0]), cmds[1..], region);
    }
  }

  /**
   * After a Heal, a region looks never configured for as long as no
   * command names it, whatever happens to the other regions.
   */
  lemma HealForgets(f: Overlay, region: string, cmds: seq<Command>)
    requires region != ""
    requires forall i :: 0 <= i < |cmds| ==> cmds[i].region != region
    ensures View(ExecAll(f, [Heal(region)] + cmds), region) == View(Clear, region)
  {
    var healed := Exec(f, Heal(region));
    assert ([Heal(region)] + cmds)[1..] == cmds;
    assert ExecAll(f, [Heal(region)] + cmds) == ExecAll(healed, cmds);
    AboutNone(cmds, region);
    RegionIsolation(healed, healed, cmds, region);
  }

  lemma {:induction false} AboutNone(cmds: seq<Command>, region: string)
    requires forall i :: 0 <= i < |cmds| ==> cmds[i].region != region
    ensures About(cmds, region) == []
    decreases |cmds|
  {
    if cmds != [] {
      AboutNone(cmds[1..], region);
    }
  }

  /** Partitioning twice is partitioning once. */
  lemma PartitionIdempotent(f: Overlay, region: string)
    ensures Exec(Exec(f, Partition(region)), Partition(region)) == Exec(f, Partition(region))
  {
    if region != "" {
      var once := Exec(f, Partition(region));
      assert once.partitioned[region := true] == once.partitioned;
    }
  }

  /** Partition followed by Heal leaves the overlay as Heal alone would. */
  lemma HealUndoesPartition(f: Overlay, region: string)
    ensures Exec(Exec(f, Partition(region)), Heal(region)) == Exec(f, Heal(region))
  {
    if region != "" {
      assert f.partitioned[region := true] - {region} == f.partitioned - {region};
    }
  }
}
