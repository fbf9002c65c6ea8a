// The lifecycle state machine of a single machine record, as pure functions
// on values: what `CreateMachine` builds, what `performAction` and
// `transitionToRunning` (apps/flyd-sim/internal/server/server.go) do to the
// record they read, and what a serialised sequence of such steps does.
// The engine's methods (Engine.dfy) are proved against these functions.
module Lifecycle {
  import opened Models

  /** The two explicit actions the gRPC API exposes. */
  datatype Action = Start | Stop

  /** The `switch action` of performAction: "start", "stop", anything else. */
  function ParseAction(s: string): (a: Option<Action>)
    ensures a == Some(Start) <==> s == "start"
    ensures a == Some(Stop) <==> s == "stop"
    ensures a.None? <==> s != "start" && s != "stop"
  {
    if s == "start" then Some(Start)
    else if s == "stop" then Some(Stop)
    else None
  }

  function Target(a: Action): Status {
    match a
    case Start => Running
    case Stop => Stopped
  }

  function AlreadyMessage(a: Action): string {
    match a
    case Start => "already running"
    case Stop => "already stopped"
  }

  /** The record CreateMachine builds for a fresh id at clock reading `now`. */
  function Created(id: string, name: string, region: string, now: nat): (c: Machine)
    ensures c.status == Pending && c.version == 1 && c.metadata == map[]
    ensures c.id == id && c.name == name && c.region == region
    ensures c.createdAt == now && c.updatedAt == now
  {
    Machine(id, name, region, Pending, 1, now, now, map[])
  }

  datatype Outcome = Already | Changed(next: Machine)

  /**
   * An explicit action applied to the record performAction read: nothing
   * happens when the record already has the target status; otherwise the
   * status is set, the version goes up by exactly one and `updatedAt` is
   * refreshed. No other status is examined: a Terminated record is started
   * or stopped like any other.
   */
  function Apply(m: Machine, a: Action, now: nat): (o: Outcome)
    ensures o.Already? <==> m.status == Target(a)
    ensures o.Changed? ==> o.next.status == Target(a)
    ensures o.Changed? ==> o.next.version == m.version + 1
    ensures o.Changed? ==> o.next.updatedAt == now && SameIdentity(m, o.next)
  {
    if m.status == Target(a) then Already
    else Changed(m.(status := Target(a), version := m.version + 1, updatedAt := now))
  }

  /**
   * Boot completion applied to the record re-read from the store: it gives
   * up on a Terminated record and otherwise sets Running and bumps the
   * version, whatever the status was (Pending, Stopped, or already Running).
   */
  function Boot(m: Machine, now: nat): (b: Option<Machine>)
    ensures b.None? <==> m.status == Terminated
    ensures b.Some? ==> b.value.status == Running
    ensures b.Some? ==> b.value.version == m.version + 1
    ensures b.Some? ==> b.value.updatedAt == now && SameIdentity(m, b.value)
  {
    if m.status == Terminated then None
    else Some(m.(status := Running, version := m.version + 1, updatedAt := now))
  }

  /**
   * What performAction does once getMachineCached has returned the object
   * holding `m0`: its reply, the record that object holds afterwards (the
   * cache shows it) and the record the store received, if any.
   */
  datatype Effect = Effect(reply: Result<string>, cached: Machine, saved: Option<Machine>)

  /**
   * The object is written before the save, so a changing action leaves the
   * new record in the cache whether or not the save succeeds; the store
   * receives it, and the reply is "ok", only when the save succeeds.
   */
  function ActionEffect(m0: Machine, action: string, saveOk: bool, now: nat): (e: Effect)
    ensures ParseAction(action).None? ==> e == Effect(Err(UnknownAction), m0, None)
    ensures ParseAction(action).Some? && m0.status == Target(ParseAction(action).value) ==>
      e == Effect(Ok(AlreadyMessage(ParseAction(action).value)), m0, None)
    ensures ParseAction(action).Some? && m0.status != Target(ParseAction(action).value) ==>
      && e.cached == Apply(m0, ParseAction(action).value, now).next
      && e.reply == (if saveOk then Ok("ok") else Err(SaveFailed))
    ensures e.saved.Some? <==> saveOk && ParseAction(action).Some? && m0.status != Target(ParseAction(action).value)
    ensures e.saved.Some? ==> e.saved.value == e.cached && e.reply == Ok("ok")
    ensures e.cached != m0 ==> e.cached.version == m0.version + 1 && e.cached.status != m0.status
    ensures e.cached.version == m0.version || e.cached.version == m0.version + 1
    ensures SameIdentity(m0, e.cached)
  {
    match ParseAction(action)
    case None => Effect(Err(UnknownAction), m0, None)
    case Some(a) =>
      match Apply(m0, a, now)
      case Already => Effect(Ok(AlreadyMessage(a)), m0, None)
      case Changed(m1) =>
        if saveOk then Effect(Ok("ok"), m1, Some(m1))
        else Effect(Err(SaveFailed), m1, None)
  }

  // ---------------------------------------------------------------------
  // Serialised histories in which every save succeeds. The per-id
  // operation lock makes every explicit action and the boot completion of
  // one machine run one after another, so what happens to a record is a
  // sequence of steps; with no failed save the cache never disagrees with
  // the store, and one record describes both. Histories with failed saves
  // are the Replica histories further down.

  datatype Step = Act(action: Action, at: nat) | BootDone(at: nat)

  /** The record after one step that read `m` and saved successfully. */
  function Next(m: Machine, s: Step): Machine {
    match s
    case Act(a, t) =>
      (match Apply(m, a, t)
       case Already => m
       case Changed(n) => n)
    case BootDone(t) =>
      (match Boot(m, t)
       case None => m
       case Some(n) => n)
  }

  /** Whether the step writes a new version of `m`. */
  predicate Writes(m: Machine, s: Step) {
    match s
    case Act(a, t) => Apply(m, a, t).Changed?
    case BootDone(t) => Boot(m, t).Some?
  }

  function Run(m: Machine, steps: seq<Step>): Machine
    decreases |steps|
  {
    if steps == [] then m else Run(Next(m, steps[0]), steps[1..])
  }

  /** How many steps of the history write a new version. */
  function WriteCount(m: Machine, steps: seq<Step>): nat
    decreases |steps|
  {
    if steps == [] then 0
    else (if Writes(m, steps[0]) then 1 else 0) + WriteCount(Next(m, steps[0]), steps[1..])
  }

  /** How many steps of the history change the status. */
  function StatusChanges(m: Machine, steps: seq<Step>): nat
    decreases |steps|
  {
    if steps == [] then 0
    else (if Next(m, steps[0]).status != m.status then 1 else 0)
         + StatusChanges(Next(m, steps[0]), steps[1..])
  }

  predicate AllExplicit(steps: seq<Step>) {
    forall i :: 0 <= i < |steps| ==> steps[i].Act?
  }

  /** The version counter is gap-free: it grows by exactly one per write. */
  lemma {:induction false} RunVersion(m: Machine, steps: seq<Step>)
    ensures Run(m, steps).version == m.version + WriteCount(m, steps)
    decreases |steps|
  {
    if steps != [] {
      RunVersion(Next(m, steps[0]), steps[1..]);
    }
  }

  /** No history changes id, name, region, creation time or metadata. */
  lemma {:induction false} RunKeepsIdentity(m: Machine, steps: seq<Step>)
    ensures SameIdentity(m, Run(m, steps))
    decreases |steps|
  {
    if steps != [] {
      RunKeepsIdentity(Next(m, steps[0]), steps[1..]);
    }
  }

  /** With explicit actions only, a step writes exactly when it changes the status. */
  lemma {:induction false} ExplicitWritesAreStatusChanges(m: Machine, steps: seq<Step>)
    requires AllExplicit(steps)
    ensures WriteCount(m, steps) == StatusChanges(m, steps)
    decreases |steps|
  {
    if steps != [] {
      assert steps[0].Act?;
      assert AllExplicit(steps[1..]) by {
        forall i | 0 <= i < |steps[1..]| ensures steps[1..][i].Act? {
          assert steps[1..][i] == steps[i + 1];
        }
      }
      ExplicitWritesAreStatusChanges(Next(m, steps[0]), steps[1..]);
    }
  }

  /**
   * Concurrent Start and Stop calls, serialised by the lock, end in the
   * status of whichever ran last, and the version has grown by exactly the
   * number of calls that changed the status.
   */
  lemma ExplicitHistoryVersion(m: Machine, steps: seq<Step>)
    requires AllExplicit(steps)
    ensures Run(m, steps).version == m.version + StatusChanges(m, steps)
  {
    RunVersion(m, steps);
    ExplicitWritesAreStatusChanges(m, steps);
  }

  /** The last explicit action decides the status, never a mix of two. */
  lemma {:induction false} LastActionWins(m: Machine, steps: seq<Step>)
    requires steps != [] && steps[|steps| - 1].Act?
    ensures Run(m, steps).status == Target(steps[|steps| - 1].action)
    decreases |steps|
  {
    if |steps| > 1 {
      assert steps[1..][|steps[1..]| - 1] == steps[|steps| - 1];
      LastActionWins(Next(m, steps[0]), steps[1..]);
    }
  }

  /**
   * As written, boot completion does not check for Pending: a Stop that
   * takes the id's lock before the boot goroutine does is undone, and the
   * machine ends Running. (A Stop issued while boot completion sleeps
   * waits for the lock and then stops the running machine.)
   */
  lemma StopDuringBootIsUndone(id: string, name: string, region: string, t0: nat, t1: nat, t2: nat)
    ensures Run(Created(id, name, region, t0), [Act(Stop, t1), BootDone(t2)]).status == Running
    ensures Run(Created(id, name, region, t0), [Act(Stop, t1), BootDone(t2)]).version == 3
  {
    var m0 := Created(id, name, region, t0);
    var m1 := Next(m0, Act(Stop, t1));
    assert m1.status == Stopped && m1.version == 2;
    assert Run(m0, [Act(Stop, t1), BootDone(t2)]) == Run(m1, [BootDone(t2)]);
  }

  /**
   * As written, boot completion bumps the version of a machine an explicit
   * Start already brought to Running: the version then exceeds one plus the
   * number of status changes.
   */
  lemma StartDuringBootWritesTwice(id: string, name: string, region: string, t0: nat, t1: nat, t2: nat)
    ensures Run(Created(id, name, region, t0), [Act(Start, t1), BootDone(t2)]).version == 3
    ensures StatusChanges(Created(id, name, region, t0), [Act(Start, t1), BootDone(t2)]) == 1
  {
    var m0 := Created(id, name, region, t0);
    var m1 := Next(m0, Act(Start, t1));
    assert m1.status == Running && m1.version == 2;
    assert [Act(Start, t1), BootDone(t2)][1..] == [BootDone(t2)];
    assert Run(m0, [Act(Start, t1), BootDone(t2)]) == Run(m1, [BootDone(t2)]);
    assert [BootDone(t2)][1..] == [];
    assert Run(m1, [BootDone(t2)]) == Run(Next(m1, BootDone(t2)), []);
    assert StatusChanges(m0, [Act(Start, t1), BootDone(t2)]) == 1 + StatusChanges(m1, [BootDone(t2)]);
  }

  // ---------------------------------------------------------------------
  // Histories with save outcomes. A failed save in performAction leaves the
  // cached object changed and the store not, so one machine is described
  // by two records: what the cache holds for its id, if anything, and what
  // the store holds. Explicit actions read the cache first; boot completion
  // reads the store. Reads are taken to succeed: a failed read changes
  // neither record.

  /** The cache entry of one machine, if any, and its stored record. */
  datatype Replica = Replica(cached: Option<Machine>, stored: Machine)

  /** The record getMachineCached yields: the cached object, else the stored record. */
  function Seen(r: Replica): Machine {
    if r.cached.Some? then r.cached.value else r.stored
  }

  /** The action string StartMachine and StopMachine pass to performAction. */
  function Name(a: Action): (s: string)
    ensures ParseAction(s) == Some(a)
  {
    match a
    case Start => "start"
    case Stop => "stop"
  }

  /** One serialised step with the outcome of its save. */
  datatype Op = ActOp(action: Action, at: nat, saveOk: bool) | BootOp(at: nat, saveOk: bool)

  /**
   * One step on both records. An explicit action leaves its (possibly
   * changed) object in the cache, since the lookup caches it and the change
   * is made in place, and the store gets the `saved` record of ActionEffect.
   * Boot completion changes both records to the booted one when its save
   * succeeds, and neither otherwise.
   */
  function Perform(r: Replica, op: Op): (next: Replica)
    ensures op.ActOp? ==> next.cached.Some? && Seen(next).status == Target(op.action)
    ensures op.ActOp? ==> SameIdentity(Seen(r), Seen(next))
    ensures !Stores(r, op) ==> next.stored == r.stored
    ensures Stores(r, op) ==> next.cached == Some(next.stored)
    ensures op.BootOp? && !Stores(r, op) ==> next == r
    ensures op.BootOp? && Stores(r, op) ==>
      next.stored.status == Running && next.stored.version == r.stored.version + 1
  {
    match op
    case ActOp(a, t, ok) =>
      var e := ActionEffect(Seen(r), Name(a), ok, t);
      Replica(Some(e.cached), if e.saved.Some? then e.saved.value else r.stored)
    case BootOp(t, ok) =>
      match Boot(r.stored, t)
      case None => r
      case Some(m1) => if ok then Replica(Some(m1), m1) else r
  }

  function PerformAll(r: Replica, ops: seq<Op>): Replica
    decreases |ops|
  {
    if ops == [] then r else PerformAll(Perform(r, ops[0]), ops[1..])
  }

  /** Whether the step writes the store. */
  predicate Stores(r: Replica, op: Op) {
    match op
    case ActOp(a, t, ok) => ActionEffect(Seen(r), Name(a), ok, t).saved.Some?
    case BootOp(t, ok) => ok && Boot(r.stored, t).Some?
  }

  /** How many steps of the history write the store. */
  function StoreWrites(r: Replica, ops: seq<Op>): nat
    decreases |ops|
  {
    if ops == [] then 0
    else (if Stores(r, ops[0]) then 1 else 0) + StoreWrites(Perform(r, ops[0]), ops[1..])
  }

  /** The cache holds nothing for the machine, or exactly its stored record. */
  predicate Coherent(r: Replica) {
    r.cached.None? || r.cached.value == r.stored
  }

  /** The cached version is never behind the stored one. */
  predicate CacheAhead(r: Replica) {
    r.cached.Some? ==> r.cached.value.version >= r.stored.version
  }

  predicate AllSaved(ops: seq<Op>) {
    forall i :: 0 <= i < |ops| ==> ops[i].saveOk
  }

  /** The step without its save outcome. */
  function Plain(op: Op): Step {
    match op
    case ActOp(a, t, _) => Act(a, t)
    case BootOp(t, _) => BootDone(t)
  }

  function PlainAll(ops: seq<Op>): (steps: seq<Step>)
    ensures |steps| == |ops|
    decreases |ops|
  {
    if ops == [] then [] else [Plain(ops[0])] + PlainAll(ops[1..])
  }

  /** A step whose save succeeds keeps the records coherent and does to them what Next does. */
  lemma SavedStepIsNext(r: Replica, op: Op)
    requires Coherent(r) && op.saveOk
    ensures Coherent(Perform(r, op)) && Perform(r, op).stored == Next(r.stored, Plain(op))
    ensures Stores(r, op) == Writes(r.stored, Plain(op))
  {
    if op.ActOp? {
      assert ParseAction(Name(op.action)) == Some(op.action);
    }
  }

  /**
   * With every save successful, the cache never disagrees with the store,
   * and the store follows Run over the same steps.
   */
  lemma {:induction false} SavedHistoryIsRun(r: Replica, ops: seq<Op>)
    requires Coherent(r) && AllSaved(ops)
    ensures Coherent(PerformAll(r, ops))
    ensures PerformAll(r, ops).stored == Run(r.stored, PlainAll(ops))
    ensures StoreWrites(r, ops) == WriteCount(r.stored, PlainAll(ops))
    decreases |ops|
  {
    if ops != [] {
      assert ops[0].saveOk;
      SavedStepIsNext(r, ops[0]);
      assert AllSaved(ops[1..]) by {
        forall i | 0 <= i < |ops[1..]| ensures ops[1..][i].saveOk {
          assert ops[1..][i] == ops[i + 1];
        }
      }
      SavedHistoryIsRun(Perform(r, ops[0]), ops[1..]);
      var steps := PlainAll(ops);
      assert steps[0] == Plain(ops[0]) && steps[1..] == PlainAll(ops[1..]);
    }
  }

  /**
   * The version law holds when every save succeeds: the stored version
   * grows by exactly one per write to the store.
   */
  lemma SavedHistoryVersion(r: Replica, ops: seq<Op>)
    requires Coherent(r) && AllSaved(ops)
    ensures PerformAll(r, ops).stored.version == r.stored.version + StoreWrites(r, ops)
  {
    SavedHistoryIsRun(r, ops);
    RunVersion(r.stored, PlainAll(ops));
  }

  /** One step keeps the cache ahead and raises the stored version by at least its writes. */
  lemma StepRaisesStored(r: Replica, op: Op)
    requires CacheAhead(r)
    ensures CacheAhead(Perform(r, op))
    ensures Perform(r, op).stored.version >= r.stored.version + (if Stores(r, op) then 1 else 0)
  {
    if op.ActOp? {
      assert ParseAction(Name(op.action)) == Some(op.action);
    }
  }

  /**
   * In every history, failed saves included, the stored version never goes
   * down and grows by AT LEAST one per write to the store: the cache keeps
   * the versions a failed save gave it, and the next successful action
   * builds on them.
   */
  lemma {:induction false} StoredVersionBound(r: Replica, ops: seq<Op>)
    requires CacheAhead(r)
    ensures CacheAhead(PerformAll(r, ops))
    ensures PerformAll(r, ops).stored.version >= r.stored.version + StoreWrites(r, ops)
    decreases |ops|
  {
    if ops != [] {
      StepRaisesStored(r, ops[0]);
      StoredVersionBound(Perform(r, ops[0]), ops[1..]);
    }
  }

  /** A history of two steps is one step after the other. */
  lemma TwoSteps(r: Replica, a: Op, b: Op)
    ensures PerformAll(r, [a, b]) == Perform(Perform(r, a), b)
    ensures StoreWrites(r, [a, b]) == (if Stores(r, a) then 1 else 0) + (if Stores(Perform(r, a), b) then 1 else 0)
  {
    assert [a, b][0] == a && [a, b][1..] == [b];
    assert [b][0] == b && [b][1..] == [];
    assert PerformAll(Perform(r, a), [b]) == PerformAll(Perform(Perform(r, a), b), []);
    assert StoreWrites(Perform(r, a), [b])
        == (if Stores(Perform(r, a), b) then 1 else 0) + StoreWrites(Perform(Perform(r, a), b), []);
  }

  /**
   * The bound is all that holds: from a coherent running machine, a Stop
   * whose save fails, then a Start, writes the store once, leaves its
   * status Running, and moves its version up by two.
   */
  lemma FailedSaveSkipsVersion(m: Machine, t1: nat, t2: nat, ops: seq<Op>)
    requires m.status == Running
    requires ops == [ActOp(Stop, t1, false), ActOp(Start, t2, true)]
    ensures StoreWrites(Replica(Some(m), m), ops) == 1
    ensures PerformAll(Replica(Some(m), m), ops).stored.status == Running
    ensures PerformAll(Replica(Some(m), m), ops).stored.version == m.version + 2
  {
    TwoSteps(Replica(Some(m), m), ops[0], ops[1]);
  }

  /**
   * After a Stop of a pending machine whose save fails, reads see it
   * Stopped at version 2; boot completion then re-reads the store and
   * saves it Running at version 2 too: two different records are shown
   * under the same version.
   */
  lemma FailedSaveThenBootReusesVersion(m: Machine, t1: nat, t2: nat)
    requires m.status == Pending
    ensures var r1 := Perform(Replica(None, m), ActOp(Stop, t1, false));
      var r2 := Perform(r1, BootOp(t2, true));
      && Seen(r1).status == Stopped && Seen(r2).status == Running
      && Seen(r1).version == Seen(r2).version == m.version + 1
  {
    assert ParseAction(Name(Stop)) == Some(Stop);
  }
}
