/** The debounce gate of the block listener as a state machine: the cooldown
    set, the scheduler's queue of tick tasks, and the server tick. A change
    signal for a monitored location that is not on cooldown puts it on
    cooldown and schedules a report for the next tick; the report, when it
    runs, schedules the location's removal from cooldown one tick later. */
module Debounce {
  import opened Common

  /** The two closures processBlockChange hands to the scheduler. */
  datatype Task = Report(loc: Location) | ClearCooldown(loc: Location)

  /** A task and the tick of the heartbeat that runs it. */
  datatype Scheduled = Scheduled(due: nat, task: Task)

  /** The gate's state: the last tick the scheduler ran, the locations on
      cooldown, and the pending tasks in submission order. */
  datatype Gate = Gate(now: nat, cooldown: set<Location>, queue: seq<Scheduled>)

  /** The state after one heartbeat: the gate, and the monitored locations
      whose update report was sent, in order. */
  datatype Step = Step(gate: Gate, reported: seq<Location>)

  /** The tick at which a task submitted with `delay` runs: a delay below one
      still waits for the next heartbeat. */
  function DueTick(now: nat, delay: nat): (t: nat)
    ensures t > now
    ensures delay >= 1 ==> t == now + delay
  {
    if delay == 0 then now + 1 else now + delay
  }

  /** processBlockChange: a missing block, an unmonitored location, or a
      location on cooldown changes nothing; otherwise the location goes on
      cooldown and one report is scheduled for the next tick. */
  function Signal(g: Gate, registry: map<Location, int>, block: Option<Location>): Gate {
    if block.None? || block.value !in registry || block.value in g.cooldown then g
    else Gate(g.now, g.cooldown + {block.value}, g.queue + [Scheduled(DueTick(g.now, 0), Report(block.value))])
  }

  /** Several signals within one tick, in order. */
  function Signals(g: Gate, registry: map<Location, int>, blocks: seq<Option<Location>>): Gate
    decreases |blocks|
  {
    if blocks == [] then g else Signals(Signal(g, registry, blocks[0]), registry, blocks[1..])
  }

  /** The tasks a heartbeat at tick `t` runs, in submission order. */
  function Due(q: seq<Scheduled>, t: nat): (d: seq<Scheduled>)
    ensures forall i :: 0 <= i < |d| ==> d[i].due <= t
  {
    if q == [] then [] else (if q[0].due <= t then [q[0]] else []) + Due(q[1..], t)
  }

  /** The tasks left waiting after a heartbeat at tick `t`. */
  function Kept(q: seq<Scheduled>, t: nat): (k: seq<Scheduled>)
    ensures forall i :: 0 <= i < |k| ==> k[i].due > t
  {
    if q == [] then [] else (if q[0].due <= t then [] else [q[0]]) + Kept(q[1..], t)
  }

  /** Runs one task. A report sends the update of a monitored location,
      then submits the cooldown removal one tick later; a removal takes the
      location off cooldown. */
  function RunOne(g: Gate, registry: map<Location, int>, task: Task, reported: seq<Location>): Step {
    match task
    case Report(loc) =>
      Step(Gate(g.now, g.cooldown, g.queue + [Scheduled(DueTick(g.now, 1), ClearCooldown(loc))]),
           if loc in registry then reported + [loc] else reported)
    case ClearCooldown(loc) =>
      Step(Gate(g.now, g.cooldown - {loc}, g.queue), reported)
  }

  /** Runs the tasks `ts` one after the other. */
  function RunFrom(g: Gate, registry: map<Location, int>, ts: seq<Scheduled>, reported: seq<Location>): Step
    decreases |ts|
  {
    if ts == [] then Step(g, reported)
    else
      var s := RunOne(g, registry, ts[0].task, reported);
      RunFrom(s.gate, registry, ts[1..], s.reported)
  }

  /** One scheduler heartbeat: the tick advances and every task due by then
      runs, in submission order. */
  function Heartbeat(g: Gate, registry: map<Location, int>): Step {
    var t := g.now + 1;
    RunFrom(Gate(t, g.cooldown, Kept(g.queue, t)), registry, Due(g.queue, t), [])
  }

  /** Pending reports and pending removals of `loc`. */
  function Reports(q: seq<Scheduled>, loc: Location): nat {
    if q == [] then 0 else (if q[0].task == Report(loc) then 1 else 0) + Reports(q[1..], loc)
  }

  function Clears(q: seq<Scheduled>, loc: Location): nat {
    if q == [] then 0 else (if q[0].task == ClearCooldown(loc) then 1 else 0) + Clears(q[1..], loc)
  }

  /** The locations the reports among `ts` send an update for, in order. */
  function ReportedBy(ts: seq<Scheduled>, registry: map<Location, int>): seq<Location> {
    if ts == [] then []
    else (if ts[0].task.Report? && ts[0].task.loc in registry then [ts[0].task.loc] else []) + ReportedBy(ts[1..], registry)
  }

  /** The gate's invariant: every pending task runs at the next heartbeat,
      and a location is on cooldown exactly when one task for it is
      pending (and then exactly one). */
  ghost predicate Inv(g: Gate) {
    && AllDueAt(g.queue, g.now + 1)
    && (forall loc :: Reports(g.queue, loc) + Clears(g.queue, loc) == if loc in g.cooldown then 1 else 0)
  }

  lemma {:induction false} CountsAppend(a: seq<Scheduled>, b: seq<Scheduled>, loc: Location)
    ensures Reports(a + b, loc) == Reports(a, loc) + Reports(b, loc)
    ensures Clears(a + b, loc) == Clears(a, loc) + Clears(b, loc)
  {
    if a == [] {
      assert a + b == b;
    } else {
      assert (a + b)[1..] == a[1..] + b;
      CountsAppend(a[1..], b, loc);
    }
  }

  /** A heartbeat splits the queue between the tasks it runs and the tasks
      it keeps, losing none. */
  lemma {:induction false} DueKeptCounts(q: seq<Scheduled>, t: nat, loc: Location)
    ensures Reports(Due(q, t), loc) + Reports(Kept(q, t), loc) == Reports(q, loc)
    ensures Clears(Due(q, t), loc) + Clears(Kept(q, t), loc) == Clears(q, loc)
  {
    if q != [] {
      DueKeptCounts(q[1..], t, loc);
      CountsAppend(if q[0].due <= t then [q[0]] else [], Due(q[1..], t), loc);
      CountsAppend(if q[0].due <= t then [] else [q[0]], Kept(q[1..], t), loc);
    }
  }

  /** When every task is due, the heartbeat runs the whole queue and keeps nothing. */
  lemma {:induction false} AllDue(q: seq<Scheduled>, t: nat)
    requires forall i :: 0 <= i < |q| ==> q[i].due <= t
    ensures Due(q, t) == q
    ensures Kept(q, t) == []
  {
    if q != [] {
      AllDue(q[1..], t);
    }
  }

  /** Running `ts` keeps the tick and appends the monitored reports of `ts`,
      in order, to the updates sent. */
  lemma {:induction false} RunFromTrace(g: Gate, registry: map<Location, int>, ts: seq<Scheduled>, reported: seq<Location>)
    ensures var s := RunFrom(g, registry, ts, reported);
      && s.gate.now == g.now
      && s.reported == reported + ReportedBy(ts, registry)
    decreases |ts|
  {
    if ts != [] {
      match ts[0].task
      case Report(l) =>
        var g' := Gate(g.now, g.cooldown, g.queue + [Scheduled(DueTick(g.now, 1), ClearCooldown(l))]);
        var r' := if l in registry then reported + [l] else reported;
        RunFromTrace(g', registry, ts[1..], r');
      case ClearCooldown(l) =>
        RunFromTrace(Gate(g.now, g.cooldown - {l}, g.queue), registry, ts[1..], reported);
    }
  }

  /** What running `ts` does to one location: each report of it leaves one
      removal pending, pending reports are untouched, and it leaves cooldown
      exactly when a removal of it ran. */
  lemma {:induction false} RunFromEffect(g: Gate, registry: map<Location, int>, ts: seq<Scheduled>, reported: seq<Location>, loc: Location)
    ensures var s := RunFrom(g, registry, ts, reported);
      && Reports(s.gate.queue, loc) == Reports(g.queue, loc)
      && Clears(s.gate.queue, loc) == Clears(g.queue, loc) + Reports(ts, loc)
      && (loc in s.gate.cooldown <==> loc in g.cooldown && Clears(ts, loc) == 0)
    decreases |ts|
  {
    if ts != [] {
      match ts[0].task
      case Report(l) =>
        var c := Scheduled(DueTick(g.now, 1), ClearCooldown(l));
        var g' := Gate(g.now, g.cooldown, g.queue + [c]);
        var r' := if l in registry then reported + [l] else reported;
        RunFromEffect(g', registry, ts[1..], r', loc);
        CountsAppend(g.queue, [c], loc);
      case ClearCooldown(l) =>
        RunFromEffect(Gate(g.now, g.cooldown - {l}, g.queue), registry, ts[1..], reported, loc);
    }
  }

  /** Every task of `q` runs at tick `t`. */
  predicate AllDueAt(q: seq<Scheduled>, t: nat) {
    forall i :: 0 <= i < |q| ==> q[i].due == t
  }

  /** The tasks running `ts` submits are all due at the tick after the
      current one. */
  lemma {:induction false} RunFromDue(g: Gate, registry: map<Location, int>, ts: seq<Scheduled>, reported: seq<Location>)
    requires AllDueAt(g.queue, g.now + 1)
    ensures AllDueAt(RunFrom(g, registry, ts, reported).gate.queue, g.now + 1)
    decreases |ts|
  {
    if ts != [] {
      match ts[0].task
      case Report(l) =>
        var q := g.queue + [Scheduled(DueTick(g.now, 1), ClearCooldown(l))];
        assert AllDueAt(q, g.now + 1);
        RunFromDue(Gate(g.now, g.cooldown, q), registry, ts[1..], if l in registry then reported + [l] else reported);
      case ClearCooldown(l) =>
        RunFromDue(Gate(g.now, g.cooldown - {l}, g.queue), registry, ts[1..], reported);
    }
  }

  /** How often `loc` is reported among the reports of `ts`. */
  lemma {:induction false} ReportedByCount(ts: seq<Scheduled>, registry: map<Location, int>, loc: Location)
    ensures multiset(ReportedBy(ts, registry))[loc] == if loc in registry then Reports(ts, loc) else 0
  {
    if ts != [] {
      ReportedByCount(ts[1..], registry, loc);
      var head := if ts[0].task.Report? && ts[0].task.loc in registry then [ts[0].task.loc] else [];
      assert multiset(head + ReportedBy(ts[1..], registry)) == multiset(head) + multiset(ReportedBy(ts[1..], registry));
    }
  }

  /** A plugin that has just started: nothing on cooldown, nothing pending. */
  lemma InitialInv(now: nat)
    ensures Inv(Gate(now, {}, []))
  {
  }

  /** A signal keeps the invariant. */
  lemma SignalInv(g: Gate, registry: map<Location, int>, block: Option<Location>)
    requires Inv(g)
    ensures Inv(Signal(g, registry, block))
    ensures Signal(g, registry, block).now == g.now
  {
    forall loc ensures Reports(Signal(g, registry, block).queue, loc) + Clears(Signal(g, registry, block).queue, loc)
      == if loc in Signal(g, registry, block).cooldown then 1 else 0
    {
      SignalEffect(g, registry, block, loc);
    }
  }

  /** A heartbeat keeps the invariant and advances the tick by one. */
  lemma HeartbeatInv(g: Gate, registry: map<Location, int>)
    requires Inv(g)
    ensures Inv(Heartbeat(g, registry).gate)
    ensures Heartbeat(g, registry).gate.now == g.now + 1
  {
    HeartbeatRunsQueue(g, registry);
    var h := Heartbeat(g, registry);
    RunFromDue(Gate(g.now + 1, g.cooldown, []), registry, g.queue, []);
    forall loc ensures Reports(h.gate.queue, loc) + Clears(h.gate.queue, loc) == if loc in h.gate.cooldown then 1 else 0 {
      RunQueueEffect(g, registry, loc);
    }
    RunQueueEffect(g, registry, Location("", 0, 0, 0));
  }

  /** What one signal does to one location's pending tasks and cooldown. */
  lemma SignalEffect(g: Gate, registry: map<Location, int>, block: Option<Location>, loc: Location)
    ensures var s := Signal(g, registry, block);
      && s.now == g.now
      && Clears(s.queue, loc) == Clears(g.queue, loc)
      && (if block == Some(loc) && loc in registry && loc !in g.cooldown
          then loc in s.cooldown && Reports(s.queue, loc) == Reports(g.queue, loc) + 1
          else (loc in s.cooldown <==> loc in g.cooldown) && Reports(s.queue, loc) == Reports(g.queue, loc))
  {
    if !(block.None? || block.value !in registry || block.value in g.cooldown) {
      CountsAppend(g.queue, [Scheduled(DueTick(g.now, 0), Report(block.value))], loc);
    }
  }

  /** What a run of signals within one tick does to one location: once it is
      on cooldown nothing more happens to it; otherwise the first signal for
      it, if it is monitored, schedules its one report. */
  lemma {:induction false} SignalsEffect(g: Gate, registry: map<Location, int>, blocks: seq<Option<Location>>, loc: Location)
    ensures var s := Signals(g, registry, blocks);
      && s.now == g.now
      && Clears(s.queue, loc) == Clears(g.queue, loc)
      && (if Some(loc) in blocks && loc in registry && loc !in g.cooldown
          then loc in s.cooldown && Reports(s.queue, loc) == Reports(g.queue, loc) + 1
          else (loc in s.cooldown <==> loc in g.cooldown) && Reports(s.queue, loc) == Reports(g.queue, loc))
    ensures Inv(g) ==> Inv(Signals(g, registry, blocks))
    decreases |blocks|
  {
    if blocks != [] {
      var g' := Signal(g, registry, blocks[0]);
      SignalEffect(g, registry, blocks[0], loc);
      SignalsEffect(g', registry, blocks[1..], loc);
      assert blocks == [blocks[0]] + blocks[1..];
      if Inv(g) {
        SignalInv(g, registry, blocks[0]);
      }
    }
  }

  /** Under the invariant every pending task is due at the next heartbeat,
      which therefore runs the whole queue and keeps nothing. */
  lemma HeartbeatRunsQueue(g: Gate, registry: map<Location, int>)
    requires Inv(g)
    ensures Heartbeat(g, registry) == RunFrom(Gate(g.now + 1, g.cooldown, []), registry, g.queue, [])
  {
    AllDue(g.queue, g.now + 1);
  }

  /** Running a whole queue from an empty one, seen from one location. */
  lemma RunQueueEffect(g: Gate, registry: map<Location, int>, loc: Location)
    ensures var h := RunFrom(Gate(g.now + 1, g.cooldown, []), registry, g.queue, []);
      && h.gate.now == g.now + 1
      && multiset(h.reported)[loc] == (if loc in registry then Reports(g.queue, loc) else 0)
      && Reports(h.gate.queue, loc) == 0
      && Clears(h.gate.queue, loc) == Reports(g.queue, loc)
      && (loc in h.gate.cooldown <==> loc in g.cooldown && Clears(g.queue, loc) == 0)
  {
    RunFromTrace(Gate(g.now + 1, g.cooldown, []), registry, g.queue, []);
    RunFromEffect(Gate(g.now + 1, g.cooldown, []), registry, g.queue, [], loc);
    assert [] + ReportedBy(g.queue, registry) == ReportedBy(g.queue, registry);
    ReportedByCount(g.queue, registry, loc);
  }

  /** What one heartbeat does to one location, given the invariant: every
      pending report of it sends one update (when monitored) and leaves one
      removal pending; it leaves cooldown exactly when its removal ran. */
  lemma HeartbeatEffect(g: Gate, registry: map<Location, int>, loc: Location)
    requires Inv(g)
    ensures var h := Heartbeat(g, registry);
      && multiset(h.reported)[loc] == (if loc in registry then Reports(g.queue, loc) else 0)
      && Reports(h.gate.queue, loc) == 0
      && Clears(h.gate.queue, loc) == Reports(g.queue, loc)
      && (loc in h.gate.cooldown <==> loc in g.cooldown && Clears(g.queue, loc) == 0)
  {
    HeartbeatRunsQueue(g, registry);
    RunQueueEffect(g, registry, loc);
  }

  /** The debounce cycle. K >= 1 signals for a monitored location that is
      off cooldown schedule exactly one report; the next heartbeat sends
      exactly one update for it and leaves it on cooldown, so signals in the
      tick after the report are suppressed; the heartbeat after that sends
      nothing for it and takes it off cooldown, and the next signal
      schedules exactly one report again. */
  lemma {:induction false} OneReportPerWindow(g: Gate, registry: map<Location, int>, loc: Location,
                                              burst: seq<Option<Location>>, later: seq<Option<Location>>)
    requires Inv(g) && loc in registry && loc !in g.cooldown
    requires Some(loc) in burst
    ensures var g1 := Signals(g, registry, burst);
      var h1 := Heartbeat(g1, registry);
      var g2 := Signals(h1.gate, registry, later);
      var h2 := Heartbeat(g2, registry);
      && Reports(g1.queue, loc) == 1
      && multiset(h1.reported)[loc] == 1
      && loc in g2.cooldown && Reports(g2.queue, loc) == 0
      && multiset(h2.reported)[loc] == 0
      && loc !in h2.gate.cooldown
      && Reports(Signal(h2.gate, registry, Some(loc)).queue, loc) == 1
  {
    var g1 := Signals(g, registry, burst);
    SignalsEffect(g, registry, burst, loc);
    var h1 := Heartbeat(g1, registry);
    HeartbeatEffect(g1, registry, loc);
    HeartbeatInv(g1, registry);
    var g2 := Signals(h1.gate, registry, later);
    SignalsEffect(h1.gate, registry, later, loc);
    var h2 := Heartbeat(g2, registry);
    HeartbeatEffect(g2, registry, loc);
    SignalEffect(h2.gate, registry, Some(loc), loc);
  }

  /** An unmonitored location is never put on cooldown and never gets a
      task, whatever the signals. */
  lemma UnmonitoredUntouched(g: Gate, registry: map<Location, int>, blocks: seq<Option<Location>>, loc: Location)
    requires loc !in registry
    ensures var s := Signals(g, registry, blocks);
      (loc in s.cooldown <==> loc in g.cooldown) && Reports(s.queue, loc) == Reports(g.queue, loc) && Clears(s.queue, loc) == Clears(g.queue, loc)
  {
    SignalsEffect(g, registry, blocks, loc);
  }
}
