/** The block listener: the event handlers, the debounce gate of
    processBlockChange, and a deterministic scheduler standing in for the
    server's, whose heartbeat runs the tasks the gate submits. */
module Listener {
  import opened Common
  import opened Config
  import Attributes
  import opened Debounce
  import opened Plugin

  /** A tick-ordered task queue: tasks wait until the heartbeat of their due
      tick and then run in submission order. */
  class Scheduler {
    /** The tick of the last heartbeat. */
    var now: nat
    var queue: seq<Scheduled>

    constructor ()
      ensures now == 0 && queue == []
    {
      now := 0;
      queue := [];
    }

    /** runTaskLater: the task runs at the heartbeat `delay` ticks on, and
        never before the next one. */
    method RunTaskLater(task: Task, delay: nat)
      modifies this
      ensures now == old(now)
      ensures queue == old(queue) + [Scheduled(DueTick(now, delay), task)]
    {
      queue := queue + [Scheduled(DueTick(now, delay), task)];
    }

    /** runTask: the task runs at the next heartbeat. */
    method RunTask(task: Task)
      modifies this
      ensures now == old(now)
      ensures queue == old(queue) + [Scheduled(now + 1, task)]
    {
      RunTaskLater(task, 0);
    }

    /** The start of a heartbeat: the tick advances and the tasks due by it
        leave the queue, to be run in submission order. */
    method TakeDue() returns (due: seq<Scheduled>)
      modifies this
      ensures now == old(now) + 1
      ensures due == Due(old(queue), now)
      ensures queue == Kept(old(queue), now)
    {
      now := now + 1;
      due := Due(queue, now);
      queue := Kept(queue, now);
    }
  }

  /** The events the listener subscribes to; each carries the block it is
      about (None when the server hands over no block). */
  datatype BlockBreakEvent = BlockBreakEvent(block: Option<Location>)
  datatype BlockPlaceEvent = BlockPlaceEvent(blockPlaced: Option<Location>)
  datatype BlockPhysicsEvent = BlockPhysicsEvent(block: Option<Location>)
  datatype EntityChangeBlockEvent = EntityChangeBlockEvent(block: Option<Location>)
  datatype BlockFadeEvent = BlockFadeEvent(block: Option<Location>)
  datatype BlockGrowEvent = BlockGrowEvent(block: Option<Location>)
  datatype BlockFormEvent = BlockFormEvent(block: Option<Location>)
  datatype BlockSpreadEvent = BlockSpreadEvent(block: Option<Location>)
  datatype LeavesDecayEvent = LeavesDecayEvent(block: Option<Location>)

  class BlockMonitorListener {
    const plugin: McBlockReporterPlugin
    const scheduler: Scheduler

    constructor (plugin: McBlockReporterPlugin, scheduler: Scheduler)
      ensures this.plugin == plugin && this.scheduler == scheduler
    {
      this.plugin := plugin;
      this.scheduler := scheduler;
    }

    /** The gate's state, read off the plugin and the scheduler. */
    ghost function State(): Gate
      reads this, plugin, scheduler
    {
      Gate(scheduler.now, plugin.updateCooldownLocations, scheduler.queue)
    }

    /** The debounce gate: the cooldown set and the queue change as Signal
        says, and nothing is sent. */
    method ProcessBlockChange(block: Option<Location>)
      modifies plugin, scheduler
      ensures State() == Signal(old(State()), plugin.monitoredBlockIndexMap, block)
      ensures plugin.monitoredBlockIndexMap == old(plugin.monitoredBlockIndexMap)
      ensures plugin.endpoints == old(plugin.endpoints) && plugin.outbox == old(plugin.outbox)
    {
      if block.None? {
        return;
      }
      var loc := block.value;
      var monitored := plugin.IsBlockMonitored(loc);
      if !monitored {
        return;
      }
      var cooling := plugin.IsLocationOnUpdateCooldown(loc);
      if cooling {
        return;
      }
      plugin.AddLocationToUpdateCooldown(loc);
      scheduler.RunTask(Report(loc));
    }

    /** Runs one task the gate submitted. `reported` lists the updates sent
        since `sent` was the outbox; `e` and `reg` are the plugin's endpoints
        and registry, which no task changes. */
    method RunScheduled(task: Task, server: Server, ghost e: Endpoints, ghost reg: map<Location, int>, ghost sent: seq<Request>, ghost reported: seq<Location>)
      returns (ghost reported': seq<Location>)
      requires plugin.endpoints == e && plugin.monitoredBlockIndexMap == reg
      requires plugin.outbox == sent + UpdateRequests(reported, e, server, reg)
      modifies plugin, scheduler
      ensures Step(State(), reported') == RunOne(old(State()), reg, task, reported)
      ensures plugin.outbox == sent + UpdateRequests(reported', e, server, reg)
      ensures plugin.endpoints == e && plugin.monitoredBlockIndexMap == reg
    {
      match task
      case Report(loc) =>
        reported' := SendUpdate(loc, server, e, reg, sent, reported);
        scheduler.RunTaskLater(ClearCooldown(loc), 1);
      case ClearCooldown(loc) =>
        plugin.RemoveLocationFromUpdateCooldown(loc);
        reported' := reported;
    }

    /** The first half of processBlockChange's next-tick task: report the
        block's current state if it is monitored. */
    method SendUpdate(loc: Location, server: Server, ghost e: Endpoints, ghost reg: map<Location, int>, ghost sent: seq<Request>, ghost reported: seq<Location>)
      returns (ghost reported': seq<Location>)
      requires plugin.endpoints == e && plugin.monitoredBlockIndexMap == reg
      requires plugin.outbox == sent + UpdateRequests(reported, e, server, reg)
      modifies plugin
      ensures reported' == if loc in reg then reported + [loc] else reported
      ensures plugin.outbox == sent + UpdateRequests(reported', e, server, reg)
      ensures plugin.updateCooldownLocations == old(plugin.updateCooldownLocations)
      ensures plugin.endpoints == e && plugin.monitoredBlockIndexMap == reg
    {
      plugin.HandleMonitoredBlockUpdate(loc, server);
      if loc in reg {
        reported' := reported + [loc];
        UpdateRequestsAppend(reported, [loc], e, server, reg);
      } else {
        reported' := reported;
      }
    }

    /** One scheduler heartbeat: the gate moves as Heartbeat says, and the
        plugin sends one update request per report that ran, in order. */
    method Tick(server: Server)
      modifies plugin, scheduler
      ensures var h := Heartbeat(old(State()), plugin.monitoredBlockIndexMap);
        && State() == h.gate
        && plugin.outbox == old(plugin.outbox) + UpdateRequests(h.reported, plugin.endpoints, server, plugin.monitoredBlockIndexMap)
      ensures plugin.monitoredBlockIndexMap == old(plugin.monitoredBlockIndexMap)
      ensures plugin.endpoints == old(plugin.endpoints)
    {
      ghost var g0 := State();
      ghost var e := plugin.endpoints;
      ghost var reg := plugin.monitoredBlockIndexMap;
      ghost var sent := plugin.outbox;
      var due := scheduler.TakeDue();
      ghost var reported: seq<Location> := [];
      assert due[0..] == due;
      var i := 0;
      while i < |due|
        invariant 0 <= i <= |due|
        invariant RunFrom(State(), reg, due[i..], reported) == Heartbeat(g0, reg)
        invariant plugin.outbox == sent + UpdateRequests(reported, e, server, reg)
        invariant plugin.endpoints == e && plugin.monitoredBlockIndexMap == reg
      {
        ghost var before := State();
        ghost var reportedBefore := reported;
        assert due[i..][1..] == due[i + 1..];
        reported := RunScheduled(due[i].task, server, e, reg, sent, reported);
        assert RunFrom(before, reg, due[i..], reportedBefore) == RunFrom(State(), reg, due[i + 1..], reported);
        i := i + 1;
      }
      assert due[i..] == [];
    }

    method OnBlockBreak(event: BlockBreakEvent)
      modifies plugin, scheduler
      ensures State() == Signal(old(State()), plugin.monitoredBlockIndexMap, event.block)
      ensures plugin.monitoredBlockIndexMap == old(plugin.monitoredBlockIndexMap)
      ensures plugin.endpoints == old(plugin.endpoints) && plugin.outbox == old(plugin.outbox)
    {
      ProcessBlockChange(event.block);
    }

    method OnBlockPlace(event: BlockPlaceEvent)
      modifies plugin, scheduler
      ensures State() == Signal(old(State()), plugin.monitoredBlockIndexMap, event.blockPlaced)
      ensures plugin.monitoredBlockIndexMap == old(plugin.monitoredBlockIndexMap)
      ensures plugin.endpoints == old(plugin.endpoints) && plugin.outbox == old(plugin.outbox)
    {
      ProcessBlockChange(event.blockPlaced);
    }

    method OnBlockPhysics(event: BlockPhysicsEvent)
      modifies plugin, scheduler
      ensures State() == Signal(old(State()), plugin.monitoredBlockIndexMap, event.block)
      ensures plugin.monitoredBlockIndexMap == old(plugin.monitoredBlockIndexMap)
      ensures plugin.endpoints == old(plugin.endpoints) && plugin.outbox == old(plugin.outbox)
    {
      ProcessBlockChange(event.block);
    }

    method OnEntityChangeBlock(event: EntityChangeBlockEvent)
      modifies plugin, scheduler
      ensures State() == Signal(old(State()), plugin.monitoredBlockIndexMap, event.block)
      ensures plugin.monitoredBlockIndexMap == old(plugin.monitoredBlockIndexMap)
      ensures plugin.endpoints == old(plugin.endpoints) && plugin.outbox == old(plugin.outbox)
    {
      ProcessBlockChange(event.block);
    }

    method OnBlockFade(event: BlockFadeEvent)
      modifies plugin, scheduler
      ensures State() == Signal(old(State()), plugin.monitoredBlockIndexMap, event.block)
      ensures plugin.monitoredBlockIndexMap == old(plugin.monitoredBlockIndexMap)
      ensures plugin.endpoints == old(plugin.endpoints) && plugin.outbox == old(plugin.outbox)
    {
      ProcessBlockChange(event.block);
    }

    method OnBlockGrow(event: BlockGrowEvent)
      modifies plugin, scheduler
      ensures State() == Signal(old(State()), plugin.monitoredBlockIndexMap, event.block)
      ensures plugin.monitoredBlockIndexMap == old(plugin.monitoredBlockIndexMap)
      ensures plugin.endpoints == old(plugin.endpoints) && plugin.outbox == old(plugin.outbox)
    {
      ProcessBlockChange(event.block);
    }

    method OnBlockForm(event: BlockFormEvent)
      modifies plugin, scheduler
      ensures State() == Signal(old(State()), plugin.monitoredBlockIndexMap, event.block)
      ensures plugin.monitoredBlockIndexMap == old(plugin.monitoredBlockIndexMap)
      ensures plugin.endpoints == old(plugin.endpoints) && plugin.outbox == old(plugin.outbox)
    {
      ProcessBlockChange(event.block);
    }

    method OnBlockSpread(event: BlockSpreadEvent)
      modifies plugin, scheduler
      ensures State() == Signal(old(State()), plugin.monitoredBlockIndexMap, event.block)
      ensures plugin.monitoredBlockIndexMap == old(plugin.monitoredBlockIndexMap)
      ensures plugin.endpoints == old(plugin.endpoints) && plugin.outbox == old(plugin.outbox)
    {
      ProcessBlockChange(event.block);
    }

    method OnLeavesDecay(event: LeavesDecayEvent)
      modifies plugin, scheduler
      ensures State() == Signal(old(State()), plugin.monitoredBlockIndexMap, event.block)
      ensures plugin.monitoredBlockIndexMap == old(plugin.monitoredBlockIndexMap)
      ensures plugin.endpoints == old(plugin.endpoints) && plugin.outbox == old(plugin.outbox)
    {
      ProcessBlockChange(event.block);
    }
  }
}
