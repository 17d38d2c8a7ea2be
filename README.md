# McBlockReporter — a verified model of its core

McBlockReporter is a Bukkit server plugin that reports the state of Minecraft
blocks to a web service. A block is reported as an attribute map:
- its world, coordinates and material;
- its registry id when it is one of the monitored blocks;
- every capability its block data exposes (powered, facing, age, ...);
- the optional extra data of the player's command.

The plugin reports blocks on three channels:
- **command channel** — `/httpblockinfo <x> <y> <z> [extraData|@selector]` sends one block;
- **batch channel** — at start-up, one request carries the map of every monitored block that is loaded;
- **update channel** — a change event on a monitored block sends its map once.
  A cooldown set debounces these updates: events in the same tick, and in the
  tick after the report, do not send again.

The model is in Dafny. It has one module per concern:

- `Common` (common.dfy): coordinates, attribute values, Java's int narrowing and ASCII case mapping.
- `Config` (config.dfy): how `onEnable` resolves the three channels from the configuration. Also how a response is classified.
- `Registry` (registry.dfy): how the configured locations become the map from coordinate to id.
- `Puts` (puts.dfy): a `HashMap` filled by successive `put` calls.
- `Attributes` (attributes.dfy): the block data as an abstract record of capabilities, and the attribute map `buildBlockDataMap` builds from it.
- `Plugin` (plugin.dfy): the plugin as a class.
  - Its fields are the endpoints, the registry, the cooldown set and the requests handed to the HTTP client, in order.
  - Its methods are the loading loop, the map-building `put`s, the initial batch loop, the update gate and the cooldown operations.
- `Debounce` (debounce.dfy): the debounce gate as a state machine over the cooldown set and a tick-ordered task queue. The K-signals-one-report cycle is proved here.
- `Listener` (listener.dfy): two classes.
  - A deterministic scheduler class stands in for the server's scheduler.
  - The listener class holds `processBlockChange`, the nine event handlers and the heartbeat that runs the scheduled tasks. Each of them is proved to move the plugin and scheduler exactly as `Debounce` says.
- `Command` (command.dfy): `onCommand` as a function from sender, name, arguments, worlds and selector results to an outcome:
  - the value returned;
  - the chat messages, by kind;
  - the one `sendBlockData` call, if any.

  It comes with a faithful `Integer.parseInt` and the executor class that performs the send.

The server is an input (`Plugin.Server`). It gives:
- the worlds by configured name;
- the block data at each location;
- whether a location's world and chunk are loaded.

The entity selector is an input function. The HTTP client is the plugin's
`outbox`, the sequence of requests it was handed.

The cooldown's timing (BlockMonitorListener.java:39-44):
- The report runs as a next-tick task.
- From inside that task, the cooldown removal is submitted with `runTaskLater(..., 1L)`.
- So the removal runs at the heartbeat after the report's heartbeat.
- Signals in between are suppressed.
- `Debounce.OneReportPerWindow` states this timing.

## Model

| member | source | states |
|---|---|---|
| Common.Wrap32 | src/main/java/com/pandymic/dev/mcblockreporter/McBlockReporterPlugin.java:116-118 | `intValue()` of a whole number is an int that is congruent to it modulo 2^32, and is the number itself when it fits in an int |
| Common.TruncToInt32 | src/main/java/com/pandymic/dev/mcblockreporter/McBlockReporterPlugin.java:116-118 | `intValue()` of a double is an int; inside the int range it is the value rounded toward zero; at or above 2^31 it is Integer.MAX_VALUE and below -2^31 Integer.MIN_VALUE (saturation, not wrap-around) |
| Common.ToUpper | src/main/java/com/pandymic/dev/mcblockreporter/McBlockReporterPlugin.java:65-72 | upper-casing keeps the length and turns exactly the lower-case letters into capitals, leaving every other character alone |
| Common.ToUpperIdempotent | src/main/java/com/pandymic/dev/mcblockreporter/McBlockReporterPlugin.java:68-72 | upper-casing an upper-cased method again changes nothing, and no lower-case letter is left |
| Config.GetString | src/main/java/com/pandymic/dev/mcblockreporter/McBlockReporterPlugin.java:51-73 | `getString(key, def)` yields the configured value when the key is present and the default otherwise |
| Config.CommandChannelAndUrls | src/main/java/com/pandymic/dev/mcblockreporter/McBlockReporterPlugin.java:51-74 | the command channel always uses POST on apiUrl + reportEndpoint (default /report); apiUrl defaults to UNCONFIGURED_BASE_API_URL; each monitor URL is apiUrl followed by its own endpoint, else monitoredBlocks.endpoint, else /monitor |
| Config.MonitorMethodsDefaultToPut | src/main/java/com/pandymic/dev/mcblockreporter/McBlockReporterPlugin.java:65-72 | with no method configured anywhere, both the update and the batch channel use PUT |
| Config.MonitorMethodsFollowDefault | src/main/java/com/pandymic/dev/mcblockreporter/McBlockReporterPlugin.java:65-72 | a monitor channel without its own method uses the upper-cased monitoredBlocks.method; one with its own method uses it upper-cased; neither method has a lower-case letter |
| Config.ApiUrlWarning | src/main/java/com/pandymic/dev/mcblockreporter/McBlockReporterPlugin.java:51-58 | the start-up warning is logged exactly when apiUrl is missing, is the placeholder, or is empty |
| Config.Classify | src/main/java/com/pandymic/dev/mcblockreporter/McBlockReporterPlugin.java:365-376 | a response counts as success exactly when 200 <= status < 300; any other status is a warning; a transport failure is an error |
| Registry.IntValue | src/main/java/com/pandymic/dev/mcblockreporter/McBlockReporterPlugin.java:116-118 | a coordinate field yields an int exactly when it is a number; a missing or non-numeric field throws |
| Registry.ParseEntry | src/main/java/com/pandymic/dev/mcblockreporter/McBlockReporterPlugin.java:115-124 | a record yields a location exactly when its world is a string naming a known world and x, y, z are numbers; the location is that world with the narrowed coordinates |
| Registry.LoadFromAssign | src/main/java/com/pandymic/dev/mcblockreporter/McBlockReporterPlugin.java:111-129 | the loading loop puts the next counter value for each record that parses, in order, and advances the counter once per parsed record and for no other record |
| Registry.LoadAssignsIdsInOrder | src/main/java/com/pandymic/dev/mcblockreporter/McBlockReporterPlugin.java:103-129 | after loading, the counter equals the number of parsed records; the registry holds exactly the parsed coordinates; each coordinate's id is the position of its last occurrence among them (ids 0, 1, 2, ... in order, a later duplicate overwriting an earlier one) |
| Registry.LoadDependsOnlyOnParsed | src/main/java/com/pandymic/dev/mcblockreporter/McBlockReporterPlugin.java:112-129 | two record lists whose parsed coordinates agree load the same registry and use up the same number of ids |
| Registry.BadEntryUsesNoId | src/main/java/com/pandymic/dev/mcblockreporter/McBlockReporterPlugin.java:120-128 | inserting a record that throws or names an unknown world anywhere in the list leaves the registry and the number of ids used unchanged |
| Registry.DuplicatesLeaveGaps | src/main/java/com/pandymic/dev/mcblockreporter/McBlockReporterPlugin.java:111-125 | the registry never holds more coordinates than ids were issued, and holds fewer exactly when some parsed coordinate occurs twice |
| Registry.IdsAreDistinct | src/main/java/com/pandymic/dev/mcblockreporter/McBlockReporterPlugin.java:111-125 | two different monitored coordinates never share an id, and every id is below the number of ids issued |
| Puts.ApplyLookup | src/main/java/com/pandymic/dev/mcblockreporter/McBlockReporterPlugin.java:138-350 | after a run of `put`s, a key is present exactly when it was present before or some put names it; the last put of a key decides its value; other keys keep their old value |
| Puts.ApplyKeys | src/main/java/com/pandymic/dev/mcblockreporter/McBlockReporterPlugin.java:138-350 | after a run of `put`s, the map's keys are its old keys plus the keys the puts name |
| Attributes.ProbeIn | src/main/java/com/pandymic/dev/mcblockreporter/McBlockReporterPlugin.java:151-348 | the cast for a capability succeeds exactly when the block data has a facet of that kind, and yields a facet of that kind |
| Attributes.EntriesKeys | src/main/java/com/pandymic/dev/mcblockreporter/McBlockReporterPlugin.java:151-348 | each capability's branch writes exactly the keys of its kind |
| Attributes.KindPuts | src/main/java/com/pandymic/dev/mcblockreporter/McBlockReporterPlugin.java:151-348 | an instanceof test writes its kind's keys when the block exposes the capability and no key otherwise |
| Attributes.AgeableKeys | src/main/java/com/pandymic/dev/mcblockreporter/McBlockReporterPlugin.java:169-172 | the Ageable branch writes exactly `age` and `maximumAge` |
| Attributes.StairsKeys | src/main/java/com/pandymic/dev/mcblockreporter/McBlockReporterPlugin.java:183-187 | the Stairs branch writes exactly `shape`, `facing` and `half` |
| Attributes.IndexedKeys | src/main/java/com/pandymic/dev/mcblockreporter/McBlockReporterPlugin.java:227-231 | a counted loop of puts writes exactly the keys prefix + i + suffix for i below its bound |
| Attributes.BookshelfKeys | src/main/java/com/pandymic/dev/mcblockreporter/McBlockReporterPlugin.java:227-231 | the chiseled bookshelf loop writes exactly `slot_0_occupied` .. `slot_5_occupied` |
| Attributes.BrewingStandKeys | src/main/java/com/pandymic/dev/mcblockreporter/McBlockReporterPlugin.java:286-290 | the brewing stand loop writes exactly `has_bottle_0` .. `has_bottle_2` |
| Attributes.RedstoneWireKeys | src/main/java/com/pandymic/dev/mcblockreporter/McBlockReporterPlugin.java:301-307 | the RedstoneWire branch writes exactly the four `*_wire_connection` keys |
| Attributes.WallKeys | src/main/java/com/pandymic/dev/mcblockreporter/McBlockReporterPlugin.java:341-348 | the Wall branch writes exactly `up` and the four `*_wall_height` keys |
| Attributes.ReservedFree | src/main/java/com/pandymic/dev/mcblockreporter/McBlockReporterPlugin.java:139-348 | no capability branch writes `world`, `x`, `y`, `z`, `material`, `id` or `extraData` |
| Attributes.EveryKindProbed | src/main/java/com/pandymic/dev/mcblockreporter/McBlockReporterPlugin.java:151-348 | every capability is tested, before or after the extraData put |
| Attributes.OwnPutsValues | src/main/java/com/pandymic/dev/mcblockreporter/McBlockReporterPlugin.java:139-296 | the plugin's own puts leave the block's world, coordinates and material, the registry id exactly for a monitored block, and the extra data exactly when given |
| Attributes.SnapshotOwnKeys | src/main/java/com/pandymic/dev/mcblockreporter/McBlockReporterPlugin.java:139-296 | the attribute map always holds `world`, `x`, `y`, `z`, `material` with the block's values; it holds `id` exactly when the location is monitored, with its registry id; it holds `extraData` exactly when extra data is given, unchanged |
| Attributes.SnapshotKeys | src/main/java/com/pandymic/dev/mcblockreporter/McBlockReporterPlugin.java:134-351 | the attribute map's keys are exactly the base keys, `id` for a monitored block, `extraData` when given, and the keys of the capabilities the block exposes |
| Attributes.SnapshotCapabilityValue | src/main/java/com/pandymic/dev/mcblockreporter/McBlockReporterPlugin.java:151-348 | a capability key holds the value put by the exposed capability latest in the order of tests; the extra data never shadows it |
| Attributes.StairsKeyOwners | src/main/java/com/pandymic/dev/mcblockreporter/McBlockReporterPlugin.java:154-187 | only Directional and Stairs write `facing`; only Bisected and Stairs write `half`; only Stairs writes `shape` |
| Attributes.StairsOverride | src/main/java/com/pandymic/dev/mcblockreporter/McBlockReporterPlugin.java:183-187 | a stairs block reports its own shape, facing and half, once each, replacing what the Directional and Bisected tests wrote |
| Plugin.LoadedMonitored | src/main/java/com/pandymic/dev/mcblockreporter/McBlockReporterPlugin.java:390-397 | the locations the initial batch covers are exactly the monitored ones whose world and chunk are loaded |
| Plugin.ReportsIdentifyBlocks | src/main/java/com/pandymic/dev/mcblockreporter/McBlockReporterPlugin.java:139-142 | the maps of two distinct locations differ, so the batch has one distinct map per loaded monitored location |
| Plugin.UpdateRequestsAppend | src/main/java/com/pandymic/dev/mcblockreporter/McBlockReporterPlugin.java:408-417 | the update requests of two runs of reports, one after the other, are those of the joined run |
| Plugin.PutEntries | src/main/java/com/pandymic/dev/mcblockreporter/McBlockReporterPlugin.java:151-348 | one branch's puts leave the map the run of those puts defines |
| Plugin.PutCapabilities | src/main/java/com/pandymic/dev/mcblockreporter/McBlockReporterPlugin.java:151-293 | the run of instanceof tests leaves the map that the puts of every exposed capability, in test order, define |
| Plugin.SnapshotAsSteps | src/main/java/com/pandymic/dev/mcblockreporter/McBlockReporterPlugin.java:138-350 | the own puts, the tests before extraData, the extraData put and the tests after it, run one after the other, give the map of the whole sequence of puts |
| Plugin.McBlockReporterPlugin.constructor | src/main/java/com/pandymic/dev/mcblockreporter/McBlockReporterPlugin.java:44-45 | a new plugin has an empty registry, an empty cooldown set and has sent nothing |
| Plugin.McBlockReporterPlugin.OnEnable | src/main/java/com/pandymic/dev/mcblockreporter/McBlockReporterPlugin.java:47-96 | enabling warns exactly when apiUrl is unconfigured, resolves the endpoints by the default chain, loads the registry and sends the initial batch |
| Plugin.McBlockReporterPlugin.LoadMonitoredLocations | src/main/java/com/pandymic/dev/mcblockreporter/McBlockReporterPlugin.java:103-131 | the clear-then-loop leaves the registry that `Registry.Load` defines, with its proved id properties; nothing else changes |
| Plugin.McBlockReporterPlugin.BuildBlockDataMap | src/main/java/com/pandymic/dev/mcblockreporter/McBlockReporterPlugin.java:134-351 | the successive puts build exactly the attribute map `Attributes.Snapshot`, whose keys and values the lemmas above pin down |
| Plugin.McBlockReporterPlugin.SendPayload | src/main/java/com/pandymic/dev/mcblockreporter/McBlockReporterPlugin.java:358-365 | one request is handed to the client, to the given URL, with the method upper-cased; nothing else changes |
| Plugin.McBlockReporterPlugin.SendBlockData | src/main/java/com/pandymic/dev/mcblockreporter/McBlockReporterPlugin.java:379-382 | the command channel gets one request carrying the block's map with the extra data |
| Plugin.McBlockReporterPlugin.SendInitialMonitoredData | src/main/java/com/pandymic/dev/mcblockreporter/McBlockReporterPlugin.java:384-406 | nothing is sent when the registry is empty or no monitored location is loaded; otherwise one batch request carries one map without extra data per loaded monitored location, each once |
| Plugin.McBlockReporterPlugin.CollectLoaded | src/main/java/com/pandymic/dev/mcblockreporter/McBlockReporterPlugin.java:389-397 | the loop visits the registry's keys once each and keeps, in visiting order, the map of each loaded one and of no other |
| Plugin.McBlockReporterPlugin.HandleMonitoredBlockUpdate | src/main/java/com/pandymic/dev/mcblockreporter/McBlockReporterPlugin.java:408-417 | a monitored location sends one update request with its map and no extra data; any other location sends nothing |
| Plugin.McBlockReporterPlugin.SendBlockDataPlain | src/main/java/com/pandymic/dev/mcblockreporter/McBlockReporterPlugin.java:420-422 | the one-argument sendBlockData sends the block's map without extra data |
| Plugin.McBlockReporterPlugin.IsBlockMonitored | src/main/java/com/pandymic/dev/mcblockreporter/McBlockReporterPlugin.java:425-427 | true exactly when the location is in the registry |
| Plugin.McBlockReporterPlugin.IsLocationOnUpdateCooldown | src/main/java/com/pandymic/dev/mcblockreporter/McBlockReporterPlugin.java:429-431 | true exactly when the location is on cooldown |
| Plugin.McBlockReporterPlugin.AddLocationToUpdateCooldown | src/main/java/com/pandymic/dev/mcblockreporter/McBlockReporterPlugin.java:433-435 | afterwards the location is on cooldown and no other location's membership changed |
| Plugin.McBlockReporterPlugin.RemoveLocationFromUpdateCooldown | src/main/java/com/pandymic/dev/mcblockreporter/McBlockReporterPlugin.java:437-439 | afterwards the location is off cooldown and no other location's membership changed |
| Debounce.DueTick | src/main/java/com/pandymic/dev/mcblockreporter/BlockMonitorListener.java:39-44 | a task always runs at a later heartbeat; a positive delay runs it exactly that many ticks on |
| Debounce.Due | src/main/java/com/pandymic/dev/mcblockreporter/BlockMonitorListener.java:39-45 | a heartbeat runs only tasks due by its tick |
| Debounce.Kept | src/main/java/com/pandymic/dev/mcblockreporter/BlockMonitorListener.java:39-45 | a heartbeat keeps only tasks due after its tick |
| Debounce.DueKeptCounts | src/main/java/com/pandymic/dev/mcblockreporter/BlockMonitorListener.java:39-45 | a heartbeat splits the queue between the tasks it runs and those it keeps, losing none |
| Debounce.InitialInv | src/main/java/com/pandymic/dev/mcblockreporter/McBlockReporterPlugin.java:45 | a fresh plugin satisfies the gate invariant: a location is on cooldown exactly when one task for it is pending |
| Debounce.SignalInv | src/main/java/com/pandymic/dev/mcblockreporter/BlockMonitorListener.java:20-46 | processBlockChange keeps the gate invariant |
| Debounce.HeartbeatInv | src/main/java/com/pandymic/dev/mcblockreporter/BlockMonitorListener.java:39-45 | a heartbeat keeps the gate invariant and advances the tick by one |
| Debounce.SignalEffect | src/main/java/com/pandymic/dev/mcblockreporter/BlockMonitorListener.java:21-39 | a missing block, an unmonitored location or one on cooldown changes nothing; otherwise exactly that location goes on cooldown and exactly one report for it is scheduled |
| Debounce.SignalsEffect | src/main/java/com/pandymic/dev/mcblockreporter/BlockMonitorListener.java:31-39 | K >= 1 signals for a monitored location off cooldown within one tick schedule exactly one report; signals for a location on cooldown change nothing |
| Debounce.HeartbeatEffect | src/main/java/com/pandymic/dev/mcblockreporter/BlockMonitorListener.java:39-45 | each pending report of a location sends one update when the location is monitored and leaves one pending removal; the location leaves cooldown exactly when its removal ran |
| Debounce.ReportedByCount | src/main/java/com/pandymic/dev/mcblockreporter/BlockMonitorListener.java:40 | the updates sent for a location are as many as its reports run, for a monitored location, and none otherwise |
| Debounce.OneReportPerWindow | src/main/java/com/pandymic/dev/mcblockreporter/BlockMonitorListener.java:31-45 | a burst of signals gives exactly one report; the next heartbeat sends exactly one update and keeps the location on cooldown; signals in the following tick are suppressed; the heartbeat after that sends nothing and clears the cooldown; the next signal schedules exactly one report again |
| Debounce.UnmonitoredUntouched | src/main/java/com/pandymic/dev/mcblockreporter/BlockMonitorListener.java:26-28 | an unmonitored location is never put on cooldown and never gets a task, whatever the signals |
| Listener.Scheduler.RunTaskLater | src/main/java/com/pandymic/dev/mcblockreporter/BlockMonitorListener.java:44 | the task joins the queue, due `delay` ticks on and never before the next heartbeat |
| Listener.Scheduler.RunTask | src/main/java/com/pandymic/dev/mcblockreporter/BlockMonitorListener.java:39 | the task joins the queue, due at the next heartbeat |
| Listener.Scheduler.TakeDue | src/main/java/com/pandymic/dev/mcblockreporter/BlockMonitorListener.java:39-45 | a heartbeat advances the tick and takes the due tasks out of the queue in submission order |
| Listener.BlockMonitorListener.ProcessBlockChange | src/main/java/com/pandymic/dev/mcblockreporter/BlockMonitorListener.java:20-46 | the cooldown set and the task queue move as `Debounce.Signal` says; the registry and the requests sent do not change |
| Listener.BlockMonitorListener.RunScheduled | src/main/java/com/pandymic/dev/mcblockreporter/BlockMonitorListener.java:39-45 | a report task sends the update and then schedules its cooldown removal one tick later; a removal task takes the location off cooldown |
| Listener.BlockMonitorListener.SendUpdate | src/main/java/com/pandymic/dev/mcblockreporter/BlockMonitorListener.java:40 | the report task sends an update exactly for a monitored location and leaves the cooldown set alone |
| Listener.BlockMonitorListener.Tick | src/main/java/com/pandymic/dev/mcblockreporter/BlockMonitorListener.java:39-45 | one heartbeat moves the gate as `Debounce.Heartbeat` says and sends one update request per report that ran, in order |
| Listener.BlockMonitorListener.OnBlockBreak | src/main/java/com/pandymic/dev/mcblockreporter/BlockMonitorListener.java:48-51 | the event's block goes to processBlockChange unchanged |
| Listener.BlockMonitorListener.OnBlockPlace | src/main/java/com/pandymic/dev/mcblockreporter/BlockMonitorListener.java:53-56 | the placed block goes to processBlockChange unchanged |
| Listener.BlockMonitorListener.OnBlockPhysics | src/main/java/com/pandymic/dev/mcblockreporter/BlockMonitorListener.java:58-64 | the event's block goes to processBlockChange unchanged |
| Listener.BlockMonitorListener.OnEntityChangeBlock | src/main/java/com/pandymic/dev/mcblockreporter/BlockMonitorListener.java:66-70 | the event's block goes to processBlockChange unchanged |
| Listener.BlockMonitorListener.OnBlockFade | src/main/java/com/pandymic/dev/mcblockreporter/BlockMonitorListener.java:72-75 | the event's block goes to processBlockChange unchanged |
| Listener.BlockMonitorListener.OnBlockGrow | src/main/java/com/pandymic/dev/mcblockreporter/BlockMonitorListener.java:77-80 | the event's block goes to processBlockChange unchanged |
| Listener.BlockMonitorListener.OnBlockForm | src/main/java/com/pandymic/dev/mcblockreporter/BlockMonitorListener.java:82-85 | the event's block goes to processBlockChange unchanged |
| Listener.BlockMonitorListener.OnBlockSpread | src/main/java/com/pandymic/dev/mcblockreporter/BlockMonitorListener.java:87-90 | the event's block goes to processBlockChange unchanged |
| Listener.BlockMonitorListener.OnLeavesDecay | src/main/java/com/pandymic/dev/mcblockreporter/BlockMonitorListener.java:92-95 | the event's block goes to processBlockChange unchanged |
| Command.DigitChar | src/main/java/com/pandymic/dev/mcblockreporter/HttpBlockInfoCommand.java:32-34 | the digit character for a value below ten is a digit of that value |
| Command.ParseInt | src/main/java/com/pandymic/dev/mcblockreporter/HttpBlockInfoCommand.java:32-34 | `Integer.parseInt` succeeds exactly when the string is an optional '-' or '+' followed by at least one decimal digit and the signed value is an int, and then yields that signed value; so it refuses the empty string, a bad first character and any later non-digit; a leading '-' gives a value <= 0 and anything else a value >= 0 |
| Command.NatDigitsValue | src/main/java/com/pandymic/dev/mcblockreporter/HttpBlockInfoCommand.java:32-34 | the decimal digits of a natural number spell that number |
| Command.ParseShow | src/main/java/com/pandymic/dev/mcblockreporter/HttpBlockInfoCommand.java:32-34 | every int, written in decimal, parses back to itself |
| Command.ParseShowNegative | src/main/java/com/pandymic/dev/mcblockreporter/HttpBlockInfoCommand.java:32-34 | every negative int, written in decimal with its '-', parses back to itself |
| Command.ParseRejectsOverflow | src/main/java/com/pandymic/dev/mcblockreporter/HttpBlockInfoCommand.java:32-34 | digits whose value exceeds the int range are refused, not wrapped |
| Command.ParseLoneSign | src/main/java/com/pandymic/dev/mcblockreporter/HttpBlockInfoCommand.java:32-34 | a lone '-' or '+' is refused |
| Command.ParseRejectsUnderflow | src/main/java/com/pandymic/dev/mcblockreporter/HttpBlockInfoCommand.java:32-34 | '-' followed by digits whose value is below Integer.MIN_VALUE is refused, not wrapped |
| Command.ParseDigits | src/main/java/com/pandymic/dev/mcblockreporter/HttpBlockInfoCommand.java:32-34 | an unsigned run of digits parses to its value exactly when that value is an int, and is refused otherwise |
| Command.ParseSigned | src/main/java/com/pandymic/dev/mcblockreporter/HttpBlockInfoCommand.java:32-34 | a '-' or '+' followed by digits parses to the signed value exactly when that is an int, and is refused otherwise |
| Command.ParsePlusSign | src/main/java/com/pandymic/dev/mcblockreporter/HttpBlockInfoCommand.java:32-34 | a leading '+' parses like no sign at all, and '-' before digits worth zero gives 0 |
| Command.LeadingZeroValue | src/main/java/com/pandymic/dev/mcblockreporter/HttpBlockInfoCommand.java:32-34 | a leading zero does not change the value a run of digits spells |
| Command.ParseLeadingZero | src/main/java/com/pandymic/dev/mcblockreporter/HttpBlockInfoCommand.java:32-34 | a leading zero does not change what unsigned digits parse to |
| Command.ParseNegativeLeadingZero | src/main/java/com/pandymic/dev/mcblockreporter/HttpBlockInfoCommand.java:32-34 | a zero after the '-' does not change what negative digits parse to |
| Command.Evaluate | src/main/java/com/pandymic/dev/mcblockreporter/HttpBlockInfoCommand.java:24-73 | only `httpblockinfo` (any case) is handled, otherwise false with no message and no send; a wrong argument count gives only the usage line; a non-int coordinate gives only the coordinates error; a report is sent exactly when the arguments are good, the selector resolves and there is a world, for the parsed coordinates in the sender's world, and then the messages are exactly the selector's warning, if any, followed by the confirmation; a failing selector gives exactly one error message with its detail; a missing world gives the selector's warning, if any, followed by one error message |
| Command.PickExtra | src/main/java/com/pandymic/dev/mcblockreporter/HttpBlockInfoCommand.java:37-50 | the extra-data choice fails exactly when the token is a selector whose resolution throws; it warns only for a selector matching nothing, and then exactly once, naming the token |
| Command.ExtraDataChoice | src/main/java/com/pandymic/dev/mcblockreporter/HttpBlockInfoCommand.java:35-50 | with three arguments the extra data is null; a non-selector token is sent as a string; a selector matching entities sends their names in order; a selector matching nothing sends the token and warns first |
| Command.NoMatchWarns | src/main/java/com/pandymic/dev/mcblockreporter/HttpBlockInfoCommand.java:43-46 | a selector that matches nothing warns before the confirmation or the error, whether or not the report can then be sent |
| Command.HttpBlockInfoCommand.OnCommand | src/main/java/com/pandymic/dev/mcblockreporter/HttpBlockInfoCommand.java:24-73 | the executor returns and says what `Command.Evaluate` decides, and the plugin sends exactly the one command-channel request Evaluate calls for, or none |

## Left out

- The HTTP transport: `HttpClient.sendAsync` and its completion callbacks are a foreign asynchronous library. A request handed to the client is the end of the model; only the status classification of the callbacks is modelled (`Config.Classify`).
- Plugin.McBlockReporterPlugin.SendPayload: assumes every URL is accepted. `URI.create` and the request builder throw synchronously on a malformed URL or one without an http scheme, such as the unconfigured placeholder apiUrl. In the listener's next-tick task that exception would skip the `runTaskLater`, so the location would stay on cooldown for good. In the command it would replace the confirmation by the generic error message. The model does not capture either consequence.
- Gson serialisation (`buildBlockDataJson`, the `toJson` calls): a foreign library. A request carries the attribute map itself, and no key order is asserted, since a `HashMap` has none.
- Plugin.McBlockReporterPlugin.SendInitialMonitoredData: the order of the batch is the `HashMap`'s iteration order, which Java leaves unspecified. The model states the batch for an existentially chosen visiting order (a ghost sequence), not for one particular order.
- Plugin.McBlockReporterPlugin.LoadMonitoredLocations: the `currentIndex` counter is unbounded, so the wrap-around after 2^31 configured locations is not modelled.
- The Bukkit world, chunk, block and entity APIs: `getWorld`, `isWorldLoaded`, `getChunk().isLoaded()`, `getBlock`, `selectEntities` and `getWorlds` are inputs (`Plugin.Server`, the selector function, the world list). A malformed selector is an input result carrying the exception's message.
- The event handlers' `ignoreCancelled = true`: a cancelled event never reaches the handler. The handler methods stand for delivered, uncancelled events, and event priority is not modelled.
- The real scheduler: `Listener.Scheduler` is a deterministic queue of (due tick, task) pairs whose heartbeat runs the due tasks in submission order.
- Logging and chat formatting: colours and message text are not modelled; messages are kinds (`Command.Message`) and the start-up warning is a boolean.
- Command registration and the `localblockinfo` wiring in `onEnable`: not modelled. The executor only handles the name `httpblockinfo`, so a call under `localblockinfo` returns false, as `Command.Evaluate` states.
- The commented-out piston handlers in the listener: dead code.
- `saveDefaultConfig` and configuration loading: the configuration is a map from dotted keys to strings, and the location list is a sequence of raw records.
- Common.ToUpper, Common.EqualsIgnoreCase: ASCII letters only, where Java maps all of Unicode.
- Command.ParseInt: ASCII digits only, where Java's `Integer.parseInt` also accepts other Unicode decimal digits.
- Command.Evaluate: the detail text of an exception message is an input (selector failure) or a fixed constant (no world), not Java's exact text.
- Registry.IntValue: a double coordinate is a finite real; NaN and infinities are not modelled.
- onDisable: it only logs.
