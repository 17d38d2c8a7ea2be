/** The plugin object: its configuration, the monitored-block registry, the
    set of locations on update cooldown, and the requests it hands to the
    HTTP client, in the order it hands them over. */
module Plugin {
  import opened Common
  import opened Config
  import opened Registry
  import opened Puts
  import opened Attributes

  /** What a request carries: one attribute map, or a batch of them. */
  datatype Body = Single(attrs: map<string, Value>) | Batch(items: seq<map<string, Value>>)

  /** An asynchronous HTTP request as handed to the client. */
  datatype Request = Request(url: string, verb: string, body: Body)

  /** What the plugin can see of the server: the worlds by configured name,
      the data of the block at each location, and whether a location's world
      and chunk are loaded. */
  datatype Server = Server(worlds: map<string, string>, blockAt: Location -> BlockData, loaded: Location -> bool)

  /** The monitored locations whose world and chunk are loaded. */
  function LoadedMonitored(registry: map<Location, int>, server: Server): (s: set<Location>)
    ensures forall loc :: loc in s <==> loc in registry && server.loaded(loc)
  {
    set loc | loc in registry && server.loaded(loc)
  }

  /** The request handleMonitoredBlockUpdate sends for a monitored `loc`:
      the block's map, without extra data, to the update channel. */
  function UpdateRequest(loc: Location, e: Endpoints, server: Server, registry: map<Location, int>): Request {
    Request(e.monitorUpdateUrl, ToUpper(e.monitorUpdateMethod), Single(Snapshot(loc, None, server.blockAt(loc), registry)))
  }

  /** The update requests for `locs`, one per location, in order. */
  function UpdateRequests(locs: seq<Location>, e: Endpoints, server: Server, registry: map<Location, int>): (r: seq<Request>)
    ensures |r| == |locs|
  {
    seq(|locs|, i requires 0 <= i < |locs| => UpdateRequest(locs[i], e, server, registry))
  }

  lemma UpdateRequestsSingle(loc: Location, e: Endpoints, server: Server, registry: map<Location, int>)
    ensures UpdateRequests([loc], e, server, registry) == [UpdateRequest(loc, e, server, registry)]
  {
    assert UpdateRequests([loc], e, server, registry)[0] == UpdateRequest(loc, e, server, registry);
  }

  /** Updates for two runs of locations, one after the other, are the
      updates for the joined run. */
  lemma UpdateRequestsAppend(a: seq<Location>, b: seq<Location>, e: Endpoints, server: Server, registry: map<Location, int>)
    ensures UpdateRequests(a + b, e, server, registry) == UpdateRequests(a, e, server, registry) + UpdateRequests(b, e, server, registry)
  {
    var l, r := UpdateRequests(a + b, e, server, registry), UpdateRequests(a, e, server, registry) + UpdateRequests(b, e, server, registry);
    forall i | 0 <= i < |l| ensures l[i] == r[i] {
      if i < |a| {
        assert (a + b)[i] == a[i];
      } else {
        assert (a + b)[i] == b[i - |a|];
      }
    }
  }

  /** The attribute maps of `order`'s blocks, without extra data. */
  function Reports(order: seq<Location>, server: Server, registry: map<Location, int>): (r: seq<map<string, Value>>)
    ensures |r| == |order|
  {
    seq(|order|, i requires 0 <= i < |order| => Snapshot(order[i], None, server.blockAt(order[i]), registry))
  }

  lemma ReportsSnoc(order: seq<Location>, loc: Location, server: Server, registry: map<Location, int>)
    ensures Reports(order + [loc], server, registry) == Reports(order, server, registry) + [Snapshot(loc, None, server.blockAt(loc), registry)]
  {
    var l, r := Reports(order + [loc], server, registry), Reports(order, server, registry) + [Snapshot(loc, None, server.blockAt(loc), registry)];
    forall i | 0 <= i < |l| ensures l[i] == r[i] {
      if i < |order| {
        assert (order + [loc])[i] == order[i];
      } else {
        assert (order + [loc])[i] == loc;
      }
    }
  }

  /** The attribute maps of distinct locations are distinct: each one names
      its block's world and coordinates. */
  lemma ReportsIdentifyBlocks(server: Server, registry: map<Location, int>, a: Location, b: Location)
    requires a != b
    ensures Snapshot(a, None, server.blockAt(a), registry) != Snapshot(b, None, server.blockAt(b), registry)
  {
    SnapshotOwnKeys(a, None, server.blockAt(a), registry);
    SnapshotOwnKeys(b, None, server.blockAt(b), registry);
  }

  /** The puts of one instanceof branch, in order. */
  method PutEntries(m: map<string, Value>, es: seq<Put>) returns (r: map<string, Value>)
    ensures r == Apply(m, es)
  {
    r := m;
    var j := 0;
    while j < |es|
      invariant 0 <= j <= |es|
      invariant r == Apply(m, es[..j])
    {
      assert es[..j + 1] == es[..j] + [es[j]];
      ApplySnoc(m, es[..j], es[j]);
      r := r[es[j].key := es[j].value];
      j := j + 1;
    }
    assert es[..j] == es;
  }

  /** Puts the entries of every capability in `kinds` that `d` exposes, in
      order: the run of instanceof tests of buildBlockDataMap. */
  method PutCapabilities(d: BlockData, m: map<string, Value>, kinds: seq<Kind>) returns (r: map<string, Value>)
    ensures r == Apply(m, Chain(KindStep(d), kinds))
  {
    r := m;
    var i := 0;
    while i < |kinds|
      invariant 0 <= i <= |kinds|
      invariant r == Apply(m, Chain(KindStep(d), kinds[..i]))
    {
      var p := Probe(d, kinds[i]);
      if p.Some? {
        r := PutEntries(r, Entries(p.value));
      }
      ChainStep(d, m, kinds[..i], kinds[i]);
      assert kinds[..i + 1] == kinds[..i] + [kinds[i]];
      i := i + 1;
    }
    assert kinds[..i] == kinds;
  }

  /** One more test at the end of a chain: its branch's puts, if the block
      exposes its capability, follow the chain's. */
  lemma ChainStep(d: BlockData, m: map<string, Value>, ks: seq<Kind>, k: Kind)
    ensures Apply(m, Chain(KindStep(d), ks + [k])) ==
      if Probe(d, k).Some? then Apply(Apply(m, Chain(KindStep(d), ks)), Entries(Probe(d, k).value))
      else Apply(m, Chain(KindStep(d), ks))
  {
    assert (ks + [k])[..|ks|] == ks;
    ApplyAppend(m, Chain(KindStep(d), ks), KindPuts(d, k));
    if Probe(d, k).None? {
      assert Chain(KindStep(d), ks) + KindPuts(d, k) == Chain(KindStep(d), ks);
    }
  }

  class McBlockReporterPlugin {
    var endpoints: Endpoints
    /** Each monitored location and its id. */
    var monitoredBlockIndexMap: map<Location, int>
    /** The locations whose update is in flight. */
    var updateCooldownLocations: set<Location>
    /** Every request handed to the HTTP client, oldest first. */
    var outbox: seq<Request>

    /** A plugin that has not been enabled: no endpoints yet, nothing
        monitored, nothing sent. */
    constructor ()
      ensures endpoints == Endpoints("", "", "", "", "", "", "")
      ensures monitoredBlockIndexMap == map[] && updateCooldownLocations == {} && outbox == []
    {
      endpoints := Endpoints("", "", "", "", "", "", "");
      monitoredBlockIndexMap := map[];
      updateCooldownLocations := {};
      outbox := [];
    }

    /** Start-up: resolve the endpoints, load the registry, send the
        initial batch. `warned` tells whether the apiUrl warning was logged. */
    method OnEnable(cfg: map<string, string>, entries: seq<RawEntry>, server: Server) returns (warned: bool, ghost order: seq<Location>)
      modifies this
      ensures warned == ApiUrlUnconfigured(cfg)
      ensures endpoints == ResolveEndpoints(cfg)
      ensures monitoredBlockIndexMap == Load(entries, server.worlds).registry
      ensures updateCooldownLocations == old(updateCooldownLocations)
      ensures InitialBatchSent(old(outbox), outbox, order, server)
    {
      var api := GetString(cfg, KEY_API_URL, UNCONFIGURED_API_URL);
      warned := api == UNCONFIGURED_API_URL || api == "";
      var reportPath := GetString(cfg, KEY_REPORT_ENDPOINT, "/report");
      var defaultMethod := ToUpper(GetString(cfg, KEY_MONITOR_METHOD, "PUT"));
      var defaultPath := GetString(cfg, KEY_MONITOR_ENDPOINT, "/monitor");
      var updateMethod := ToUpper(GetString(cfg, KEY_UPDATE_METHOD, defaultMethod));
      var updatePath := GetString(cfg, KEY_UPDATE_ENDPOINT, defaultPath);
      var batchMethod := ToUpper(GetString(cfg, KEY_BATCH_METHOD, defaultMethod));
      var batchPath := GetString(cfg, KEY_BATCH_ENDPOINT, defaultPath);
      endpoints := Endpoints(api, api + reportPath, "POST", api + batchPath, batchMethod, api + updatePath, updateMethod);
      LoadMonitoredLocations(entries, server.worlds);
      order := SendInitialMonitoredData(server);
    }

    /** After sending the initial batch over `order`: `order` lists the
        loaded monitored locations once each, and the batch of their maps
        went to the batch channel unless it was empty. */
    ghost predicate InitialBatchSent(before: seq<Request>, after: seq<Request>, order: seq<Location>, server: Server)
      reads this
    {
      && (forall i, j :: 0 <= i < j < |order| ==> order[i] != order[j])
      && (forall loc :: loc in order <==> loc in LoadedMonitored(monitoredBlockIndexMap, server))
      && after == before + (if order == [] then [] else
           [Request(endpoints.monitorBatchUrl, ToUpper(endpoints.monitorBatchMethod), Batch(Reports(order, server, monitoredBlockIndexMap)))])
    }

    /** Rebuilds the registry from the configured records: a record that
        does not parse, or names a world the server does not have, is
        skipped without using an id. */
    method LoadMonitoredLocations(entries: seq<RawEntry>, worlds: map<string, string>)
      modifies this
      ensures monitoredBlockIndexMap == Load(entries, worlds).registry
      ensures endpoints == old(endpoints) && updateCooldownLocations == old(updateCooldownLocations) && outbox == old(outbox)
    {
      monitoredBlockIndexMap := map[];
      if |entries| == 0 {
        return;
      }
      var currentIndex: nat := 0;
      var i := 0;
      while i < |entries|
        invariant 0 <= i <= |entries|
        invariant LoadFrom(entries[i..], worlds, monitoredBlockIndexMap, currentIndex) == Load(entries, worlds)
        invariant endpoints == old(endpoints) && updateCooldownLocations == old(updateCooldownLocations) && outbox == old(outbox)
      {
        assert entries[i..][1..] == entries[i + 1..];
        var loc := ParseEntry(entries[i], worlds);
        if loc.Some? {
          monitoredBlockIndexMap := monitoredBlockIndexMap[loc.value := currentIndex];
          currentIndex := currentIndex + 1;
        }
        i := i + 1;
      }
    }

    /** The attribute map of the block at `loc`: coordinates, material, id
        when monitored, every capability the block exposes, and the extra
        data when given. */
    method BuildBlockDataMap(loc: Location, extra: Option<Value>, server: Server) returns (m: map<string, Value>)
      ensures m == Snapshot(loc, extra, server.blockAt(loc), monitoredBlockIndexMap)
    {
      var d := server.blockAt(loc);
      m := map[];
      m := m["world" := Str(loc.world)];
      m := m["x" := Int(loc.x)];
      m := m["y" := Int(loc.y)];
      m := m["z" := Int(loc.z)];
      m := m["material" := Str(d.material)];
      if loc in monitoredBlockIndexMap {
        m := m["id" := Int(monitoredBlockIndexMap[loc])];
      }
      OwnPuts(loc, d, monitoredBlockIndexMap, m);
      ghost var m0 := m;
      m := PutCapabilities(d, m, BEFORE_EXTRA);
      ghost var m1 := m;
      if extra.Some? {
        m := m["extraData" := extra.value];
      }
      ExtraStep(extra, m1, m);
      ghost var m2 := m;
      m := PutCapabilities(d, m, AFTER_EXTRA);
      SnapshotSteps(loc, extra, d, monitoredBlockIndexMap, m0, m1, m2, m);
    }

    /** Hands a request to the HTTP client; the method is upper-cased. */
    method SendPayload(url: string, body: Body, httpMethod: string)
      modifies this
      ensures outbox == old(outbox) + [Request(url, ToUpper(httpMethod), body)]
      ensures endpoints == old(endpoints) && monitoredBlockIndexMap == old(monitoredBlockIndexMap)
      ensures updateCooldownLocations == old(updateCooldownLocations)
    {
      outbox := outbox + [Request(url, ToUpper(httpMethod), body)];
    }

    /** The command channel: the map of the block at `loc`, with the extra
        data when given, to the report URL with the report method. */
    method SendBlockData(loc: Location, extra: Option<Value>, server: Server)
      modifies this
      ensures outbox == old(outbox) + [Request(endpoints.commandReportUrl, ToUpper(endpoints.commandReportMethod),
        Single(Snapshot(loc, extra, server.blockAt(loc), monitoredBlockIndexMap)))]
      ensures endpoints == old(endpoints) && monitoredBlockIndexMap == old(monitoredBlockIndexMap)
      ensures updateCooldownLocations == old(updateCooldownLocations)
    {
      var m := BuildBlockDataMap(loc, extra, server);
      SendPayload(endpoints.commandReportUrl, Single(m), endpoints.commandReportMethod);
    }

    /** The initial batch: the map of every monitored block whose world and
        chunk are loaded, in the registry's iteration order (`order`), sent
        as one request unless there is none. */
    method SendInitialMonitoredData(server: Server) returns (ghost order: seq<Location>)
      modifies this
      ensures InitialBatchSent(old(outbox), outbox, order, server)
      ensures endpoints == old(endpoints) && monitoredBlockIndexMap == old(monitoredBlockIndexMap)
      ensures updateCooldownLocations == old(updateCooldownLocations)
    {
      order := [];
      if |monitoredBlockIndexMap| == 0 {
        assert monitoredBlockIndexMap == map[];
        return;
      }
      var batchData;
      batchData, order := CollectLoaded(server);
      if |batchData| == 0 {
        return;
      }
      SendPayload(endpoints.monitorBatchUrl, Batch(batchData), endpoints.monitorBatchMethod);
    }

    /** The loop of sendInitialMonitoredData: visits every monitored
        location once, in the registry's iteration order, and keeps the
        attribute map of each one whose world and chunk are loaded. */
    method CollectLoaded(server: Server) returns (batchData: seq<map<string, Value>>, ghost order: seq<Location>)
      ensures forall i, j :: 0 <= i < j < |order| ==> order[i] != order[j]
      ensures forall loc :: loc in order <==> loc in monitoredBlockIndexMap && server.loaded(loc)
      ensures batchData == Reports(order, server, monitoredBlockIndexMap)
    {
      order := [];
      batchData := [];
      var remaining := monitoredBlockIndexMap.Keys;
      while remaining != {}
        invariant remaining <= monitoredBlockIndexMap.Keys
        invariant forall i, j :: 0 <= i < j < |order| ==> order[i] != order[j]
        invariant forall loc :: loc in order <==> loc in monitoredBlockIndexMap && server.loaded(loc) && loc !in remaining
        invariant batchData == Reports(order, server, monitoredBlockIndexMap)
        decreases remaining
      {
        var loc :| loc in remaining;
        remaining := remaining - {loc};
        if server.loaded(loc) {
          var m := BuildBlockDataMap(loc, None, server);
          ReportsSnoc(order, loc, server, monitoredBlockIndexMap);
          order := order + [loc];
          batchData := batchData + [m];
        }
      }
    }

    /** A change to a monitored block sends its map, without extra data, to
        the update channel; any other block is ignored. */
    method HandleMonitoredBlockUpdate(loc: Location, server: Server)
      modifies this
      ensures outbox == old(outbox) + UpdateRequests(if loc in monitoredBlockIndexMap then [loc] else [], endpoints, server, monitoredBlockIndexMap)
      ensures endpoints == old(endpoints) && monitoredBlockIndexMap == old(monitoredBlockIndexMap)
      ensures updateCooldownLocations == old(updateCooldownLocations)
    {
      if loc in monitoredBlockIndexMap {
        var m := BuildBlockDataMap(loc, None, server);
        SendPayload(endpoints.monitorUpdateUrl, Single(m), endpoints.monitorUpdateMethod);
        UpdateRequestsSingle(loc, endpoints, server, monitoredBlockIndexMap);
      }
    }

    /** sendBlockData without extra data. */
    method SendBlockDataPlain(loc: Location, server: Server)
      modifies this
      ensures outbox == old(outbox) + [Request(endpoints.commandReportUrl, ToUpper(endpoints.commandReportMethod),
        Single(Snapshot(loc, None, server.blockAt(loc), monitoredBlockIndexMap)))]
      ensures endpoints == old(endpoints) && monitoredBlockIndexMap == old(monitoredBlockIndexMap)
      ensures updateCooldownLocations == old(updateCooldownLocations)
    {
      SendBlockData(loc, None, server);
    }

    method IsBlockMonitored(loc: Location) returns (b: bool)
      ensures b <==> loc in monitoredBlockIndexMap
    {
      b := loc in monitoredBlockIndexMap;
    }

    method IsLocationOnUpdateCooldown(loc: Location) returns (b: bool)
      ensures b <==> loc in updateCooldownLocations
    {
      b := loc in updateCooldownLocations;
    }

    method AddLocationToUpdateCooldown(loc: Location)
      modifies this
      ensures updateCooldownLocations == old(updateCooldownLocations) + {loc}
      ensures endpoints == old(endpoints) && monitoredBlockIndexMap == old(monitoredBlockIndexMap) && outbox == old(outbox)
    {
      updateCooldownLocations := updateCooldownLocations + {loc};
    }

    method RemoveLocationFromUpdateCooldown(loc: Location)
      modifies this
      ensures updateCooldownLocations == old(updateCooldownLocations) - {loc}
      ensures endpoints == old(endpoints) && monitoredBlockIndexMap == old(monitoredBlockIndexMap) && outbox == old(outbox)
    {
      updateCooldownLocations := updateCooldownLocations - {loc};
    }
  }

  /** The base puts and the id put, made one at a time. */
  lemma OwnPuts(loc: Location, d: BlockData, registry: map<Location, int>, m: map<string, Value>)
    requires var base := map[]["world" := Str(loc.world)]["x" := Int(loc.x)]["y" := Int(loc.y)]["z" := Int(loc.z)]["material" := Str(d.material)];
      m == if loc in registry then base["id" := Int(registry[loc])] else base
    ensures m == Apply(map[], BasePuts(loc, d) + IdPuts(loc, registry))
  {
    var p0, p1, p2, p3, p4 := Put("world", Str(loc.world)), Put("x", Int(loc.x)), Put("y", Int(loc.y)), Put("z", Int(loc.z)), Put("material", Str(d.material));
    ApplySnoc(map[], [], p0);
    assert [] + [p0] == [p0];
    ApplySnoc(map[], [p0], p1);
    ApplySnoc(map[], [p0, p1], p2);
    ApplySnoc(map[], [p0, p1, p2], p3);
    ApplySnoc(map[], [p0, p1, p2, p3], p4);
    assert [p0] + [p1] == [p0, p1];
    assert [p0, p1] + [p2] == [p0, p1, p2];
    assert [p0, p1, p2] + [p3] == [p0, p1, p2, p3];
    assert BasePuts(loc, d) == [p0, p1, p2, p3] + [p4];
    if loc in registry {
      ApplySnoc(map[], BasePuts(loc, d), Put("id", Int(registry[loc])));
    } else {
      assert BasePuts(loc, d) + IdPuts(loc, registry) == BasePuts(loc, d);
    }
  }

  /** The extraData put, made when there is extra data. */
  lemma ExtraStep(extra: Option<Value>, m1: map<string, Value>, m2: map<string, Value>)
    requires m2 == if extra.Some? then m1["extraData" := extra.value] else m1
    ensures m2 == Apply(m1, ExtraPuts(extra))
  {
    if extra.Some? {
      ApplySnoc(m1, [], Put("extraData", extra.value));
      assert [] + [Put("extraData", extra.value)] == ExtraPuts(extra);
    }
  }

  /** The four stages of buildBlockDataMap compose to the block's attribute map. */
  lemma SnapshotSteps(loc: Location, extra: Option<Value>, d: BlockData, registry: map<Location, int>,
                      m0: map<string, Value>, m1: map<string, Value>, m2: map<string, Value>, m3: map<string, Value>)
    requires m0 == Apply(map[], BasePuts(loc, d) + IdPuts(loc, registry))
    requires m1 == Apply(m0, Chain(KindStep(d), BEFORE_EXTRA))
    requires m2 == Apply(m1, ExtraPuts(extra))
    requires m3 == Apply(m2, Chain(KindStep(d), AFTER_EXTRA))
    ensures m3 == Snapshot(loc, extra, d, registry)
  {
    SnapshotAsSteps(BasePuts(loc, d) + IdPuts(loc, registry), KindStep(d), BEFORE_EXTRA, ExtraPuts(extra), AFTER_EXTRA);
  }

  /** Running the own puts, the first chain, the middle puts and the second
      chain one after the other yields the map of the whole layout. */
  lemma SnapshotAsSteps<K>(own: seq<Put>, step: K -> seq<Put>, before: seq<K>, mid: seq<Put>, after: seq<K>)
    ensures Apply(Apply(Apply(Apply(map[], own), Chain(step, before)), mid), Chain(step, after))
         == Apply(map[], Layout(own, step, before, mid, after))
  {
    ApplyAppend(map[], own, Chain(step, before));
    ApplyAppend(map[], own + Chain(step, before), mid);
    ApplyAppend(map[], own + Chain(step, before) + mid, Chain(step, after));
  }
}
