/** The watch registry: how the list of configured locations becomes the map
    from coordinate to id. Each raw record is parsed on its own; a record that
    fails (missing or mistyped field, unknown world) is skipped and uses up no
    id; a parsed record takes the next id, and a coordinate seen again takes
    the later id while the earlier id stays used up. */
module Registry {
  import opened Common

  /** One field of a configuration record as the YAML loader hands it over. */
  datatype RawValue =
    | Absent            // the key is missing: get returns null
    | Text(s: string)   // a String
    | Whole(n: int)     // an Integer, Long or BigInteger
    | Decimal(r: real)  // a finite Double
    | Other             // any other object (list, map, boolean, ...)

  /** One entry of monitoredBlocks.locations. */
  datatype RawEntry = RawEntry(world: RawValue, x: RawValue, y: RawValue, z: RawValue)

  /** ((Number) v).intValue(): None when the cast (or the null) throws. */
  function IntValue(v: RawValue): (r: Option<int>)
    ensures r.Some? ==> IsInt32(r.value)
    ensures r.Some? <==> v.Whole? || v.Decimal?
  {
    match v
    case Whole(n) => Some(Wrap32(n))
    case Decimal(r) => Some(TruncToInt32(r))
    case _ => None
  }

  /** The body of the try block: the coordinate of one record, or None when
      the record throws or names a world that getWorld does not find.
      `worlds` maps a configured world name to the name of the world it
      resolves to. */
  function ParseEntry(e: RawEntry, worlds: map<string, string>): (r: Option<Location>)
    ensures r.Some? <==>
      && e.world.Text? && e.world.s in worlds
      && IntValue(e.x).Some? && IntValue(e.y).Some? && IntValue(e.z).Some?
    ensures r.Some? ==>
      r.value == Location(worlds[e.world.s], IntValue(e.x).value, IntValue(e.y).value, IntValue(e.z).value)
  {
    if !e.world.Text? then None
    else
      var x, y, z := IntValue(e.x), IntValue(e.y), IntValue(e.z);
      if x.None? || y.None? || z.None? then None
      else if e.world.s !in worlds then None
      else Some(Location(worlds[e.world.s], x.value, y.value, z.value))
  }

  /** The registry and how many ids the counter has handed out. */
  datatype Loaded = Loaded(registry: map<Location, int>, issued: nat)

  /** The loop of loadMonitoredLocations, from entry `entries[0]` on, with the
      registry built so far and the counter's current value. */
  function LoadFrom(entries: seq<RawEntry>, worlds: map<string, string>, reg: map<Location, int>, next: nat): Loaded
    decreases |entries|
  {
    if entries == [] then Loaded(reg, next)
    else match ParseEntry(entries[0], worlds)
      case None => LoadFrom(entries[1..], worlds, reg, next)
      case Some(loc) => LoadFrom(entries[1..], worlds, reg[loc := next], next + 1)
  }

  /** loadMonitoredLocations: clear, then run the loop from id 0. */
  function Load(entries: seq<RawEntry>, worlds: map<string, string>): Loaded {
    LoadFrom(entries, worlds, map[], 0)
  }

  /** The coordinates of the records that parse, in configuration order. */
  function Parsed(entries: seq<RawEntry>, worlds: map<string, string>): (p: seq<Location>)
    ensures |p| <= |entries|
  {
    if entries == [] then []
    else match ParseEntry(entries[0], worlds)
      case None => Parsed(entries[1..], worlds)
      case Some(loc) => [loc] + Parsed(entries[1..], worlds)
  }

  lemma {:induction false} ParsedAppend(a: seq<RawEntry>, b: seq<RawEntry>, worlds: map<string, string>)
    ensures Parsed(a + b, worlds) == Parsed(a, worlds) + Parsed(b, worlds)
  {
    if a != [] {
      assert (a + b)[1..] == a[1..] + b;
      ParsedAppend(a[1..], b, worlds);
    } else {
      assert a + b == b;
    }
  }

  /** `i` is the last position of `l` in `p`. */
  predicate IsLastIndex(p: seq<Location>, l: Location, i: int) {
    0 <= i < |p| && p[i] == l && forall j :: i < j < |p| ==> p[j] != l
  }

  /** The coordinates that occur in `p`. */
  function Elems(p: seq<Location>): (s: set<Location>)
    ensures forall l :: l in s <==> l in p
  {
    set l | l in p
  }

  /** The ids the loop hands out, on the parsed coordinates alone: each
      coordinate in turn takes the next id, overwriting any earlier one. */
  function Assign(p: seq<Location>, reg: map<Location, int>, next: int): map<Location, int>
    decreases |p|
  {
    if p == [] then reg else Assign(p[1..], reg[p[0] := next], next + 1)
  }

  /** The loop is Assign on the records that parse, and the counter advances
      once per parsed record. */
  lemma {:induction false} LoadFromAssign(entries: seq<RawEntry>, worlds: map<string, string>, reg: map<Location, int>, next: nat)
    ensures LoadFrom(entries, worlds, reg, next) == Loaded(Assign(Parsed(entries, worlds), reg, next), next + |Parsed(entries, worlds)|)
    decreases |entries|
  {
    if entries != [] {
      match ParseEntry(entries[0], worlds)
      case None => LoadFromAssign(entries[1..], worlds, reg, next);
      case Some(loc) =>
        var p := Parsed(entries, worlds);
        assert p == [loc] + Parsed(entries[1..], worlds);
        assert p[1..] == Parsed(entries[1..], worlds);
        LoadFromAssign(entries[1..], worlds, reg[loc := next], next + 1);
    }
  }

  /** Assign adds exactly the coordinates of `p` as keys. */
  lemma {:induction false} AssignKeys(p: seq<Location>, reg: map<Location, int>, next: int)
    ensures Assign(p, reg, next).Keys == reg.Keys + Elems(p)
    decreases |p|
  {
    if p != [] {
      AssignKeys(p[1..], reg[p[0] := next], next + 1);
      assert p == [p[0]] + p[1..];
      assert Elems(p) == {p[0]} + Elems(p[1..]);
    }
  }

  /** A key Assign does not reach keeps its id. */
  lemma {:induction false} AssignKeep(p: seq<Location>, reg: map<Location, int>, next: int, l: Location)
    requires l in reg && l !in p
    ensures l in Assign(p, reg, next) && Assign(p, reg, next)[l] == reg[l]
    decreases |p|
  {
    if p != [] {
      assert l != p[0];
      assert l !in p[1..];
      AssignKeep(p[1..], reg[p[0] := next], next + 1, l);
    }
  }

  /** Assign gives each coordinate of `p` the id `next` plus its last
      position in `p`. */
  lemma {:induction false} AssignIds(p: seq<Location>, reg: map<Location, int>, next: int)
    ensures forall l :: l in p ==> l in Assign(p, reg, next) && IsLastIndex(p, l, Assign(p, reg, next)[l] - next)
    decreases |p|
  {
    if p != [] {
      var loc, pr := p[0], p[1..];
      var r := Assign(pr, reg[loc := next], next + 1);
      assert Assign(p, reg, next) == r;
      assert p == [loc] + pr;
      AssignIds(pr, reg[loc := next], next + 1);
      if loc !in pr {
        AssignKeep(pr, reg[loc := next], next + 1, loc);
      }
      ConsStep(pr, loc, r, next);
    }
  }

  /** One parsed coordinate in front of the rest: last positions shift by one,
      and the new coordinate's last position is 0 unless it occurs again. */
  lemma ConsStep(pr: seq<Location>, loc: Location, r: map<Location, int>, next: int)
    requires forall l :: l in pr ==> l in r && IsLastIndex(pr, l, r[l] - (next + 1))
    requires loc !in pr ==> loc in r && r[loc] == next
    ensures forall l :: l in [loc] + pr ==> IsLastIndex([loc] + pr, l, r[l] - next)
  {
    var p := [loc] + pr;
    forall l | l in p ensures IsLastIndex(p, l, r[l] - next) {
      if l in pr {
        var i := r[l] - (next + 1);
        assert p[i + 1] == l;
        forall j | i + 1 < j < |p| ensures p[j] != l {
          assert p[j] == pr[j - 1];
        }
      } else {
        forall j | 0 < j < |p| ensures p[j] != l {
          assert p[j] == pr[j - 1];
        }
      }
    }
  }

  /** Loading issues ids 0, 1, 2, ... to the records that parse, in order:
      the counter ends at the number of parsed records, the registry holds
      exactly the parsed coordinates, and each holds the position of its last
      occurrence among them (a later duplicate overwrites an earlier one). */
  lemma LoadAssignsIdsInOrder(entries: seq<RawEntry>, worlds: map<string, string>)
    ensures var r := Load(entries, worlds); var p := Parsed(entries, worlds);
      && r.issued == |p|
      && r.registry.Keys == Elems(p)
      && (forall l :: l in r.registry ==> IsLastIndex(p, l, r.registry[l]))
  {
    var p := Parsed(entries, worlds);
    LoadFromAssign(entries, worlds, map[], 0);
    AssignKeys(p, map[], 0);
    AssignIds(p, map[], 0);
  }

  /** Two entry lists whose parsed coordinates agree load the same registry
      and use up the same number of ids. */
  lemma LoadDependsOnlyOnParsed(a: seq<RawEntry>, b: seq<RawEntry>, worlds: map<string, string>)
    requires Parsed(a, worlds) == Parsed(b, worlds)
    ensures Load(a, worlds) == Load(b, worlds)
  {
    LoadAssignsIdsInOrder(a, worlds);
    LoadAssignsIdsInOrder(b, worlds);
    var ra, rb := Load(a, worlds).registry, Load(b, worlds).registry;
    var p := Parsed(a, worlds);
    forall l | l in ra ensures ra[l] == rb[l] {
      LastIndexUnique(p, l, ra[l], rb[l]);
    }
  }

  lemma LastIndexUnique(p: seq<Location>, l: Location, i: int, j: int)
    requires IsLastIndex(p, l, i) && IsLastIndex(p, l, j)
    ensures i == j
  {
  }

  /** A record that throws or names an unknown world changes nothing: the
      same registry and the same number of ids as without it. */
  lemma BadEntryUsesNoId(a: seq<RawEntry>, e: RawEntry, b: seq<RawEntry>, worlds: map<string, string>)
    requires ParseEntry(e, worlds).None?
    ensures Load(a + [e] + b, worlds) == Load(a + b, worlds)
  {
    ParsedAppend(a + [e], b, worlds);
    ParsedAppend(a, [e], worlds);
    ParsedAppend(a, b, worlds);
    assert Parsed([e], worlds) == [];
    LoadDependsOnlyOnParsed(a + [e] + b, a + b, worlds);
  }

  predicate HasDuplicate(p: seq<Location>) {
    exists i, j :: 0 <= i < j < |p| && p[i] == p[j]
  }

  lemma HasDuplicateCons(p: seq<Location>)
    requires p != []
    ensures HasDuplicate(p) <==> p[0] in p[1..] || HasDuplicate(p[1..])
  {
    var rest := p[1..];
    if p[0] in rest {
      var k :| 0 <= k < |rest| && rest[k] == p[0];
      assert p[0] == p[k + 1];
    }
    if HasDuplicate(rest) {
      var i, j :| 0 <= i < j < |rest| && rest[i] == rest[j];
      assert p[i + 1] == p[j + 1];
    }
    if HasDuplicate(p) {
      var i, j :| 0 <= i < j < |p| && p[i] == p[j];
      if i == 0 {
        assert rest[j - 1] == p[0];
      } else {
        assert rest[i - 1] == rest[j - 1];
      }
    }
  }

  lemma {:induction false} DistinctCount(p: seq<Location>)
    ensures |Elems(p)| <= |p|
    ensures HasDuplicate(p) <==> |Elems(p)| < |p|
  {
    if p == [] {
      assert Elems(p) == {};
    } else {
      DistinctCount(p[1..]);
      HasDuplicateCons(p);
      ElemsCons(p);
    }
  }

  /** The first coordinate adds one element exactly when it does not occur
      again. */
  lemma ElemsCons(p: seq<Location>)
    requires p != []
    ensures |Elems(p)| == if p[0] in p[1..] then |Elems(p[1..])| else |Elems(p[1..])| + 1
  {
    var rest := p[1..];
    assert Elems(p) == {p[0]} + Elems(rest) by {
      assert p == [p[0]] + rest;
    }
    if p[0] !in rest {
      assert |Elems(p)| == |Elems(rest)| + 1;
    } else {
      assert Elems(p) == Elems(rest);
    }
  }

  /** The registry never holds more coordinates than ids were issued, and it
      holds fewer exactly when some coordinate was configured twice. */
  lemma DuplicatesLeaveGaps(entries: seq<RawEntry>, worlds: map<string, string>)
    ensures var r := Load(entries, worlds);
      && |r.registry| <= r.issued
      && (|r.registry| < r.issued <==> HasDuplicate(Parsed(entries, worlds)))
  {
    LoadAssignsIdsInOrder(entries, worlds);
    var p := Parsed(entries, worlds);
    DistinctCount(p);
    assert |Load(entries, worlds).registry| == |Load(entries, worlds).registry.Keys|;
  }

  /** Distinct coordinates never share an id, and every id is below the
      number issued. */
  lemma IdsAreDistinct(entries: seq<RawEntry>, worlds: map<string, string>, l1: Location, l2: Location)
    requires l1 in Load(entries, worlds).registry && l2 in Load(entries, worlds).registry && l1 != l2
    ensures Load(entries, worlds).registry[l1] != Load(entries, worlds).registry[l2]
    ensures 0 <= Load(entries, worlds).registry[l1] < Load(entries, worlds).issued
  {
    LoadAssignsIdsInOrder(entries, worlds);
  }
}
