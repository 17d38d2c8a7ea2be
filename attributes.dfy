/** The attribute map a block is reported as: the base keys, the registry
    id, every capability the block's data exposes, probed in one fixed order,
    and the caller's extra data. The block's data is an abstract record: its
    material and the list of capabilities it implements, each with the values
    its getters return (enum values already turned into their names). */
module Attributes {
  import opened Common
  import opened Puts

  /** One capability of a block's data, with what its getters return. */
  datatype Facet =
    | Powerable(powered: bool)
    | Directional(facing: string)
    | Rotatable(rotation: string)
    | Openable(isOpen: bool)
    | Waterlogged(waterlogged: bool)
    | Lightable(lit: bool)
    | Ageable(age: int, maximumAge: int)
    | Levelled(level: int, maximumLevel: int)
    | Bisected(half: string)
    | Slab(slabType: string)
    | Stairs(shape: string, facing: string, half: string)
    | FaceAttachable(attachedFace: string)
    | AnaloguePowerable(power: int, maximumPower: int)
    | MultipleFacing(faces: seq<string>)
    | Orientable(axis: string)
    | Snowable(snowy: bool)
    | Bed(part: string, occupied: bool)
    | Bell(attachment: string)
    | Campfire(signalFire: bool)
    | Candle(candles: int)
    | Cake(bites: int)
    | Chest(chestType: string)
    | ChiseledBookshelf(slotOccupied: int -> bool)
    | CommandBlock(conditional: bool)
    | Comparator(comparatorMode: string)
    | Dispenser(triggered: bool)
    | EndPortalFrame(eye: bool)
    | Farmland(moisture: int)
    | Gate(inWall: bool)
    | Hopper(enabled: bool)
    | Jigsaw(orientation: string)
    | Jukebox(hasRecord: bool)
    | Lantern(hanging: bool)
    | Lectern(hasBook: bool)
    | NoteBlock(instrument: string, noteId: int)
    | Piston(extended: bool)
    | TechnicalPiston(pistonType: string)
    | BrewingStand(hasBottle: int -> bool)
    | Rail(railShape: string)
    | RedstoneWire(north: string, east: string, south: string, west: string)
    | Repeater(delay: int, locked: bool)
    | Sapling(stage: int, maximumStage: int)
    | Scaffolding(bottom: bool, distance: int)
    | SeaPickle(pickles: int)
    | StructureBlock(structureMode: string)
    | TNT(unstable: bool)
    | Tripwire(attached: bool, disarmed: bool)
    | TurtleEgg(eggs: int, hatch: int)
    | Wall(up: bool, northHeight: string, eastHeight: string, southHeight: string, westHeight: string)

  /** Which capability a facet is: the type an instanceof test names. */
  datatype Kind =
    | Powerable | Directional | Rotatable | Openable | Waterlogged | Lightable
    | Ageable | Levelled | Bisected | Slab | Stairs | FaceAttachable
    | AnaloguePowerable | MultipleFacing | Orientable | Snowable | Bed | Bell
    | Campfire | Candle | Cake | Chest | ChiseledBookshelf | CommandBlock
    | Comparator | Dispenser | EndPortalFrame | Farmland | Gate | Hopper
    | Jigsaw | Jukebox | Lantern | Lectern | NoteBlock | Piston
    | TechnicalPiston | BrewingStand | Rail | RedstoneWire | Repeater | Sapling
    | Scaffolding | SeaPickle | StructureBlock | TNT | Tripwire | TurtleEgg
    | Wall

  function KindOf(f: Facet): Kind {
    match f
    case Powerable(_) => Kind.Powerable
    case Directional(_) => Kind.Directional
    case Rotatable(_) => Kind.Rotatable
    case Openable(_) => Kind.Openable
    case Waterlogged(_) => Kind.Waterlogged
    case Lightable(_) => Kind.Lightable
    case Ageable(_, _) => Kind.Ageable
    case Levelled(_, _) => Kind.Levelled
    case Bisected(_) => Kind.Bisected
    case Slab(_) => Kind.Slab
    case Stairs(_, _, _) => Kind.Stairs
    case FaceAttachable(_) => Kind.FaceAttachable
    case AnaloguePowerable(_, _) => Kind.AnaloguePowerable
    case MultipleFacing(_) => Kind.MultipleFacing
    case Orientable(_) => Kind.Orientable
    case Snowable(_) => Kind.Snowable
    case Bed(_, _) => Kind.Bed
    case Bell(_) => Kind.Bell
    case Campfire(_) => Kind.Campfire
    case Candle(_) => Kind.Candle
    case Cake(_) => Kind.Cake
    case Chest(_) => Kind.Chest
    case ChiseledBookshelf(_) => Kind.ChiseledBookshelf
    case CommandBlock(_) => Kind.CommandBlock
    case Comparator(_) => Kind.Comparator
    case Dispenser(_) => Kind.Dispenser
    case EndPortalFrame(_) => Kind.EndPortalFrame
    case Farmland(_) => Kind.Farmland
    case Gate(_) => Kind.Gate
    case Hopper(_) => Kind.Hopper
    case Jigsaw(_) => Kind.Jigsaw
    case Jukebox(_) => Kind.Jukebox
    case Lantern(_) => Kind.Lantern
    case Lectern(_) => Kind.Lectern
    case NoteBlock(_, _) => Kind.NoteBlock
    case Piston(_) => Kind.Piston
    case TechnicalPiston(_) => Kind.TechnicalPiston
    case BrewingStand(_) => Kind.BrewingStand
    case Rail(_) => Kind.Rail
    case RedstoneWire(_, _, _, _) => Kind.RedstoneWire
    case Repeater(_, _) => Kind.Repeater
    case Sapling(_, _) => Kind.Sapling
    case Scaffolding(_, _) => Kind.Scaffolding
    case SeaPickle(_) => Kind.SeaPickle
    case StructureBlock(_) => Kind.StructureBlock
    case TNT(_) => Kind.TNT
    case Tripwire(_, _) => Kind.Tripwire
    case TurtleEgg(_, _) => Kind.TurtleEgg
    case Wall(_, _, _, _, _) => Kind.Wall
  }

  /** The block data the plugin reads: the material and the capabilities. */
  datatype BlockData = BlockData(material: string, facets: seq<Facet>)

  /** `data instanceof K` */
  predicate Exposes(d: BlockData, k: Kind) {
    exists i :: 0 <= i < |d.facets| && KindOf(d.facets[i]) == k
  }

  /** The first facet of kind `k` in `fs`: what the cast to K yields. */
  function ProbeIn(fs: seq<Facet>, k: Kind): (r: Option<Facet>)
    ensures r.Some? <==> exists i :: 0 <= i < |fs| && KindOf(fs[i]) == k
    ensures r.Some? ==> KindOf(r.value) == k
  {
    if fs == [] then None
    else if KindOf(fs[0]) == k then Some(fs[0])
    else
      var r := ProbeIn(fs[1..], k);
      assert r.Some? ==> KindOf(fs[1..][0]) == k || exists i :: 1 <= i < |fs| && KindOf(fs[i]) == k by {
        if r.Some? {
          var i :| 0 <= i < |fs[1..]| && KindOf(fs[1..][i]) == k;
          assert KindOf(fs[i + 1]) == k;
        }
      }
      r
  }

  function Probe(d: BlockData, k: Kind): (r: Option<Facet>)
    ensures r.Some? <==> Exposes(d, k)
    ensures r.Some? ==> KindOf(r.value) == k
  {
    ProbeIn(d.facets, k)
  }

  function Digit(i: int): string
    requires 0 <= i < 10
  {
    [(i + '0' as int) as char]
  }

  /** The puts of a counted loop `for (int i = 0; i < n; i++) put(prefix + i + suffix, flag(i))`. */
  function IndexedPuts(prefix: string, suffix: string, flag: int -> bool, n: nat): seq<Put>
    requires n <= 10
  {
    if n == 0 then [] else IndexedPuts(prefix, suffix, flag, n - 1) + [Put(prefix + Digit(n - 1) + suffix, Bool(flag(n - 1)))]
  }

  function SlotKey(i: int): string
    requires 0 <= i < 10
  {
    "slot_" + Digit(i) + "_occupied"
  }

  function BottleKey(i: int): string
    requires 0 <= i < 10
  {
    "has_bottle_" + Digit(i)
  }

  /** The keys each capability's branch writes. */
  function KindKeys(k: Kind): set<string> {
    match k
    case Powerable => {"powered"}
    case Directional => {"facing"}
    case Rotatable => {"rotation"}
    case Openable => {"open"}
    case Waterlogged => {"waterlogged"}
    case Lightable => {"lit"}
    case Ageable => {"age", "maximumAge"}
    case Levelled => {"level", "maximumLevel"}
    case Bisected => {"half"}
    case Slab => {"type"}
    case Stairs => {"shape", "facing", "half"}
    case FaceAttachable => {"face"}
    case AnaloguePowerable => {"power", "maximum_power"}
    case MultipleFacing => {"mf_faces"}
    case Orientable => {"axis"}
    case Snowable => {"snowy"}
    case Bed => {"part", "occupied"}
    case Bell => {"attachment"}
    case Campfire => {"signal_fire"}
    case Candle => {"candle_count"}
    case Cake => {"bites"}
    case Chest => {"chest_type"}
    case ChiseledBookshelf => set i | 0 <= i < 6 :: SlotKey(i)
    case CommandBlock => {"conditional"}
    case Comparator => {"mode"}
    case Dispenser => {"triggered"}
    case EndPortalFrame => {"eye"}
    case Farmland => {"moisture"}
    case Gate => {"in_wall"}
    case Hopper => {"enabled"}
    case Jigsaw => {"orientation"}
    case Jukebox => {"has_record"}
    case Lantern => {"hanging"}
    case Lectern => {"has_book"}
    case NoteBlock => {"instrument", "note"}
    case Piston => {"extended"}
    case TechnicalPiston => {"piston_type"}
    case BrewingStand => set i | 0 <= i < 3 :: BottleKey(i)
    case Rail => {"rail_shape"}
    case RedstoneWire => {"north_wire_connection", "east_wire_connection", "south_wire_connection", "west_wire_connection"}
    case Repeater => {"delay", "locked"}
    case Sapling => {"stage", "maximum_stage"}
    case Scaffolding => {"bottom", "distance"}
    case SeaPickle => {"pickles"}
    case StructureBlock => {"structure_mode"}
    case TNT => {"unstable"}
    case Tripwire => {"attached", "disarmed"}
    case TurtleEgg => {"eggs", "hatch_stage"}
    case Wall => {"up", "north_wall_height", "east_wall_height", "south_wall_height", "west_wall_height"}
  }

  /** The puts of the branch for a facet's capability, in source order. */
  function Entries(f: Facet): seq<Put> {
    match f
    case Powerable(_) => [Put("powered", Bool(f.powered))]
    case Directional(_) => [Put("facing", Str(f.facing))]
    case Rotatable(_) => [Put("rotation", Str(f.rotation))]
    case Openable(_) => [Put("open", Bool(f.isOpen))]
    case Waterlogged(_) => [Put("waterlogged", Bool(f.waterlogged))]
    case Lightable(_) => [Put("lit", Bool(f.lit))]
    case Ageable(_, _) => [Put("age", Int(f.age)), Put("maximumAge", Int(f.maximumAge))]
    case Levelled(_, _) => [Put("level", Int(f.level)), Put("maximumLevel", Int(f.maximumLevel))]
    case Bisected(_) => [Put("half", Str(f.half))]
    case Slab(_) => [Put("type", Str(f.slabType))]
    case Stairs(_, _, _) => [Put("shape", Str(f.shape)), Put("facing", Str(f.facing)), Put("half", Str(f.half))]
    case FaceAttachable(_) => [Put("face", Str(f.attachedFace))]
    case AnaloguePowerable(_, _) => [Put("power", Int(f.power)), Put("maximum_power", Int(f.maximumPower))]
    case MultipleFacing(_) => [Put("mf_faces", StrList(f.faces))]
    case Orientable(_) => [Put("axis", Str(f.axis))]
    case Snowable(_) => [Put("snowy", Bool(f.snowy))]
    case Bed(_, _) => [Put("part", Str(f.part)), Put("occupied", Bool(f.occupied))]
    case Bell(_) => [Put("attachment", Str(f.attachment))]
    case Campfire(_) => [Put("signal_fire", Bool(f.signalFire))]
    case Candle(_) => [Put("candle_count", Int(f.candles))]
    case Cake(_) => [Put("bites", Int(f.bites))]
    case Chest(_) => [Put("chest_type", Str(f.chestType))]
    case ChiseledBookshelf(_) => IndexedPuts("slot_", "_occupied", f.slotOccupied, 6)
    case CommandBlock(_) => [Put("conditional", Bool(f.conditional))]
    case Comparator(_) => [Put("mode", Str(f.comparatorMode))]
    case Dispenser(_) => [Put("triggered", Bool(f.triggered))]
    case EndPortalFrame(_) => [Put("eye", Bool(f.eye))]
    case Farmland(_) => [Put("moisture", Int(f.moisture))]
    case Gate(_) => [Put("in_wall", Bool(f.inWall))]
    case Hopper(_) => [Put("enabled", Bool(f.enabled))]
    case Jigsaw(_) => [Put("orientation", Str(f.orientation))]
    case Jukebox(_) => [Put("has_record", Bool(f.hasRecord))]
    case Lantern(_) => [Put("hanging", Bool(f.hanging))]
    case Lectern(_) => [Put("has_book", Bool(f.hasBook))]
    case NoteBlock(_, _) => [Put("instrument", Str(f.instrument)), Put("note", Int(f.noteId))]
    case Piston(_) => [Put("extended", Bool(f.extended))]
    case TechnicalPiston(_) => [Put("piston_type", Str(f.pistonType))]
    case BrewingStand(_) => IndexedPuts("has_bottle_", "", f.hasBottle, 3)
    case Rail(_) => [Put("rail_shape", Str(f.railShape))]
    case RedstoneWire(_, _, _, _) => [Put("north_wire_connection", Str(f.north)), Put("east_wire_connection", Str(f.east)), Put("south_wire_connection", Str(f.south)), Put("west_wire_connection", Str(f.west))]
    case Repeater(_, _) => [Put("delay", Int(f.delay)), Put("locked", Bool(f.locked))]
    case Sapling(_, _) => [Put("stage", Int(f.stage)), Put("maximum_stage", Int(f.maximumStage))]
    case Scaffolding(_, _) => [Put("bottom", Bool(f.bottom)), Put("distance", Int(f.distance))]
    case SeaPickle(_) => [Put("pickles", Int(f.pickles))]
    case StructureBlock(_) => [Put("structure_mode", Str(f.structureMode))]
    case TNT(_) => [Put("unstable", Bool(f.unstable))]
    case Tripwire(_, _) => [Put("attached", Bool(f.attached)), Put("disarmed", Bool(f.disarmed))]
    case TurtleEgg(_, _) => [Put("eggs", Int(f.eggs)), Put("hatch_stage", Int(f.hatch))]
    case Wall(_, _, _, _, _) => [Put("up", Bool(f.up)), Put("north_wall_height", Str(f.northHeight)), Put("east_wall_height", Str(f.eastHeight)), Put("south_wall_height", Str(f.southHeight)), Put("west_wall_height", Str(f.westHeight))]
  }
  lemma IndexedKeys(prefix: string, suffix: string, flag: int -> bool, n: nat)
    requires n <= 10
    ensures KeysOf(IndexedPuts(prefix, suffix, flag, n)) == set i | 0 <= i < n :: prefix + Digit(i) + suffix
  {
    if n > 0 {
      var last := Put(prefix + Digit(n - 1) + suffix, Bool(flag(n - 1)));
      IndexedKeys(prefix, suffix, flag, n - 1);
      KeysOfAppend(IndexedPuts(prefix, suffix, flag, n - 1), [last]);
      assert KeysOf([last]) == {last.key};
    }
  }

  lemma BookshelfKeys(occupied: int -> bool)
    ensures KeysOf(IndexedPuts("slot_", "_occupied", occupied, 6)) == KindKeys(Kind.ChiseledBookshelf)
  {
    IndexedKeys("slot_", "_occupied", occupied, 6);
    var a := set i | 0 <= i < 6 :: "slot_" + Digit(i) + "_occupied";
    var b := set i | 0 <= i < 6 :: SlotKey(i);
    assert forall k :: k in a <==> k in b by {
      forall k ensures k in a <==> k in b {
        if k in a {
          var i :| 0 <= i < 6 && k == "slot_" + Digit(i) + "_occupied";
          assert k == SlotKey(i);
        }
        if k in b {
          var i :| 0 <= i < 6 && k == SlotKey(i);
          assert k == "slot_" + Digit(i) + "_occupied";
        }
      }
    }
  }

  lemma BrewingStandKeys(hasBottle: int -> bool)
    ensures KeysOf(IndexedPuts("has_bottle_", "", hasBottle, 3)) == KindKeys(Kind.BrewingStand)
  {
    IndexedKeys("has_bottle_", "", hasBottle, 3);
    var a := set i | 0 <= i < 3 :: "has_bottle_" + Digit(i) + "";
    var b := set i | 0 <= i < 3 :: BottleKey(i);
    assert forall k :: k in a <==> k in b by {
      forall k ensures k in a <==> k in b {
        if k in a {
          var i :| 0 <= i < 3 && k == "has_bottle_" + Digit(i) + "";
          assert k == BottleKey(i);
        }
        if k in b {
          var i :| 0 <= i < 3 && k == BottleKey(i);
          assert k == "has_bottle_" + Digit(i) + "";
        }
      }
    }
  }

  /** Each capability's branch writes exactly the keys of its kind. */
  lemma EntriesKeys(f: Facet)
    ensures KeysOf(Entries(f)) == KindKeys(KindOf(f))
  {
    if f.Powerable? || f.Directional? || f.Rotatable? || f.Openable? || f.Waterlogged? || f.Lightable? || f.Ageable? || f.Levelled? || f.Bisected? || f.Slab? || f.Stairs? || f.FaceAttachable? || f.AnaloguePowerable? || f.MultipleFacing? || f.Orientable? || f.Snowable? {
      EntriesKeysA(f);
    } else if f.Bed? || f.Bell? || f.Campfire? || f.Candle? || f.Cake? || f.Chest? || f.ChiseledBookshelf? || f.CommandBlock? || f.Comparator? || f.Dispenser? || f.EndPortalFrame? || f.Farmland? || f.Gate? || f.Hopper? || f.Jigsaw? || f.Jukebox? {
      EntriesKeysB(f);
    } else {
      EntriesKeysC(f);
    }
  }

  lemma EntriesKeysA(f: Facet)
    requires f.Powerable? || f.Directional? || f.Rotatable? || f.Openable? || f.Waterlogged? || f.Lightable? || f.Ageable? || f.Levelled? || f.Bisected? || f.Slab? || f.Stairs? || f.FaceAttachable? || f.AnaloguePowerable? || f.MultipleFacing? || f.Orientable? || f.Snowable?
    ensures KeysOf(Entries(f)) == KindKeys(KindOf(f))
  {
    match f
    case Powerable(_) => PowerableKeys(f);
    case Directional(_) => DirectionalKeys(f);
    case Rotatable(_) => RotatableKeys(f);
    case Openable(_) => OpenableKeys(f);
    case Waterlogged(_) => WaterloggedKeys(f);
    case Lightable(_) => LightableKeys(f);
    case Ageable(_, _) => AgeableKeys(f);
    case Levelled(_, _) => LevelledKeys(f);
    case Bisected(_) => BisectedKeys(f);
    case Slab(_) => SlabKeys(f);
    case Stairs(_, _, _) => StairsKeys(f);
    case FaceAttachable(_) => FaceAttachableKeys(f);
    case AnaloguePowerable(_, _) => AnaloguePowerableKeys(f);
    case MultipleFacing(_) => MultipleFacingKeys(f);
    case Orientable(_) => OrientableKeys(f);
    case Snowable(_) => SnowableKeys(f);
    case _ => assert false;
  }

  lemma EntriesKeysB(f: Facet)
    requires f.Bed? || f.Bell? || f.Campfire? || f.Candle? || f.Cake? || f.Chest? || f.ChiseledBookshelf? || f.CommandBlock? || f.Comparator? || f.Dispenser? || f.EndPortalFrame? || f.Farmland? || f.Gate? || f.Hopper? || f.Jigsaw? || f.Jukebox?
    ensures KeysOf(Entries(f)) == KindKeys(KindOf(f))
  {
    match f
    case Bed(_, _) => BedKeys(f);
    case Bell(_) => BellKeys(f);
    case Campfire(_) => CampfireKeys(f);
    case Candle(_) => CandleKeys(f);
    case Cake(_) => CakeKeys(f);
    case Chest(_) => ChestKeys(f);
    case ChiseledBookshelf(occupied) => BookshelfKeys(occupied);
    case CommandBlock(_) => CommandBlockKeys(f);
    case Comparator(_) => ComparatorKeys(f);
    case Dispenser(_) => DispenserKeys(f);
    case EndPortalFrame(_) => EndPortalFrameKeys(f);
    case Farmland(_) => FarmlandKeys(f);
    case Gate(_) => GateKeys(f);
    case Hopper(_) => HopperKeys(f);
    case Jigsaw(_) => JigsawKeys(f);
    case Jukebox(_) => JukeboxKeys(f);
    case _ => assert false;
  }

  lemma EntriesKeysC(f: Facet)
    requires f.Lantern? || f.Lectern? || f.NoteBlock? || f.Piston? || f.TechnicalPiston? || f.BrewingStand? || f.Rail? || f.RedstoneWire? || f.Repeater? || f.Sapling? || f.Scaffolding? || f.SeaPickle? || f.StructureBlock? || f.TNT? || f.Tripwire? || f.TurtleEgg? || f.Wall?
    ensures KeysOf(Entries(f)) == KindKeys(KindOf(f))
  {
    match f
    case Lantern(_) => LanternKeys(f);
    case Lectern(_) => LecternKeys(f);
    case NoteBlock(_, _) => NoteBlockKeys(f);
    case Piston(_) => PistonKeys(f);
    case TechnicalPiston(_) => TechnicalPistonKeys(f);
    case BrewingStand(hasBottle) => BrewingStandKeys(hasBottle);
    case Rail(_) => RailKeys(f);
    case RedstoneWire(_, _, _, _) => RedstoneWireKeys(f);
    case Repeater(_, _) => RepeaterKeys(f);
    case Sapling(_, _) => SaplingKeys(f);
    case Scaffolding(_, _) => ScaffoldingKeys(f);
    case SeaPickle(_) => SeaPickleKeys(f);
    case StructureBlock(_) => StructureBlockKeys(f);
    case TNT(_) => TNTKeys(f);
    case Tripwire(_, _) => TripwireKeys(f);
    case TurtleEgg(_, _) => TurtleEggKeys(f);
    case Wall(_, _, _, _, _) => WallKeys(f);
    case _ => assert false;
  }

  /* One lemma per capability: the key set of its branch of Entries. They
     are kept apart, and EntriesKeysA to C each cover a third of the
     capabilities, so that every proof obligation stays small for the
     solver; a single match over all capabilities runs out of resource. */
  lemma PowerableKeys(f: Facet)
    requires f.Powerable?
    ensures KeysOf(Entries(f)) == KindKeys(KindOf(f))
  {
    KeysOf1(Entries(f));
  }

  lemma DirectionalKeys(f: Facet)
    requires f.Directional?
    ensures KeysOf(Entries(f)) == KindKeys(KindOf(f))
  {
    KeysOf1(Entries(f));
  }

  lemma RotatableKeys(f: Facet)
    requires f.Rotatable?
    ensures KeysOf(Entries(f)) == KindKeys(KindOf(f))
  {
    KeysOf1(Entries(f));
  }

  lemma OpenableKeys(f: Facet)
    requires f.Openable?
    ensures KeysOf(Entries(f)) == KindKeys(KindOf(f))
  {
    KeysOf1(Entries(f));
  }

  lemma WaterloggedKeys(f: Facet)
    requires f.Waterlogged?
    ensures KeysOf(Entries(f)) == KindKeys(KindOf(f))
  {
    KeysOf1(Entries(f));
  }

  lemma LightableKeys(f: Facet)
    requires f.Lightable?
    ensures KeysOf(Entries(f)) == KindKeys(KindOf(f))
  {
    KeysOf1(Entries(f));
  }

  lemma AgeableKeys(f: Facet)
    requires f.Ageable?
    ensures KeysOf(Entries(f)) == KindKeys(KindOf(f))
  {
    KeysOf2(Entries(f));
  }

  lemma LevelledKeys(f: Facet)
    requires f.Levelled?
    ensures KeysOf(Entries(f)) == KindKeys(KindOf(f))
  {
    KeysOf2(Entries(f));
  }

  lemma BisectedKeys(f: Facet)
    requires f.Bisected?
    ensures KeysOf(Entries(f)) == KindKeys(KindOf(f))
  {
    KeysOf1(Entries(f));
  }

  lemma SlabKeys(f: Facet)
    requires f.Slab?
    ensures KeysOf(Entries(f)) == KindKeys(KindOf(f))
  {
    KeysOf1(Entries(f));
  }

  lemma StairsKeys(f: Facet)
    requires f.Stairs?
    ensures KeysOf(Entries(f)) == KindKeys(KindOf(f))
  {
    KeysOf3(Entries(f));
  }

  lemma FaceAttachableKeys(f: Facet)
    requires f.FaceAttachable?
    ensures KeysOf(Entries(f)) == KindKeys(KindOf(f))
  {
    KeysOf1(Entries(f));
  }

  lemma AnaloguePowerableKeys(f: Facet)
    requires f.AnaloguePowerable?
    ensures KeysOf(Entries(f)) == KindKeys(KindOf(f))
  {
    KeysOf2(Entries(f));
  }

  lemma MultipleFacingKeys(f: Facet)
    requires f.MultipleFacing?
    ensures KeysOf(Entries(f)) == KindKeys(KindOf(f))
  {
    KeysOf1(Entries(f));
  }

  lemma OrientableKeys(f: Facet)
    requires f.Orientable?
    ensures KeysOf(Entries(f)) == KindKeys(KindOf(f))
  {
    KeysOf1(Entries(f));
  }

  lemma SnowableKeys(f: Facet)
    requires f.Snowable?
    ensures KeysOf(Entries(f)) == KindKeys(KindOf(f))
  {
    KeysOf1(Entries(f));
  }

  lemma BedKeys(f: Facet)
    requires f.Bed?
    ensures KeysOf(Entries(f)) == KindKeys(KindOf(f))
  {
    KeysOf2(Entries(f));
  }

  lemma BellKeys(f: Facet)
    requires f.Bell?
    ensures KeysOf(Entries(f)) == KindKeys(KindOf(f))
  {
    KeysOf1(Entries(f));
  }

  lemma CampfireKeys(f: Facet)
    requires f.Campfire?
    ensures KeysOf(Entries(f)) == KindKeys(KindOf(f))
  {
    KeysOf1(Entries(f));
  }

  lemma CandleKeys(f: Facet)
    requires f.Candle?
    ensures KeysOf(Entries(f)) == KindKeys(KindOf(f))
  {
    KeysOf1(Entries(f));
  }

  lemma CakeKeys(f: Facet)
    requires f.Cake?
    ensures KeysOf(Entries(f)) == KindKeys(KindOf(f))
  {
    KeysOf1(Entries(f));
  }

  lemma ChestKeys(f: Facet)
    requires f.Chest?
    ensures KeysOf(Entries(f)) == KindKeys(KindOf(f))
  {
    KeysOf1(Entries(f));
  }

  lemma CommandBlockKeys(f: Facet)
    requires f.CommandBlock?
    ensures KeysOf(Entries(f)) == KindKeys(KindOf(f))
  {
    KeysOf1(Entries(f));
  }

  lemma ComparatorKeys(f: Facet)
    requires f.Comparator?
    ensures KeysOf(Entries(f)) == KindKeys(KindOf(f))
  {
    KeysOf1(Entries(f));
  }

  lemma DispenserKeys(f: Facet)
    requires f.Dispenser?
    ensures KeysOf(Entries(f)) == KindKeys(KindOf(f))
  {
    KeysOf1(Entries(f));
  }

  lemma EndPortalFrameKeys(f: Facet)
    requires f.EndPortalFrame?
    ensures KeysOf(Entries(f)) == KindKeys(KindOf(f))
  {
    KeysOf1(Entries(f));
  }

  lemma FarmlandKeys(f: Facet)
    requires f.Farmland?
    ensures KeysOf(Entries(f)) == KindKeys(KindOf(f))
  {
    KeysOf1(Entries(f));
  }

  lemma GateKeys(f: Facet)
    requires f.Gate?
    ensures KeysOf(Entries(f)) == KindKeys(KindOf(f))
  {
    KeysOf1(Entries(f));
  }

  lemma HopperKeys(f: Facet)
    requires f.Hopper?
    ensures KeysOf(Entries(f)) == KindKeys(KindOf(f))
  {
    KeysOf1(Entries(f));
  }

  lemma JigsawKeys(f: Facet)
    requires f.Jigsaw?
    ensures KeysOf(Entries(f)) == KindKeys(KindOf(f))
  {
    KeysOf1(Entries(f));
  }

  lemma JukeboxKeys(f: Facet)
    requires f.Jukebox?
    ensures KeysOf(Entries(f)) == KindKeys(KindOf(f))
  {
    KeysOf1(Entries(f));
  }

  lemma LanternKeys(f: Facet)
    requires f.Lantern?
    ensures KeysOf(Entries(f)) == KindKeys(KindOf(f))
  {
    KeysOf1(Entries(f));
  }

  lemma LecternKeys(f: Facet)
    requires f.Lectern?
    ensures KeysOf(Entries(f)) == KindKeys(KindOf(f))
  {
    KeysOf1(Entries(f));
  }

  lemma NoteBlockKeys(f: Facet)
    requires f.NoteBlock?
    ensures KeysOf(Entries(f)) == KindKeys(KindOf(f))
  {
    KeysOf2(Entries(f));
  }

  lemma PistonKeys(f: Facet)
    requires f.Piston?
    ensures KeysOf(Entries(f)) == KindKeys(KindOf(f))
  {
    KeysOf1(Entries(f));
  }

  lemma TechnicalPistonKeys(f: Facet)
    requires f.TechnicalPiston?
    ensures KeysOf(Entries(f)) == KindKeys(KindOf(f))
  {
    KeysOf1(Entries(f));
  }

  lemma RailKeys(f: Facet)
    requires f.Rail?
    ensures KeysOf(Entries(f)) == KindKeys(KindOf(f))
  {
    KeysOf1(Entries(f));
  }

  lemma RedstoneWireKeys(f: Facet)
    requires f.RedstoneWire?
    ensures KeysOf(Entries(f)) == KindKeys(KindOf(f))
  {
    var es := Entries(f);
    assert KindOf(f) == Kind.RedstoneWire;
    assert es[0].key == "north_wire_connection" && es[1].key == "east_wire_connection"
      && es[2].key == "south_wire_connection" && es[3].key == "west_wire_connection";
    KeysOf4(es);
  }

  lemma RepeaterKeys(f: Facet)
    requires f.Repeater?
    ensures KeysOf(Entries(f)) == KindKeys(KindOf(f))
  {
    KeysOf2(Entries(f));
  }

  lemma SaplingKeys(f: Facet)
    requires f.Sapling?
    ensures KeysOf(Entries(f)) == KindKeys(KindOf(f))
  {
    KeysOf2(Entries(f));
  }

  lemma ScaffoldingKeys(f: Facet)
    requires f.Scaffolding?
    ensures KeysOf(Entries(f)) == KindKeys(KindOf(f))
  {
    KeysOf2(Entries(f));
  }

  lemma SeaPickleKeys(f: Facet)
    requires f.SeaPickle?
    ensures KeysOf(Entries(f)) == KindKeys(KindOf(f))
  {
    KeysOf1(Entries(f));
  }

  lemma StructureBlockKeys(f: Facet)
    requires f.StructureBlock?
    ensures KeysOf(Entries(f)) == KindKeys(KindOf(f))
  {
    KeysOf1(Entries(f));
  }

  lemma TNTKeys(f: Facet)
    requires f.TNT?
    ensures KeysOf(Entries(f)) == KindKeys(KindOf(f))
  {
    KeysOf1(Entries(f));
  }

  lemma TripwireKeys(f: Facet)
    requires f.Tripwire?
    ensures KeysOf(Entries(f)) == KindKeys(KindOf(f))
  {
    KeysOf2(Entries(f));
  }

  lemma TurtleEggKeys(f: Facet)
    requires f.TurtleEgg?
    ensures KeysOf(Entries(f)) == KindKeys(KindOf(f))
  {
    KeysOf2(Entries(f));
  }

  lemma WallKeys(f: Facet)
    requires f.Wall?
    ensures KeysOf(Entries(f)) == KindKeys(KindOf(f))
  {
    var es := Entries(f);
    assert KindOf(f) == Kind.Wall;
    assert es[0].key == "up" && es[1].key == "north_wall_height" && es[2].key == "east_wall_height"
      && es[3].key == "south_wall_height" && es[4].key == "west_wall_height";
    KeysOf5(es);
  }

  /** The capabilities probed before the extra data is put, in the order of
      the source's chain of instanceof tests. */
  const BEFORE_EXTRA: seq<Kind> := [
    Kind.Powerable, Kind.Directional, Kind.Rotatable, Kind.Openable, Kind.Waterlogged,
    Kind.Lightable, Kind.Ageable, Kind.Levelled, Kind.Bisected, Kind.Slab, Kind.Stairs,
    Kind.FaceAttachable, Kind.AnaloguePowerable, Kind.MultipleFacing, Kind.Orientable,
    Kind.Snowable, Kind.Bed, Kind.Bell, Kind.Campfire, Kind.Candle, Kind.Cake, Kind.Chest,
    Kind.ChiseledBookshelf, Kind.CommandBlock, Kind.Comparator, Kind.Dispenser,
    Kind.EndPortalFrame, Kind.Farmland, Kind.Gate, Kind.Hopper, Kind.Jigsaw, Kind.Jukebox,
    Kind.Lantern, Kind.Lectern, Kind.NoteBlock, Kind.Piston, Kind.TechnicalPiston, Kind.BrewingStand]

  /** The capabilities probed after the extra data is put. */
  const AFTER_EXTRA: seq<Kind> := [
    Kind.Rail, Kind.RedstoneWire, Kind.Repeater, Kind.Sapling, Kind.Scaffolding, Kind.SeaPickle,
    Kind.StructureBlock, Kind.TNT, Kind.Tripwire, Kind.TurtleEgg, Kind.Wall]

  /** The puts of a capability's branch when the block exposes it, else none. */
  function KindPuts(d: BlockData, k: Kind): (ps: seq<Put>)
    ensures KeysOf(ps) == if Exposes(d, k) then KindKeys(k) else {}
  {
    var p := Probe(d, k);
    if p.Some? then EntriesKeys(p.value); Entries(p.value) else []
  }

  /** The capability branches as one step function of the chain. */
  function KindStep(d: BlockData): Kind -> seq<Put> {
    k => KindPuts(d, k)
  }

  /** The keys the plugin writes itself. */
  predicate Reserved(key: string) {
    key == "world" || key == "x" || key == "y" || key == "z" || key == "material" || key == "id" || key == "extraData"
  }

  /* The kinds in groups of a few keys each, so that facts about every
     kind's keys can be checked a group at a time. */
  predicate GroupA(k: Kind) {
    k in {Kind.Powerable, Kind.Directional, Kind.Rotatable, Kind.Openable, Kind.Waterlogged, Kind.Lightable}
  }

  predicate GroupB(k: Kind) {
    k in {Kind.Ageable, Kind.Levelled, Kind.Bisected, Kind.Slab}
  }

  predicate GroupC(k: Kind) {
    k in {Kind.Stairs, Kind.FaceAttachable, Kind.AnaloguePowerable, Kind.MultipleFacing}
  }

  predicate GroupD(k: Kind) {
    k in {Kind.Orientable, Kind.Snowable, Kind.Bed, Kind.Bell, Kind.Campfire, Kind.Candle}
  }

  predicate GroupE(k: Kind) {
    k in {Kind.Cake, Kind.Chest}
  }

  predicate GroupF(k: Kind) {
    k in {Kind.ChiseledBookshelf, Kind.CommandBlock}
  }

  predicate GroupG(k: Kind) {
    k in {Kind.Comparator, Kind.Dispenser, Kind.EndPortalFrame, Kind.Farmland, Kind.Gate, Kind.Hopper, Kind.Jigsaw}
  }

  predicate GroupH(k: Kind) {
    k in {Kind.Jukebox, Kind.Lantern, Kind.Lectern, Kind.NoteBlock, Kind.Piston, Kind.TechnicalPiston}
  }

  predicate GroupI(k: Kind) {
    k in {Kind.BrewingStand, Kind.Rail}
  }

  predicate GroupJ(k: Kind) {
    k in {Kind.RedstoneWire, Kind.Repeater}
  }

  predicate GroupK(k: Kind) {
    k in {Kind.Sapling, Kind.Scaffolding, Kind.SeaPickle, Kind.StructureBlock, Kind.TNT}
  }

  predicate GroupL(k: Kind) {
    k in {Kind.Tripwire, Kind.TurtleEgg}
  }

  predicate GroupM(k: Kind) {
    k in {Kind.Wall}
  }

  lemma EveryKindGrouped(k: Kind)
    ensures GroupA(k) || GroupB(k) || GroupC(k) || GroupD(k) || GroupE(k) || GroupF(k) || GroupG(k) || GroupH(k) || GroupI(k) || GroupJ(k) || GroupK(k) || GroupL(k) || GroupM(k)
  {
  }

  /** No capability's branch writes a key the plugin writes itself. */
  lemma ReservedFree(k: Kind, key: string)
    requires Reserved(key)
    ensures key !in KindKeys(k)
  {
    EveryKindGrouped(k);
    if GroupA(k) {
      ReservedFreeA(k, key);
    } else if GroupB(k) {
      ReservedFreeB(k, key);
    } else if GroupC(k) {
      ReservedFreeC(k, key);
    } else if GroupD(k) {
      ReservedFreeD(k, key);
    } else if GroupE(k) {
      ReservedFreeE(k, key);
    } else if GroupF(k) {
      ReservedFreeF(k, key);
    } else if GroupG(k) {
      ReservedFreeG(k, key);
    } else if GroupH(k) {
      ReservedFreeH(k, key);
    } else if GroupI(k) {
      ReservedFreeI(k, key);
    } else if GroupJ(k) {
      ReservedFreeJ(k, key);
    } else if GroupK(k) {
      ReservedFreeK(k, key);
    } else if GroupL(k) {
      ReservedFreeL(k, key);
    } else {
      ReservedFreeM(k, key);
    }
  }

  /* ReservedFree one group of kinds at a time: each lemma only unfolds
     the key sets of a few kinds, where one lemma over every kind runs
     out of resource. */
  lemma ReservedFreeA(k: Kind, key: string)
    requires GroupA(k) && Reserved(key)
    ensures key !in KindKeys(k)
  {
  }

  lemma ReservedFreeB(k: Kind, key: string)
    requires GroupB(k) && Reserved(key)
    ensures key !in KindKeys(k)
  {
  }

  lemma ReservedFreeC(k: Kind, key: string)
    requires GroupC(k) && Reserved(key)
    ensures key !in KindKeys(k)
  {
  }

  lemma ReservedFreeD(k: Kind, key: string)
    requires GroupD(k) && Reserved(key)
    ensures key !in KindKeys(k)
  {
  }

  lemma ReservedFreeE(k: Kind, key: string)
    requires GroupE(k) && Reserved(key)
    ensures key !in KindKeys(k)
  {
  }

  lemma ReservedFreeF(k: Kind, key: string)
    requires GroupF(k) && Reserved(key)
    ensures key !in KindKeys(k)
  {
  }

  lemma ReservedFreeG(k: Kind, key: string)
    requires GroupG(k) && Reserved(key)
    ensures key !in KindKeys(k)
  {
  }

  lemma ReservedFreeH(k: Kind, key: string)
    requires GroupH(k) && Reserved(key)
    ensures key !in KindKeys(k)
  {
  }

  lemma ReservedFreeI(k: Kind, key: string)
    requires GroupI(k) && Reserved(key)
    ensures key !in KindKeys(k)
  {
  }

  lemma ReservedFreeJ(k: Kind, key: string)
    requires GroupJ(k) && Reserved(key)
    ensures key !in KindKeys(k)
  {
  }

  lemma ReservedFreeK(k: Kind, key: string)
    requires GroupK(k) && Reserved(key)
    ensures key !in KindKeys(k)
  {
  }

  lemma ReservedFreeL(k: Kind, key: string)
    requires GroupL(k) && Reserved(key)
    ensures key !in KindKeys(k)
  {
  }

  lemma ReservedFreeM(k: Kind, key: string)
    requires GroupM(k) && Reserved(key)
    ensures key !in KindKeys(k)
  {
  }

  function BasePuts(loc: Location, d: BlockData): seq<Put> {
    [Put("world", Str(loc.world)), Put("x", Int(loc.x)), Put("y", Int(loc.y)), Put("z", Int(loc.z)), Put("material", Str(d.material))]
  }

  function IdPuts(loc: Location, registry: map<Location, int>): seq<Put> {
    if loc in registry then [Put("id", Int(registry[loc]))] else []
  }

  function ExtraPuts(extra: Option<Value>): seq<Put> {
    if extra.Some? then [Put("extraData", extra.value)] else []
  }

  /** Every put buildBlockDataMap makes, in the order it makes them. */
  function SnapshotPuts(loc: Location, extra: Option<Value>, d: BlockData, registry: map<Location, int>): seq<Put> {
    Layout(BasePuts(loc, d) + IdPuts(loc, registry), KindStep(d), BEFORE_EXTRA, ExtraPuts(extra), AFTER_EXTRA)
  }

  /** The attribute map of the block at `loc` whose data is `d`. */
  function Snapshot(loc: Location, extra: Option<Value>, d: BlockData, registry: map<Location, int>): map<string, Value> {
    Apply(map[], SnapshotPuts(loc, extra, d, registry))
  }

  lemma BaseValues(loc: Location, d: BlockData)
    ensures var ps := BasePuts(loc, d);
      && LastValue(ps, "world") == Some(Str(loc.world))
      && LastValue(ps, "x") == Some(Int(loc.x))
      && LastValue(ps, "y") == Some(Int(loc.y))
      && LastValue(ps, "z") == Some(Int(loc.z))
      && LastValue(ps, "material") == Some(Str(d.material))
      && LastValue(ps, "id").None?
      && LastValue(ps, "extraData").None?
  {
    var p0, p1, p2, p3, p4 := Put("world", Str(loc.world)), Put("x", Int(loc.x)), Put("y", Int(loc.y)), Put("z", Int(loc.z)), Put("material", Str(d.material));
    assert BasePuts(loc, d) == [p0] + [p1] + [p2] + [p3] + [p4];
    forall key
      ensures LastValue(BasePuts(loc, d), key) ==
        if key == "material" then Some(p4.value)
        else if key == "z" then Some(p3.value)
        else if key == "y" then Some(p2.value)
        else if key == "x" then Some(p1.value)
        else if key == "world" then Some(p0.value)
        else None
    {
      LastValueSnoc([p0] + [p1] + [p2] + [p3], p4, key);
      LastValueSnoc([p0] + [p1] + [p2], p3, key);
      LastValueSnoc([p0] + [p1], p2, key);
      LastValueSnoc([p0], p1, key);
      LastValueSnoc([], p0, key);
      assert [] + [p0] == [p0];
    }
  }

  /** What each of the plugin's own puts leaves in the map. */
  lemma OwnPutsValues(loc: Location, extra: Option<Value>, d: BlockData, registry: map<Location, int>)
    ensures var ps := BasePuts(loc, d) + IdPuts(loc, registry) + ExtraPuts(extra);
      && LastValue(ps, "world") == Some(Str(loc.world))
      && LastValue(ps, "x") == Some(Int(loc.x))
      && LastValue(ps, "y") == Some(Int(loc.y))
      && LastValue(ps, "z") == Some(Int(loc.z))
      && LastValue(ps, "material") == Some(Str(d.material))
      && LastValue(ps, "id") == (if loc in registry then Some(Int(registry[loc])) else None)
      && LastValue(ps, "extraData") == extra
  {
    BaseValues(loc, d);
    OwnPutsLookup(loc, extra, d, registry, "world");
    OwnPutsLookup(loc, extra, d, registry, "x");
    OwnPutsLookup(loc, extra, d, registry, "y");
    OwnPutsLookup(loc, extra, d, registry, "z");
    OwnPutsLookup(loc, extra, d, registry, "material");
    OwnPutsLookup(loc, extra, d, registry, "id");
    OwnPutsLookup(loc, extra, d, registry, "extraData");
  }

  /** The id and extra-data puts override only their own keys. */
  lemma OwnPutsLookup(loc: Location, extra: Option<Value>, d: BlockData, registry: map<Location, int>, key: string)
    ensures LastValue(BasePuts(loc, d) + IdPuts(loc, registry) + ExtraPuts(extra), key) ==
      if key == "extraData" && extra.Some? then extra
      else if key == "id" && loc in registry then Some(Int(registry[loc]))
      else LastValue(BasePuts(loc, d), key)
  {
    var a, b, e := BasePuts(loc, d), IdPuts(loc, registry), ExtraPuts(extra);
    LastValueAppend(a + b, e, key);
    LastValueAppend(a, b, key);
    if extra.Some? {
      assert e == [] + [Put("extraData", extra.value)];
      LastValueSnoc([], Put("extraData", extra.value), key);
    }
    if loc in registry {
      assert b == [] + [Put("id", Int(registry[loc]))];
      LastValueSnoc([], Put("id", Int(registry[loc])), key);
    }
  }

  /** No capability's branch, exposed or not, writes a reserved key. */
  lemma StepSilentOnReserved(d: BlockData, key: string)
    requires Reserved(key)
    ensures forall k :: key !in KeysOf(KindStep(d)(k))
  {
    forall k ensures key !in KeysOf(KindStep(d)(k)) {
      ReservedFree(k, key);
    }
  }

  lemma LayoutReservedKey(loc: Location, extra: Option<Value>, d: BlockData, registry: map<Location, int>, before: seq<Kind>, after: seq<Kind>, key: string)
    requires Reserved(key)
    ensures var s := Apply(map[], Layout(BasePuts(loc, d) + IdPuts(loc, registry), KindStep(d), before, ExtraPuts(extra), after));
      var own := BasePuts(loc, d) + IdPuts(loc, registry) + ExtraPuts(extra);
      && (key in s <==> LastValue(own, key).Some?)
      && (LastValue(own, key).Some? ==> s[key] == LastValue(own, key).value)
  {
    var own := BasePuts(loc, d) + IdPuts(loc, registry);
    StepSilentOnReserved(d, key);
    LayoutOwnKey(own, KindStep(d), before, ExtraPuts(extra), after, key);
    ApplyLookup(map[], Layout(own, KindStep(d), before, ExtraPuts(extra), after), key);
  }

  lemma LayoutOwnKeys(loc: Location, extra: Option<Value>, d: BlockData, registry: map<Location, int>, before: seq<Kind>, after: seq<Kind>)
    ensures var s := Apply(map[], Layout(BasePuts(loc, d) + IdPuts(loc, registry), KindStep(d), before, ExtraPuts(extra), after));
      && "world" in s && s["world"] == Str(loc.world)
      && "x" in s && s["x"] == Int(loc.x)
      && "y" in s && s["y"] == Int(loc.y)
      && "z" in s && s["z"] == Int(loc.z)
      && "material" in s && s["material"] == Str(d.material)
      && ("id" in s <==> loc in registry)
      && (loc in registry ==> s["id"] == Int(registry[loc]))
      && ("extraData" in s <==> extra.Some?)
      && (extra.Some? ==> s["extraData"] == extra.value)
  {
    OwnPutsValues(loc, extra, d, registry);
    LayoutReservedKey(loc, extra, d, registry, before, after, "world");
    LayoutReservedKey(loc, extra, d, registry, before, after, "x");
    LayoutReservedKey(loc, extra, d, registry, before, after, "y");
    LayoutReservedKey(loc, extra, d, registry, before, after, "z");
    LayoutReservedKey(loc, extra, d, registry, before, after, "material");
    LayoutReservedKey(loc, extra, d, registry, before, after, "id");
    LayoutReservedKey(loc, extra, d, registry, before, after, "extraData");
  }

  /** The base keys always hold the block's coordinates and material; `id`
      is present exactly for a watched block and holds its registry id;
      `extraData` is present exactly when extra data was given and holds it. */
  lemma SnapshotOwnKeys(loc: Location, extra: Option<Value>, d: BlockData, registry: map<Location, int>)
    ensures var s := Snapshot(loc, extra, d, registry);
      && "world" in s && s["world"] == Str(loc.world)
      && "x" in s && s["x"] == Int(loc.x)
      && "y" in s && s["y"] == Int(loc.y)
      && "z" in s && s["z"] == Int(loc.z)
      && "material" in s && s["material"] == Str(d.material)
      && ("id" in s <==> loc in registry)
      && (loc in registry ==> s["id"] == Int(registry[loc]))
      && ("extraData" in s <==> extra.Some?)
      && (extra.Some? ==> s["extraData"] == extra.value)
  {
    LayoutOwnKeys(loc, extra, d, registry, BEFORE_EXTRA, AFTER_EXTRA);
  }

  /** Some exposed capability owns `key`. */
  predicate CapabilityKey(d: BlockData, key: string) {
    exists k :: Exposes(d, k) && key in KindKeys(k)
  }

  lemma EveryKindProbed(k: Kind)
    ensures k in BEFORE_EXTRA || k in AFTER_EXTRA
  {
  }

  lemma ChainsCoverCapabilities(d: BlockData, before: seq<Kind>, after: seq<Kind>, key: string)
    requires forall k :: k in before || k in after
    ensures CapabilityKey(d, key) <==>
      || (exists i :: 0 <= i < |before| && key in KeysOf(KindStep(d)(before[i])))
      || (exists i :: 0 <= i < |after| && key in KeysOf(KindStep(d)(after[i])))
  {
    if CapabilityKey(d, key) {
      var k :| Exposes(d, k) && key in KindKeys(k);
      if k in before {
        var i :| 0 <= i < |before| && before[i] == k;
        assert key in KeysOf(KindStep(d)(before[i]));
      } else {
        var i :| 0 <= i < |after| && after[i] == k;
        assert key in KeysOf(KindStep(d)(after[i]));
      }
    }
    if exists i :: 0 <= i < |before| && key in KeysOf(KindStep(d)(before[i])) {
      var i :| 0 <= i < |before| && key in KeysOf(KindStep(d)(before[i]));
      assert Exposes(d, before[i]) && key in KindKeys(before[i]);
    }
    if exists i :: 0 <= i < |after| && key in KeysOf(KindStep(d)(after[i])) {
      var i :| 0 <= i < |after| && key in KeysOf(KindStep(d)(after[i]));
      assert Exposes(d, after[i]) && key in KindKeys(after[i]);
    }
  }

  lemma OwnKeys(loc: Location, extra: Option<Value>, d: BlockData, registry: map<Location, int>)
    ensures KeysOf(BasePuts(loc, d) + IdPuts(loc, registry)) == {"world", "x", "y", "z", "material"} + (if loc in registry then {"id"} else {})
    ensures KeysOf(ExtraPuts(extra)) == if extra.Some? then {"extraData"} else {}
  {
    KeysOfAppend(BasePuts(loc, d), IdPuts(loc, registry));
    KeysOf5(BasePuts(loc, d));
  }

  lemma LayoutKeysExactly(loc: Location, extra: Option<Value>, d: BlockData, registry: map<Location, int>, before: seq<Kind>, after: seq<Kind>, key: string)
    requires forall k :: k in before || k in after
    ensures key in Apply(map[], Layout(BasePuts(loc, d) + IdPuts(loc, registry), KindStep(d), before, ExtraPuts(extra), after)) <==>
      || key in {"world", "x", "y", "z", "material"}
      || (key == "id" && loc in registry)
      || (key == "extraData" && extra.Some?)
      || CapabilityKey(d, key)
  {
    LayoutCapabilityKeys(BasePuts(loc, d) + IdPuts(loc, registry), d, before, ExtraPuts(extra), after, key);
    OwnKeys(loc, extra, d, registry);
  }

  /** With every kind probed in one of the two chains, the layout writes the
      own keys and exactly the keys of the capabilities the block exposes. */
  lemma LayoutCapabilityKeys(own: seq<Put>, d: BlockData, before: seq<Kind>, mid: seq<Put>, after: seq<Kind>, key: string)
    requires forall k :: k in before || k in after
    ensures key in Apply(map[], Layout(own, KindStep(d), before, mid, after)) <==>
      key in KeysOf(own) || key in KeysOf(mid) || CapabilityKey(d, key)
  {
    ApplyKeys(map[], Layout(own, KindStep(d), before, mid, after));
    LayoutKeys(own, KindStep(d), before, mid, after, key);
    ChainsCoverCapabilities(d, before, after, key);
  }

  /** The attribute map holds exactly the base keys, `id` for a watched
      block, `extraData` when given, and the keys of every exposed capability. */
  lemma SnapshotKeys(loc: Location, extra: Option<Value>, d: BlockData, registry: map<Location, int>, key: string)
    ensures key in Snapshot(loc, extra, d, registry) <==>
      || key in {"world", "x", "y", "z", "material"}
      || (key == "id" && loc in registry)
      || (key == "extraData" && extra.Some?)
      || CapabilityKey(d, key)
  {
    forall k ensures k in BEFORE_EXTRA || k in AFTER_EXTRA {
      EveryKindProbed(k);
    }
    LayoutKeysExactly(loc, extra, d, registry, BEFORE_EXTRA, AFTER_EXTRA, key);
  }

  /** The whole chain of tests, in order. */
  const PROBE_ORDER: seq<Kind> := BEFORE_EXTRA + AFTER_EXTRA

  /** A capability key's value is the one the exposed capability latest in
      the chain puts: a later capability overrides an earlier one, and the
      extra data never shadows a capability key. */
  lemma SnapshotCapabilityValue(loc: Location, extra: Option<Value>, d: BlockData, registry: map<Location, int>, i: int, key: string)
    requires 0 <= i < |PROBE_ORDER| && Exposes(d, PROBE_ORDER[i]) && key in KindKeys(PROBE_ORDER[i])
    requires forall j :: i < j < |PROBE_ORDER| && Exposes(d, PROBE_ORDER[j]) ==> key !in KindKeys(PROBE_ORDER[j])
    ensures LastValue(KindPuts(d, PROBE_ORDER[i]), key).Some?
    ensures key in Snapshot(loc, extra, d, registry)
    ensures Snapshot(loc, extra, d, registry)[key] == LastValue(KindPuts(d, PROBE_ORDER[i]), key).value
  {
    assert key != "extraData" by {
      if key == "extraData" {
        ReservedFree(PROBE_ORDER[i], key);
      }
    }
    assert KeysOf(ExtraPuts(extra)) == if extra.Some? then {"extraData"} else {};
    CapabilityLastWriter(BasePuts(loc, d) + IdPuts(loc, registry), d, ExtraPuts(extra), i, key);
  }

  /** The same, for any own puts and any middle puts that leave the key alone. */
  lemma CapabilityLastWriter(own: seq<Put>, d: BlockData, mid: seq<Put>, i: int, key: string)
    requires 0 <= i < |PROBE_ORDER| && Exposes(d, PROBE_ORDER[i]) && key in KindKeys(PROBE_ORDER[i])
    requires forall j :: i < j < |PROBE_ORDER| && Exposes(d, PROBE_ORDER[j]) ==> key !in KindKeys(PROBE_ORDER[j])
    requires key !in KeysOf(mid)
    ensures LastValue(KindPuts(d, PROBE_ORDER[i]), key).Some?
    ensures key in Apply(map[], Layout(own, KindStep(d), BEFORE_EXTRA, mid, AFTER_EXTRA))
    ensures Apply(map[], Layout(own, KindStep(d), BEFORE_EXTRA, mid, AFTER_EXTRA))[key] == LastValue(KindPuts(d, PROBE_ORDER[i]), key).value
  {
    var step := KindStep(d);
    forall j | i < j < |PROBE_ORDER| ensures key !in KeysOf(step(PROBE_ORDER[j])) {
    }
    LayoutLastWriter(own, step, BEFORE_EXTRA, mid, AFTER_EXTRA, i, key);
    ApplyLookup(map[], Layout(own, step, BEFORE_EXTRA, mid, AFTER_EXTRA), key);
  }

  /** Only Directional and Stairs write `facing`, only Bisected and Stairs
      write `half`, and only Stairs writes `shape`. */
  lemma StairsKeyOwners(k: Kind)
    ensures "facing" in KindKeys(k) ==> k == Kind.Directional || k == Kind.Stairs
    ensures "half" in KindKeys(k) ==> k == Kind.Bisected || k == Kind.Stairs
    ensures "shape" in KindKeys(k) ==> k == Kind.Stairs
  {
    EveryKindGrouped(k);
    if GroupA(k) {
      StairsKeyOwnersA(k);
    } else if GroupB(k) {
      StairsKeyOwnersB(k);
    } else if GroupC(k) {
      StairsKeyOwnersC(k);
    } else if GroupD(k) {
      StairsKeysElsewhereD(k);
    } else if GroupE(k) {
      StairsKeysElsewhereE(k);
    } else if GroupF(k) {
      StairsKeysElsewhereF(k);
    } else if GroupG(k) {
      StairsKeysElsewhereG(k);
    } else if GroupH(k) {
      StairsKeysElsewhereH(k);
    } else if GroupI(k) {
      StairsKeysElsewhereI(k);
    } else if GroupJ(k) {
      StairsKeysElsewhereJ(k);
    } else if GroupK(k) {
      StairsKeysElsewhereK(k);
    } else if GroupL(k) {
      StairsKeysElsewhereL(k);
    } else {
      StairsKeysElsewhereM(k);
    }
  }

  /* StairsKeyOwners one group of kinds at a time, for the same reason:
     A to C hold the kinds that may carry these keys, D to M the rest. */
  lemma StairsKeyOwnersA(k: Kind)
    requires GroupA(k)
    ensures "facing" in KindKeys(k) ==> k == Kind.Directional || k == Kind.Stairs
    ensures "half" in KindKeys(k) ==> k == Kind.Bisected || k == Kind.Stairs
    ensures "shape" in KindKeys(k) ==> k == Kind.Stairs
  {
  }

  lemma StairsKeyOwnersB(k: Kind)
    requires GroupB(k)
    ensures "facing" in KindKeys(k) ==> k == Kind.Directional || k == Kind.Stairs
    ensures "half" in KindKeys(k) ==> k == Kind.Bisected || k == Kind.Stairs
    ensures "shape" in KindKeys(k) ==> k == Kind.Stairs
  {
  }

  lemma StairsKeyOwnersC(k: Kind)
    requires GroupC(k)
    ensures "facing" in KindKeys(k) ==> k == Kind.Directional || k == Kind.Stairs
    ensures "half" in KindKeys(k) ==> k == Kind.Bisected || k == Kind.Stairs
    ensures "shape" in KindKeys(k) ==> k == Kind.Stairs
  {
  }

  lemma StairsKeysElsewhereD(k: Kind)
    requires GroupD(k)
    ensures "facing" !in KindKeys(k) && "half" !in KindKeys(k) && "shape" !in KindKeys(k)
  {
  }

  lemma StairsKeysElsewhereE(k: Kind)
    requires GroupE(k)
    ensures "facing" !in KindKeys(k) && "half" !in KindKeys(k) && "shape" !in KindKeys(k)
  {
  }

  lemma StairsKeysElsewhereF(k: Kind)
    requires GroupF(k)
    ensures "facing" !in KindKeys(k) && "half" !in KindKeys(k) && "shape" !in KindKeys(k)
  {
  }

  lemma StairsKeysElsewhereG(k: Kind)
    requires GroupG(k)
    ensures "facing" !in KindKeys(k) && "half" !in KindKeys(k) && "shape" !in KindKeys(k)
  {
  }

  lemma StairsKeysElsewhereH(k: Kind)
    requires GroupH(k)
    ensures "facing" !in KindKeys(k) && "half" !in KindKeys(k) && "shape" !in KindKeys(k)
  {
  }

  lemma StairsKeysElsewhereI(k: Kind)
    requires GroupI(k)
    ensures "facing" !in KindKeys(k) && "half" !in KindKeys(k) && "shape" !in KindKeys(k)
  {
  }

  lemma StairsKeysElsewhereJ(k: Kind)
    requires GroupJ(k)
    ensures "facing" !in KindKeys(k) && "half" !in KindKeys(k) && "shape" !in KindKeys(k)
  {
  }

  lemma StairsKeysElsewhereK(k: Kind)
    requires GroupK(k)
    ensures "facing" !in KindKeys(k) && "half" !in KindKeys(k) && "shape" !in KindKeys(k)
  {
  }

  lemma StairsKeysElsewhereL(k: Kind)
    requires GroupL(k)
    ensures "facing" !in KindKeys(k) && "half" !in KindKeys(k) && "shape" !in KindKeys(k)
  {
  }

  lemma StairsKeysElsewhereM(k: Kind)
    requires GroupM(k)
    ensures "facing" !in KindKeys(k) && "half" !in KindKeys(k) && "shape" !in KindKeys(k)
  {
  }

  /** Stairs is the eleventh test; Directional and Bisected come before it. */
  lemma AfterStairs(j: int)
    requires 10 < j < |PROBE_ORDER|
    ensures PROBE_ORDER[j] != Kind.Directional && PROBE_ORDER[j] != Kind.Bisected && PROBE_ORDER[j] != Kind.Stairs
  {
  }

  predicate IsStairsKey(key: string) {
    key == "shape" || key == "facing" || key == "half"
  }

  /** No test after the Stairs one writes a stairs key. */
  lemma StairsLastWriter(d: BlockData, key: string)
    requires IsStairsKey(key)
    ensures forall j :: 10 < j < |PROBE_ORDER| && Exposes(d, PROBE_ORDER[j]) ==> key !in KindKeys(PROBE_ORDER[j])
  {
    forall j | 10 < j < |PROBE_ORDER| && Exposes(d, PROBE_ORDER[j]) ensures key !in KindKeys(PROBE_ORDER[j]) {
      AfterStairs(j);
      StairsKeyOwners(PROBE_ORDER[j]);
    }
  }

  /** What the Stairs branch puts, key by key. */
  lemma StairsEntries(f: Facet)
    requires f.Stairs?
    ensures LastValue(Entries(f), "shape") == Some(Str(f.shape))
    ensures LastValue(Entries(f), "facing") == Some(Str(f.facing))
    ensures LastValue(Entries(f), "half") == Some(Str(f.half))
  {
    var p0, p1, p2 := Put("shape", Str(f.shape)), Put("facing", Str(f.facing)), Put("half", Str(f.half));
    assert Entries(f) == [p0] + [p1] + [p2];
    forall key ensures LastValue(Entries(f), key) ==
      if key == "half" then Some(p2.value) else if key == "facing" then Some(p1.value) else if key == "shape" then Some(p0.value) else None
    {
      LastValueSnoc([p0] + [p1], p2, key);
      LastValueSnoc([p0], p1, key);
      LastValueSnoc([], p0, key);
      assert [] + [p0] == [p0];
    }
  }

  lemma StairsValue(loc: Location, extra: Option<Value>, d: BlockData, registry: map<Location, int>, st: Facet, key: string)
    requires Probe(d, Kind.Stairs) == Some(st) && IsStairsKey(key)
    ensures key in Snapshot(loc, extra, d, registry)
    ensures Some(Snapshot(loc, extra, d, registry)[key]) == LastValue(Entries(st), key)
  {
    assert PROBE_ORDER[10] == Kind.Stairs;
    StairsLastWriter(d, key);
    SnapshotCapabilityValue(loc, extra, d, registry, 10, key);
  }

  /** A stairs block reports its own shape, facing and half, once each:
      its puts replace the `facing` and `half` that the Directional and
      Bisected tests earlier in the chain wrote. */
  lemma StairsOverride(loc: Location, extra: Option<Value>, d: BlockData, registry: map<Location, int>, st: Facet)
    requires Probe(d, Kind.Stairs) == Some(st)
    ensures var s := Snapshot(loc, extra, d, registry);
      && "shape" in s && s["shape"] == Str(st.shape)
      && "facing" in s && s["facing"] == Str(st.facing)
      && "half" in s && s["half"] == Str(st.half)
  {
    assert st.Stairs?;
    StairsEntries(st);
    StairsValue(loc, extra, d, registry, st, "shape");
    StairsValue(loc, extra, d, registry, st, "facing");
    StairsValue(loc, extra, d, registry, st, "half");
  }
}
