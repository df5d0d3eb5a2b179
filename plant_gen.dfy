/**
 * The Plant resource: a block placed in up to 64 random spots around a
 * point, only on empty cells standing on one of its source blocks.  Its
 * arguments are a material, a frequency, a rarity, an altitude range and
 * the source blocks.
 */
module PlantGen {
  import opened Wrappers
  import opened JavaLang

  /** The altitude range the engine supports. */
  const WorldDepth: int := 0
  const WorldHeight: int := 256

  /** The argument readers of the resource base class, each failing on text it cannot read. */
  datatype Codec = Codec(
    readBlockId: string -> Option<int>,
    readBlockData: string -> Option<int>,
    parseInt: string -> Option<int>,
    readRarity: string -> Option<real>)

  /** The writers makeString uses, one per argument kind. */
  datatype Format = Format(
    material: (int, int) -> string,
    sourceMaterial: int -> string,
    intText: int -> string,
    realText: real -> string)

  datatype LoadError = TooFewArguments | BadMaterial(arg: string) | BadNumber(arg: string) | BadRarity(arg: string)

  /** The settings of one Plant resource; the source blocks are null until it is loaded. */
  datatype Plant = Plant(
    blockId: int, blockData: int, frequency: int, rarity: real,
    minAltitude: int, maxAltitude: int, sourceBlocks: Option<seq<int>>)

  // ----- Loading -----------------------------------------------------------

  /** readInt: a number read from the text and clamped, the lower bound checked first. */
  function ReadInt(codec: Codec, text: string, lo: int, hi: int): (r: Result<int, LoadError>)
    ensures r.Err? <==> codec.parseInt(text).None?
    ensures r.Err? ==> r.error == BadNumber(text)
    ensures r.Ok? && lo <= hi ==> lo <= r.value <= hi
    ensures r.Ok? && lo <= codec.parseInt(text).value <= hi ==> r.value == codec.parseInt(text).value
    ensures r.Ok? && codec.parseInt(text).value < lo ==> r.value == lo
    ensures r.Ok? && lo <= codec.parseInt(text).value && codec.parseInt(text).value > hi ==> r.value == hi
  {
    match codec.parseInt(text)
    case None => Err(BadNumber(text))
    case Some(n) => Ok(if n < lo then lo else if n > hi then hi else n)
  }

  /** The block ids of the source-block arguments, in order, or the first one that cannot be read. */
  function ReadBlockIds(codec: Codec, args: seq<string>): Result<seq<int>, LoadError>
  {
    if args == [] then Ok([])
    else match codec.readBlockId(args[0])
      case None => Err(BadMaterial(args[0]))
      case Some(id) =>
        match ReadBlockIds(codec, args[1..])
        case Err(e) => Err(e)
        case Ok(ids) => Ok([id] + ids)
  }

  lemma {:induction false} ReadBlockIdsSpec(codec: Codec, args: seq<string>)
    ensures ReadBlockIds(codec, args).Ok? <==> forall i :: 0 <= i < |args| ==> codec.readBlockId(args[i]).Some?
    ensures ReadBlockIds(codec, args).Ok? ==>
      |ReadBlockIds(codec, args).value| == |args|
      && forall i :: 0 <= i < |args| ==> codec.readBlockId(args[i]) == Some(ReadBlockIds(codec, args).value[i])
  {
    if args != [] {
      ReadBlockIdsSpec(codec, args[1..]);
      if codec.readBlockId(args[0]).Some? && ReadBlockIds(codec, args[1..]).Ok? {
        forall i | 0 <= i < |args|
          ensures codec.readBlockId(args[i]) == Some(ReadBlockIds(codec, args).value[i])
        {
          if i > 0 {
            assert args[i] == args[1..][i - 1];
          }
        }
      } else if codec.readBlockId(args[0]).None? {
        assert codec.readBlockId(args[0]).None?;
      } else {
        var j :| 0 <= j < |args[1..]| && codec.readBlockId(args[1..][j]).None?;
        assert args[j + 1] == args[1..][j];
      }
    }
  }

  lemma {:induction false} ReadBlockIdsAppend(codec: Codec, a: seq<string>, b: seq<string>)
    requires ReadBlockIds(codec, a).Ok?
    ensures ReadBlockIds(codec, a + b) ==
      match ReadBlockIds(codec, b)
      case Err(e) => Err(e)
      case Ok(ids) => Ok(ReadBlockIds(codec, a).value + ids)
  {
    if a == [] {
      assert a + b == b;
      match ReadBlockIds(codec, b)
      case Err(e) =>
      case Ok(ids) =>
        assert ReadBlockIds(codec, a).value + ids == ids;
    } else {
      assert (a + b)[0] == a[0];
      assert (a + b)[1..] == a[1..] + b;
      var id := codec.readBlockId(a[0]).value;
      assert ReadBlockIds(codec, a[1..]).Ok?;
      ReadBlockIdsAppend(codec, a[1..], b);
      assert ReadBlockIds(codec, a) == Ok([id] + ReadBlockIds(codec, a[1..]).value);
      match ReadBlockIds(codec, b)
      case Err(e) =>
        assert ReadBlockIds(codec, a[1..] + b) == Err(e);
      case Ok(ids) =>
        assert ReadBlockIds(codec, a[1..] + b) == Ok(ReadBlockIds(codec, a[1..]).value + ids);
        assert [id] + (ReadBlockIds(codec, a[1..]).value + ids) == ([id] + ReadBlockIds(codec, a[1..]).value) + ids;
    }
  }

  /** One more source argument: a bad one is the error of the whole list, a good one extends the ids. */
  lemma ReadBlockIdsStep(codec: Codec, args: seq<string>, from: nat, i: nat, ids: seq<int>)
    requires from <= i < |args| && ReadBlockIds(codec, args[from..i]) == Ok(ids)
    ensures codec.readBlockId(args[i]).None? ==> ReadBlockIds(codec, args[from..]) == Err(BadMaterial(args[i]))
    ensures codec.readBlockId(args[i]).Some? ==>
      ReadBlockIds(codec, args[from..i + 1]) == Ok(ids + [codec.readBlockId(args[i]).value])
  {
    var rest := args[i..];
    assert rest[0] == args[i];
    assert args[from..] == args[from..i] + rest;
    ReadBlockIdsAppend(codec, args[from..i], rest);
    ReadBlockIdsHead(codec, rest);
    assert args[from..i + 1] == args[from..i] + [args[i]];
    ReadBlockIdsAppend(codec, args[from..i], [args[i]]);
    ReadBlockIdsHead(codec, [args[i]]);
  }

  /** The reading of a list stops at its head when the head cannot be read. */
  lemma ReadBlockIdsHead(codec: Codec, b: seq<string>)
    requires b != []
    ensures codec.readBlockId(b[0]).None? ==> ReadBlockIds(codec, b) == Err(BadMaterial(b[0]))
    ensures codec.readBlockId(b[0]).Some? && b[1..] == [] ==> ReadBlockIds(codec, b) == Ok([codec.readBlockId(b[0]).value])
  {
    if codec.readBlockId(b[0]).Some? && b[1..] == [] {
      assert ReadBlockIds(codec, b[1..]) == Ok([]);
      assert [codec.readBlockId(b[0]).value] + [] == [codec.readBlockId(b[0]).value];
    }
  }

  /**
   * load: at least six arguments; the material (id and data) from the first;
   * frequency in [1, 100]; rarity; the minimum altitude in [WorldDepth,
   * WorldHeight]; the maximum in [minimum + 1, WorldHeight]; then every
   * remaining argument is a source block.  The first argument that cannot
   * be read is the error.
   */
  function Parse(codec: Codec, args: seq<string>): Result<Plant, LoadError>
  {
    if |args| < 6 then Err(TooFewArguments)
    else if codec.readBlockId(args[0]).None? || codec.readBlockData(args[0]).None? then Err(BadMaterial(args[0]))
    else
      var frequency := ReadInt(codec, args[1], 1, 100);
      if frequency.Err? then Err(frequency.error)
      else if codec.readRarity(args[2]).None? then Err(BadRarity(args[2]))
      else
        var minAltitude := ReadInt(codec, args[3], WorldDepth, WorldHeight);
        if minAltitude.Err? then Err(minAltitude.error)
        else
          var maxAltitude := ReadInt(codec, args[4], minAltitude.value + 1, WorldHeight);
          if maxAltitude.Err? then Err(maxAltitude.error)
          else
            var sources := ReadBlockIds(codec, args[5..]);
            if sources.Err? then Err(sources.error)
            else Ok(Plant(codec.readBlockId(args[0]).value, codec.readBlockData(args[0]).value,
                          frequency.value, codec.readRarity(args[2]).value,
                          minAltitude.value, maxAltitude.value, Some(sources.value)))
  }

  /** What a successful load guarantees. */
  lemma ParseBounds(codec: Codec, args: seq<string>)
    requires Parse(codec, args).Ok?
    ensures |args| >= 6
    ensures 1 <= Parse(codec, args).value.frequency <= 100
    ensures WorldDepth <= Parse(codec, args).value.minAltitude <= WorldHeight
    ensures Parse(codec, args).value.maxAltitude <= WorldHeight + 1
    ensures Parse(codec, args).value.minAltitude < WorldHeight ==> Parse(codec, args).value.maxAltitude <= WorldHeight
    ensures Parse(codec, args).value.minAltitude < WorldHeight ==>
      Parse(codec, args).value.minAltitude < Parse(codec, args).value.maxAltitude
    ensures Parse(codec, args).value.sourceBlocks.Some?
    ensures |Parse(codec, args).value.sourceBlocks.value| == |args| - 5 >= 1
    ensures forall i :: 5 <= i < |args| ==>
      codec.readBlockId(args[i]) == Some(Parse(codec, args).value.sourceBlocks.value[i - 5])
  {
    ReadBlockIdsSpec(codec, args[5..]);
    forall i | 5 <= i < |args|
      ensures codec.readBlockId(args[i]) == Some(Parse(codec, args).value.sourceBlocks.value[i - 5])
    {
      assert args[i] == args[5..][i - 5];
    }
  }

  /**
   * A minimum altitude equal to WorldHeight leaves no room above it: the
   * maximum is read into the empty range [257, 256] and comes out as 256 for
   * any larger number, equal to the minimum.
   */
  lemma ParseAtWorldHeight(codec: Codec, args: seq<string>)
    requires Parse(codec, args).Ok?
    requires codec.parseInt(args[3]) == Some(WorldHeight)
    requires codec.parseInt(args[4]).Some? && codec.parseInt(args[4]).value > WorldHeight
    ensures Parse(codec, args).value.minAltitude == Parse(codec, args).value.maxAltitude
  {
  }

  /** Fewer than six arguments are always refused, whatever they hold. */
  lemma ParseNeedsSix(codec: Codec, args: seq<string>)
    requires |args| < 6
    ensures Parse(codec, args) == Err(TooFewArguments)
  {
  }

  // ----- Serialisation, analogy, equality, hashing -------------------------

  /** makeMaterial over the source blocks: a comma before each one. */
  function SourceText(fmt: Format, ids: seq<int>): string
  {
    if ids == [] then [] else "," + (fmt.sourceMaterial(ids[0]) + SourceText(fmt, ids[1..]))
  }

  /** makeString: fails (null list) on a resource that was never loaded. */
  function MakeString(fmt: Format, p: Plant): Option<string>
  {
    match p.sourceBlocks
    case None => None
    case Some(ids) =>
      Some("Plant(" + (fmt.material(p.blockId, p.blockData) + ("," + (fmt.intText(p.frequency) + (","
        + (fmt.realText(p.rarity) + ("," + (fmt.intText(p.minAltitude) + ("," + (fmt.intText(p.maxAltitude)
        + SourceText(fmt, ids)))))))))) + ")")
  }

  /** The argument texts of a loaded resource, in the order load reads them. */
  function ArgsOf(fmt: Format, p: Plant, ids: seq<int>): seq<string>
  {
    [fmt.material(p.blockId, p.blockData), fmt.intText(p.frequency), fmt.realText(p.rarity),
     fmt.intText(p.minAltitude), fmt.intText(p.maxAltitude)]
      + SourceTexts(fmt, ids)
  }

  function SourceTexts(fmt: Format, ids: seq<int>): (r: seq<string>)
    ensures |r| == |ids| && forall i :: 0 <= i < |ids| ==> r[i] == fmt.sourceMaterial(ids[i])
  {
    if ids == [] then [] else [fmt.sourceMaterial(ids[0])] + SourceTexts(fmt, ids[1..])
  }

  lemma {:induction false} SourceTextJoin(fmt: Format, head: string, ids: seq<int>)
    ensures head + SourceText(fmt, ids) == Join([head] + SourceTexts(fmt, ids), ',')
    decreases |ids|
  {
    if ids != [] {
      var rest := SourceTexts(fmt, ids[1..]);
      SourceTextJoin(fmt, fmt.sourceMaterial(ids[0]), ids[1..]);
      assert ([head] + SourceTexts(fmt, ids))[1..] == [fmt.sourceMaterial(ids[0])] + rest;
    }
  }

  /** makeString writes "Plant(", the arguments joined by commas in load's order, then ")". */
  lemma MakeStringJoinsArgs(fmt: Format, p: Plant)
    requires p.sourceBlocks.Some?
    ensures MakeString(fmt, p) == Some("Plant(" + Join(ArgsOf(fmt, p, p.sourceBlocks.value), ',') + ")")
  {
    var ids := p.sourceBlocks.value;
    var m := fmt.material(p.blockId, p.blockData);
    var f := fmt.intText(p.frequency);
    var r := fmt.realText(p.rarity);
    var lo := fmt.intText(p.minAltitude);
    var hi := fmt.intText(p.maxAltitude);
    SourceTextJoin(fmt, hi, ids);
    var tail := [hi] + SourceTexts(fmt, ids);
    assert ArgsOf(fmt, p, ids) == [m, f, r, lo] + tail;
    JoinCons(lo, tail);
    JoinCons(r, [lo] + tail);
    assert [r] + ([lo] + tail) == [r, lo] + tail;
    JoinCons(f, [r, lo] + tail);
    assert [f] + ([r, lo] + tail) == [f, r, lo] + tail;
    JoinCons(m, [f, r, lo] + tail);
    assert [m] + ([f, r, lo] + tail) == [m, f, r, lo] + tail;
  }

  lemma JoinCons(head: string, tail: seq<string>)
    requires tail != []
    ensures Join([head] + tail, ',') == head + ("," + Join(tail, ','))
  {
    assert ([head] + tail)[1..] == tail;
  }

  /** The readers undo the writers, and no written argument holds a comma. */
  ghost predicate Inverse(codec: Codec, fmt: Format)
  {
    && (forall id, data :: codec.readBlockId(fmt.material(id, data)) == Some(id))
    && (forall id, data :: codec.readBlockData(fmt.material(id, data)) == Some(data))
    && (forall id :: codec.readBlockId(fmt.sourceMaterial(id)) == Some(id))
    && (forall n :: codec.parseInt(fmt.intText(n)) == Some(n))
    && (forall x :: codec.readRarity(fmt.realText(x)) == Some(x))
    && (forall id, data :: ',' !in fmt.material(id, data))
    && (forall id :: ',' !in fmt.sourceMaterial(id))
    && (forall n :: ',' !in fmt.intText(n))
    && (forall x :: ',' !in fmt.realText(x))
  }

  /** A loaded resource whose fields are inside the bounds load enforces. */
  predicate InBounds(p: Plant)
  {
    && 1 <= p.frequency <= 100
    && WorldDepth <= p.minAltitude <= WorldHeight
    && p.minAltitude + 1 <= p.maxAltitude <= WorldHeight
    && p.sourceBlocks.Some? && |p.sourceBlocks.value| >= 1
  }

  lemma {:induction false} ReadSourceTexts(codec: Codec, fmt: Format, ids: seq<int>)
    requires forall id :: codec.readBlockId(fmt.sourceMaterial(id)) == Some(id)
    ensures ReadBlockIds(codec, SourceTexts(fmt, ids)) == Ok(ids)
  {
    if ids != [] {
      ReadSourceTexts(codec, fmt, ids[1..]);
      assert SourceTexts(fmt, ids)[1..] == SourceTexts(fmt, ids[1..]);
      assert [ids[0]] + ids[1..] == ids;
    }
  }

  /**
   * makeString writes the arguments in the order load reads them: splitting
   * its body on commas and loading the pieces gives back the resource.
   */
  lemma MakeStringRoundTrip(codec: Codec, fmt: Format, p: Plant)
    requires Inverse(codec, fmt)
    requires InBounds(p)
    ensures MakeString(fmt, p) == Some("Plant(" + Join(ArgsOf(fmt, p, p.sourceBlocks.value), ',') + ")")
    ensures SplitAll(Join(ArgsOf(fmt, p, p.sourceBlocks.value), ','), ',') == ArgsOf(fmt, p, p.sourceBlocks.value)
    ensures Parse(codec, ArgsOf(fmt, p, p.sourceBlocks.value)) == Ok(p)
  {
    var ids := p.sourceBlocks.value;
    var args := ArgsOf(fmt, p, ids);
    MakeStringJoinsArgs(fmt, p);
    assert args[0] == fmt.material(p.blockId, p.blockData);
    assert args[1] == fmt.intText(p.frequency);
    assert args[2] == fmt.realText(p.rarity);
    assert args[3] == fmt.intText(p.minAltitude);
    assert args[4] == fmt.intText(p.maxAltitude);
    assert ',' !in fmt.material(p.blockId, p.blockData);
    assert ',' !in fmt.intText(p.frequency) && ',' !in fmt.realText(p.rarity);
    assert ',' !in fmt.intText(p.minAltitude) && ',' !in fmt.intText(p.maxAltitude);
    assert forall id :: ',' !in fmt.sourceMaterial(id);
    forall i | 0 <= i < |args|
      ensures ',' !in args[i]
    {
      if i >= 5 {
        assert args[i] == SourceTexts(fmt, ids)[i - 5] == fmt.sourceMaterial(ids[i - 5]);
        assert ',' !in fmt.sourceMaterial(ids[i - 5]);
      } else if i == 0 {
      } else if i == 1 {
      } else if i == 2 {
      } else if i == 3 {
      } else {
        assert i == 4;
      }
    }
    SplitAllJoin(args, ',');
    assert args[5..] == SourceTexts(fmt, ids);
    ReadSourceTexts(codec, fmt, ids);
    assert ReadInt(codec, args[1], 1, 100) == Ok(p.frequency);
    assert ReadInt(codec, args[3], WorldDepth, WorldHeight) == Ok(p.minAltitude);
    assert ReadInt(codec, args[4], p.minAltitude + 1, WorldHeight) == Ok(p.maxAltitude);
  }

  /** isAnalogousTo: the same resource class and the same material. */
  datatype Resource = PlantResource(plant: Plant) | OtherResource(blockId: int, blockData: int)

  function IsAnalogousTo(p: Plant, other: Resource): (r: bool)
    ensures r <==> other.PlantResource? && other.plant.blockId == p.blockId && other.plant.blockData == p.blockData
  {
    match other
    case PlantResource(q) => q.blockId == p.blockId && q.blockData == p.blockData
    case OtherResource(_, _) => false
  }

  /**
   * equals: the superclass's verdict first, then a non-null object of the same
   * class with the same altitudes and the same (possibly null) source list.
   * The identity shortcut gives the answer the field comparison would.
   */
  function Equals(p: Plant, other: Option<Resource>, superEquals: bool): (r: bool)
    ensures r ==> superEquals && other.Some? && other.value.PlantResource?
    ensures other.Some? && other.value.PlantResource? ==>
      (r <==> (superEquals && other.value.plant.minAltitude == p.minAltitude
               && other.value.plant.maxAltitude == p.maxAltitude
               && other.value.plant.sourceBlocks == p.sourceBlocks))
  {
    if !superEquals then false
    else match other
      case None => false
      case Some(OtherResource(_, _)) => false
      case Some(PlantResource(q)) =>
        p.minAltitude == q.minAltitude && p.maxAltitude == q.maxAltitude
        && (if p.sourceBlocks.None? then q.sourceBlocks.None? else p.sourceBlocks == q.sourceBlocks)
  }

  /** List<Integer>.hashCode, with Java int arithmetic. */
  function ListHash(ids: seq<int>): (r: int)
    ensures -TwoTo31 <= r < TwoTo31
  {
    if ids == [] then 1 else Wrap32(31 * ListHash(ids[..|ids| - 1]) + ids[|ids| - 1])
  }

  /** hashCode: 7, then the superclass hash, the altitudes and the list hash (0 for null), base 71. */
  function HashCode(p: Plant, superHash: int): (r: int)
    ensures -TwoTo31 <= r < TwoTo31
  {
    var h := Wrap32(71 * 7 + superHash);
    var h := Wrap32(71 * h + p.minAltitude);
    var h := Wrap32(71 * h + p.maxAltitude);
    Wrap32(71 * h + (if p.sourceBlocks.Some? then ListHash(p.sourceBlocks.value) else 0))
  }

  /** Equal resources hash equally, given the superclass hashes equal objects equally. */
  lemma EqualsImpliesSameHash(p: Plant, q: Plant, superHash: int)
    requires Equals(p, Some(PlantResource(q)), true)
    ensures HashCode(p, superHash) == HashCode(q, superHash)
  {
  }

  // ----- Spawning ----------------------------------------------------------

  datatype Pos = Pos(x: int, y: int, z: int)
  datatype Block = Block(id: int, data: int)

  /** Cells the world does not list hold air, block id 0. */
  const Air: Block := Block(0, 0)

  function BlockAt(cells: map<Pos, Block>, p: Pos): Block
  {
    if p in cells then cells[p] else Air
  }

  predicate IsEmptyAt(cells: map<Pos, Block>, p: Pos)
  {
    BlockAt(cells, p).id == 0
  }

  /** The part of the world the resource reads and writes. */
  class World {
    var cells: map<Pos, Block>

    constructor (cells: map<Pos, Block>)
      ensures this.cells == cells
    {
      this.cells := cells;
    }

    predicate IsEmpty(p: Pos)
      reads this
    {
      IsEmptyAt(cells, p)
    }

    function TypeId(p: Pos): (r: int)
      reads this
      ensures r == BlockAt(cells, p).id
    {
      if p in cells then cells[p].id else 0
    }

    method SetBlock(p: Pos, b: Block)
      modifies this
      ensures cells == old(cells)[p := b]
    {
      cells := cells[p := b];
    }
  }

  /**
   * java.util.Random as a supplied stream: the k-th call nextInt(bound)
   * yields rand(k) modulo bound.
   */
  function NextInt(rand: nat -> int, k: nat, bound: int): (r: int)
    requires bound > 0
    ensures 0 <= r < bound
  {
    rand(k) % bound
  }

  /** The base height: draw 0, inside [minAltitude, maxAltitude). */
  function BaseY(rand: nat -> int, p: Plant): (r: int)
    requires p.maxAltitude - p.minAltitude > 0
    ensures p.minAltitude <= r < p.maxAltitude
  {
    NextInt(rand, 0, p.maxAltitude - p.minAltitude) + p.minAltitude
  }

  /** Attempt i uses draws 6i+1 .. 6i+6, in the order the source evaluates them. */
  function AttemptPos(rand: nat -> int, x: int, y: int, z: int, i: nat): (r: Pos)
    ensures x - 7 <= r.x <= x + 7 && y - 3 <= r.y <= y + 3 && z - 7 <= r.z <= z + 7
  {
    var d := 6 * i + 1;
    Pos(x + NextInt(rand, d, 8) - NextInt(rand, d + 1, 8),
        y + NextInt(rand, d + 2, 4) - NextInt(rand, d + 3, 4),
        z + NextInt(rand, d + 4, 8) - NextInt(rand, d + 5, 8))
  }

  function Below(p: Pos): Pos { Pos(p.x, p.y - 1, p.z) }

  /** One attempt places the block only on an empty cell above a source block. */
  predicate CanPlace(cells: map<Pos, Block>, sources: seq<int>, p: Pos)
  {
    IsEmptyAt(cells, p) && BlockAt(cells, Below(p)).id in sources
  }

  /** The world after the first n attempts. */
  function AfterAttempts(cells: map<Pos, Block>, block: Block, sources: seq<int>,
                         rand: nat -> int, x: int, y: int, z: int, n: nat): map<Pos, Block>
  {
    if n == 0 then cells
    else
      var before := AfterAttempts(cells, block, sources, rand, x, y, z, n - 1);
      var p := AttemptPos(rand, x, y, z, n - 1);
      if CanPlace(before, sources, p) then before[p := block] else before
  }

  /** The cells whose block differs between two worlds (cells only ever get added). */
  function Changed(before: map<Pos, Block>, after: map<Pos, Block>): set<Pos>
  {
    set p | p in after.Keys && BlockAt(after, p) != BlockAt(before, p)
  }

  function AttemptSet(rand: nat -> int, x: int, y: int, z: int, n: nat): (r: set<Pos>)
    ensures |r| <= n
    ensures forall i: nat :: i < n ==> AttemptPos(rand, x, y, z, i) in r
  {
    if n == 0 then {} else AttemptSet(rand, x, y, z, n - 1) + {AttemptPos(rand, x, y, z, n - 1)}
  }

  /**
   * After n attempts, only attempted cells have changed; each of them was
   * empty before the spawn and now holds the plant's block.
   */
  lemma {:induction false} AfterAttemptsChanges(cells: map<Pos, Block>, block: Block, sources: seq<int>,
                                                rand: nat -> int, x: int, y: int, z: int, n: nat)
    ensures forall p :: BlockAt(AfterAttempts(cells, block, sources, rand, x, y, z, n), p) != BlockAt(cells, p) ==>
      p in AttemptSet(rand, x, y, z, n) && IsEmptyAt(cells, p)
      && BlockAt(AfterAttempts(cells, block, sources, rand, x, y, z, n), p) == block
    ensures cells.Keys <= AfterAttempts(cells, block, sources, rand, x, y, z, n).Keys
  {
    if n > 0 {
      AfterAttemptsChanges(cells, block, sources, rand, x, y, z, n - 1);
    }
  }

  /** 64 attempts change at most 64 cells, all inside the x±7, y±3, z±7 window. */
  lemma SpawnChangesAtMost64(cells: map<Pos, Block>, block: Block, sources: seq<int>,
                             rand: nat -> int, x: int, y: int, z: int)
    ensures |Changed(cells, AfterAttempts(cells, block, sources, rand, x, y, z, 64))| <= 64
    ensures forall p :: p in Changed(cells, AfterAttempts(cells, block, sources, rand, x, y, z, 64)) ==>
      x - 7 <= p.x <= x + 7 && y - 3 <= p.y <= y + 3 && z - 7 <= p.z <= z + 7
  {
    var after := AfterAttempts(cells, block, sources, rand, x, y, z, 64);
    var attempts := AttemptSet(rand, x, y, z, 64);
    AfterAttemptsChanges(cells, block, sources, rand, x, y, z, 64);
    AttemptSetWindow(rand, x, y, z, 64);
    assert Changed(cells, after) <= attempts;
    SubsetSize(Changed(cells, after), attempts);
  }

  lemma {:induction false} AttemptSetWindow(rand: nat -> int, x: int, y: int, z: int, n: nat)
    ensures forall p :: p in AttemptSet(rand, x, y, z, n) ==>
      x - 7 <= p.x <= x + 7 && y - 3 <= p.y <= y + 3 && z - 7 <= p.z <= z + 7
  {
    if n > 0 {
      AttemptSetWindow(rand, x, y, z, n - 1);
    }
  }

  lemma SubsetSize<T>(a: set<T>, b: set<T>)
    requires a <= b
    ensures |a| <= |b|
  {
    assert b == a + (b - a);
  }

  datatype SpawnError = EmptyAltitudeRange

  /** The resource object: its settings are assigned by load. */
  class PlantGen {
    var blockId: int
    var blockData: int
    var frequency: int
    var rarity: real
    var minAltitude: int
    var maxAltitude: int
    var sourceBlocks: Option<seq<int>>

    constructor ()
      ensures State() == Plant(0, 0, 0, 0.0, 0, 0, None)
    {
      blockId, blockData, frequency, rarity := 0, 0, 0, 0.0;
      minAltitude, maxAltitude, sourceBlocks := 0, 0, None;
    }

    function State(): Plant
      reads this
    {
      Plant(blockId, blockData, frequency, rarity, minAltitude, maxAltitude, sourceBlocks)
    }

    /**
     * load: on success the fields hold Parse's settings; on failure the
     * error is Parse's and the fields read so far stay assigned.
     */
    method Load(codec: Codec, args: seq<string>) returns (r: Result<Plant, LoadError>)
      modifies this
      ensures r == Parse(codec, args)
      ensures r.Ok? ==> State() == r.value
    {
      if |args| < 6 {
        return Err(TooFewArguments);
      }
      var id := codec.readBlockId(args[0]);
      if id.None? {
        return Err(BadMaterial(args[0]));
      }
      blockId := id.value;
      var data := codec.readBlockData(args[0]);
      if data.None? {
        return Err(BadMaterial(args[0]));
      }
      blockData := data.value;
      var f := ReadInt(codec, args[1], 1, 100);
      if f.Err? {
        return Err(f.error);
      }
      frequency := f.value;
      var rare := codec.readRarity(args[2]);
      if rare.None? {
        return Err(BadRarity(args[2]));
      }
      rarity := rare.value;
      var lo := ReadInt(codec, args[3], WorldDepth, WorldHeight);
      if lo.Err? {
        return Err(lo.error);
      }
      minAltitude := lo.value;
      var hi := ReadInt(codec, args[4], minAltitude + 1, WorldHeight);
      if hi.Err? {
        return Err(hi.error);
      }
      maxAltitude := hi.value;
      var ids: seq<int> := [];
      var i := 5;
      while i < |args|
        invariant 5 <= i <= |args|
        invariant ReadBlockIds(codec, args[5..i]) == Ok(ids)
        invariant blockId == id.value && blockData == data.value && frequency == f.value
        invariant rarity == rare.value && minAltitude == lo.value && maxAltitude == hi.value
      {
        ReadBlockIdsStep(codec, args, 5, i, ids);
        var source := codec.readBlockId(args[i]);
        if source.None? {
          return Err(BadMaterial(args[i]));
        }
        ids := ids + [source.value];
        i := i + 1;
      }
      assert args[5..i] == args[5..];
      sourceBlocks := Some(ids);
      r := Ok(State());
    }

    /**
     * spawn at column (x, z): fails when the altitude range is empty (nextInt
     * of a non-positive bound); otherwise 64 attempts around the base height,
     * and the world afterwards is AfterAttempts of the world before.
     */
    method Spawn(world: World, rand: nat -> int, x: int, z: int) returns (r: Result<int, SpawnError>)
      requires sourceBlocks.Some?
      modifies world
      ensures maxAltitude - minAltitude <= 0 ==> r == Err(EmptyAltitudeRange) && world.cells == old(world.cells)
      ensures maxAltitude - minAltitude > 0 ==>
        r == Ok(BaseY(rand, State()))
        && world.cells == AfterAttempts(old(world.cells), Block(blockId, blockData), sourceBlocks.value,
                                        rand, x, BaseY(rand, State()), z, 64)
    {
      if maxAltitude - minAltitude <= 0 {
        return Err(EmptyAltitudeRange);
      }
      var y := NextInt(rand, 0, maxAltitude - minAltitude) + minAltitude;
      var sources := sourceBlocks.value;
      var block := Block(blockId, blockData);
      ghost var start := world.cells;
      for i := 0 to 64
        invariant world.cells == AfterAttempts(start, block, sources, rand, x, y, z, i)
      {
        Attempt(world, block, sources, rand, x, y, z, i);
      }
      r := Ok(y);
    }

    /** One of the 64 attempts: the plant goes on an empty cell above a source block. */
    static method Attempt(world: World, block: Block, sources: seq<int>, rand: nat -> int, x: int, y: int, z: int, i: nat)
      modifies world
      ensures var p := AttemptPos(rand, x, y, z, i);
        world.cells == if CanPlace(old(world.cells), sources, p) then old(world.cells)[p := block] else old(world.cells)
    {
      var d := 6 * i + 1;
      var j := x + NextInt(rand, d, 8) - NextInt(rand, d + 1, 8);
      var k := y + NextInt(rand, d + 2, 4) - NextInt(rand, d + 3, 4);
      var m := z + NextInt(rand, d + 4, 8) - NextInt(rand, d + 5, 8);
      assert Pos(j, k, m) == AttemptPos(rand, x, y, z, i);
      if !world.IsEmpty(Pos(j, k, m)) || world.TypeId(Pos(j, k - 1, m)) !in sources {
        return;
      }
      world.SetBlock(Pos(j, k, m), block);
    }
  }
}
