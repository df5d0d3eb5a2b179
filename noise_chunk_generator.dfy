/**
 * The decision and data rules of OTG's noise chunk generator: the jigsaw
 * scan that feeds terrain shaping around villages, the column sampler and
 * its cell-range arithmetic, the writable area of a chunk, which carvers
 * OTG runs, which vanilla structures the world enables, the portal settings
 * read once from the dimension config, the lazy structure cache and the
 * choice between shadow-generated and freshly generated terrain.
 */
module NoiseChunkGenerator {
  import opened Wrappers
  import opened JavaLang
  import opened Seqs

  // ----- Jigsaw structures -------------------------------------------------

  datatype BoundingBox = BoundingBox(minX: int, minY: int, minZ: int, maxX: int, maxY: int, maxZ: int)

  datatype Projection = Rigid | TerrainMatching

  datatype Junction = Junction(sourceX: int, sourceGroundY: int, sourceZ: int)

  /** A structure piece: a jigsaw pool element with its junctions, or any other piece. */
  datatype Piece =
    | PoolElement(box: BoundingBox, projection: Projection, groundLevelDelta: int, junctions: seq<Junction>)
    | OtherPiece(box: BoundingBox)

  datatype JigsawStructureData = JigsawStructureData(
    minX: int, minY: int, minZ: int, maxX: int, groundLevelDelta: int, maxZ: int,
    isRigid: bool, sourceX: int, sourceGroundY: int, sourceZ: int)

  /** The first block coordinate of a chunk (chunk << 4). */
  function ChunkStart(chunk: int): int { chunk * 16 }

  /** The box entry a close piece contributes: rigid pool elements and every non-pool piece. */
  function PieceStructures(p: Piece): seq<JigsawStructureData>
  {
    match p
    case PoolElement(box, projection, delta, _) =>
      if projection == Rigid
      then [JigsawStructureData(box.minX, box.minY, box.minZ, box.maxX, delta, box.maxZ, true, 0, 0, 0)]
      else []
    case OtherPiece(box) =>
      [JigsawStructureData(box.minX, box.minY, box.minZ, box.maxX, 0, box.maxZ, false, 0, 0, 0)]
  }

  /** A junction is kept when its source lies within 12 blocks of the chunk's 16 columns. */
  predicate InJunctionWindow(j: Junction, startX: int, startZ: int)
  {
    j.sourceX > startX - 12 && j.sourceZ > startZ - 12 && j.sourceX < startX + 15 + 12 && j.sourceZ < startZ + 15 + 12
  }

  function JunctionEntry(j: Junction): JigsawStructureData
  {
    JigsawStructureData(0, 0, 0, 0, 0, 0, false, j.sourceX, j.sourceGroundY, j.sourceZ)
  }

  function KeptJunction(j: Junction, startX: int, startZ: int): seq<JigsawStructureData>
  {
    if InJunctionWindow(j, startX, startZ) then [JunctionEntry(j)] else []
  }

  function KeptJunctions(js: seq<Junction>, startX: int, startZ: int): seq<JigsawStructureData>
  {
    if js == [] then [] else KeptJunctions(js[..|js| - 1], startX, startZ) + KeptJunction(js[|js| - 1], startX, startZ)
  }

  function PieceJunctions(p: Piece, startX: int, startZ: int): seq<JigsawStructureData>
  {
    match p
    case PoolElement(_, _, _, js) => KeptJunctions(js, startX, startZ)
    case OtherPiece(_) => []
  }

  function CloseStructures(p: Piece, isClose: Piece -> bool): seq<JigsawStructureData>
  {
    if isClose(p) then PieceStructures(p) else []
  }

  function CloseJunctions(p: Piece, isClose: Piece -> bool, startX: int, startZ: int): seq<JigsawStructureData>
  {
    if isClose(p) then PieceJunctions(p, startX, startZ) else []
  }

  function PiecesStructures(ps: seq<Piece>, isClose: Piece -> bool): seq<JigsawStructureData>
  {
    if ps == [] then [] else PiecesStructures(ps[..|ps| - 1], isClose) + CloseStructures(ps[|ps| - 1], isClose)
  }

  function PiecesJunctions(ps: seq<Piece>, isClose: Piece -> bool, startX: int, startZ: int): seq<JigsawStructureData>
  {
    if ps == [] then [] else PiecesJunctions(ps[..|ps| - 1], isClose, startX, startZ) + CloseJunctions(ps[|ps| - 1], isClose, startX, startZ)
  }

  /** The box entries of every structure start, start by start, piece by piece. */
  function StartsStructures(starts: seq<seq<Piece>>, isClose: Piece -> bool): seq<JigsawStructureData>
  {
    if starts == [] then [] else StartsStructures(starts[..|starts| - 1], isClose) + PiecesStructures(starts[|starts| - 1], isClose)
  }

  function StartsJunctions(starts: seq<seq<Piece>>, isClose: Piece -> bool, startX: int, startZ: int): seq<JigsawStructureData>
  {
    if starts == [] then [] else StartsJunctions(starts[..|starts| - 1], isClose, startX, startZ) + PiecesJunctions(starts[|starts| - 1], isClose, startX, startZ)
  }

  /**
   * A rigid pool element gives a rigid box carrying its ground-level delta;
   * a pool element of any other projection gives no box; any other piece
   * gives a non-rigid box with delta 0.  Box entries never carry a junction.
   */
  lemma PieceStructuresSpec(p: Piece)
    ensures p.PoolElement? && p.projection == Rigid ==>
      PieceStructures(p) == [JigsawStructureData(p.box.minX, p.box.minY, p.box.minZ, p.box.maxX, p.groundLevelDelta, p.box.maxZ, true, 0, 0, 0)]
    ensures p.PoolElement? && p.projection != Rigid ==> PieceStructures(p) == []
    ensures p.OtherPiece? ==>
      PieceStructures(p) == [JigsawStructureData(p.box.minX, p.box.minY, p.box.minZ, p.box.maxX, 0, p.box.maxZ, false, 0, 0, 0)]
    ensures forall e :: e in PieceStructures(p) ==> (e.isRigid <==> p.PoolElement?) && (p.OtherPiece? ==> e.groundLevelDelta == 0)
  {
  }

  /** A junction entry is kept exactly when its source is inside the window, in order. */
  lemma {:induction false} KeptJunctionsSpec(js: seq<Junction>, startX: int, startZ: int)
    ensures forall e :: e in KeptJunctions(js, startX, startZ) <==>
      exists m :: 0 <= m < |js| && InJunctionWindow(js[m], startX, startZ) && e == JunctionEntry(js[m])
  {
    if js != [] {
      var init := js[..|js| - 1];
      KeptJunctionsSpec(init, startX, startZ);
      forall e
        ensures e in KeptJunctions(js, startX, startZ) <==>
          exists m :: 0 <= m < |js| && InJunctionWindow(js[m], startX, startZ) && e == JunctionEntry(js[m])
      {
        if e in KeptJunctions(init, startX, startZ) {
          var m :| 0 <= m < |init| && InJunctionWindow(init[m], startX, startZ) && e == JunctionEntry(init[m]);
          assert js[m] == init[m];
        }
        if exists m :: 0 <= m < |js| && InJunctionWindow(js[m], startX, startZ) && e == JunctionEntry(js[m]) {
          var m :| 0 <= m < |js| && InJunctionWindow(js[m], startX, startZ) && e == JunctionEntry(js[m]);
          if m < |js| - 1 {
            assert init[m] == js[m];
          }
        }
      }
    }
  }

  /** A box entry comes from exactly the close pieces, and from nothing else. */
  lemma {:induction false} PiecesStructuresSpec(ps: seq<Piece>, isClose: Piece -> bool)
    ensures forall e :: e in PiecesStructures(ps, isClose) <==>
      exists k :: 0 <= k < |ps| && isClose(ps[k]) && e in PieceStructures(ps[k])
  {
    if ps != [] {
      var init := ps[..|ps| - 1];
      PiecesStructuresSpec(init, isClose);
      forall e
        ensures e in PiecesStructures(ps, isClose) <==>
          exists k :: 0 <= k < |ps| && isClose(ps[k]) && e in PieceStructures(ps[k])
      {
        if e in PiecesStructures(init, isClose) {
          var k :| 0 <= k < |init| && isClose(init[k]) && e in PieceStructures(init[k]);
          assert ps[k] == init[k];
        }
        if exists k :: 0 <= k < |ps| && isClose(ps[k]) && e in PieceStructures(ps[k]) {
          var k :| 0 <= k < |ps| && isClose(ps[k]) && e in PieceStructures(ps[k]);
          if k < |ps| - 1 {
            assert init[k] == ps[k];
          }
        }
      }
    }
  }

  /** Junctions come from close pool elements, rigid or not, and only those in the window. */
  lemma {:induction false} PiecesJunctionsSpec(ps: seq<Piece>, isClose: Piece -> bool, startX: int, startZ: int)
    ensures forall e :: e in PiecesJunctions(ps, isClose, startX, startZ) <==>
      exists k :: 0 <= k < |ps| && isClose(ps[k]) && ps[k].PoolElement? && e in KeptJunctions(ps[k].junctions, startX, startZ)
  {
    if ps != [] {
      var init := ps[..|ps| - 1];
      PiecesJunctionsSpec(init, isClose, startX, startZ);
      forall e
        ensures e in PiecesJunctions(ps, isClose, startX, startZ) <==>
          exists k :: 0 <= k < |ps| && isClose(ps[k]) && ps[k].PoolElement? && e in KeptJunctions(ps[k].junctions, startX, startZ)
      {
        if e in PiecesJunctions(init, isClose, startX, startZ) {
          var k :| 0 <= k < |init| && isClose(init[k]) && init[k].PoolElement? && e in KeptJunctions(init[k].junctions, startX, startZ);
          assert ps[k] == init[k];
        }
        if exists k :: 0 <= k < |ps| && isClose(ps[k]) && ps[k].PoolElement? && e in KeptJunctions(ps[k].junctions, startX, startZ) {
          var k :| 0 <= k < |ps| && isClose(ps[k]) && ps[k].PoolElement? && e in KeptJunctions(ps[k].junctions, startX, startZ);
          if k < |ps| - 1 {
            assert init[k] == ps[k];
          }
        }
      }
    }
  }

  /** The append-only list the scan adds to. */
  class ObjectList {
    var items: seq<JigsawStructureData>

    constructor ()
      ensures items == []
    {
      items := [];
    }

    method Add(e: JigsawStructureData)
      modifies this
      ensures items == old(items) + [e]
    {
      items := items + [e];
    }
  }

  /** The junction loop of one pool element: only junctions inside the window are added. */
  method AddJunctions(js: seq<Junction>, startX: int, startZ: int, junctions: ObjectList)
    modifies junctions
    ensures junctions.items == old(junctions.items) + KeptJunctions(js, startX, startZ)
  {
    ghost var j0 := junctions.items;
    for m := 0 to |js|
      invariant junctions.items == j0 + KeptJunctions(js[..m], startX, startZ)
    {
      var junction := js[m];
      assert js[..m + 1][..m] == js[..m];
      var sourceX := junction.sourceX;
      var sourceZ := junction.sourceZ;
      if sourceX > startX - 12 && sourceZ > startZ - 12 && sourceX < startX + 15 + 12 && sourceZ < startZ + 15 + 12 {
        junctions.Add(JigsawStructureData(0, 0, 0, 0, 0, 0, false, junction.sourceX, junction.sourceGroundY, junction.sourceZ));
      }
      AppendAssoc(j0, KeptJunctions(js[..m], startX, startZ), KeptJunction(js[m], startX, startZ));
    }
    assert js[..|js|] == js;
  }

  /** One close piece: a box entry for rigid pool elements and other pieces, then a pool element's junctions. */
  method AddPiece(piece: Piece, startX: int, startZ: int, structures: ObjectList, junctions: ObjectList)
    requires structures != junctions
    modifies structures, junctions
    ensures structures.items == old(structures.items) + PieceStructures(piece)
    ensures junctions.items == old(junctions.items) + PieceJunctions(piece, startX, startZ)
  {
    var box := piece.box;
    if piece.PoolElement? {
      if piece.projection == Rigid {
        structures.Add(JigsawStructureData(box.minX, box.minY, box.minZ, box.maxX, piece.groundLevelDelta, box.maxZ, true, 0, 0, 0));
      }
      AddJunctions(piece.junctions, startX, startZ, junctions);
    } else {
      structures.Add(JigsawStructureData(box.minX, box.minY, box.minZ, box.maxX, 0, box.maxZ, false, 0, 0, 0));
    }
  }

  /** The pieces of one structure start, in order; pieces not close to the chunk add nothing. */
  method AddPieces(pieces: seq<Piece>, isClose: Piece -> bool, startX: int, startZ: int,
                   structures: ObjectList, junctions: ObjectList)
    requires structures != junctions
    modifies structures, junctions
    ensures structures.items == old(structures.items) + PiecesStructures(pieces, isClose)
    ensures junctions.items == old(junctions.items) + PiecesJunctions(pieces, isClose, startX, startZ)
  {
    ghost var s0 := structures.items;
    ghost var j0 := junctions.items;
    for k := 0 to |pieces|
      invariant structures.items == s0 + PiecesStructures(pieces[..k], isClose)
      invariant junctions.items == j0 + PiecesJunctions(pieces[..k], isClose, startX, startZ)
    {
      assert pieces[..k + 1][..k] == pieces[..k];
      assert PiecesStructures(pieces[..k + 1], isClose) == PiecesStructures(pieces[..k], isClose) + CloseStructures(pieces[k], isClose);
      assert PiecesJunctions(pieces[..k + 1], isClose, startX, startZ)
          == PiecesJunctions(pieces[..k], isClose, startX, startZ) + CloseJunctions(pieces[k], isClose, startX, startZ);
      ghost var s1 := structures.items;
      ghost var j1 := junctions.items;
      if isClose(pieces[k]) {
        AddPiece(pieces[k], startX, startZ, structures, junctions);
      }
      assert structures.items == s1 + CloseStructures(pieces[k], isClose);
      assert junctions.items == j1 + CloseJunctions(pieces[k], isClose, startX, startZ);
      AppendAssoc(s0, PiecesStructures(pieces[..k], isClose), CloseStructures(pieces[k], isClose));
      AppendAssoc(j0, PiecesJunctions(pieces[..k], isClose, startX, startZ), CloseJunctions(pieces[k], isClose, startX, startZ));
    }
    assert pieces[..|pieces|] == pieces;
  }

  /**
   * findNoiseStructures: for every piece of every start close to the chunk,
   * its box entry goes to structures and its kept junctions to junctions;
   * both lists are only appended to.
   */
  method FindNoiseStructures(chunkX: int, chunkZ: int, starts: seq<seq<Piece>>, isClose: Piece -> bool,
                             structures: ObjectList, junctions: ObjectList)
    requires structures != junctions
    modifies structures, junctions
    ensures structures.items == old(structures.items) + StartsStructures(starts, isClose)
    ensures junctions.items == old(junctions.items) + StartsJunctions(starts, isClose, ChunkStart(chunkX), ChunkStart(chunkZ))
  {
    var startX := ChunkStart(chunkX);
    var startZ := ChunkStart(chunkZ);
    ghost var s0 := structures.items;
    ghost var j0 := junctions.items;
    for i := 0 to |starts|
      invariant structures.items == s0 + StartsStructures(starts[..i], isClose)
      invariant junctions.items == j0 + StartsJunctions(starts[..i], isClose, startX, startZ)
    {
      assert starts[..i + 1][..i] == starts[..i];
      assert StartsStructures(starts[..i + 1], isClose) == StartsStructures(starts[..i], isClose) + PiecesStructures(starts[i], isClose);
      assert StartsJunctions(starts[..i + 1], isClose, startX, startZ)
          == StartsJunctions(starts[..i], isClose, startX, startZ) + PiecesJunctions(starts[i], isClose, startX, startZ);
      ghost var s1 := structures.items;
      ghost var j1 := junctions.items;
      AddPieces(starts[i], isClose, startX, startZ, structures, junctions);
      AppendAssoc(s0, StartsStructures(starts[..i], isClose), PiecesStructures(starts[i], isClose));
      AppendAssoc(j0, StartsJunctions(starts[..i], isClose, startX, startZ), PiecesJunctions(starts[i], isClose, startX, startZ));
    }
    assert starts[..|starts|] == starts;
  }

  // ----- Column sampling ----------------------------------------------------

  /** The three states the sampler produces: the default block, the default fluid, air. */
  datatype ColumnState = DefaultBlock | DefaultFluid | Air

  /** getBlockState: positive density is solid at any height; otherwise fluid below sea level, air at and above it. */
  function GetBlockState(density: real, y: int, seaLevel: int): (r: ColumnState)
    ensures density > 0.0 ==> r == DefaultBlock
    ensures density <= 0.0 ==> (r == DefaultFluid <==> y < seaLevel) && (r == Air <==> y >= seaLevel)
  {
    if density > 0.0 then DefaultBlock
    else if y < seaLevel then DefaultFluid
    else Air
  }

  /** Along a column of equal non-positive density, air lies above fluid: air at y means air everywhere above. */
  lemma AirAboveFluid(density: real, y: int, y': int, seaLevel: int)
    requires density <= 0.0 && y <= y'
    ensures GetBlockState(density, y, seaLevel) == Air ==> GetBlockState(density, y', seaLevel) == Air
    ensures GetBlockState(density, y', seaLevel) == DefaultFluid ==> GetBlockState(density, y, seaLevel) == DefaultFluid
  {
  }

  /**
   * The state at height y: the density of noise cell y / 8, piece y % 8
   * (the interpolated density is a parameter).
   */
  function StateAt(density: (int, int) -> real, seaLevel: int, y: int): ColumnState
  {
    GetBlockState(density(y / 8, y % 8), y, seaLevel)
  }

  /** One above the highest y below n whose state the predicate accepts; 0 when there is none. */
  function Highest(pred: ColumnState -> bool, density: (int, int) -> real, seaLevel: int, n: nat): (r: nat)
    ensures r <= n
    ensures r > 0 ==> pred(StateAt(density, seaLevel, r - 1))
    ensures forall y :: r <= y < n ==> !pred(StateAt(density, seaLevel, y))
  {
    if n == 0 then 0
    else if pred(StateAt(density, seaLevel, n - 1)) then n
    else Highest(pred, density, seaLevel, n - 1)
  }

  /** Height noiseY * 8 + pieceY lies in noise cell noiseY, at piece pieceY. */
  lemma CellOfHeight(noiseY: int, pieceY: int)
    requires 0 <= pieceY < 8
    ensures (noiseY * 8 + pieceY) / 8 == noiseY && (noiseY * 8 + pieceY) % 8 == pieceY
  {
  }

  /** The highest accepted height decides the result: nothing above it is accepted. */
  lemma HighestIs(pred: ColumnState -> bool, density: (int, int) -> real, seaLevel: int, n: nat, y: int)
    requires 0 <= y < n && pred(StateAt(density, seaLevel, y))
    requires forall y' :: y < y' < n ==> !pred(StateAt(density, seaLevel, y'))
    ensures Highest(pred, density, seaLevel, n) == y + 1
  {
  }

  /** Heights lo .. hi - 1 hold their sampled state, and every other entry its earlier value. */
  ghost predicate SampledFrom(states: seq<Option<ColumnState>>, before: seq<Option<ColumnState>>,
                              density: (int, int) -> real, seaLevel: int, lo: int, hi: int)
  {
    && |before| == |states|
    && (forall y :: lo <= y < hi && 0 <= y < |states| ==> states[y] == Some(StateAt(density, seaLevel, y)))
    && (forall y :: 0 <= y < |states| && !(lo <= y < hi) ==> states[y] == before[y])
  }

  /** No height in lo .. hi - 1 has a state the predicate accepts. */
  ghost predicate NoneAccepted(accept: Option<ColumnState -> bool>, density: (int, int) -> real, seaLevel: int, lo: int, hi: int)
  {
    accept.Some? ==> forall y :: lo <= y < hi ==> !accept.value(StateAt(density, seaLevel, y))
  }

  /** Writing the state of height y extends the sampled range down to y. */
  lemma SampledStep(states: seq<Option<ColumnState>>, before: seq<Option<ColumnState>>,
                    density: (int, int) -> real, seaLevel: int, y: int, hi: int)
    requires 0 <= y < hi <= |states| && SampledFrom(states, before, density, seaLevel, y + 1, hi)
    ensures SampledFrom(states[y := Some(StateAt(density, seaLevel, y))], before, density, seaLevel, y, hi)
  {
  }

  /** A rejected height extends the rejected range down to it. */
  lemma RejectedStep(accept: Option<ColumnState -> bool>, density: (int, int) -> real, seaLevel: int, y: int, hi: int)
    requires NoneAccepted(accept, density, seaLevel, y + 1, hi)
    requires accept.Some? ==> !accept.value(StateAt(density, seaLevel, y))
    ensures NoneAccepted(accept, density, seaLevel, y, hi)
  {
  }

  /**
   * The inner loop of sampleHeightmap over one noise cell: pieceY from 7
   * down to 0, stopping at the first accepted state.
   */
  method SampleCell(noiseY: nat, n: nat, density: (int, int) -> real, seaLevel: int,
                    blockStates: array?<Option<ColumnState>>, accept: Option<ColumnState -> bool>,
                    ghost before: seq<Option<ColumnState>>)
    returns (found: bool, r: int)
    requires (noiseY + 1) * 8 <= n
    requires blockStates != null ==> blockStates.Length >= n && SampledFrom(blockStates[..], before, density, seaLevel, (noiseY + 1) * 8, n)
    requires NoneAccepted(accept, density, seaLevel, (noiseY + 1) * 8, n)
    modifies blockStates
    ensures found ==> accept.Some? && r == Highest(accept.value, density, seaLevel, n) && noiseY * 8 < r
    ensures found && blockStates != null ==> SampledFrom(blockStates[..], before, density, seaLevel, r - 1, n)
    ensures !found ==> NoneAccepted(accept, density, seaLevel, noiseY * 8, n)
    ensures !found && blockStates != null ==> SampledFrom(blockStates[..], before, density, seaLevel, noiseY * 8, n)
  {
    var pieceY := 7;
    while pieceY >= 0
      invariant -1 <= pieceY <= 7
      invariant blockStates != null ==> SampledFrom(blockStates[..], before, density, seaLevel, noiseY * 8 + pieceY + 1, n)
      invariant NoneAccepted(accept, density, seaLevel, noiseY * 8 + pieceY + 1, n)
      decreases pieceY + 1
    {
      var y := noiseY * 8 + pieceY;
      CellOfHeight(noiseY, pieceY);
      var state := GetBlockState(density(noiseY, pieceY), y, seaLevel);
      assert state == StateAt(density, seaLevel, y);
      if blockStates != null {
        SampledStep(blockStates[..], before, density, seaLevel, y, n);
        blockStates[y] := Some(state);
      }
      if accept.Some? && accept.value(state) {
        HighestIs(accept.value, density, seaLevel, n, y);
        return true, y + 1;
      }
      RejectedStep(accept, density, seaLevel, y, n);
      pieceY := pieceY - 1;
    }
    return false, 0;
  }

  /**
   * sampleHeightmap: visits y = noiseY * 8 + pieceY from noiseSizeY * 8 - 1
   * down to 0, writing each state into the array when one is given, and
   * returns y + 1 at the first state the predicate accepts, 0 if none does.
   * The loop does not look at the cell range it is given, so the array must
   * be long enough for every y it visits.
   */
  method SampleHeightmap(noiseSizeY: nat, density: (int, int) -> real, seaLevel: int,
                         blockStates: array?<Option<ColumnState>>, accept: Option<ColumnState -> bool>)
    returns (r: int)
    requires blockStates != null ==> blockStates.Length >= noiseSizeY * 8
    modifies blockStates
    ensures accept.None? ==> r == 0
    ensures accept.Some? ==> r == Highest(accept.value, density, seaLevel, noiseSizeY * 8)
    ensures blockStates != null ==>
      SampledFrom(blockStates[..], old(blockStates[..]), density, seaLevel, if r == 0 then 0 else r - 1, noiseSizeY * 8)
  {
    var n := noiseSizeY * 8;
    ghost var before: seq<Option<ColumnState>> := if blockStates != null then blockStates[..] else [];
    var noiseY: int := noiseSizeY - 1;
    while noiseY >= 0
      invariant -1 <= noiseY <= noiseSizeY - 1
      invariant blockStates != null ==> SampledFrom(blockStates[..], before, density, seaLevel, (noiseY + 1) * 8, n)
      invariant NoneAccepted(accept, density, seaLevel, (noiseY + 1) * 8, n)
      decreases noiseY + 1
    {
      var found, y1 := SampleCell(noiseY, n, density, seaLevel, blockStates, accept, before);
      if found {
        return y1;
      }
      noiseY := noiseY - 1;
    }
    return 0;
  }

  /** The noise settings the column code reads. */
  datatype NoiseSettings = NoiseSettings(minY: int, height: int, cellHeight: int)

  /** Java's Math.floorDiv on a positive divisor brackets the dividend between two multiples. */
  lemma FloorDivBounds(a: int, b: int)
    requires b > 0
    ensures (a / b) * b <= a < (a / b + 1) * b
  {
    var q, m := a / b, a % b;
    assert a == q * b + m && 0 <= m < b;
    assert (q + 1) * b == q * b + b;
  }

  datatype CellRange = CellRange(minGenY: int, maxGenY: int, cellNoiseMinY: int, noiseCellCount: int)

  /** The generated height range clamped to the build limits and counted in whole cells. */
  function CellRangeOf(s: NoiseSettings, minBuildHeight: int, maxBuildHeight: int): CellRange
    requires s.cellHeight > 0
  {
    var minGenY := if s.minY > minBuildHeight then s.minY else minBuildHeight;
    var maxGenY := if s.minY + s.height < maxBuildHeight then s.minY + s.height else maxBuildHeight;
    CellRange(minGenY, maxGenY, minGenY / s.cellHeight, (maxGenY - minGenY) / s.cellHeight)
  }

  /**
   * The range is the overlap of the noise settings' range with the build
   * limits, the first cell is the one holding its floor, and the count is the
   * number of whole cells that fit (floorDiv on a positive cell height).
   */
  lemma CellRangeSpec(s: NoiseSettings, minBuildHeight: int, maxBuildHeight: int)
    requires s.cellHeight > 0
    ensures var r := CellRangeOf(s, minBuildHeight, maxBuildHeight);
      && r.minGenY >= s.minY && r.minGenY >= minBuildHeight && (r.minGenY == s.minY || r.minGenY == minBuildHeight)
      && r.maxGenY <= s.minY + s.height && r.maxGenY <= maxBuildHeight
      && (r.maxGenY == s.minY + s.height || r.maxGenY == maxBuildHeight)
      && r.cellNoiseMinY * s.cellHeight <= r.minGenY < (r.cellNoiseMinY + 1) * s.cellHeight
      && r.noiseCellCount * s.cellHeight <= r.maxGenY - r.minGenY < (r.noiseCellCount + 1) * s.cellHeight
      && (r.noiseCellCount > 0 <==> r.maxGenY - r.minGenY >= s.cellHeight)
  {
    var r := CellRangeOf(s, minBuildHeight, maxBuildHeight);
    FloorDivBounds(r.minGenY, s.cellHeight);
    FloorDivBounds(r.maxGenY - r.minGenY, s.cellHeight);
    CountPositive(r.maxGenY - r.minGenY, s.cellHeight);
  }

  /** floorDiv by a positive divisor is positive exactly when the dividend reaches the divisor. */
  lemma CountPositive(a: int, b: int)
    requires b > 0
    ensures a / b > 0 <==> a >= b
  {
    FloorDivBounds(a, b);
    if a / b > 0 {
      assert (a / b) * b >= b;
    }
  }

  /**
   * getBaseHeight: the build floor when no whole cell fits, otherwise the
   * sampled height for the heightmap's opacity predicate.
   */
  method GetBaseHeight(s: NoiseSettings, minBuildHeight: int, maxBuildHeight: int, noiseSizeY: nat,
                       density: (int, int) -> real, seaLevel: int, isOpaque: ColumnState -> bool)
    returns (r: int)
    requires s.cellHeight > 0
    ensures CellRangeOf(s, minBuildHeight, maxBuildHeight).noiseCellCount <= 0 ==> r == minBuildHeight
    ensures CellRangeOf(s, minBuildHeight, maxBuildHeight).noiseCellCount > 0 ==>
      r == Highest(isOpaque, density, seaLevel, noiseSizeY * 8)
  {
    var range := CellRangeOf(s, minBuildHeight, maxBuildHeight);
    if range.noiseCellCount <= 0 {
      return minBuildHeight;
    }
    r := SampleHeightmap(noiseSizeY, density, seaLevel, null, Some(isOpaque));
  }

  datatype NoiseColumn = NoiseColumn(minY: int, states: seq<Option<ColumnState>>)

  datatype ColumnError = IndexOutOfBounds(index: int)

  /**
   * getBaseColumn: an empty column at the clamped floor when no whole cell
   * fits; otherwise a column based at 0 of noiseCellCount * cellHeight
   * entries, filled by the sampler.  When that is shorter than the
   * noiseSizeY * 8 heights the sampler writes, the first write is out of
   * bounds.
   */
  method GetBaseColumn(s: NoiseSettings, minBuildHeight: int, maxBuildHeight: int, noiseSizeY: nat,
                       density: (int, int) -> real, seaLevel: int)
    returns (r: Result<NoiseColumn, ColumnError>)
    requires s.cellHeight > 0
    ensures var range := CellRangeOf(s, minBuildHeight, maxBuildHeight);
      && (range.noiseCellCount <= 0 ==> r == Ok(NoiseColumn(range.minGenY, [])))
      && (range.noiseCellCount > 0 && range.noiseCellCount * s.cellHeight < noiseSizeY * 8 ==>
            r == Err(IndexOutOfBounds(noiseSizeY * 8 - 1)))
      && (range.noiseCellCount > 0 && range.noiseCellCount * s.cellHeight >= noiseSizeY * 8 ==>
            && r.Ok? && r.value.minY == 0
            && |r.value.states| == range.noiseCellCount * s.cellHeight
            && (forall y :: 0 <= y < noiseSizeY * 8 ==> r.value.states[y] == Some(StateAt(density, seaLevel, y)))
            && (forall y :: noiseSizeY * 8 <= y < |r.value.states| ==> r.value.states[y].None?))
  {
    var range := CellRangeOf(s, minBuildHeight, maxBuildHeight);
    if range.noiseCellCount <= 0 {
      return Ok(NoiseColumn(range.minGenY, []));
    }
    var length := range.noiseCellCount * s.cellHeight;
    if length < noiseSizeY * 8 {
      return Err(IndexOutOfBounds(noiseSizeY * 8 - 1));
    }
    var blockStates := new Option<ColumnState>[length](_ => None);
    var _ := SampleHeightmap(noiseSizeY, density, seaLevel, blockStates, None);
    return Ok(NoiseColumn(0, blockStates[..]));
  }

  // ----- Writable area -------------------------------------------------------

  /** getWritableArea: the chunk's 16 x 16 columns, strictly inside the build limits. */
  function WritableArea(chunkX: int, chunkZ: int, minBuildHeight: int, maxBuildHeight: int): BoundingBox
  {
    var i := ChunkStart(chunkX);
    var j := ChunkStart(chunkZ);
    BoundingBox(i, minBuildHeight + 1, j, i + 15, maxBuildHeight - 1, j + 15)
  }

  predicate Contains(b: BoundingBox, x: int, y: int, z: int)
  {
    b.minX <= x <= b.maxX && b.minY <= y <= b.maxY && b.minZ <= z <= b.maxZ
  }

  /** A block is in the writable area exactly when it is in the chunk and strictly between the build limits. */
  lemma WritableAreaIsChunk(chunkX: int, chunkZ: int, minBuildHeight: int, maxBuildHeight: int, x: int, y: int, z: int)
    ensures Contains(WritableArea(chunkX, chunkZ, minBuildHeight, maxBuildHeight), x, y, z) <==>
      x / 16 == chunkX && z / 16 == chunkZ && minBuildHeight < y < maxBuildHeight
  {
  }

  // ----- Carvers -------------------------------------------------------------

  datatype CarvingStage = AirStage | LiquidStage

  const DefaultCaves: seq<string> := ["minecraft:cave", "minecraft:underwater_cave", "minecraft:nether_cave"]
  const DefaultRavines: seq<string> := ["minecraft:canyon", "minecraft:underwater_canyon"]

  /** The loop over the biome's carvers; a carver without a registry key is skipped. */
  method CarverFlags(keys: seq<Option<string>>) returns (caves: bool, ravines: bool)
    ensures caves <==> exists i :: 0 <= i < |keys| && keys[i].Some? && keys[i].value in DefaultCaves
    ensures ravines <==> exists i :: 0 <= i < |keys| && keys[i].Some? && keys[i].value in DefaultRavines
  {
    caves, ravines := false, false;
    for i := 0 to |keys|
      invariant caves <==> exists j :: 0 <= j < i && keys[j].Some? && keys[j].value in DefaultCaves
      invariant ravines <==> exists j :: 0 <= j < i && keys[j].Some? && keys[j].value in DefaultRavines
    {
      var key := keys[i];
      if key.None? {
        continue;
      }
      if key.value in DefaultCaves {
        caves := true;
      }
      if key.value in DefaultRavines {
        ravines := true;
      }
    }
  }

  /** What applyCarvers does with OTG's carver. */
  datatype CarverOutcome =
    | NotAirStage
    | NoDefaultCarvers
    | Carved(caves: bool, ravines: bool)
    | MaskUnavailable(logged: bool)

  /**
   * applyCarvers: only in the AIR stage, and only when a default cave or
   * ravine carver is registered for the biome; if the carving mask cannot be
   * obtained nothing is carved, and the error is logged only when the MAIN
   * log category is enabled.
   */
  method ApplyCarvers(stage: CarvingStage, keys: seq<Option<string>>, maskAvailable: bool, mainLogEnabled: bool)
    returns (r: CarverOutcome)
    ensures stage != AirStage ==> r == NotAirStage
    ensures stage == AirStage ==>
      var caves := exists i :: 0 <= i < |keys| && keys[i].Some? && keys[i].value in DefaultCaves;
      var ravines := exists i :: 0 <= i < |keys| && keys[i].Some? && keys[i].value in DefaultRavines;
      && (!caves && !ravines ==> r == NoDefaultCarvers)
      && ((caves || ravines) && maskAvailable ==> r == Carved(caves, ravines))
      && ((caves || ravines) && !maskAvailable ==> r == MaskUnavailable(mainLogEnabled))
    ensures r.Carved? ==> r.caves || r.ravines
  {
    if stage != AirStage {
      return NotAirStage;
    }
    var caves, ravines := CarverFlags(keys);
    if !(caves || ravines) {
      return NoDefaultCarvers;
    }
    if maskAvailable {
      return Carved(caves, ravines);
    }
    return MaskUnavailable(mainLogEnabled);
  }

  // ----- Enabled structures --------------------------------------------------

  datatype StructureType =
    | Igloo | SwampHut | DesertPyramid | JungleTemple | Village | PillagerOutpost | Stronghold
    | OceanMonument | EndCity | WoodlandMansion | BuriedTreasure | Mineshaft | RuinedPortal
    | Shipwreck | OceanRuins | BastionRemnant | Fortress | NetherFossil

  datatype SpreadType = Linear | Triangular

  datatype Placement =
    | RandomSpread(spacing: int, separation: int, spreadType: SpreadType, salt: int, offset: (int, int, int))
    | ConcentricRings(distance: int, spread: int, count: int)

  /** The world settings the structure selection reads; spacing and separation per type. */
  datatype StructureConfig = StructureConfig(
    rareBuildingsEnabled: bool, villagesEnabled: bool, pillagerOutpostsEnabled: bool,
    strongholdsEnabled: bool, oceanMonumentsEnabled: bool, endCitiesEnabled: bool,
    woodlandMansionsEnabled: bool, buriedTreasureEnabled: bool, mineshaftsEnabled: bool,
    ruinedPortalsEnabled: bool, shipWrecksEnabled: bool, oceanRuinsEnabled: bool,
    bastionRemnantsEnabled: bool, netherFortressesEnabled: bool, netherFossilsEnabled: bool,
    spacing: StructureType -> int, separation: StructureType -> int,
    strongholdDistance: int, strongholdSpread: int, strongholdCount: int)

  function Spread(cfg: StructureConfig, t: StructureType, spreadType: SpreadType, salt: int): Placement
  {
    RandomSpread(cfg.spacing(t), cfg.separation(t), spreadType, salt, (0, 0, 0))
  }

  /** getStructurePlacementMap: the placement of every structure type, with its salt. */
  function PlacementOf(cfg: StructureConfig, t: StructureType): (r: Placement)
    ensures t == Stronghold <==> r.ConcentricRings?
    ensures t == BuriedTreasure ==> r.RandomSpread? && r.offset == (9, 0, 9)
    ensures t in {OceanMonument, EndCity, WoodlandMansion} <==> r.RandomSpread? && r.spreadType == Triangular
  {
    match t
    case SwampHut => Spread(cfg, t, Linear, 14357620)
    case Igloo => Spread(cfg, t, Linear, 14357618)
    case DesertPyramid => Spread(cfg, t, Linear, 14357617)
    case JungleTemple => Spread(cfg, t, Linear, 14357619)
    case Village => Spread(cfg, t, Linear, 10387312)
    case PillagerOutpost => Spread(cfg, t, Linear, 165745296)
    case Stronghold => ConcentricRings(cfg.strongholdDistance, cfg.strongholdSpread, cfg.strongholdCount)
    case OceanMonument => Spread(cfg, t, Triangular, 10387313)
    case EndCity => Spread(cfg, t, Triangular, 10387313)
    case WoodlandMansion => Spread(cfg, t, Triangular, 10387319)
    case BuriedTreasure => RandomSpread(cfg.spacing(t), cfg.separation(t), Linear, 0, (9, 0, 9))
    case Mineshaft => Spread(cfg, t, Linear, 0)
    case RuinedPortal => Spread(cfg, t, Linear, 34222645)
    case Shipwreck => Spread(cfg, t, Linear, 165745295)
    case OceanRuins => Spread(cfg, t, Linear, 14357621)
    case BastionRemnant => Spread(cfg, t, Linear, 30084232)
    case Fortress => Spread(cfg, t, Linear, 30084232)
    case NetherFossil => Spread(cfg, t, Linear, 14357921)
  }

  /** The world setting that switches a structure type on; one setting covers the four rare buildings. */
  predicate Enabled(cfg: StructureConfig, t: StructureType)
  {
    match t
    case Igloo => cfg.rareBuildingsEnabled
    case SwampHut => cfg.rareBuildingsEnabled
    case DesertPyramid => cfg.rareBuildingsEnabled
    case JungleTemple => cfg.rareBuildingsEnabled
    case Village => cfg.villagesEnabled
    case PillagerOutpost => cfg.pillagerOutpostsEnabled
    case Stronghold => cfg.strongholdsEnabled
    case OceanMonument => cfg.oceanMonumentsEnabled
    case EndCity => cfg.endCitiesEnabled
    case WoodlandMansion => cfg.woodlandMansionsEnabled
    case BuriedTreasure => cfg.buriedTreasureEnabled
    case Mineshaft => cfg.mineshaftsEnabled
    case RuinedPortal => cfg.ruinedPortalsEnabled
    case Shipwreck => cfg.shipWrecksEnabled
    case OceanRuins => cfg.oceanRuinsEnabled
    case BastionRemnant => cfg.bastionRemnantsEnabled
    case Fortress => cfg.netherFortressesEnabled
    case NetherFossil => cfg.netherFossilsEnabled
  }

  datatype StructureSet = StructureSet(structure: StructureType, placement: Placement)

  /** The structure types in the order getEnabledStructures adds them. */
  const SourceOrder: seq<StructureType> :=
    [Igloo, SwampHut, DesertPyramid, JungleTemple, Village, PillagerOutpost, Stronghold,
     OceanMonument, EndCity, WoodlandMansion, BuriedTreasure, Mineshaft, RuinedPortal,
     Shipwreck, OceanRuins, BastionRemnant, Fortress, NetherFossil]

  /** The sets of the types whose setting is on, each with its type's placement, in order. */
  function GatedSets(cfg: StructureConfig, ts: seq<StructureType>): seq<StructureSet>
  {
    if ts == [] then [] else GatedSets(cfg, ts[..|ts| - 1]) + GatedSet(cfg, ts[|ts| - 1])
  }

  function GatedSet(cfg: StructureConfig, t: StructureType): seq<StructureSet>
  {
    if Enabled(cfg, t) then [StructureSet(t, PlacementOf(cfg, t))] else []
  }

  /** getEnabledStructures: the structure sets, in the source's order. */
  function EnabledStructures(cfg: StructureConfig): seq<StructureSet>
  {
    GatedSets(cfg, SourceOrder)
  }

  /** A set is produced exactly for a listed type whose setting is on, and carries that type's placement. */
  lemma {:induction false} GatedSetsSpec(cfg: StructureConfig, ts: seq<StructureType>)
    ensures forall s :: s in GatedSets(cfg, ts) <==>
      exists k :: 0 <= k < |ts| && Enabled(cfg, ts[k]) && s == StructureSet(ts[k], PlacementOf(cfg, ts[k]))
  {
    if ts != [] {
      var init := ts[..|ts| - 1];
      GatedSetsSpec(cfg, init);
      forall s
        ensures s in GatedSets(cfg, ts) <==>
          exists k :: 0 <= k < |ts| && Enabled(cfg, ts[k]) && s == StructureSet(ts[k], PlacementOf(cfg, ts[k]))
      {
        if s in GatedSets(cfg, init) {
          var k :| 0 <= k < |init| && Enabled(cfg, init[k]) && s == StructureSet(init[k], PlacementOf(cfg, init[k]));
          assert ts[k] == init[k];
        }
        if exists k :: 0 <= k < |ts| && Enabled(cfg, ts[k]) && s == StructureSet(ts[k], PlacementOf(cfg, ts[k])) {
          var k :| 0 <= k < |ts| && Enabled(cfg, ts[k]) && s == StructureSet(ts[k], PlacementOf(cfg, ts[k]));
          if k < |ts| - 1 {
            assert init[k] == ts[k];
          }
        }
      }
    }
  }

  /** The position of each structure type in the source's order. */
  function GateIndex(t: StructureType): (k: nat)
    ensures k < |SourceOrder| && SourceOrder[k] == t
  {
    match t
    case Igloo => 0
    case SwampHut => 1
    case DesertPyramid => 2
    case JungleTemple => 3
    case Village => 4
    case PillagerOutpost => 5
    case Stronghold => 6
    case OceanMonument => 7
    case EndCity => 8
    case WoodlandMansion => 9
    case BuriedTreasure => 10
    case Mineshaft => 11
    case RuinedPortal => 12
    case Shipwreck => 13
    case OceanRuins => 14
    case BastionRemnant => 15
    case Fortress => 16
    case NetherFossil => 17
  }

  /**
   * A structure type is in the enabled set exactly when its world setting
   * is on, and every enabled set carries its own type's placement.
   */
  lemma EnabledStructuresSpec(cfg: StructureConfig, t: StructureType)
    ensures Enabled(cfg, t) <==> StructureSet(t, PlacementOf(cfg, t)) in EnabledStructures(cfg)
    ensures forall s :: s in EnabledStructures(cfg) ==> Enabled(cfg, s.structure) && s.placement == PlacementOf(cfg, s.structure)
  {
    GatedSetsSpec(cfg, SourceOrder);
    var k := GateIndex(t);
  }

  // ----- Portal settings -------------------------------------------------------

  /** A block the material reader produced. */
  datatype PortalBlock = PortalBlock(name: string)

  /** One dimension entry of the dimension config; every field may be null. */
  datatype Dimension = Dimension(
    presetFolderName: Option<string>, portalBlocks: Option<string>,
    portalColor: Option<string>, portalMob: Option<string>, portalIgnitionSource: Option<string>)

  /** The world config's portal settings, used as fallbacks. */
  datatype WorldPortalConfig = WorldPortalConfig(
    portalBlocks: seq<PortalBlock>, portalColor: string, portalMob: string, portalIgnitionSource: string)

  datatype PortalSettings = PortalSettings(
    portalBlocks: seq<PortalBlock>, portalColor: string, portalMob: string, portalIgnitionSource: string)

  /** The first dimension whose preset folder is the generator's. */
  function FirstMatching(dims: seq<Dimension>, folder: string): (r: Option<nat>)
    ensures r.Some? ==> r.value < |dims| && dims[r.value].presetFolderName == Some(folder)
    ensures r.Some? ==> forall j :: 0 <= j < r.value ==> dims[j].presetFolderName != Some(folder)
    ensures r.None? ==> forall j :: 0 <= j < |dims| ==> dims[j].presetFolderName != Some(folder)
  {
    if dims == [] then None
    else if dims[0].presetFolderName == Some(folder) then Some(0)
    else match FirstMatching(dims[1..], folder)
      case None => None
      case Some(k) => Some(k + 1)
  }

  function ReadPortalBlock(piece: string, readMaterial: string -> Option<PortalBlock>): seq<PortalBlock>
  {
    var m := readMaterial(Trim(piece));
    if m.Some? then [m.value] else []
  }

  /** The readable blocks of the comma-separated list, each piece trimmed, in order. */
  function ReadPortalBlocks(pieces: seq<string>, readMaterial: string -> Option<PortalBlock>): seq<PortalBlock>
  {
    if pieces == [] then [] else ReadPortalBlocks(pieces[..|pieces| - 1], readMaterial) + ReadPortalBlock(pieces[|pieces| - 1], readMaterial)
  }

  lemma {:induction false} ReadPortalBlocksSpec(pieces: seq<string>, readMaterial: string -> Option<PortalBlock>)
    ensures |ReadPortalBlocks(pieces, readMaterial)| <= |pieces|
    ensures forall b :: b in ReadPortalBlocks(pieces, readMaterial) <==>
      exists i :: 0 <= i < |pieces| && readMaterial(Trim(pieces[i])) == Some(b)
  {
    ReadPortalBlocksLength(pieces, readMaterial);
    forall b
      ensures b in ReadPortalBlocks(pieces, readMaterial) <==>
        exists i :: 0 <= i < |pieces| && readMaterial(Trim(pieces[i])) == Some(b)
    {
      if b in ReadPortalBlocks(pieces, readMaterial) {
        var i := ReadPortalBlocksSound(pieces, readMaterial, b);
      }
      if exists i :: 0 <= i < |pieces| && readMaterial(Trim(pieces[i])) == Some(b) {
        var i :| 0 <= i < |pieces| && readMaterial(Trim(pieces[i])) == Some(b);
        ReadPortalBlocksComplete(pieces, readMaterial, i);
      }
    }
  }

  /** At most one block per piece. */
  lemma {:induction false} ReadPortalBlocksLength(pieces: seq<string>, readMaterial: string -> Option<PortalBlock>)
    ensures |ReadPortalBlocks(pieces, readMaterial)| <= |pieces|
  {
    if pieces != [] {
      ReadPortalBlocksLength(pieces[..|pieces| - 1], readMaterial);
    }
  }

  /** Every block read comes from some piece, whose index is returned. */
  lemma {:induction false} ReadPortalBlocksSound(pieces: seq<string>, readMaterial: string -> Option<PortalBlock>, b: PortalBlock)
    returns (i: nat)
    requires b in ReadPortalBlocks(pieces, readMaterial)
    ensures i < |pieces| && readMaterial(Trim(pieces[i])) == Some(b)
  {
    var init, last := pieces[..|pieces| - 1], pieces[|pieces| - 1];
    assert ReadPortalBlocks(pieces, readMaterial) == ReadPortalBlocks(init, readMaterial) + ReadPortalBlock(last, readMaterial);
    if b in ReadPortalBlocks(init, readMaterial) {
      i := ReadPortalBlocksSound(init, readMaterial, b);
      assert pieces[i] == init[i];
    } else {
      var m := readMaterial(Trim(last));
      assert b in ReadPortalBlock(last, readMaterial);
      assert m == Some(b);
      i := |pieces| - 1;
    }
  }

  /** Every readable piece contributes its block. */
  lemma {:induction false} ReadPortalBlocksComplete(pieces: seq<string>, readMaterial: string -> Option<PortalBlock>, i: nat)
    requires i < |pieces| && readMaterial(Trim(pieces[i])).Some?
    ensures readMaterial(Trim(pieces[i])).value in ReadPortalBlocks(pieces, readMaterial)
  {
    var init := pieces[..|pieces| - 1];
    if i < |pieces| - 1 {
      assert init[i] == pieces[i];
      ReadPortalBlocksComplete(init, readMaterial, i);
    } else {
      assert ReadPortalBlock(pieces[i], readMaterial) == [readMaterial(Trim(pieces[i])).value];
    }
  }

  /** The portal blocks a dimension lists, or null when its list is null or blank. */
  function DimensionBlocks(d: Dimension, readMaterial: string -> Option<PortalBlock>): Option<seq<PortalBlock>>
  {
    if d.portalBlocks.Some? && |Trim(d.portalBlocks.value)| > 0
    then Some(ReadPortalBlocks(Split(d.portalBlocks.value, ','), readMaterial))
    else None
  }

  /** The four portal fields as processDimensionConfigData holds them; null is None. */
  datatype PortalFields = PortalFields(
    blocks: Option<seq<PortalBlock>>, color: Option<string>, mob: Option<string>, ignition: Option<string>)

  const NoPortalFields: PortalFields := PortalFields(None, None, None, None)

  /** What a matching dimension assigns: its readable blocks (when listed) and its other three values as they are. */
  function FromDimension(d: Dimension, readMaterial: string -> Option<PortalBlock>): PortalFields
  {
    PortalFields(DimensionBlocks(d, readMaterial), d.portalColor, d.portalMob, d.portalIgnitionSource)
  }

  /** The fields after the dimension loop: those of the first matching dimension, or all null. */
  function DimensionFields(dimConfig: Option<seq<Dimension>>, folder: string,
                           readMaterial: string -> Option<PortalBlock>): PortalFields
  {
    if dimConfig.None? then NoPortalFields
    else match FirstMatching(dimConfig.value, folder)
      case None => NoPortalFields
      case Some(k) => FromDimension(dimConfig.value[k], readMaterial)
  }

  /** The world config's value for each field still null, and for the blocks when the list is empty. */
  function WithFallbacks(f: PortalFields, world: WorldPortalConfig): PortalSettings
  {
    PortalSettings(
      if f.blocks.None? || |f.blocks.value| == 0 then world.portalBlocks else f.blocks.value,
      f.color.GetOr(world.portalColor), f.mob.GetOr(world.portalMob), f.ignition.GetOr(world.portalIgnitionSource))
  }

  /** The settings processDimensionConfigData settles on. */
  function ResolvePortal(dimConfig: Option<seq<Dimension>>, folder: string, world: WorldPortalConfig,
                         readMaterial: string -> Option<PortalBlock>): PortalSettings
  {
    WithFallbacks(DimensionFields(dimConfig, folder, readMaterial), world)
  }

  /** With no dimension config, or no dimension for this preset, every setting is the world config's. */
  lemma ResolvePortalWithoutDimension(dimConfig: Option<seq<Dimension>>, folder: string, world: WorldPortalConfig,
                                      readMaterial: string -> Option<PortalBlock>)
    requires dimConfig.None? || forall j :: 0 <= j < |dimConfig.value| ==> dimConfig.value[j].presetFolderName != Some(folder)
    ensures ResolvePortal(dimConfig, folder, world, readMaterial)
      == PortalSettings(world.portalBlocks, world.portalColor, world.portalMob, world.portalIgnitionSource)
  {
    if dimConfig.Some? {
      assert FirstMatching(dimConfig.value, folder).None?;
    }
    assert DimensionFields(dimConfig, folder, readMaterial) == NoPortalFields;
  }

  /**
   * With a matching dimension: its colour, mob and ignition source win when
   * set, and its blocks win when at least one of them is readable.
   */
  lemma ResolvePortalFromDimension(dims: seq<Dimension>, folder: string, world: WorldPortalConfig,
                                   readMaterial: string -> Option<PortalBlock>, k: nat)
    requires k < |dims| && dims[k].presetFolderName == Some(folder)
    requires forall j :: 0 <= j < k ==> dims[j].presetFolderName != Some(folder)
    ensures var r := ResolvePortal(Some(dims), folder, world, readMaterial);
      && r.portalColor == dims[k].portalColor.GetOr(world.portalColor)
      && r.portalMob == dims[k].portalMob.GetOr(world.portalMob)
      && r.portalIgnitionSource == dims[k].portalIgnitionSource.GetOr(world.portalIgnitionSource)
      && (DimensionBlocks(dims[k], readMaterial).Some? && |DimensionBlocks(dims[k], readMaterial).value| > 0 ==>
            r.portalBlocks == DimensionBlocks(dims[k], readMaterial).value)
      && (DimensionBlocks(dims[k], readMaterial).None? || |DimensionBlocks(dims[k], readMaterial).value| == 0 ==>
            r.portalBlocks == world.portalBlocks)
  {
    assert FirstMatching(dims, folder) == Some(k);
    assert DimensionFields(Some(dims), folder, readMaterial) == FromDimension(dims[k], readMaterial);
  }

  /** The generator's modpack portal fields, filled once on first use. */
  class PortalConfig {
    const presetFolderName: string
    const dimConfig: Option<seq<Dimension>>
    const world: WorldPortalConfig
    var portalDataProcessed: bool
    var portalBlocks: Option<seq<PortalBlock>>
    var portalColor: Option<string>
    var portalMob: Option<string>
    var portalIgnitionSource: Option<string>

    /** Before processing every field is null; afterwards they hold the resolved settings. */
    ghost predicate Valid(readMaterial: string -> Option<PortalBlock>)
      reads this
    {
      if !portalDataProcessed
      then portalBlocks.None? && portalColor.None? && portalMob.None? && portalIgnitionSource.None?
      else
        var r := ResolvePortal(dimConfig, presetFolderName, world, readMaterial);
        portalBlocks == Some(r.portalBlocks) && portalColor == Some(r.portalColor)
        && portalMob == Some(r.portalMob) && portalIgnitionSource == Some(r.portalIgnitionSource)
    }

    constructor (presetFolderName: string, dimConfig: Option<seq<Dimension>>, world: WorldPortalConfig)
      ensures this.presetFolderName == presetFolderName && this.dimConfig == dimConfig && this.world == world
      ensures !portalDataProcessed && forall readMaterial :: Valid(readMaterial)
    {
      this.presetFolderName, this.dimConfig, this.world := presetFolderName, dimConfig, world;
      portalDataProcessed := false;
      portalBlocks, portalColor, portalMob, portalIgnitionSource := None, None, None, None;
    }

    /** The blocks listed by one dimension: split on commas, trimmed, unreadable ones skipped. */
    method ReadDimensionBlocks(list: string, readMaterial: string -> Option<PortalBlock>) returns (materials: seq<PortalBlock>)
      ensures materials == ReadPortalBlocks(Split(list, ','), readMaterial)
    {
      var pieces := Split(list, ',');
      materials := [];
      for i := 0 to |pieces|
        invariant materials == ReadPortalBlocks(pieces[..i], readMaterial)
      {
        assert pieces[..i + 1][..i] == pieces[..i];
        var material := readMaterial(Trim(pieces[i]));
        if material.Some? {
          materials := materials + [material.value];
        }
      }
      assert pieces[..|pieces|] == pieces;
    }

    /** processDimensionConfigData: does its work once; later calls change nothing. */
    method ProcessDimensionConfigData(readMaterial: string -> Option<PortalBlock>)
      requires Valid(readMaterial)
      modifies this
      ensures Valid(readMaterial) && portalDataProcessed
      ensures old(portalDataProcessed) ==>
        portalBlocks == old(portalBlocks) && portalColor == old(portalColor)
        && portalMob == old(portalMob) && portalIgnitionSource == old(portalIgnitionSource)
    {
      if portalDataProcessed {
        return;
      }
      portalDataProcessed := true;
      if dimConfig.Some? {
        var dims := dimConfig.value;
        var i := 0;
        while i < |dims|
          invariant 0 <= i <= |dims|
          invariant forall j :: 0 <= j < i ==> dims[j].presetFolderName != Some(presetFolderName)
          invariant portalBlocks.None? && portalColor.None? && portalMob.None? && portalIgnitionSource.None?
        {
          var dim := dims[i];
          if dim.presetFolderName.Some? && presetFolderName == dim.presetFolderName.value {
            if dim.portalBlocks.Some? && |Trim(dim.portalBlocks.value)| > 0 {
              var materials := ReadDimensionBlocks(dim.portalBlocks.value, readMaterial);
              portalBlocks := Some(materials);
            }
            portalColor := dim.portalColor;
            portalMob := dim.portalMob;
            portalIgnitionSource := dim.portalIgnitionSource;
            ResolvePortalFromDimension(dims, presetFolderName, world, readMaterial, i);
            break;
          }
          i := i + 1;
        }
        if i == |dims| {
          ResolvePortalWithoutDimension(dimConfig, presetFolderName, world, readMaterial);
        }
      } else {
        ResolvePortalWithoutDimension(dimConfig, presetFolderName, world, readMaterial);
      }
      if portalBlocks.None? || |portalBlocks.value| == 0 {
        portalBlocks := Some(world.portalBlocks);
      }
      if portalColor.None? {
        portalColor := Some(world.portalColor);
      }
      if portalMob.None? {
        portalMob := Some(world.portalMob);
      }
      if portalIgnitionSource.None? {
        portalIgnitionSource := Some(world.portalIgnitionSource);
      }
    }

    method GetPortalColor(readMaterial: string -> Option<PortalBlock>) returns (r: string)
      requires Valid(readMaterial)
      modifies this
      ensures Valid(readMaterial) && portalDataProcessed
      ensures r == ResolvePortal(dimConfig, presetFolderName, world, readMaterial).portalColor
    {
      ProcessDimensionConfigData(readMaterial);
      r := portalColor.value;
    }

    method GetPortalMob(readMaterial: string -> Option<PortalBlock>) returns (r: string)
      requires Valid(readMaterial)
      modifies this
      ensures Valid(readMaterial) && portalDataProcessed
      ensures r == ResolvePortal(dimConfig, presetFolderName, world, readMaterial).portalMob
    {
      ProcessDimensionConfigData(readMaterial);
      r := portalMob.value;
    }

    method GetPortalIgnitionSource(readMaterial: string -> Option<PortalBlock>) returns (r: string)
      requires Valid(readMaterial)
      modifies this
      ensures Valid(readMaterial) && portalDataProcessed
      ensures r == ResolvePortal(dimConfig, presetFolderName, world, readMaterial).portalIgnitionSource
    {
      ProcessDimensionConfigData(readMaterial);
      r := portalIgnitionSource.value;
    }

    method GetPortalBlocks(readMaterial: string -> Option<PortalBlock>) returns (r: seq<PortalBlock>)
      requires Valid(readMaterial)
      modifies this
      ensures Valid(readMaterial) && portalDataProcessed
      ensures r == ResolvePortal(dimConfig, presetFolderName, world, readMaterial).portalBlocks
    {
      ProcessDimensionConfigData(readMaterial);
      r := portalBlocks.value;
    }
  }

  // ----- Structure cache and terrain routing ---------------------------------

  /** The custom structure cache, as the arguments it is created with. */
  datatype StructureCache = StructureCache(presetFolder: string, worldSaveFolder: string, seed: int, isBO4: bool)

  class StructureCacheHolder {
    const presetFolder: string
    const worldSeed: int
    const isBO4: bool
    var structureCache: Option<StructureCache>
    /** The caches written to disk by saveToDisk, oldest first. */
    var saves: seq<StructureCache>

    /** Every cache ever saved is the one the holder keeps. */
    predicate SavedCurrent()
      reads this
    {
      forall i :: 0 <= i < |saves| ==> structureCache == Some(saves[i])
    }

    constructor (presetFolder: string, worldSeed: int, isBO4: bool)
      ensures this.presetFolder == presetFolder && this.worldSeed == worldSeed && this.isBO4 == isBO4
      ensures structureCache.None? && saves == [] && SavedCurrent()
    {
      this.presetFolder, this.worldSeed, this.isBO4 := presetFolder, worldSeed, isBO4;
      structureCache, saves := None, [];
    }

    /** getStructureCache: created on the first call; later calls return it, whatever folder they pass. */
    method GetStructureCache(worldSaveFolder: string) returns (r: StructureCache)
      requires SavedCurrent()
      modifies this
      ensures old(structureCache).Some? ==> r == old(structureCache).value
      ensures old(structureCache).None? ==> r == StructureCache(presetFolder, worldSaveFolder, worldSeed, isBO4)
      ensures structureCache == Some(r) && saves == old(saves) && SavedCurrent()
    {
      if structureCache.None? {
        structureCache := Some(StructureCache(presetFolder, worldSaveFolder, worldSeed, isBO4));
      }
      r := structureCache.value;
    }

    /** saveStructureCache: the cache is written exactly when the decorator asks for it and a cache exists. */
    method SaveStructureCache(saveRequired: bool)
      requires SavedCurrent()
      modifies this
      ensures saves == old(saves) + (if saveRequired && structureCache.Some? then [structureCache.value] else [])
      ensures structureCache == old(structureCache) && SavedCurrent()
    {
      if saveRequired && structureCache.Some? {
        saves := saves + [structureCache.value];
      }
    }
  }

  /**
   * A save before the first getStructureCache writes nothing; a later save
   * writes the cache made for the first call's folder, not a later one's.
   */
  method SavesFirstFolder(presetFolder: string, worldSeed: int, isBO4: bool, first: string, later: string)
    returns (holder: StructureCacheHolder)
    ensures holder.saves == [StructureCache(presetFolder, first, worldSeed, isBO4)]
  {
    holder := new StructureCacheHolder(presetFolder, worldSeed, isBO4);
    holder.SaveStructureCache(true);
    assert holder.saves == [];
    var a := holder.GetStructureCache(first);
    var b := holder.GetStructureCache(later);
    holder.SaveStructureCache(true);
  }

  /** What the shadow generator is asked to do. */
  class ShadowGenerator {
    /**
     * The chunk each queueChunksForWorkerThreads call was made for.  The call
     * queues the chunks already cached in that chunk's generation region;
     * which ones those are is the shadow generator's business, not modelled.
     */
    var queueCalls: seq<(int, int)>
    /** The chunks marked as generated, in order. */
    var generated: seq<(int, int)>

    constructor ()
      ensures queueCalls == [] && generated == []
    {
      queueCalls, generated := [], [];
    }

    method QueueChunksForWorkerThreads(chunk: (int, int))
      modifies this
      ensures queueCalls == old(queueCalls) + [chunk] && generated == old(generated)
    {
      queueCalls := queueCalls + [chunk];
    }

    method SetChunkGenerated(chunk: (int, int))
      modifies this
      ensures generated == old(generated) + [chunk] && queueCalls == old(queueCalls)
    {
      generated := generated + [chunk];
    }
  }

  /** How buildNoise fills a chunk: from the shadow chunk, or freshly from the jigsaw scan. */
  datatype NoiseRoute =
    | FromShadow
    | Fresh(structures: seq<JigsawStructureData>, junctions: seq<JigsawStructureData>)

  /**
   * buildNoise: always asks the shadow generator to queue the cached
   * neighbourhood of the chunk for the workers; a cached
   * shadow chunk is copied in; otherwise the terrain is generated from the
   * jigsaw scan on empty lists and the chunk is marked generated.
   */
  method BuildNoise(shadow: ShadowGenerator, chunkX: int, chunkZ: int, cachedChunk: bool,
                    starts: seq<seq<Piece>>, isClose: Piece -> bool)
    returns (route: NoiseRoute)
    modifies shadow
    ensures shadow.queueCalls == old(shadow.queueCalls) + [(chunkX, chunkZ)]
    ensures cachedChunk ==> route == FromShadow && shadow.generated == old(shadow.generated)
    ensures !cachedChunk ==>
      && route == Fresh(StartsStructures(starts, isClose), StartsJunctions(starts, isClose, ChunkStart(chunkX), ChunkStart(chunkZ)))
      && shadow.generated == old(shadow.generated) + [(chunkX, chunkZ)]
  {
    shadow.QueueChunksForWorkerThreads((chunkX, chunkZ));
    if cachedChunk {
      return FromShadow;
    }
    var structures := new ObjectList();
    var junctions := new ObjectList();
    FindNoiseStructures(chunkX, chunkZ, starts, isClose, structures, junctions);
    shadow.SetChunkGenerated((chunkX, chunkZ));
    route := Fresh(structures.items, junctions.items);
  }
}
