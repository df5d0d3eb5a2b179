/**
 * Spigot's wrapper around a Minecraft block state: one wrapper object per
 * state (interned in a table), a cached display name, the null/blank
 * predicates, the 90-degree rotation with its cached result, property
 * setting and equality.
 */
module SpigotMaterialData {
  import opened Wrappers

  datatype Direction = Down | Up | North | South | West | East

  datatype Value = DirValue(dir: Direction) | BoolValue(b: bool) | IntValue(n: int)

  datatype Property = Property(name: string, value: Value)

  /** What the block's material says about liquids, air and solidity. */
  datatype Material = AirMaterial | WaterMaterial | LavaMaterial | OtherMaterial(solid: bool)

  /** The four boolean connections of a fence or glass pane. */
  datatype Connections = Connections(north: bool, east: bool, south: bool, west: bool)

  /**
   * A block state: the block's name, its material, whether the block falls,
   * its properties in order, and the connections when the block is a fence
   * or pane.
   */
  datatype BlockState = BlockState(
    block: string, material: Material, falling: bool,
    props: seq<Property>, connections: Option<Connections>)

  // ----- Rotation as a function on states ----------------------------------

  /** A quarter turn: NORTH to WEST, WEST to SOUTH, SOUTH to EAST, EAST to NORTH. */
  function RotateDir(d: Direction): (r: Direction)
    ensures d == Up || d == Down ==> r == d
    ensures (d == North ==> r == West) && (d == West ==> r == South)
    ensures (d == South ==> r == East) && (d == East ==> r == North)
  {
    match d
    case Down => Down
    case Up => Up
    case North => West
    case South => East
    case West => South
    case East => North
  }

  lemma RotateDirFourTimes(d: Direction)
    ensures RotateDir(RotateDir(RotateDir(RotateDir(d)))) == d
  {
  }

  function RotateProperty(p: Property): Property
  {
    match p.value
    case DirValue(d) => Property(p.name, DirValue(RotateDir(d)))
    case _ => p
  }

  /** Every direction property turned, every other property kept, in order. */
  function RotateProps(ps: seq<Property>): (r: seq<Property>)
    ensures |r| == |ps|
    ensures forall i :: 0 <= i < |ps| ==> r[i] == RotateProperty(ps[i])
  {
    if ps == [] then [] else [RotateProperty(ps[0])] + RotateProps(ps[1..])
  }

  /** New east = old south, new south = old west, new west = old north, new north = old east. */
  function RotateConnections(c: Connections): Connections
  {
    Connections(c.east, c.south, c.west, c.north)
  }

  function Connected(c: Connections, d: Direction): bool
  {
    match d
    case North => c.north
    case East => c.east
    case South => c.south
    case West => c.west
    case _ => false
  }

  /** The connections turn the same way as a facing: what was on side d is now on side RotateDir(d). */
  lemma ConnectionsFollowFacing(c: Connections, d: Direction)
    ensures Connected(RotateConnections(c), RotateDir(d)) == Connected(c, d)
  {
  }

  function RotateOnce(s: BlockState): BlockState
  {
    BlockState(s.block, s.material, s.falling, RotateProps(s.props),
      match s.connections
      case None => None
      case Some(c) => Some(RotateConnections(c)))
  }

  function RotateTimes(s: BlockState, n: nat): BlockState
    decreases n
  {
    if n == 0 then s else RotateTimes(RotateOnce(s), n - 1)
  }

  /** Four quarter turns give back the state. */
  lemma RotateFourTimes(s: BlockState)
    ensures RotateTimes(s, 4) == s
  {
    var r := RotateTimes(s, 4);
    assert RotateTimes(RotateOnce(RotateOnce(RotateOnce(RotateOnce(s)))), 0) == RotateOnce(RotateOnce(RotateOnce(RotateOnce(s))));
    assert RotateTimes(RotateOnce(RotateOnce(RotateOnce(s))), 1) == RotateOnce(RotateOnce(RotateOnce(RotateOnce(s))));
    assert RotateTimes(RotateOnce(RotateOnce(s)), 2) == RotateOnce(RotateOnce(RotateOnce(RotateOnce(s))));
    assert RotateTimes(RotateOnce(s), 3) == RotateOnce(RotateOnce(RotateOnce(RotateOnce(s))));
    assert r == RotateOnce(RotateOnce(RotateOnce(RotateOnce(s))));
    forall i | 0 <= i < |s.props|
      ensures r.props[i] == s.props[i]
    {
      var p := s.props[i];
      if p.value.DirValue? {
        RotateDirFourTimes(p.value.dir);
      }
    }
  }

  /** Rotation changes only direction values and connections: the block and its material stay. */
  lemma RotateKeepsBlock(s: BlockState, n: nat)
    ensures RotateTimes(s, n).block == s.block && RotateTimes(s, n).material == s.material
    ensures RotateTimes(s, n).falling == s.falling && |RotateTimes(s, n).props| == |s.props|
    decreases n
  {
    if n > 0 {
      RotateKeepsBlock(RotateOnce(s), n - 1);
    }
  }

  /** The property loop of rotate: each direction property set to its turned value. */
  method RotateState(s: BlockState) returns (t: BlockState)
    ensures t == RotateOnce(s)
  {
    var props := s.props;
    var i := 0;
    while i < |props|
      invariant 0 <= i <= |props| == |s.props|
      invariant props[..i] == RotateProps(s.props[..i]) && props[i..] == s.props[i..]
    {
      var p := props[i];
      assert s.props[..i + 1] == s.props[..i] + [s.props[i]];
      RotatePropsAppend(s.props[..i], [s.props[i]]);
      match p.value {
        case DirValue(d) =>
          props := props[i := Property(p.name, DirValue(RotateDir(d)))];
        case _ =>
      }
      i := i + 1;
    }
    assert props == props[..i];
    assert s.props[..i] == s.props;
    var connections := s.connections;
    if connections.Some? {
      var c := connections.value;
      var hasEast := c.east;
      c := c.(east := c.south);
      c := c.(south := c.west);
      c := c.(west := c.north);
      c := c.(north := hasEast);
      connections := Some(c);
    }
    t := BlockState(s.block, s.material, s.falling, props, connections);
  }

  lemma RotatePropsAppend(a: seq<Property>, b: seq<Property>)
    ensures RotateProps(a + b) == RotateProps(a) + RotateProps(b)
  {
    assert RotateProps(a + b) == RotateProps(a) + RotateProps(b) by {
      assert forall i :: 0 <= i < |a + b| ==> RotateProps(a + b)[i] == (RotateProps(a) + RotateProps(b))[i];
    }
  }

  // ----- Names ---------------------------------------------------------------

  /** String.replace(pattern, ""): every occurrence, scanning left to right, removed. */
  function RemoveAll(s: string, pattern: string): (r: string)
    requires pattern != []
    ensures |r| <= |s|
    decreases |s|
  {
    if |s| < |pattern| then s
    else if s[..|pattern|] == pattern then RemoveAll(s[|pattern|..], pattern)
    else [s[0]] + RemoveAll(s[1..], pattern)
  }

  lemma {:induction false} RemoveAllSingle(s: string, c: char)
    ensures c !in RemoveAll(s, [c])
    ensures c !in s ==> RemoveAll(s, [c]) == s
    decreases |s|
  {
    if |s| >= 1 {
      RemoveAllSingle(s[1..], c);
      if s[..1] != [c] {
        assert s[0] != c;
        assert c !in [s[0]];
        if c !in s {
          assert c !in s[1..];
          assert s == [s[0]] + s[1..];
        }
      } else {
        assert s[0] == c;
      }
    }
  }

  predicate OccursAt(s: string, pattern: string, i: int)
  {
    0 <= i && i + |pattern| <= |s| && s[i..i + |pattern|] == pattern
  }

  lemma {:induction false} RemoveAllAbsent(s: string, pattern: string)
    requires pattern != []
    requires forall i :: !OccursAt(s, pattern, i)
    ensures RemoveAll(s, pattern) == s
    decreases |s|
  {
    if |s| >= |pattern| {
      assert !OccursAt(s, pattern, 0);
      assert s[0..|pattern|] == s[..|pattern|];
      forall i
        ensures !OccursAt(s[1..], pattern, i)
      {
        if 0 <= i && i + |pattern| <= |s[1..]| {
          assert s[1..][i..i + |pattern|] == s[i + 1..i + 1 + |pattern|];
          assert !OccursAt(s, pattern, i + 1);
        }
      }
      RemoveAllAbsent(s[1..], pattern);
      assert s == [s[0]] + s[1..];
    }
  }

  /** The state text with "Block{" and then "}" removed. */
  function StateName(text: string): (r: string)
    ensures '}' !in r
  {
    RemoveAllSingle(RemoveAll(text, "Block{"), '}');
    RemoveAll(RemoveAll(text, "Block{"), "}")
  }

  /** The name that getName derives for a wrapper. */
  function NameOf(isBlank: bool, state: Option<BlockState>, rawEntry: Option<string>,
                  stateText: BlockState -> string): (r: string)
    ensures isBlank ==> r == "BLANK"
    ensures !isBlank && state.None? ==> r == rawEntry.GetOr("Unknown")
    ensures !isBlank && state.Some? ==> '}' !in r
  {
    if isBlank then "BLANK"
    else if state.None? then (if rawEntry.Some? then rawEntry.value else "Unknown")
    else StateName(stateText(state.value))
  }

  /** A plain "Block{id}" text gives the id back, when the id holds no braces pattern. */
  lemma StateNameOfPlainBlock(id: string)
    requires '}' !in id
    requires forall i :: !OccursAt(id, "Block{", i)
    ensures StateName("Block{" + id + "}") == id
  {
    var text := "Block{" + id + "}";
    assert text[..6] == "Block{";
    assert text[6..] == id + "}";
    var rest := id + "}";
    forall i
      ensures !OccursAt(rest, "Block{", i)
    {
      if 0 <= i && i + 6 <= |rest| {
        if i + 6 <= |id| {
          assert rest[i..i + 6] == id[i..i + 6];
          assert !OccursAt(id, "Block{", i);
        } else {
          assert rest[i..i + 6][|id| - i] == '}';
          assert "Block{"[|id| - i] != '}';
        }
      }
    }
    RemoveAllAbsent(rest, "Block{");
    RemoveAllSingle(rest, '}');
    RemoveAllAfterLastBrace(id);
  }

  lemma RemoveAllAfterLastBrace(id: string)
    requires '}' !in id
    ensures RemoveAll(id + "}", "}") == id
    decreases |id|
  {
    if id == [] {
      assert RemoveAll("}"[1..], "}") == [];
    } else {
      assert (id + "}")[..1] == [id[0]];
      assert id[0] != '}';
      assert (id + "}")[1..] == id[1..] + "}";
      RemoveAllAfterLastBrace(id[1..]);
      assert id == [id[0]] + id[1..];
    }
  }

  // ----- Wrapper objects and the interning table ----------------------------

  datatype MaterialError = NullState | IllegalArgument(property: MaterialProperty) | MissingProperty(name: string)

  /** The properties withProperty understands; anything else is refused. */
  datatype MaterialProperty = Age0To25 | Pickles1To4 | Snowy | HorizontalDirection | OtherProperty(name: string)

  class MaterialData {
    const blockData: Option<BlockState>
    const rawEntry: Option<string>
    const isBlank: bool
    var name: Option<string>
    var rotated: MaterialData?

    constructor (blockData: Option<BlockState>, raw: Option<string>, isBlank: bool)
      ensures this.blockData == blockData && this.rawEntry == raw && this.isBlank == isBlank
      ensures name.None? && rotated == null
    {
      this.blockData, this.rawEntry, this.isBlank := blockData, raw, isBlank;
      name, rotated := None, null;
    }

    /** getName: derived once, then the cached value is returned. */
    method GetName(stateText: BlockState -> string) returns (n: string)
      modifies this
      ensures old(name).Some? ==> n == old(name).value
      ensures old(name).None? ==> n == NameOf(isBlank, blockData, rawEntry, stateText)
      ensures name == Some(n) && rotated == old(rotated)
    {
      if name.Some? {
        return name.value;
      }
      if isBlank {
        name := Some("BLANK");
      } else if blockData.None? {
        if rawEntry.Some? {
          name := Some(rawEntry.value);
        } else {
          name := Some("Unknown");
        }
      } else {
        name := Some(StateName(stateText(blockData.value)));
      }
      n := name.value;
    }

    predicate IsLiquid()
    {
      blockData.Some? && (blockData.value.material == WaterMaterial || blockData.value.material == LavaMaterial)
    }

    predicate IsSolid()
    {
      blockData.Some? && blockData.value.material.OtherMaterial? && blockData.value.material.solid
    }

    predicate IsEmptyOrAir()
    {
      blockData.None? || blockData.value.material == AirMaterial
    }

    predicate IsAir()
    {
      blockData.Some? && blockData.value.material == AirMaterial
    }

    predicate IsEmpty()
    {
      blockData.None?
    }

    predicate CanFall()
    {
      blockData.Some? && blockData.value.falling
    }

    predicate CanSnowFallOn()
    {
      blockData.Some? && blockData.value.material.OtherMaterial? && blockData.value.material.solid
    }

    /**
     * rotate(times): the quarter turn is computed once, interned and cached
     * in rotated; more than one turn goes on from the rotated object, any
     * count up to 1 gives one turn.  A wrapper without a state fails.
     */
    method Rotate(reg: Registry, times: int) returns (r: Result<MaterialData, MaterialError>)
      requires reg.Valid() && this in reg.Repr
      modifies reg, reg.Repr
      ensures reg.Valid() && old(reg.Repr) <= reg.Repr && fresh(reg.Repr - old(reg.Repr))
      ensures forall k :: k in old(reg.table) ==> k in reg.table && reg.table[k] == old(reg.table[k])
      ensures forall d :: d in old(reg.Repr) && old(d.rotated) != null ==> d.rotated == old(d.rotated)
      ensures forall d :: d in old(reg.Repr) ==> d.name == old(d.name)
      ensures blockData.None? ==> r == Err(NullState)
      ensures blockData.Some? ==>
        && r.Ok? && r.value in reg.Repr
        && r.value.blockData == Some(RotateTimes(blockData.value, if times > 1 then times else 1))
        && r.value.blockData in reg.table && reg.table[r.value.blockData] == r.value
        && rotated != null
      ensures blockData.Some? && times <= 1 ==> r == Ok(rotated)
      decreases if times > 1 then times else 1
    {
      if rotated == null {
        if blockData.None? {
          return Err(NullState);
        }
        CacheRotation(reg);
      }
      if times > 1 {
        r := rotated.Rotate(reg, times - 1);
        return;
      }
      return Ok(rotated);
    }

    /** The first rotation: one quarter turn of the state, interned and stored in rotated. */
    method CacheRotation(reg: Registry)
      requires reg.Valid() && this in reg.Repr && blockData.Some? && rotated == null
      modifies reg, this
      ensures reg.Valid() && old(reg.Repr) <= reg.Repr && fresh(reg.Repr - old(reg.Repr))
      ensures forall k :: k in old(reg.table) ==> k in reg.table && reg.table[k] == old(reg.table[k])
      ensures rotated != null && rotated in reg.Repr && rotated.blockData == Some(RotateOnce(blockData.value))
      ensures rotated.blockData in reg.table && reg.table[rotated.blockData] == rotated
      ensures name == old(name)
    {
      var state := RotateState(blockData.value);
      var d := reg.OfBlockData(Some(state), None);
      rotated := d;
    }

    /**
     * withProperty: age, pickles, snowy and horizontal facing are set on the
     * state and the result interned; any other property is refused.
     */
    method WithProperty(reg: Registry, property: MaterialProperty, value: Value)
      returns (r: Result<MaterialData, MaterialError>)
      requires reg.Valid()
      modifies reg
      ensures reg.Valid() && old(reg.Repr) <= reg.Repr
      ensures forall k :: k in old(reg.table) ==> k in reg.table && reg.table[k] == old(reg.table[k])
      ensures property.OtherProperty? ==> r == Err(IllegalArgument(property))
      ensures !property.OtherProperty? && blockData.None? ==> r == Err(NullState)
      ensures !property.OtherProperty? && blockData.Some? ==>
        match SetProperty(blockData.value, PropertyName(property), value)
        case Err(e) => r == Err(e)
        case Ok(s) => r.Ok? && r.value in reg.Repr && r.value.blockData == Some(s)
                      && Some(s) in reg.table && reg.table[Some(s)] == r.value
    {
      var propertyName: string;
      if property == Age0To25 {
        propertyName := "age";
      } else if property == Pickles1To4 {
        propertyName := "pickles";
      } else if property == Snowy {
        propertyName := "snowy";
      } else if property == HorizontalDirection {
        propertyName := "facing";
        if blockData.None? {
          return Err(NullState);
        }
        var s := SetProperty(blockData.value, propertyName, value);
        if s.Err? {
          return Err(s.error);
        }
        var d := reg.OfBlockData(Some(s.value), None);
        return Ok(d);
      } else {
        return Err(IllegalArgument(property));
      }
      if blockData.None? {
        return Err(NullState);
      }
      var s := SetProperty(blockData.value, propertyName, value);
      if s.Err? {
        return Err(s.error);
      }
      var d := reg.OfBlockData(Some(s.value), None);
      return Ok(d);
    }

    /**
     * equals with the null-safe state comparison: the same object; or both
     * blank; or neither blank and equal (possibly null) states.
     */
    predicate Equals(other: MaterialData?)
    {
      this == other
      || (other != null && ((isBlank && other.isBlank) || (!isBlank && !other.isBlank && blockData == other.blockData)))
    }

    /**
     * equals as written: for a wrapper that is not blank and has no state,
     * compared with another non-blank object, blockData.equals is called on
     * null.
     */
    function EqualsAsWritten(other: MaterialData?): Result<bool, MaterialError>
    {
      if this == other then Ok(true)
      else if other == null then Ok(false)
      else if isBlank && other.isBlank then Ok(true)
      else if !isBlank && !other.isBlank then
        (if blockData.None? then Err(NullState) else Ok(blockData == other.blockData))
      else Ok(false)
    }

    /** hashCode: -1 without a state, otherwise the state's hash. */
    function HashCode(stateHash: BlockState -> int): (r: int)
      ensures blockData.None? ==> r == -1
    {
      if blockData.None? then -1 else stateHash(blockData.value)
    }
  }

  function PropertyName(p: MaterialProperty): string
  {
    match p
    case Age0To25 => "age"
    case Pickles1To4 => "pickles"
    case Snowy => "snowy"
    case HorizontalDirection => "facing"
    case OtherProperty(n) => n
  }

  /** BlockState.set: the first property with that name gets the value; a missing one is an error. */
  function SetProps(ps: seq<Property>, name: string, value: Value): (r: Option<seq<Property>>)
    ensures r.Some? ==> |r.value| == |ps|
  {
    if ps == [] then None
    else if ps[0].name == name then Some([Property(name, value)] + ps[1..])
    else match SetProps(ps[1..], name, value)
      case None => None
      case Some(rest) => Some([ps[0]] + rest)
  }

  /**
   * Setting a property succeeds exactly when the state has a property of
   * that name; it keeps every name and gives that property the new value.
   */
  lemma {:induction false} SetPropsSpec(ps: seq<Property>, name: string, value: Value)
    ensures SetProps(ps, name, value).Some? <==> exists i :: 0 <= i < |ps| && ps[i].name == name
    ensures SetProps(ps, name, value).Some? ==>
      && (forall i :: 0 <= i < |ps| ==> SetProps(ps, name, value).value[i].name == ps[i].name)
      && exists i :: 0 <= i < |ps| && ps[i].name == name && SetProps(ps, name, value).value[i].value == value
  {
    if ps != [] {
      var tail := ps[1..];
      SetPropsSpec(tail, name, value);
      assert forall i :: 1 <= i < |ps| ==> ps[i] == tail[i - 1];
      if ps[0].name == name {
        var t := [Property(name, value)] + tail;
        assert SetProps(ps, name, value) == Some(t);
        assert t[0] == Property(name, value);
        assert forall i :: 1 <= i < |ps| ==> t[i] == ps[i];
      } else {
        match SetProps(tail, name, value)
        case None =>
          assert SetProps(ps, name, value).None?;
        case Some(rest) =>
          var t := [ps[0]] + rest;
          assert SetProps(ps, name, value) == Some(t);
          var j :| 0 <= j < |tail| && tail[j].name == name && rest[j].value == value;
          assert t[j + 1] == rest[j] && ps[j + 1] == tail[j];
          assert forall i :: 1 <= i < |ps| ==> t[i] == rest[i - 1];
      }
    }
  }

  function SetProperty(s: BlockState, name: string, value: Value): Result<BlockState, MaterialError>
  {
    match SetProps(s.props, name, value)
    case None => Err(MissingProperty(name))
    case Some(ps) => Ok(s.(props := ps))
  }

  /** The interning table, with the ghost set of every wrapper created so far. */
  class Registry {
    var table: map<Option<BlockState>, MaterialData>
    const blank: MaterialData
    ghost var Repr: set<MaterialData>

    ghost predicate Valid()
      reads this, Repr
    {
      && blank in Repr && blank.isBlank && blank.blockData.None?
      && table.Values <= Repr
      && (forall k :: k in table ==> table[k].blockData == k && !table[k].isBlank)
      && (forall d :: d in Repr && d != blank ==> d.blockData in table && table[d.blockData] == d)
      && (forall d :: d in Repr && d.rotated != null ==>
            d.rotated in Repr && d.blockData.Some? && d.rotated.blockData == Some(RotateOnce(d.blockData.value)))
    }

    constructor ()
      ensures Valid() && table == map[] && fresh(Repr)
    {
      var b := new MaterialData(None, None, true);
      blank := b;
      table := map[];
      Repr := {b};
    }

    /**
     * ofBlockData: the wrapper already made for an equal state, or a new one
     * (carrying raw) entered in the table.  The raw argument of later calls is
     * ignored.
     */
    method OfBlockData(state: Option<BlockState>, raw: Option<string>) returns (d: MaterialData)
      requires Valid()
      modifies this
      ensures Valid() && d in Repr && d.blockData == state && !d.isBlank && state in table && table[state] == d
      ensures old(state in table) ==> d == old(table[state]) && table == old(table) && Repr == old(Repr)
      ensures old(state !in table) ==>
        fresh(d) && table == old(table)[state := d] && Repr == old(Repr) + {d}
        && d.rawEntry == raw && d.name.None? && d.rotated == null
    {
      if state in table {
        return table[state];
      }
      d := new MaterialData(state, raw, false);
      table := table[state := d];
      Repr := Repr + {d};
    }
  }

  /** Interning: equal states give the same object, and the table never gets a second one. */
  method InternTwice(reg: Registry, s: Option<BlockState>, raw1: Option<string>, raw2: Option<string>)
    returns (a: MaterialData, b: MaterialData)
    requires reg.Valid()
    modifies reg
    ensures a == b && a.blockData == s && s in reg.table && reg.table[s] == a
    ensures |reg.table.Keys| <= |old(reg.table).Keys| + 1
  {
    a := reg.OfBlockData(s, raw1);
    b := reg.OfBlockData(s, raw2);
    assert reg.table.Keys <= old(reg.table).Keys + {s};
    SubsetCard(reg.table.Keys, old(reg.table).Keys + {s});
  }

  /** Caching: a second quarter turn of the same wrapper gives back the object of the first. */
  method RotateIsCached(reg: Registry, m: MaterialData) returns (a: MaterialData, b: MaterialData)
    requires reg.Valid() && m in reg.Repr && m.blockData.Some?
    modifies reg, reg.Repr
    ensures a == b && a == m.rotated && a.blockData == Some(RotateOnce(m.blockData.value))
  {
    var r1 := m.Rotate(reg, 1);
    a := r1.value;
    var r2 := m.Rotate(reg, 1);
    b := r2.value;
  }

  lemma SubsetCard<T>(a: set<T>, b: set<T>)
    requires a <= b
    ensures |a| <= |b|
  {
    assert b == a + (b - a);
  }

  /** isEmptyOrAir is isEmpty or isAir; a wrapper without a state answers false to the rest. */
  lemma PredicatesOfNullState(d: MaterialData)
    ensures d.IsEmptyOrAir() == (d.IsEmpty() || d.IsAir())
    ensures d.IsSolid() == d.CanSnowFallOn()
    ensures d.blockData.None? ==>
      d.IsEmpty() && !d.IsLiquid() && !d.IsSolid() && !d.CanFall() && !d.CanSnowFallOn() && !d.IsAir()
    ensures d.IsAir() ==> !d.IsLiquid() && !d.IsSolid()
  {
  }

  /** Blank equals blank; blank never equals a wrapper that is not blank. */
  lemma EqualsOfBlank(a: MaterialData, b: MaterialData)
    ensures a.isBlank && b.isBlank ==> a.Equals(b)
    ensures a.isBlank != b.isBlank ==> !a.Equals(b) && !b.Equals(a)
  {
  }

  /** The corrected equality is symmetric and agrees with hashCode. */
  lemma EqualsSymmetricAndHashed(a: MaterialData, b: MaterialData, stateHash: BlockState -> int)
    requires a.isBlank ==> a.blockData.None?
    requires b.isBlank ==> b.blockData.None?
    ensures a.Equals(b) == b.Equals(a)
    ensures a.Equals(b) ==> a.HashCode(stateHash) == b.HashCode(stateHash)
  {
  }

  /** The as-written equality throws where the corrected one answers false. */
  lemma EqualsAsWrittenThrows(a: MaterialData, b: MaterialData)
    requires !a.isBlank && a.blockData.None?
    requires !b.isBlank && b.blockData.Some?
    ensures a.EqualsAsWritten(b) == Err(NullState)
    ensures !a.Equals(b)
  {
  }

  /** Where the as-written equality answers, the corrected one gives the same answer. */
  lemma EqualsAgreesWhereDefined(a: MaterialData, b: MaterialData?)
    requires a.EqualsAsWritten(b).Ok?
    ensures a.EqualsAsWritten(b).value == a.Equals(b)
  {
  }
}
