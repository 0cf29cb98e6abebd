/** Level building of `LevelManager`: every level is a rows × cols grid of dirt
    tiles laid out symmetrically on the room floor inside an edge padding, handed
    to the dirt cleaner; when the cleaner reports the level clean, the next level
    is built after a delay. Object creation hands out fresh object numbers; the
    room's own layout pass and the tiles' world-size scaling are not part of this
    model. */
module Levels {
  import opened Engine

  /** `Mathf.Max(1, base + (level - 1) * perLevel)` in C#'s 32-bit `int`
      arithmetic. */
  function GridDim(base: int, level: int, perLevel: int): (r: int)
    ensures r >= 1 && IsInt32(r)
    ensures var exact := base + (level - 1) * perLevel;
      IsInt32(level - 1) && IsInt32((level - 1) * perLevel) && IsInt32(exact) ==> r == MaxI(1, exact)
  {
    MaxI(1, Wrap32(base + Wrap32(Wrap32(level - 1) * perLevel)))
  }

  /** With the default of no growth per level every level has the base size, and
      with non-negative growth a later level is never smaller (while the sizes fit
      in an `int`). */
  lemma GridDimGrowth(base: int, l1: int, l2: int, perLevel: int)
    requires IsInt32(base) && 1 <= l1 <= l2 && IsInt32(l2) && perLevel >= 0
    requires IsInt32((l2 - 1) * perLevel) && IsInt32(base + (l2 - 1) * perLevel)
    ensures perLevel == 0 ==> GridDim(base, l1, perLevel) == MaxI(1, base)
    ensures GridDim(base, l1, perLevel) <= GridDim(base, l2, perLevel)
  {
    MulMonotone(0, l1 - 1, perLevel);
    MulMonotone(l1 - 1, l2 - 1, perLevel);
  }

  /** `k` cells of size `cell`. */
  function Offset(k: int, cell: real): real {
    k as real * cell
  }

  /** The size of one of `n` equal cells over `length` (`Mathf.Max(1, n)` cells). */
  function CellSize(length: real, n: int): (r: real)
    ensures Offset(MaxI(1, n), r) == length
  {
    length / MaxI(1, n) as real
  }

  /** The usable floor length after the padding on both sides, at least 0.01. */
  function UsableLength(roomLength: real, edgePadding: real): (r: real)
    ensures r >= 0.01
    ensures roomLength - 2.0 * edgePadding >= 0.01 ==> r == roomLength - 2.0 * edgePadding
  {
    MaxR(0.01, roomLength - 2.0 * edgePadding)
  }

  /** The grid of one level: the centre of cell (0, 0), the cell sizes and the
      usable floor. */
  datatype Layout = Layout(origin: Vec3, cellX: real, cellZ: real, width: real, depth: real)

  function GridLayout(center: Vec3, roomWidth: real, roomDepth: real, edgePadding: real,
                      tileHeightOffset: real, rows: int, cols: int): (g: Layout)
    ensures g.width >= 0.01 && g.depth >= 0.01
    ensures Offset(MaxI(1, cols), g.cellX) == g.width && Offset(MaxI(1, rows), g.cellZ) == g.depth
    ensures g.origin.y == center.y + tileHeightOffset
  {
    var width := UsableLength(roomWidth, edgePadding);
    var depth := UsableLength(roomDepth, edgePadding);
    var cellX := CellSize(width, cols);
    var cellZ := CellSize(depth, rows);
    Layout(Vec3(center.x - width * 0.5 + cellX * 0.5, center.y + tileHeightOffset, center.z - depth * 0.5 + cellZ * 0.5),
           cellX, cellZ, width, depth)
  }

  /** The centre of cell (r, c): `c` cells along x and `r` cells along z from the
      origin. */
  function TilePosition(g: Layout, r: int, c: int): Vec3 {
    Vec3(g.origin.x + Offset(c, g.cellX), g.origin.y, g.origin.z + Offset(r, g.cellZ))
  }

  lemma OffsetStep(k: int, cell: real)
    ensures Offset(k + 1, cell) == Offset(k, cell) + cell
  {
  }

  lemma OffsetMonotone(a: int, b: int, cell: real)
    requires a <= b && cell > 0.0
    ensures Offset(a, cell) <= Offset(b, cell)
  {
    assert Offset(b, cell) - Offset(a, cell) == (b - a) as real * cell;
  }

  /** The grid is centred on the room: the first and the last cell of a row lie
      symmetrically about the room centre, and so do the first and the last row;
      every cell centre lies strictly inside the usable floor. */
  lemma GridCentred(center: Vec3, roomWidth: real, roomDepth: real, edgePadding: real, tileHeightOffset: real,
                    rows: int, cols: int, r: int, c: int)
    requires rows >= 1 && cols >= 1 && 0 <= r < rows && 0 <= c < cols
    ensures var g := GridLayout(center, roomWidth, roomDepth, edgePadding, tileHeightOffset, rows, cols);
      TilePosition(g, 0, 0).x + TilePosition(g, 0, cols - 1).x == 2.0 * center.x &&
      TilePosition(g, 0, 0).z + TilePosition(g, rows - 1, 0).z == 2.0 * center.z &&
      center.x - g.width / 2.0 < TilePosition(g, r, c).x < center.x + g.width / 2.0 &&
      center.z - g.depth / 2.0 < TilePosition(g, r, c).z < center.z + g.depth / 2.0
  {
    var g := GridLayout(center, roomWidth, roomDepth, edgePadding, tileHeightOffset, rows, cols);
    assert g.cellX > 0.0 && g.cellZ > 0.0;
    OffsetStep(cols - 1, g.cellX);
    OffsetStep(rows - 1, g.cellZ);
    OffsetMonotone(0, c, g.cellX);
    OffsetMonotone(c, cols - 1, g.cellX);
    OffsetMonotone(0, r, g.cellZ);
    OffsetMonotone(r, rows - 1, g.cellZ);
  }

  /** `CreateDirtTile`'s world size: the cell shrunk by `tileScaleFactor`, one
      fifth of the shorter side high, every side at least 0.01. */
  function Footprint(cellX: real, cellZ: real, tileScaleFactor: real): (s: Vec3)
    ensures s.x >= 0.01 && s.y >= 0.01 && s.z >= 0.01
    ensures s.x == MaxR(0.01, Scaled(cellX, tileScaleFactor)) && s.z == MaxR(0.01, Scaled(cellZ, tileScaleFactor))
    ensures s.y == MaxR(0.01, MinR(Scaled(cellX, tileScaleFactor), Scaled(cellZ, tileScaleFactor)) * 0.2)
  {
    var sx := Scaled(cellX, tileScaleFactor);
    var sz := Scaled(cellZ, tileScaleFactor);
    var sy := MinR(sx, sz) * 0.2;
    Vec3(MaxR(0.01, sx), MaxR(0.01, sy), MaxR(0.01, sz))
  }

  function Scaled(v: real, k: real): real {
    v * k
  }

  /** A tile is never taller than it is wide or deep. */
  lemma FootprintFlat(cellX: real, cellZ: real, tileScaleFactor: real)
    ensures var s := Footprint(cellX, cellZ, tileScaleFactor); s.y <= s.x && s.y <= s.z
  {
  }

  /** A spawned dirt tile: its object, position and world size. */
  datatype Tile = Tile(id: ObjId, position: Vec3, size: Vec3)

  /** The objects of a list of tiles, in order. */
  function Ids(ts: seq<Tile>): (r: seq<ObjId>)
    ensures |r| == |ts| && forall k :: 0 <= k < |ts| ==> r[k] == ts[k].id
  {
    if ts == [] then [] else Ids(ts[..|ts| - 1]) + [ts[|ts| - 1].id]
  }

  /** The objects of a list, as a set. */
  function Elements(s: seq<ObjId>): (r: set<ObjId>)
    ensures forall x :: x in r <==> exists k :: 0 <= k < |s| && s[k] == x
  {
    set k | 0 <= k < |s| :: s[k]
  }

  /** Objects numbered before `first`, followed by tiles numbered `first`, `first + 1`,
      …, are all below the next fresh number. */
  lemma FreshIds(before: seq<ObjId>, list: seq<Tile>, first: nat)
    requires forall k :: 0 <= k < |before| ==> before[k] < first
    requires forall k :: 0 <= k < |list| ==> list[k].id == first + k
    ensures forall k :: 0 <= k < |before + Ids(list)| ==> (before + Ids(list))[k] < first + |list|
  {
  }

  /** The level settings of the component and its room. */
  datatype Settings = Settings(
    baseRows: int, baseCols: int, rowsPerLevel: int, colsPerLevel: int,
    edgePadding: real, tileScaleFactor: real, tileHeightOffset: real,
    autoNextLevel: bool, nextLevelDelay: real,
    roomCenter: Vec3, roomWidth: real, roomDepth: real)

  class LevelManager {
    const settings: Settings
    /** `room` and `cleaner` are set. */
    const hasRoom: bool
    const hasCleaner: bool
    var currentLevel: int
    /** `dirtParent` is set, its children, and every object destroyed so far. */
    var hasDirtParent: bool
    var children: seq<ObjId>
    var destroyed: set<ObjId>
    /** The next fresh object number. */
    var nextObject: nat
    /** The tiles of the last `SpawnGridOnFloor`, and the lists handed to
        `cleaner.ResetAll` (which is not part of this model). */
    var tiles: seq<Tile>
    var resets: seq<seq<ObjId>>
    /** `Invoke(NextLevel)` calls still pending, by delay. */
    var pendingNextLevel: seq<real>
    /** `OnLevelComplete` listens to the cleaner's `onAllCleaned`. */
    var listening: bool

    ghost predicate Valid()
      reads this
    {
      IsInt32(settings.baseRows) && IsInt32(settings.baseCols) &&
      IsInt32(settings.rowsPerLevel) && IsInt32(settings.colsPerLevel) && IsInt32(currentLevel) &&
      (!hasDirtParent ==> children == []) &&
      forall k :: 0 <= k < |children| ==> children[k] < nextObject
    }

    constructor (settings: Settings, hasRoom: bool, hasCleaner: bool, currentLevel: int,
                 hasDirtParent: bool, children: seq<ObjId>, nextObject: nat)
      requires IsInt32(settings.baseRows) && IsInt32(settings.baseCols)
      requires IsInt32(settings.rowsPerLevel) && IsInt32(settings.colsPerLevel) && IsInt32(currentLevel)
      requires !hasDirtParent ==> children == []
      requires forall k :: 0 <= k < |children| ==> children[k] < nextObject
      ensures Valid()
      ensures this.settings == settings && this.hasRoom == hasRoom && this.hasCleaner == hasCleaner
      ensures this.currentLevel == currentLevel && this.hasDirtParent == hasDirtParent
      ensures this.children == children && this.nextObject == nextObject
      ensures destroyed == {} && tiles == [] && resets == [] && pendingNextLevel == [] && !listening
    {
      this.settings := settings;
      this.hasRoom := hasRoom;
      this.hasCleaner := hasCleaner;
      this.currentLevel := currentLevel;
      this.hasDirtParent := hasDirtParent;
      this.children := children;
      this.nextObject := nextObject;
      destroyed := {};
      tiles := [];
      resets := [];
      pendingNextLevel := [];
      listening := false;
    }

    /** `Start`: listens for the cleaner's completion when there is a cleaner, then
        builds the current level. */
    method Start(found: Option<seq<ObjId>>)
      requires Valid() && Existing(found)
      modifies this`listening, this`hasDirtParent, this`destroyed, this`children, this`nextObject, this`tiles,
        this`resets
      ensures Valid()
      ensures listening == (old(listening) || hasCleaner)
      ensures Rebuilt(currentLevel, found)
    {
      if hasCleaner {
        listening := true;
      }
      BuildLevel(currentLevel, found);
    }

    /** The level's grid on this room's floor. */
    function Floor(rows: int, cols: int): Layout {
      GridLayout(settings.roomCenter, settings.roomWidth, settings.roomDepth, settings.edgePadding,
                 settings.tileHeightOffset, rows, cols)
    }

    /** What `GameObject.Find("Dirt")` returned: nothing, or an existing object
        with these children; every existing object has a number below `nextObject`. */
    predicate Existing(found: Option<seq<ObjId>>)
      reads this
    {
      found.Some? ==> forall k :: 0 <= k < |found.value| ==> found.value[k] < nextObject
    }

    /** The dirt parent's children once `ClearDirt` has looked for one: its own
        when it is set, else those of the object found, else none. */
    function ChildrenAfterFind(found: Option<seq<ObjId>>): seq<ObjId>
      reads this
    {
      if hasDirtParent then children else if found.Some? then found.value else []
    }

    /** The tile `SpawnGridOnFloor` creates as its `k`-th: cell (k / cols, k % cols)
        of the level's layout, numbered `first + k`. */
    function TileAt(g: Layout, cols: int, first: nat, k: nat): Tile
      requires cols >= 1
    {
      Tile(first + k, TilePosition(g, k / cols, k % cols), Footprint(g.cellX, g.cellZ, settings.tileScaleFactor))
    }

    /** Every tile `SpawnGridOnFloor` lays for a rows × cols grid lies strictly
        inside the usable floor around the room centre, at the tile height. */
    lemma SpawnedTileInsideFloor(rows: int, cols: int, first: nat, k: nat)
      requires rows >= 1 && cols >= 1 && k < rows * cols
      ensures var c := settings.roomCenter;
        var g := GridLayout(c, settings.roomWidth, settings.roomDepth, settings.edgePadding,
                            settings.tileHeightOffset, rows, cols);
        var p := TileAt(g, cols, first, k).position;
        c.x - g.width / 2.0 < p.x < c.x + g.width / 2.0 &&
        c.z - g.depth / 2.0 < p.z < c.z + g.depth / 2.0 &&
        p.y == c.y + settings.tileHeightOffset
    {
      var r, c := k / cols, k % cols;
      if r >= rows {
        MulMonotone(rows, r, cols);
        assert false;
      }
      GridCentred(settings.roomCenter, settings.roomWidth, settings.roomDepth, settings.edgePadding,
                  settings.tileHeightOffset, rows, cols, r, c);
    }

    /** `ClearDirt`: without a dirt parent, the object named "Dirt" (`found`, when
        there is one) becomes the parent, with its children; then, when there is a
        parent, every one of its children is destroyed, last to first. */
    method ClearDirt(found: Option<seq<ObjId>>)
      requires Valid() && Existing(found)
      modifies this`hasDirtParent, this`children, this`destroyed
      ensures Valid()
      ensures hasDirtParent == (old(hasDirtParent) || found.Some?)
      ensures children == old(ChildrenAfterFind(found))
      ensures hasDirtParent ==> destroyed == old(destroyed) + Elements(children)
      ensures !hasDirtParent ==> destroyed == old(destroyed)
    {
      if !hasDirtParent {
        if found.Some? {
          hasDirtParent := true;
          children := found.value;
        }
      }
      if hasDirtParent {
        var i := |children| - 1;
        while i >= 0
          invariant -1 <= i < |children| && hasDirtParent
          invariant Valid() && children == old(ChildrenAfterFind(found))
          invariant destroyed == old(destroyed) + set k | i < k < |children| :: children[k]
        {
          destroyed := destroyed + {children[i]};
          i := i - 1;
        }
      }
    }

    /** `CreateDirtTile`: a fresh object at `position`, sized by `Footprint`. */
    method CreateDirtTile(position: Vec3, cellX: real, cellZ: real) returns (t: Tile)
      modifies this`nextObject
      ensures t == Tile(old(nextObject), position, Footprint(cellX, cellZ, settings.tileScaleFactor))
      ensures nextObject == old(nextObject) + 1
    {
      var sx := cellX * settings.tileScaleFactor;
      var sz := cellZ * settings.tileScaleFactor;
      var sy := MinR(sx, sz) * 0.2;
      t := Tile(nextObject, position, Vec3(MaxR(0.01, sx), MaxR(0.01, sy), MaxR(0.01, sz)));
      nextObject := nextObject + 1;
    }

    /** `SpawnGridOnFloor`: rows × cols fresh tiles in row-major order, each one
        parented under the dirt parent (created if missing). */
    method SpawnGridOnFloor(rows: int, cols: int) returns (list: seq<Tile>)
      requires Valid() && rows >= 1 && cols >= 1
      modifies this`hasDirtParent, this`children, this`nextObject
      ensures Valid() && hasDirtParent
      ensures nextObject == old(nextObject) + rows * cols
      ensures |list| == rows * cols
      ensures forall k :: 0 <= k < |list| ==>
        list[k] == TileAt(GridLayout(settings.roomCenter, settings.roomWidth, settings.roomDepth, settings.edgePadding,
                                     settings.tileHeightOffset, rows, cols), cols, old(nextObject), k)
      ensures children == old(children) + Ids(list)
    {
      if !hasDirtParent {
        hasDirtParent := true;
      }
      ghost var first := nextObject;
      ghost var before := children;
      var g := GridLayout(settings.roomCenter, settings.roomWidth, settings.roomDepth, settings.edgePadding,
                          settings.tileHeightOffset, rows, cols);
      list := [];
      var r := 0;
      while r < rows
        invariant 0 <= r <= rows && hasDirtParent
        invariant |list| == r * cols && nextObject == first + |list|
        invariant forall k :: 0 <= k < |list| ==> list[k] == TileAt(g, cols, first, k)
        invariant children == before + Ids(list)
      {
        list := SpawnRow(g, r, cols, first, before, list);
        assert (r + 1) * cols == r * cols + cols;
        r := r + 1;
      }
      FreshIds(before, list, first);
    }

    /** The inner loop of `SpawnGridOnFloor`: row `r` of the grid, left to
        right, appended to the tiles laid so far. */
    method SpawnRow(g: Layout, r: nat, cols: int, ghost first: nat, ghost before: seq<ObjId>, list0: seq<Tile>)
      returns (list: seq<Tile>)
      requires cols >= 1 && |list0| == r * cols && nextObject == first + |list0|
      requires forall k :: 0 <= k < |list0| ==> list0[k] == TileAt(g, cols, first, k)
      requires children == before + Ids(list0)
      modifies this`children, this`nextObject
      ensures |list| == r * cols + cols && nextObject == first + |list|
      ensures forall k :: 0 <= k < |list| ==> list[k] == TileAt(g, cols, first, k)
      ensures children == before + Ids(list)
    {
      list := list0;
      var c := 0;
      while c < cols
        invariant 0 <= c <= cols
        invariant |list| == r * cols + c && nextObject == first + |list|
        invariant forall k :: 0 <= k < |list| ==> list[k] == TileAt(g, cols, first, k)
        invariant children == before + Ids(list)
      {
        var pos := Vec3(g.origin.x + Offset(c, g.cellX), g.origin.y, g.origin.z + Offset(r, g.cellZ));
        var t := CreateDirtTile(pos, g.cellX, g.cellZ);
        RowMajor(r, c, cols);
        children := children + [t.id];
        list := list + [t];
        c := c + 1;
      }
    }

    /** What `BuildLevel(level)` leaves, against the state before it: without a
        room and a cleaner nothing changes; otherwise the old dirt (of the set or
        found parent) is destroyed, tile k of the new `GridDim` grid is `TileAt`
        the level's layout, the tiles join the parent's children, numbering goes
        on after them, and the cleaner is reset with them. */
    twostate predicate Rebuilt(level: int, found: Option<seq<ObjId>>)
      reads this
    {
      if hasRoom && hasCleaner then
        var rows := GridDim(settings.baseRows, level, settings.rowsPerLevel);
        var cols := GridDim(settings.baseCols, level, settings.colsPerLevel);
        |tiles| == rows * cols &&
        (forall k :: 0 <= k < |tiles| ==> tiles[k] == TileAt(Floor(rows, cols), cols, old(nextObject), k)) &&
        destroyed == old(destroyed) + Elements(old(ChildrenAfterFind(found))) &&
        hasDirtParent && children == old(ChildrenAfterFind(found)) + Ids(tiles) &&
        nextObject == old(nextObject) + rows * cols &&
        resets == old(resets) + [Ids(tiles)]
      else
        hasDirtParent == old(hasDirtParent) && destroyed == old(destroyed) && children == old(children) &&
        nextObject == old(nextObject) && tiles == old(tiles) && resets == old(resets)
    }

    /** `BuildLevel`: nothing without a room and a cleaner; otherwise the old dirt is
        destroyed, a grid of `GridDim` rows and columns is spawned and handed to the
        cleaner. */
    method BuildLevel(level: int, found: Option<seq<ObjId>>)
      requires Valid() && Existing(found)
      modifies this`hasDirtParent, this`destroyed, this`children, this`nextObject, this`tiles, this`resets
      ensures Valid()
      ensures Rebuilt(level, found)
    {
      if !hasRoom || !hasCleaner {
        return;
      }
      var rows := GridDim(settings.baseRows, level, settings.rowsPerLevel);
      var cols := GridDim(settings.baseCols, level, settings.colsPerLevel);
      ClearDirt(found);
      var spawned := SpawnGridOnFloor(rows, cols);
      tiles := spawned;
      resets := resets + [Ids(spawned)];
    }

    /** `NextLevel`: the level number grows by one in 32-bit arithmetic, never
        below 1, and that level is built. */
    method NextLevel(found: Option<seq<ObjId>>)
      requires Valid() && Existing(found)
      modifies this`currentLevel, this`hasDirtParent, this`destroyed, this`children, this`nextObject, this`tiles,
        this`resets
      ensures Valid()
      ensures currentLevel == MaxI(1, Wrap32(old(currentLevel) + 1))
      ensures currentLevel >= 1
      ensures 0 <= old(currentLevel) < Int32Max ==> currentLevel == old(currentLevel) + 1
      ensures old(currentLevel) == Int32Max ==> currentLevel == 1
      ensures Rebuilt(currentLevel, found)
    {
      currentLevel := MaxI(1, Wrap32(currentLevel + 1));
      BuildLevel(currentLevel, found);
    }

    /** `OnLevelComplete`: schedules `NextLevel` after `nextLevelDelay` only when
        `autoNextLevel` is set. */
    method OnLevelComplete()
      modifies this`pendingNextLevel
      ensures pendingNextLevel == old(pendingNextLevel) + (if settings.autoNextLevel then [settings.nextLevelDelay] else [])
    {
      if !settings.autoNextLevel {
        return;
      }
      pendingNextLevel := pendingNextLevel + [settings.nextLevelDelay];
    }

    /** The first pending `Invoke` comes due. */
    method RunPendingNextLevel(found: Option<seq<ObjId>>)
      requires Valid() && Existing(found) && |pendingNextLevel| > 0
      modifies this`pendingNextLevel, this`currentLevel, this`hasDirtParent, this`destroyed, this`children,
        this`nextObject, this`tiles, this`resets
      ensures Valid()
      ensures pendingNextLevel == old(pendingNextLevel)[1..]
      ensures currentLevel == MaxI(1, Wrap32(old(currentLevel) + 1))
      ensures Rebuilt(currentLevel, found)
    {
      pendingNextLevel := pendingNextLevel[1..];
      NextLevel(found);
    }
  }
}
