/** LevelSetupSystem: selects the active level and, once per level entity, assembles the
    facility from the level's module types, left to right along an x-cursor. */
module LevelSetup {
  import opened Levels

  datatype Option<T> = None | Some(value: T)

  const Y_OFFSET: int := 25
  const TOILET_Y: int := 48

  /** The bounds offset of the main door, which the entrance system adds to the door's position. */
  const DOOR_BOUNDS_MINX: int := 16
  const DOOR_BOUNDS_MINY: int := 16

  /** Widths of the module sprites. Their values belong to the asset system, which is not part
      of this model; all that is used of them is that they are positive. */
  datatype Widths = Widths(entrance: int, tips: int, toilet: int, urinal: int, sink: int, supplyCloset: int)
  {
    predicate Valid()
    {
      entrance > 0 && tips > 0 && toilet > 0 && urinal > 0 && sink > 0 && supplyCloset > 0
    }
  }

  /** How far the x-cursor moves past a module of type t. As coded, toilets and posters
      take the urinal width and urinals take the toilet width. */
  function Advance(t: ModuleType, w: Widths): (d: int)
    ensures w.Valid() ==> d > 0
  {
    match t
    case Entrance => w.entrance
    case Tips => w.tips
    case Toilet => w.urinal
    case Poster => w.urinal
    case Urinal => w.toilet
    case Sink => w.sink
    case SupplyCloset => w.supplyCloset
  }

  /** The distance the cursor travels over a run of modules. */
  function TotalWidth(ts: seq<ModuleType>, w: Widths): (total: int)
    ensures w.Valid() ==> total >= |ts|
  {
    if ts == [] then 0 else TotalWidth(ts[..|ts| - 1], w) + Advance(ts[|ts| - 1], w)
  }

  /** The slot of module k starts where module k-1's slot ends. */
  lemma {:induction false} SlotStep(ts: seq<ModuleType>, w: Widths, k: nat)
    requires k < |ts|
    ensures TotalWidth(ts[..k + 1], w) == TotalWidth(ts[..k], w) + Advance(ts[k], w)
  {
    assert ts[..k + 1][..k] == ts[..k];
  }

  /** With positive widths, later modules sit strictly further right: the slots never overlap. */
  lemma {:induction false} SlotsIncrease(ts: seq<ModuleType>, w: Widths, i: nat, j: nat)
    requires w.Valid() && i < j <= |ts|
    ensures TotalWidth(ts[..i], w) < TotalWidth(ts[..j], w)
  {
    SlotStep(ts, w, j - 1);
    if i < j - 1 {
      SlotsIncrease(ts, w, i, j - 1);
    }
  }

  /** Laying out two runs one after the other moves the cursor by the sum of their widths. */
  lemma {:induction false} TotalWidthConcat(a: seq<ModuleType>, b: seq<ModuleType>, w: Widths)
    ensures TotalWidth(a + b, w) == TotalWidth(a, w) + TotalWidth(b, w)
  {
    if b == [] {
      assert a + b == a;
    } else {
      assert (a + b)[..|a + b| - 1] == a + b[..|b| - 1];
      TotalWidthConcat(a, b[..|b| - 1], w);
    }
  }

  const BACKGROUND: string := "module_part_background"
  const BACKGROUND_W: string := "module_part_backgroundW"
  const BACKGROUND_E: string := "module_part_backgroundE"

  /** The back-wall tile behind the module drawn while the init counter is at initIndex. */
  function Background(initIndex: int, levelLength: int): (b: string)
    ensures b == BACKGROUND_W <==> initIndex == 2
    ensures b == BACKGROUND_E <==> initIndex != 2 && initIndex == levelLength - 2
    ensures b == BACKGROUND <==> initIndex != 2 && initIndex != levelLength - 2
  {
    if initIndex == 2 then BACKGROUND_W
    else if initIndex == levelLength - 2 then BACKGROUND_E
    else BACKGROUND
  }

  /** The game state of the entity a spawn method returns. */
  datatype Fixture =
    | EntranceDoor(easiest: real, hardest: real, minCount: int, maxCount: int)
    | TipBowl(maxAnger: int)
    | ToiletStall(background: string, dirty: bool, clogged: bool)
    | PosterFrame(background: string)
    | UrinalBowl(background: string, dirty: bool)
    | SinkBasin(background: string, dirtyLevel: Option<int>)
    | Closet

  /** A module entity: its id, the cursor slot it was spawned at, its position and its state. */
  datatype Placed = Placed(id: int, slotX: int, posX: int, posY: int, fixture: Fixture)

  /** Where the returned entity of each module type sits relative to its slot. */
  function EntityOffsetX(t: ModuleType): int
  {
    match t
    case Entrance => 32 + 4
    case Poster => 3
    case Toilet => 4
    case _ => 0
  }

  function EntityOffsetY(t: ModuleType): int
  {
    match t
    case Entrance => 34
    case Poster => 92
    case Toilet => TOILET_Y - 11
    case Urinal => TOILET_Y + 30
    case Sink => TOILET_Y + 32
    case _ => 0
  }

  /** p is the module entity the source creates for type t at slot (slotX, slotY), while the
      init counter is at index, under the active level lvl. For module types with a back wall,
      the wall's tile is recorded as the fixture's background. */
  predicate Fits(p: Placed, t: ModuleType, slotX: int, slotY: int, index: int, lvl: LevelData)
  {
    && p.slotX == slotX
    && p.posX == slotX + EntityOffsetX(t)
    && p.posY == slotY + EntityOffsetY(t)
    && var bg := Background(index, |lvl.modules|);
    match t
    case Entrance => p.fixture == EntranceDoor(lvl.easiest, lvl.hardest, lvl.minCount, lvl.maxCount)
    case Tips => p.fixture == TipBowl(lvl.lossCount)
    case Toilet => p.fixture == ToiletStall(bg, lvl.startDirty, lvl.startDirty)
    case Poster => p.fixture == PosterFrame(bg)
    case Urinal => p.fixture == UrinalBowl(bg, lvl.startDirty)
    case Sink =>
      && p.fixture.SinkBasin?
      && p.fixture.background == bg
      && (if lvl.startDirty then p.fixture.dirtyLevel.Some? && 0 <= p.fixture.dirtyLevel.value <= 2
          else p.fixture.dirtyLevel == None)
    case SupplyCloset => p.fixture == Closet
  }

  /** after is before with one module appended, whose id was drawn from [idsFrom, idsTo). */
  predicate Appended(before: seq<Placed>, after: seq<Placed>, idsFrom: int, idsTo: int, id: int)
  {
    && |after| == |before| + 1
    && after == before + [after[|before|]]
    && after[|before|].id == id
    && idsFrom <= id < idsTo
  }

  /** The ids of a run of module entities, in order. */
  function IdsOf(ps: seq<Placed>): (ids: seq<int>)
    ensures |ids| == |ps|
    ensures forall k :: 0 <= k < |ps| ==> ids[k] == ps[k].id
  {
    if ps == [] then [] else IdsOf(ps[..|ps| - 1]) + [ps[|ps| - 1].id]
  }

  /** ps holds one module entity per type of ts, in order, laid out from cursor x0 and init
      index index0: each module sits at the cursor, which then moves past it by its width. */
  predicate LaidOut(ps: seq<Placed>, ts: seq<ModuleType>, x0: int, index0: int, w: Widths, lvl: LevelData)
  {
    && |ps| == |ts|
    && (ts != [] ==>
          && Fits(ps[0], ts[0], x0, Y_OFFSET, index0, lvl)
          && LaidOut(ps[1..], ts[1..], x0 + Advance(ts[0], w), index0 + 1, w, lvl))
  }

  /** The width of a run is its first module's width plus the width of the rest. */
  lemma TotalWidthCons(ts: seq<ModuleType>, w: Widths)
    requires ts != []
    ensures TotalWidth(ts, w) == Advance(ts[0], w) + TotalWidth(ts[1..], w)
  {
    TotalWidthConcat([ts[0]], ts[1..], w);
    assert [ts[0]] + ts[1..] == ts;
    assert [ts[0]][..0] == [];
  }

  /** Module k of a laid-out run sits at x0 plus the widths of the modules before it
      (a prefix sum) and was drawn at init index index0 + k. */
  lemma {:induction false} LaidOutAt(ps: seq<Placed>, ts: seq<ModuleType>, x0: int, index0: int,
                                     w: Widths, lvl: LevelData, k: nat)
    requires LaidOut(ps, ts, x0, index0, w, lvl) && k < |ts|
    ensures |ps| == |ts|
    ensures Fits(ps[k], ts[k], x0 + TotalWidth(ts[..k], w), Y_OFFSET, index0 + k, lvl)
  {
    if k > 0 {
      LaidOutAt(ps[1..], ts[1..], x0 + Advance(ts[0], w), index0 + 1, w, lvl, k - 1);
      TotalWidthCons(ts[..k], w);
      assert ts[..k][1..] == ts[1..][..k - 1];
    }
  }

  /** Appending the module for type t at the cursor where the run ends keeps the run laid out. */
  lemma {:induction false} LaidOutSnoc(ps: seq<Placed>, p: Placed, ts: seq<ModuleType>, t: ModuleType,
                                       x0: int, index0: int, w: Widths, lvl: LevelData)
    requires LaidOut(ps, ts, x0, index0, w, lvl)
    requires Fits(p, t, x0 + TotalWidth(ts, w), Y_OFFSET, index0 + |ts|, lvl)
    ensures LaidOut(ps + [p], ts + [t], x0, index0, w, lvl)
  {
    if ts == [] {
      assert ps + [p] == [p] && ts + [t] == [t];
      assert [p][1..] == [] && [t][1..] == [];
    } else {
      TotalWidthCons(ts, w);
      LaidOutSnoc(ps[1..], p, ts[1..], t, x0 + Advance(ts[0], w), index0 + 1, w, lvl);
      assert (ps + [p])[1..] == ps[1..] + [p];
      assert (ts + [t])[1..] == ts[1..] + [t];
    }
  }

  /** The ids of ps are at least idsFrom and strictly increasing, so no two are equal. */
  predicate FreshIncreasingIds(ps: seq<Placed>, idsFrom: int)
  {
    && (forall k :: 0 <= k < |ps| ==> idsFrom <= ps[k].id)
    && (forall i, j :: 0 <= i < j < |ps| ==> ps[i].id < ps[j].id)
  }

  /** Appending a module whose id exceeds every id of the run keeps the ids fresh and increasing. */
  lemma FreshIdsExtend(ps: seq<Placed>, p: Placed, idsFrom: int)
    requires FreshIncreasingIds(ps, idsFrom)
    requires idsFrom <= p.id
    requires forall k :: 0 <= k < |ps| ==> ps[k].id < p.id
    ensures FreshIncreasingIds(ps + [p], idsFrom)
  {
  }

  lemma IdsOfSnoc(ps: seq<Placed>, p: Placed)
    ensures IdsOf(ps + [p]) == IdsOf(ps) + [p.id]
  {
    assert (ps + [p])[..|ps|] == ps;
  }

  /** Bookkeeping of one pass of the module loop: the spawned list and the id list each grow
      by one element at their ends. */
  lemma ExtendBoth(placed0: seq<Placed>, run: seq<Placed>, before: seq<Placed>, after: seq<Placed>, p: Placed,
                   ids0: seq<int>, runIds: seq<int>, idsBefore: seq<int>, idsAfter: seq<int>, id: int)
    requires before == placed0 + run
    requires |after| == |before| + 1 && after == before + [after[|before|]] && p == after[|before|]
    requires idsBefore == ids0 + runIds && idsAfter == idsBefore + [id]
    ensures after == placed0 + (run + [p])
    ensures idsAfter == ids0 + (runIds + [id])
  {
  }

  /** One pass of the module loop: the run of new modules grows by the module for ts[i]. */
  lemma RunGrows(run: seq<Placed>, p: Placed, ts: seq<ModuleType>, i: nat,
                 x0: int, index0: int, w: Widths, lvl: LevelData, idsFrom: int)
    requires i < |ts|
    requires LaidOut(run, ts[..i], x0, index0, w, lvl)
    requires FreshIncreasingIds(run, idsFrom)
    requires Fits(p, ts[i], x0 + TotalWidth(ts[..i], w), Y_OFFSET, index0 + i, lvl)
    requires idsFrom <= p.id
    requires forall k :: 0 <= k < |run| ==> run[k].id < p.id
    ensures LaidOut(run + [p], ts[..i + 1], x0, index0, w, lvl)
    ensures FreshIncreasingIds(run + [p], idsFrom)
    ensures IdsOf(run + [p]) == IdsOf(run) + [p.id]
  {
    LaidOutSnoc(run, p, ts[..i], ts[i], x0, index0, w, lvl);
    assert ts[..i] + [ts[i]] == ts[..i + 1];
    FreshIdsExtend(run, p, idsFrom);
    IdsOfSnoc(run, p);
  }

  /** The level entity (BathroomLevel component): its module types and the ids of the modules
      spawned for it. */
  class BathroomLevel {
    var name: string
    var modules: Option<seq<ModuleType>>
    var initialized: bool
    var moduleEntityIds: seq<int>

    constructor (name: string, modules: Option<seq<ModuleType>>)
      ensures this.name == name && this.modules == modules
      ensures !initialized && moduleEntityIds == []
    {
      this.name := name;
      this.modules := modules;
      initialized := false;
      moduleEntityIds := [];
    }
  }

  class LevelSetupSystem {
    const widths: Widths
    var levels: seq<Level>
    var activeLevel: Level?
    /** The cursor at which the next module is placed. */
    var x: int
    /** The number of modules initialised so far, over all level entities. */
    var initIndex: int
    /** Entity creation: each new entity takes the next id. */
    var nextId: int
    /** The module entities spawned so far, in spawn order. */
    var placed: seq<Placed>
    /** The tutorial entity, when the active level has a tutorial. */
    var tutorialId: Option<int>

    /** The system's invariant: positive widths, and every module entity spawned so far has an
        id below the next one to be handed out. */
    ghost predicate Valid()
      reads this
    {
      && widths.Valid()
      && (forall p :: p in placed ==> p.id < nextId)
    }

    /** The level list holds the six catalogue levels, in order. */
    ghost predicate CatalogueLoaded()
      reads this`levels, levels
    {
      && |levels| == |Catalogue()|
      && forall i :: 0 <= i < |levels| ==> levels[i].Data() == Catalogue()[i]
    }

    constructor (widths: Widths)
      requires widths.Valid()
      ensures Valid() && CatalogueLoaded()
      ensures this.widths == widths && activeLevel == null
      ensures x == 0 && initIndex == 0 && nextId == 0 && placed == [] && tutorialId == None
    {
      this.widths := widths;
      var catalogue := LoadCatalogue();
      levels := catalogue;
      activeLevel := null;
      x := 0;
      initIndex := 0;
      nextId := 0;
      placed := [];
      tutorialId := None;
    }

    method NewEntity() returns (id: int)
      modifies this`nextId
      ensures id == old(nextId) && nextId == id + 1
    {
      id := nextId;
      nextId := nextId + 1;
    }

    /** Selects the level `gameLevel` (a stage number counted from 1, clamped into the catalogue)
        and creates its level entity, a title label and, for a tutorial level, the tutorial entity. */
    method Initialize(gameLevel: int) returns (e: BathroomLevel)
      requires INT_MIN <= gameLevel <= INT_MAX
      requires Valid() && CatalogueLoaded()
      modifies this`activeLevel, this`nextId, this`tutorialId
      ensures Valid() && CatalogueLoaded()
      ensures activeLevel == levels[SelectedIndex(gameLevel, |levels|)]
      ensures activeLevel.Data() == Catalogue()[SelectedIndex(gameLevel, |Catalogue()|)]
      ensures fresh(e) && e.modules == Some(activeLevel.modules) && e.name == activeLevel.name
      ensures !e.initialized && e.moduleEntityIds == []
      ensures activeLevel.tutorial ==> nextId == old(nextId) + 3 && tutorialId == Some(old(nextId) + 2)
      ensures !activeLevel.tutorial ==> nextId == old(nextId) + 2 && tutorialId == old(tutorialId)
    {
      var level := levels[SelectedIndex(gameLevel, |levels|)];
      activeLevel := level;
      var levelEntity := NewEntity();
      e := new BathroomLevel(level.name, Some(level.modules));
      var title := NewEntity();
      if activeLevel.tutorial {
        var tutorial := NewEntity();
        tutorialId := Some(tutorial);
      }
    }

    /** Assembles the facility of e once: the flag is set first, then, when e has module types,
        each is spawned in order and its id appended to e's list. */
    method Process(e: BathroomLevel)
      requires Valid() && activeLevel != null
      modifies this`x, this`initIndex, this`nextId, this`placed, e`initialized, e`moduleEntityIds
      ensures Valid()
      ensures e.initialized
      ensures old(e.initialized) || e.modules.None? ==>
        && x == old(x) && initIndex == old(initIndex) && nextId == old(nextId)
        && placed == old(placed) && e.moduleEntityIds == old(e.moduleEntityIds)
      ensures !old(e.initialized) && e.modules.Some? ==>
        var ts, n0 := e.modules.value, |old(placed)|;
        && x == old(x) + TotalWidth(ts, widths)
        && initIndex == old(initIndex) + |ts|
        && |placed| == n0 + |ts| && placed[..n0] == old(placed)
        && e.moduleEntityIds == old(e.moduleEntityIds) + IdsOf(placed[n0..])
        && LaidOut(placed[n0..], ts, old(x), old(initIndex), widths, activeLevel.Data())
        && FreshIncreasingIds(placed[n0..], old(nextId))
    {
      if !e.initialized {
        e.initialized := true;
        if e.modules.Some? {
          InitModules(e, e.modules.value);
        }
      }
    }

    /** The module loop of Process: spawns each type of ts in order, appending the ids to e's list. */
    method InitModules(e: BathroomLevel, ts: seq<ModuleType>)
      requires Valid() && activeLevel != null
      modifies this`x, this`initIndex, this`nextId, this`placed, e`moduleEntityIds
      ensures Valid()
      ensures x == old(x) + TotalWidth(ts, widths)
      ensures initIndex == old(initIndex) + |ts|
      ensures |placed| == |old(placed)| + |ts| && placed[..|old(placed)|] == old(placed)
      ensures e.moduleEntityIds == old(e.moduleEntityIds) + IdsOf(placed[|old(placed)|..])
      ensures LaidOut(placed[|old(placed)|..], ts, old(x), old(initIndex), widths, activeLevel.Data())
      ensures FreshIncreasingIds(placed[|old(placed)|..], old(nextId))
    {
      ghost var ids0 := e.moduleEntityIds;
      ghost var run: seq<Placed> := [];
      var i := 0;
      while i < |ts|
        invariant 0 <= i <= |ts|
        invariant Valid()
        invariant x == old(x) + TotalWidth(ts[..i], widths)
        invariant initIndex == old(initIndex) + i && old(nextId) <= nextId
        invariant placed == old(placed) + run
        invariant e.moduleEntityIds == ids0 + IdsOf(run)
        invariant LaidOut(run, ts[..i], old(x), old(initIndex), widths, activeLevel.Data())
        invariant FreshIncreasingIds(run, old(nextId))
      {
        run := InitNext(e, ts, i, run, old(x), old(initIndex), old(nextId), old(placed), ids0, activeLevel.Data());
        i := i + 1;
      }
      assert ts[..|ts|] == ts;
      assert placed[|old(placed)|..] == run;
    }

    /** One pass of the module loop: spawns the module for ts[i] and appends its id to e's list;
        the parameters after run are the state the loop started from. */
    method InitNext(e: BathroomLevel, ts: seq<ModuleType>, i: nat, ghost run: seq<Placed>,
                    ghost x0: int, ghost index0: int, ghost id0: int, ghost placed0: seq<Placed>,
                    ghost ids0: seq<int>, ghost lvl: LevelData) returns (ghost run': seq<Placed>)
      requires Valid() && activeLevel != null && i < |ts| && lvl == activeLevel.Data()
      requires x == x0 + TotalWidth(ts[..i], widths)
      requires initIndex == index0 + i && id0 <= nextId
      requires placed == placed0 + run
      requires e.moduleEntityIds == ids0 + IdsOf(run)
      requires LaidOut(run, ts[..i], x0, index0, widths, lvl)
      requires FreshIncreasingIds(run, id0)
      modifies this`x, this`initIndex, this`nextId, this`placed, e`moduleEntityIds
      ensures Valid()
      ensures x == x0 + TotalWidth(ts[..i + 1], widths)
      ensures initIndex == index0 + i + 1 && id0 <= nextId
      ensures placed == placed0 + run'
      ensures e.moduleEntityIds == ids0 + IdsOf(run')
      ensures LaidOut(run', ts[..i + 1], x0, index0, widths, lvl)
      ensures FreshIncreasingIds(run', id0)
    {
      SlotStep(ts, widths, i);
      assert forall k :: 0 <= k < |run| ==> run[k].id < nextId by {
        forall k | 0 <= k < |run| ensures run[k].id < nextId {
          assert run[k] in placed;
        }
      }
      ghost var before, idsBefore := placed, e.moduleEntityIds;
      var id := InitModule(ts[i]);
      ghost var p := placed[|before|];
      RunGrows(run, p, ts, i, x0, index0, widths, lvl, id0);
      e.moduleEntityIds := e.moduleEntityIds + [id];
      run' := run + [p];
      ExtendBoth(placed0, run, before, placed, p, ids0, IdsOf(run), idsBefore, e.moduleEntityIds, id);
    }

    /** Spawns one module at the cursor, then moves the cursor past it and counts it. */
    method InitModule(t: ModuleType) returns (moduleId: int)
      requires Valid() && activeLevel != null
      modifies this`x, this`initIndex, this`nextId, this`placed
      ensures Valid()
      ensures x == old(x) + Advance(t, widths)
      ensures initIndex == old(initIndex) + 1
      ensures Appended(old(placed), placed, old(nextId), nextId, moduleId)
      ensures Fits(placed[|placed| - 1], t, old(x), Y_OFFSET, old(initIndex), activeLevel.Data())
    {
      moduleId := -1;
      match t {
      case Entrance =>
        moduleId := SpawnEntrance(x, Y_OFFSET);
        x := x + widths.entrance;
      case Tips =>
        moduleId := SpawnTips(x, Y_OFFSET);
        x := x + widths.tips;
      case Toilet =>
        moduleId := SpawnToilet(x, Y_OFFSET);
        x := x + widths.urinal;
      case Poster =>
        moduleId := SpawnPoster(x, Y_OFFSET);
        x := x + widths.urinal;
      case Urinal =>
        moduleId := SpawnUrinal(x, Y_OFFSET);
        x := x + widths.toilet;
      case Sink =>
        moduleId := SpawnSink(x, Y_OFFSET);
        x := x + widths.sink;
      case SupplyCloset =>
        moduleId := SpawnCloset(x, Y_OFFSET);
        x := x + widths.supplyCloset;
      }
      initIndex := initIndex + 1;
    }

    /** The supply closet, with its mop-and-bucket and plunger; the closet itself is returned. */
    method SpawnCloset(x: int, y: int) returns (id: int)
      requires activeLevel != null
      modifies this`nextId, this`placed
      ensures nextId == old(nextId) + 3
      ensures Appended(old(placed), placed, old(nextId), nextId, id)
      ensures Fits(placed[|placed| - 1], SupplyCloset, x, y, initIndex, activeLevel.Data())
    {
      id := NewEntity();
      var mopAndBucket := NewEntity();
      var plunger := NewEntity();
      placed := placed + [Placed(id, x, x, y, Closet)];
    }

    /** A back wall, a bowl and the stall door; the door is returned and starts dirty and
        clogged exactly when the level starts dirty. */
    method SpawnToilet(x: int, y: int) returns (id: int)
      requires activeLevel != null
      modifies this`nextId, this`placed
      ensures nextId == old(nextId) + 3
      ensures Appended(old(placed), placed, old(nextId), nextId, id)
      ensures Fits(placed[|placed| - 1], Toilet, x, y, initIndex, activeLevel.Data())
    {
      var background := NewEntity();
      var toiletBowl := NewEntity();
      id := NewEntity();
      var dirty, clogged := false, false;
      if activeLevel.startDirty { dirty := true; }
      if activeLevel.startDirty { clogged := true; }
      var stall := ToiletStall(Background(initIndex, |activeLevel.modules|), dirty, clogged);
      placed := placed + [Placed(id, x, x + 4, y + TOILET_Y - 11, stall)];
    }

    /** A back wall and the urinal, which starts dirty exactly when the level starts dirty. */
    method SpawnUrinal(x: int, y: int) returns (id: int)
      requires activeLevel != null
      modifies this`nextId, this`placed
      ensures nextId == old(nextId) + 2
      ensures Appended(old(placed), placed, old(nextId), nextId, id)
      ensures Fits(placed[|placed| - 1], Urinal, x, y, initIndex, activeLevel.Data())
    {
      var background := NewEntity();
      id := NewEntity();
      var dirty := false;
      if activeLevel.startDirty { dirty := true; }
      var urinal := UrinalBowl(Background(initIndex, |activeLevel.modules|), dirty);
      placed := placed + [Placed(id, x, x, y + TOILET_Y + 30, urinal)];
    }

    /** A back wall and a poster. */
    method SpawnPoster(x: int, y: int) returns (id: int)
      requires activeLevel != null
      modifies this`nextId, this`placed
      ensures nextId == old(nextId) + 2
      ensures Appended(old(placed), placed, old(nextId), nextId, id)
      ensures Fits(placed[|placed| - 1], Poster, x, y, initIndex, activeLevel.Data())
    {
      var background := NewEntity();
      id := NewEntity();
      placed := placed + [Placed(id, x, x + 3, y + 92, PosterFrame(Background(initIndex, |activeLevel.modules|)))];
    }

    /** A back wall and the sink; on a dirty start the sink gets a random dirt level in [0, 2]. */
    method SpawnSink(x: int, y: int) returns (id: int)
      requires activeLevel != null
      modifies this`nextId, this`placed
      ensures nextId == old(nextId) + 2
      ensures Appended(old(placed), placed, old(nextId), nextId, id)
      ensures Fits(placed[|placed| - 1], Sink, x, y, initIndex, activeLevel.Data())
    {
      var background := NewEntity();
      id := NewEntity();
      var dirtyLevel: Option<int> := None;
      if activeLevel.startDirty {
        var level :| 0 <= level <= 2;
        dirtyLevel := Some(level);
      }
      placed := placed + [Placed(id, x, x, y + TOILET_Y + 32, SinkBasin(Background(initIndex, |activeLevel.modules|), dirtyLevel))];
    }

    /** The entrance frame, a poster on three rolls in four, and the main door, which is
        returned and carries the level's spawn delays and spawn counts. */
    method SpawnEntrance(x: int, y: int) returns (id: int)
      requires activeLevel != null
      modifies this`nextId, this`placed
      ensures old(nextId) + 2 <= nextId <= old(nextId) + 3
      ensures Appended(old(placed), placed, old(nextId), nextId, id)
      ensures Fits(placed[|placed| - 1], Entrance, x, y, initIndex, activeLevel.Data())
    {
      var frame := NewEntity();
      var roll :| 1 <= roll <= 4;
      if roll <= 3 {
        var poster := NewEntity();
      }
      id := NewEntity();
      var door := EntranceDoor(activeLevel.easiest, activeLevel.hardest, activeLevel.minCount, activeLevel.maxCount);
      placed := placed + [Placed(id, x, x + 32 + 4, y + 34, door)];
    }

    /** The player, the tip bowl and the tips module, which is returned and whose patience
        (maximum anger) is the level's loss count. */
    method SpawnTips(x: int, y: int) returns (id: int)
      requires activeLevel != null
      modifies this`nextId, this`placed
      ensures nextId == old(nextId) + 3
      ensures Appended(old(placed), placed, old(nextId), nextId, id)
      ensures Fits(placed[|placed| - 1], Tips, x, y, initIndex, activeLevel.Data())
    {
      var player := NewEntity();
      var tipBowl := NewEntity();
      id := NewEntity();
      placed := placed + [Placed(id, x, x, y, TipBowl(activeLevel.lossCount))];
    }
  }
}
