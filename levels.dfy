/** The level definitions of the restroom game: the `Level` record built by fluent
    setters over defaults, and the fixed catalogue of six stages. */
module Levels {

  /** The building blocks a facility is assembled from (BathroomLevel.Type). */
  datatype ModuleType = Entrance | Tips | Toilet | Poster | Urinal | Sink | SupplyCloset

  /** A value snapshot of every field of a `Level`. */
  datatype LevelData = LevelData(
    name: string,
    modules: seq<ModuleType>,
    lossCount: int,
    easiest: real,
    hardest: real,
    minCount: int,
    maxCount: int,
    extraPoops: bool,
    clockSpeed: real,
    tutorial: bool,
    startDirty: bool)

  /** The field values of a freshly constructed level. */
  function Defaults(name: string, modules: seq<ModuleType>): LevelData
  {
    LevelData(name, modules, 5, 12.0, 2.0, 1, 1, false, 10.0, false, false)
  }

  /** A level definition; each setter changes only its own field(s) and returns the same object. */
  class Level {
    var name: string
    var modules: seq<ModuleType>
    var lossCount: int
    var easiest: real
    var hardest: real
    var minCount: int
    var maxCount: int
    var extraPoops: bool
    var clockSpeed: real
    var tutorial: bool
    var startDirty: bool

    function Data(): LevelData
      reads this
    {
      LevelData(name, modules, lossCount, easiest, hardest, minCount, maxCount,
                extraPoops, clockSpeed, tutorial, startDirty)
    }

    constructor (name: string, modules: seq<ModuleType>)
      ensures Data() == Defaults(name, modules)
    {
      this.name := name;
      this.modules := modules;
      lossCount := 5;
      easiest := 12.0;
      hardest := 2.0;
      minCount := 1;
      maxCount := 1;
      extraPoops := false;
      clockSpeed := 10.0;
      tutorial := false;
      startDirty := false;
    }

    method LossCount(count: int) returns (r: Level)
      modifies this`lossCount
      ensures r == this
      ensures Data() == old(Data()).(lossCount := count)
    {
      lossCount := count;
      r := this;
    }

    method SpawnDelay(easy: real, hard: real) returns (r: Level)
      modifies this`easiest, this`hardest
      ensures r == this
      ensures Data() == old(Data()).(easiest := easy, hardest := hard)
    {
      easiest := easy;
      hardest := hard;
      r := this;
    }

    method SpawnCount(min: int, max: int) returns (r: Level)
      modifies this`minCount, this`maxCount
      ensures r == this
      ensures Data() == old(Data()).(minCount := min, maxCount := max)
    {
      minCount := min;
      maxCount := max;
      r := this;
    }

    method ExtraPoops() returns (r: Level)
      modifies this`extraPoops
      ensures r == this
      ensures Data() == old(Data()).(extraPoops := true)
    {
      extraPoops := true;
      r := this;
    }

    /** The setter takes an int and stores it in a float field. */
    method ClockSpeed(speed: int) returns (r: Level)
      modifies this`clockSpeed
      ensures r == this
      ensures Data() == old(Data()).(clockSpeed := speed as real)
    {
      clockSpeed := speed as real;
      r := this;
    }

    method SetTutorial(b: bool) returns (r: Level)
      modifies this`tutorial
      ensures r == this
      ensures Data() == old(Data()).(tutorial := b)
    {
      tutorial := b;
      r := this;
    }

    method StartDirty(b: bool) returns (r: Level)
      modifies this`startDirty
      ensures r == this
      ensures Data() == old(Data()).(startDirty := b)
    {
      startDirty := b;
      r := this;
    }
  }

  const FIRST_DAY: seq<ModuleType> := [Entrance, Tips, Toilet, Toilet, SupplyCloset]
  const SINK_OR_SWIM: seq<ModuleType> :=
    [Entrance, Tips, Toilet, Toilet, Toilet, Poster, Sink, Poster, SupplyCloset]
  const PROCRASTINATION_HURTS: seq<ModuleType> :=
    [Entrance, Tips, Urinal, Poster, Sink, Sink, Poster, Toilet, Toilet, Toilet, SupplyCloset]
  const ZERO_TOLERANCE: seq<ModuleType> :=
    [Entrance, Tips, Urinal, Toilet, Toilet, Toilet, Toilet, Sink, Sink, SupplyCloset]
  const CHILI: seq<ModuleType> :=
    [Entrance, Tips, Toilet, Toilet, Sink, Sink, Toilet, Toilet, SupplyCloset]
  const PANIC: seq<ModuleType> :=
    [Entrance, Tips, Toilet, Urinal, Toilet, Urinal, Toilet, Sink, Sink, SupplyCloset]

  const STAGE_1_NAME: string := "Stage 1: First Day"
  const STAGE_6_NAME: string := "Stage 6: AHHHHHHHHHHHHHHHHHHHHHHHHHHHHHHH!!!"

  /** The six stages as their builder chains leave them. */
  const FIRST_DAY_LEVEL: LevelData :=
    LevelData(STAGE_1_NAME, FIRST_DAY, 3, 8.0, 8.0, 1, 1, false, 35.0, true, true)
  const SINK_OR_SWIM_LEVEL: LevelData :=
    LevelData("Stage 2: Sink Or Swim", SINK_OR_SWIM, 3, 8.0, 4.0, 1, 1, false, 10.0, false, false)
  const PROCRASTINATION_HURTS_LEVEL: LevelData :=
    LevelData("Stage 3: Procrastination Hurts", PROCRASTINATION_HURTS, 4, 10.0, 6.0, 2, 3, false, 15.0, false, true)
  const ZERO_TOLERANCE_LEVEL: LevelData :=
    LevelData("Stage 4: Zero Tolerance", ZERO_TOLERANCE, 1, 14.0, 10.0, 3, 4, false, 10.0, false, false)
  const CHILI_LEVEL: LevelData :=
    LevelData("Stage 5: Chili Con Carne Convention", CHILI, 5, 10.0, 6.0, 2, 3, true, 10.0, false, false)
  const PANIC_LEVEL: LevelData :=
    LevelData(STAGE_6_NAME, PANIC, 5, 4.0, 1.0, 1, 4, false, 1.0, false, false)

  /** The catalogue, in play order. */
  function Catalogue(): (levels: seq<LevelData>)
    ensures |levels| == 6
  {
    [FIRST_DAY_LEVEL, SINK_OR_SWIM_LEVEL, PROCRASTINATION_HURTS_LEVEL, ZERO_TOLERANCE_LEVEL, CHILI_LEVEL, PANIC_LEVEL]
  }

  method BuildIntroduction() returns (l: Level)
    ensures fresh(l) && l.Data() == FIRST_DAY_LEVEL
  {
    l := new Level(STAGE_1_NAME, FIRST_DAY);
    l := l.LossCount(3);
    l := l.ClockSpeed(35);
    l := l.SpawnDelay(8.0, 8.0);
    l := l.StartDirty(true);
    l := l.SetTutorial(true);
  }

  method BuildSinkOrSwim() returns (l: Level)
    ensures fresh(l) && l.Data() == SINK_OR_SWIM_LEVEL
  {
    l := new Level("Stage 2: Sink Or Swim", SINK_OR_SWIM);
    l := l.LossCount(3);
    l := l.ClockSpeed(10);
    l := l.SpawnDelay(8.0, 4.0);
  }

  method BuildProcrastinationHurts() returns (l: Level)
    ensures fresh(l) && l.Data() == PROCRASTINATION_HURTS_LEVEL
  {
    l := new Level("Stage 3: Procrastination Hurts", PROCRASTINATION_HURTS);
    l := l.LossCount(4);
    l := l.ClockSpeed(15);
    l := l.SpawnCount(2, 3);
    l := l.StartDirty(true);
    l := l.SpawnDelay(10.0, 6.0);
  }

  method BuildZeroTolerance() returns (l: Level)
    ensures fresh(l) && l.Data() == ZERO_TOLERANCE_LEVEL
  {
    l := new Level("Stage 4: Zero Tolerance", ZERO_TOLERANCE);
    l := l.LossCount(1);
    l := l.SpawnCount(3, 4);
    l := l.ClockSpeed(10);
    l := l.SpawnDelay(14.0, 10.0);
  }

  method BuildChili() returns (l: Level)
    ensures fresh(l) && l.Data() == CHILI_LEVEL
  {
    l := new Level("Stage 5: Chili Con Carne Convention", CHILI);
    l := l.ExtraPoops();
    l := l.ClockSpeed(10);
    l := l.SpawnCount(2, 3);
    l := l.SpawnDelay(10.0, 6.0);
  }

  method BuildPanic() returns (l: Level)
    ensures fresh(l) && l.Data() == PANIC_LEVEL
  {
    l := new Level(STAGE_6_NAME, PANIC);
    l := l.ClockSpeed(1);
    l := l.SpawnCount(1, 4);
    l := l.SpawnDelay(4.0, 1.0);
  }

  /** Builds the six stages, in play order (LevelSetupSystem.levels). */
  method LoadCatalogue() returns (levels: seq<Level>)
    ensures |levels| == |Catalogue()|
    ensures forall i :: 0 <= i < |levels| ==> fresh(levels[i]) && levels[i].Data() == Catalogue()[i]
  {
    var introduction := BuildIntroduction();
    var sinkOrSwim := BuildSinkOrSwim();
    var procrastinationHurts := BuildProcrastinationHurts();
    var zeroTolerance := BuildZeroTolerance();
    var chili := BuildChili();
    var panic := BuildPanic();
    levels := [introduction, sinkOrSwim, procrastinationHurts, zeroTolerance, chili, panic];
  }

  /** The range of a Java int. */
  const INT_MIN: int := -0x8000_0000
  const INT_MAX: int := 0x7fff_ffff

  /** A Java int expression's value: the mathematical value wrapped into 32 bits. */
  function WrapInt(v: int): (r: int)
    ensures INT_MIN <= r <= INT_MAX
    ensures INT_MIN <= v <= INT_MAX ==> r == v
    ensures v == INT_MIN - 1 ==> r == INT_MAX
  {
    (v - INT_MIN) % 0x1_0000_0000 + INT_MIN
  }

  /** The index of the active level: the requested stage number minus one (as a Java int,
      so the least int wraps round to the greatest), clamped into the catalogue, whose length
      is a Java int too. */
  function SelectedIndex(gameLevel: int, count: nat): (i: nat)
    requires INT_MIN <= gameLevel <= INT_MAX
    requires 0 < count <= INT_MAX
    ensures i < count
    ensures INT_MIN < gameLevel <= 1 ==> i == 0
    ensures gameLevel == INT_MIN ==> i == count - 1
    ensures gameLevel >= count ==> i == count - 1
    ensures 1 <= gameLevel <= count ==> i == gameLevel - 1
  {
    var previous := WrapInt(gameLevel - 1);
    if previous < 0 then 0
    else if previous > count - 1 then count - 1
    else previous
  }

  /** Any stage at or below 1 selects the first day, any stage at or beyond 6 the panic level;
      so does the least int, whose predecessor wraps round to the greatest. */
  lemma SelectedStageNames(gameLevel: int)
    requires INT_MIN <= gameLevel <= INT_MAX
    ensures INT_MIN < gameLevel <= 1 ==> Catalogue()[SelectedIndex(gameLevel, 6)].name == STAGE_1_NAME
    ensures gameLevel >= 6 || gameLevel == INT_MIN ==>
      Catalogue()[SelectedIndex(gameLevel, 6)].name == STAGE_6_NAME
  {
  }

  /** Every catalogue level's spawn counts form a non-empty range of positive counts,
      and its hardest spawn delay is no longer than its easiest. */
  lemma CatalogueSpawnParameters(i: nat)
    requires i < |Catalogue()|
    ensures 1 <= Catalogue()[i].minCount <= Catalogue()[i].maxCount
    ensures 0.0 < Catalogue()[i].hardest <= Catalogue()[i].easiest
    ensures Catalogue()[i].lossCount >= 1
  {
  }

  /** Every catalogue facility opens with the entrance and the tip bowl and ends with the supply closet. */
  lemma CatalogueFacilityShape(i: nat)
    requires i < |Catalogue()|
    ensures var ms := Catalogue()[i].modules;
      |ms| >= 5 && ms[0] == Entrance && ms[1] == Tips && ms[|ms| - 1] == SupplyCloset
      && forall k :: 1 <= k < |ms| ==> ms[k] != Entrance
  {
  }
}
