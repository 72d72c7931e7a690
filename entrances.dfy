/** Visitor spawning at the facility entrance: the spawn interval shrinks from the level's
    easiest to its hardest value over the working day, each entrance counts down to its next
    batch of visitors, and a system-wide trickle timer lets the queued visitors in one by one. */
module Entrances {
  import Levels
  import LevelSetup

  /** Minutes of in-game time over which the difficulty ramps from easiest to hardest. */
  const MINUTES_TILL_VICTORY_MINUS_ONE_HOUR: real := 540.0
  /** The trickle timer is reset to a draw from [SPAWN_COOLDOWN_MIN, SPAWN_COOLDOWN_MAX). */
  const SPAWN_COOLDOWN_MIN: real := 0.2
  const SPAWN_COOLDOWN_MAX: real := 0.3

  /** A value the trickle timer may be reset to. */
  predicate TrickleReset(c: real)
  {
    SPAWN_COOLDOWN_MIN <= c < SPAWN_COOLDOWN_MAX
  }

  /** `v` limited to the range [lo, hi] (the toolkit's clamp). */
  function Clamp(v: real, lo: real, hi: real): (r: real)
    ensures lo <= hi ==> lo <= r <= hi
    ensures lo <= v <= hi ==> r == v
    ensures v < lo ==> r == lo
    ensures lo <= v && hi < v ==> r == hi
  {
    if v < lo then lo else if v > hi then hi else v
  }

  /** The toolkit's linear interpolation from `start` to `end` at fraction `a`. */
  function Lerp(start: real, end: real, a: real): real
  {
    start + (end - start) * a
  }

  predicate Between(r: real, a: real, b: real)
  {
    (a <= b && a <= r <= b) || (b <= a && b <= r <= a)
  }

  /** An interpolation at a fraction in [0, 1] lies between its two ends. */
  lemma LerpWithin(start: real, end: real, a: real)
    requires 0.0 <= a <= 1.0
    ensures Between(Lerp(start, end, a), start, end)
  {
    var d := end - start;
    assert end - (start + d * a) == d * (1.0 - a);
    if d >= 0.0 {
      assert d * a >= 0.0;
      assert d * (1.0 - a) >= 0.0;
    } else {
      assert d * a <= 0.0;
      assert d * (1.0 - a) <= 0.0;
    }
  }

  /** A larger fraction moves an interpolation further from its start towards its end. */
  lemma LerpMonotone(start: real, end: real, a1: real, a2: real)
    requires a1 <= a2
    ensures end <= start ==> Lerp(start, end, a2) <= Lerp(start, end, a1)
    ensures start <= end ==> Lerp(start, end, a1) <= Lerp(start, end, a2)
  {
    var d := end - start;
    assert (start + d * a2) - (start + d * a1) == d * (a2 - a1);
    if d >= 0.0 {
      assert d * (a2 - a1) >= 0.0;
    } else {
      assert d * (a2 - a1) <= 0.0;
    }
  }

  /** The time between spawns after `minutesPassed` minutes of the day: the easiest interval at
      the start, the hardest once the ramp is over, linearly in between. */
  function SpawnInterval(easiest: real, hardest: real, minutesPassed: real): (r: real)
    ensures Between(r, easiest, hardest)
    ensures minutesPassed <= 0.0 ==> r == easiest
    ensures minutesPassed >= MINUTES_TILL_VICTORY_MINUS_ONE_HOUR ==> r == hardest
    ensures 0.0 <= minutesPassed <= MINUTES_TILL_VICTORY_MINUS_ONE_HOUR ==>
      r == easiest + (hardest - easiest) * (minutesPassed / MINUTES_TILL_VICTORY_MINUS_ONE_HOUR)
  {
    var t := Clamp(minutesPassed / MINUTES_TILL_VICTORY_MINUS_ONE_HOUR, 0.0, 1.0);
    LerpWithin(easiest, hardest, t);
    Lerp(easiest, hardest, t)
  }

  /** The interval moves monotonically from easiest towards hardest as time passes. */
  lemma {:induction false} SpawnIntervalMonotone(easiest: real, hardest: real, m1: real, m2: real)
    requires m1 <= m2
    ensures hardest <= easiest ==> SpawnInterval(easiest, hardest, m2) <= SpawnInterval(easiest, hardest, m1)
    ensures easiest <= hardest ==> SpawnInterval(easiest, hardest, m1) <= SpawnInterval(easiest, hardest, m2)
  {
    var t1 := Clamp(m1 / MINUTES_TILL_VICTORY_MINUS_ONE_HOUR, 0.0, 1.0);
    var t2 := Clamp(m2 / MINUTES_TILL_VICTORY_MINUS_ONE_HOUR, 0.0, 1.0);
    assert m1 / MINUTES_TILL_VICTORY_MINUS_ONE_HOUR <= m2 / MINUTES_TILL_VICTORY_MINUS_ONE_HOUR;
    assert t1 <= t2;
    LerpMonotone(easiest, hardest, t1, t2);
  }

  /** In every catalogue level the visitors come ever faster (or as fast) as the day goes on. */
  lemma {:induction false} CatalogueDifficultyRises(i: nat, m1: real, m2: real)
    requires i < |Levels.Catalogue()|
    requires m1 <= m2
    ensures var lvl := Levels.Catalogue()[i];
      SpawnInterval(lvl.easiest, lvl.hardest, m2) <= SpawnInterval(lvl.easiest, lvl.hardest, m1)
  {
    Levels.CatalogueSpawnParameters(i);
    var lvl := Levels.Catalogue()[i];
    SpawnIntervalMonotone(lvl.easiest, lvl.hardest, m1, m2);
  }

  /** A float-to-int cast: truncation toward zero. */
  function TruncateToInt(r: real): (i: int)
    ensures 0.0 <= r ==> i as real <= r < i as real + 1.0
    ensures r < 0.0 ==> i as real - 1.0 < r <= i as real
  {
    if r >= 0.0 then r.Floor else -((-r).Floor)
  }

  /** Casting a whole number leaves it unchanged. */
  lemma TruncateWhole(n: int)
    ensures TruncateToInt(n as real) == n
  {
    if n < 0 {
      assert (-(n as real)).Floor == -n;
    }
  }

  /** Where a visitor appears: the entrance position moved by its bounds' corner, cast to int. */
  function SpawnPoint(posX: real, posY: real, boundsMinx: real, boundsMiny: real): (int, int)
  {
    (TruncateToInt(posX + boundsMinx), TruncateToInt(posY - boundsMiny))
  }

  /** A main door placed by the level setup lets visitors in 52 pixels right of its slot and
      18 pixels above the floor line. */
  lemma {:induction false} DoorSpawnPoint(p: LevelSetup.Placed, slotX: int, index: int, lvl: Levels.LevelData)
    requires LevelSetup.Fits(p, Levels.Entrance, slotX, LevelSetup.Y_OFFSET, index, lvl)
    ensures SpawnPoint(p.posX as real, p.posY as real,
                       LevelSetup.DOOR_BOUNDS_MINX as real, LevelSetup.DOOR_BOUNDS_MINY as real)
         == (slotX + 52, LevelSetup.Y_OFFSET + 18)
  {
    TruncateWhole(slotX + 52);
    TruncateWhole(LevelSetup.Y_OFFSET + 18);
  }

  /** In a catalogue facility laid out from cursor x0, the first module is the main door,
      carrying the level's spawn parameters, and visitors appear 52 pixels right of x0. */
  lemma {:induction false} CatalogueFacilityDoor(ps: seq<LevelSetup.Placed>, i: nat, x0: int, index0: int,
                                                 w: LevelSetup.Widths)
    requires i < |Levels.Catalogue()|
    requires LevelSetup.LaidOut(ps, Levels.Catalogue()[i].modules, x0, index0, w, Levels.Catalogue()[i])
    ensures ps != []
    ensures var lvl := Levels.Catalogue()[i];
      ps[0].fixture == LevelSetup.EntranceDoor(lvl.easiest, lvl.hardest, lvl.minCount, lvl.maxCount)
    ensures SpawnPoint(ps[0].posX as real, ps[0].posY as real,
                       LevelSetup.DOOR_BOUNDS_MINX as real, LevelSetup.DOOR_BOUNDS_MINY as real)
         == (x0 + 52, LevelSetup.Y_OFFSET + 18)
  {
    var lvl := Levels.Catalogue()[i];
    Levels.CatalogueFacilityShape(i);
    LevelSetup.LaidOutAt(ps, lvl.modules, x0, index0, w, lvl, 0);
    assert lvl.modules[..0] == [];
    DoorSpawnPoint(ps[0], x0, index0, lvl);
  }

  /** What the entrance system reads of an entrance besides its countdown. */
  datatype Door = Door(easiest: real, hardest: real, minCount: int, maxCount: int, spawnAt: (int, int))

  /** The per-tick state the entrance system changes: the entrance's countdown, the queue,
      the trickle timer, the visitors let in so far and (for the proofs) the total ever queued. */
  datatype Counters = Counters(
    entranceCooldown: real,
    spawnsPending: int,
    spawnCooldown: real,
    visitors: seq<(int, int)>,
    queued: int)

  /** The inputs of one tick: the frame time, the clock and whether the tutorial is done. */
  datatype TickInput = TickInput(delta: real, minutesPassed: real, tutorialDone: bool)

  /** One tick once the tutorial is done. The entrance counts down; on expiry it restarts from
      `interval` and queues between minCount and maxCount visitors. The trickle timer counts down;
      a visitor is let in exactly when some are queued and the timer has expired, which takes one
      from the queue and restarts the timer. */
  predicate Considered(s: Counters, t: Counters, delta: real, interval: real, door: Door)
  {
    var cooled := s.entranceCooldown - delta;
    var added := t.queued - s.queued;
    var pending := s.spawnsPending + added;
    var trickle := s.spawnCooldown - delta;
    && (if cooled <= 0.0 then t.entranceCooldown == interval && door.minCount <= added <= door.maxCount
        else t.entranceCooldown == cooled && added == 0)
    && (if pending > 0 && trickle <= 0.0 then
          && t.spawnsPending == pending - 1
          && TrickleReset(t.spawnCooldown)
          && t.visitors == s.visitors + [door.spawnAt]
        else
          && t.spawnsPending == pending
          && t.spawnCooldown == trickle
          && t.visitors == s.visitors)
  }

  /** One tick of the entrance system: the reset interval is the one rescaled on this very tick,
      and nothing changes while the tutorial is running. */
  predicate Step(s: Counters, t: Counters, input: TickInput, door: Door)
  {
    if input.tutorialDone then
      Considered(s, t, input.delta, SpawnInterval(door.easiest, door.hardest, input.minutesPassed), door)
    else t == s
  }

  /** Visitors let in plus visitors queued, less the total ever queued: constant across ticks. */
  function Balance(s: Counters): int
  {
    s.spawnsPending + |s.visitors| - s.queued
  }

  /** A tick lets in at most one visitor, keeps the earlier visitors, keeps the queue non-negative
      when counts are, and neither creates nor loses a queued visitor. */
  lemma StepProperties(s: Counters, t: Counters, input: TickInput, door: Door)
    requires Step(s, t, input, door)
    ensures |s.visitors| <= |t.visitors| <= |s.visitors| + 1 && t.visitors[..|s.visitors|] == s.visitors
    ensures s.spawnsPending >= 0 && door.minCount >= 0 ==> t.spawnsPending >= 0
    ensures Balance(t) == Balance(s)
  {
  }

  /** A sequence of ticks, state by state. */
  predicate Run(states: seq<Counters>, inputs: seq<TickInput>, door: Door)
  {
    && |states| == |inputs| + 1
    && forall i :: 0 <= i < |inputs| ==> Step(states[i], states[i + 1], inputs[i], door)
  }

  /** Over any run: at most one visitor per tick, no visitor ever taken back, a queue that never
      goes negative for non-negative counts, and every visitor queued either let in or still queued. */
  lemma {:induction false} RunProperties(states: seq<Counters>, inputs: seq<TickInput>, door: Door)
    requires Run(states, inputs, door)
    ensures var first, last := states[0], states[|inputs|];
      && |first.visitors| <= |last.visitors| <= |first.visitors| + |inputs|
      && last.visitors[..|first.visitors|] == first.visitors
      && (first.spawnsPending >= 0 && door.minCount >= 0 ==> last.spawnsPending >= 0)
      && Balance(last) == Balance(first)
    decreases |inputs|
  {
    if |inputs| > 0 {
      var n := |inputs| - 1;
      assert Run(states[..n + 1], inputs[..n], door) by {
        forall i | 0 <= i < n
          ensures Step(states[..n + 1][i], states[..n + 1][i + 1], inputs[..n][i], door)
        {
          assert Step(states[i], states[i + 1], inputs[i], door);
        }
      }
      RunProperties(states[..n + 1], inputs[..n], door);
      StepProperties(states[n], states[n + 1], inputs[n], door);
      var v0, vn, vl := states[0].visitors, states[n].visitors, states[n + 1].visitors;
      assert vl[..|v0|] == vn[..|v0|];
    }
  }

  /** The entrance entity: its position and bounds, and its Entrance component. */
  class Entrance {
    var posX: real
    var posY: real
    var boundsMinx: real
    var boundsMiny: real
    var cooldown: real
    var timeBetweenSpawns: real
    var easiest: real
    var hardest: real
    var minCount: int
    var maxCount: int

    /** The entrance of a main door placed by the level setup; the component's initial
        countdown and interval are parameters. */
    constructor FromDoor(door: LevelSetup.Placed, cooldown: real, timeBetweenSpawns: real)
      requires door.fixture.EntranceDoor?
      ensures posX == door.posX as real && posY == door.posY as real
      ensures boundsMinx == LevelSetup.DOOR_BOUNDS_MINX as real
      ensures boundsMiny == LevelSetup.DOOR_BOUNDS_MINY as real
      ensures easiest == door.fixture.easiest && hardest == door.fixture.hardest
      ensures minCount == door.fixture.minCount && maxCount == door.fixture.maxCount
      ensures this.cooldown == cooldown && this.timeBetweenSpawns == timeBetweenSpawns
    {
      posX := door.posX as real;
      posY := door.posY as real;
      boundsMinx := LevelSetup.DOOR_BOUNDS_MINX as real;
      boundsMiny := LevelSetup.DOOR_BOUNDS_MINY as real;
      easiest := door.fixture.easiest;
      hardest := door.fixture.hardest;
      minCount := door.fixture.minCount;
      maxCount := door.fixture.maxCount;
      this.cooldown := cooldown;
      this.timeBetweenSpawns := timeBetweenSpawns;
    }

    function DoorData(): Door
      reads this
    {
      Door(easiest, hardest, minCount, maxCount, SpawnPoint(posX, posY, boundsMinx, boundsMiny))
    }
  }

  class EntranceSystem {
    var spawnsPending: int
    var spawnCooldown: real
    /** Where each visitor let in so far appeared, in order. */
    var visitors: seq<(int, int)>
    /** The total of all batch sizes ever queued. */
    ghost var queued: int

    /** Every visitor ever queued has been let in or is still queued. */
    ghost predicate Valid()
      reads this
    {
      queued == spawnsPending + |visitors|
    }

    ghost function Snapshot(e: Entrance): Counters
      reads this, e
    {
      Counters(e.cooldown, spawnsPending, spawnCooldown, visitors, queued)
    }

    constructor ()
      ensures Valid()
      ensures spawnsPending == 0 && spawnCooldown == 0.0 && visitors == []
    {
      spawnsPending := 0;
      spawnCooldown := 0.0;
      visitors := [];
      queued := 0;
    }

    /** One tick for entrance `e`: rescale its interval to the clock, then consider letting a
        visitor in. The batch size is drawn only when the countdown expires, and the draw
        fails unless minCount <= maxCount. */
    method Process(e: Entrance, delta: real, minutesPassed: real, tutorialDone: bool)
      requires Valid()
      requires tutorialDone && e.cooldown - delta <= 0.0 ==> e.minCount <= e.maxCount
      modifies this`spawnsPending, this`spawnCooldown, this`visitors, this`queued
      modifies e`cooldown, e`timeBetweenSpawns
      ensures Valid()
      ensures e.timeBetweenSpawns == SpawnInterval(e.easiest, e.hardest, minutesPassed)
      ensures Step(old(Snapshot(e)), Snapshot(e), TickInput(delta, minutesPassed, tutorialDone), e.DoorData())
    {
      ScaleDifficultyWithTime(e, minutesPassed);
      ConsiderSpawningVisitor(e, delta, tutorialDone);
    }

    method ScaleDifficultyWithTime(e: Entrance, minutesPassed: real)
      modifies e`timeBetweenSpawns
      ensures e.timeBetweenSpawns == SpawnInterval(e.easiest, e.hardest, minutesPassed)
    {
      e.timeBetweenSpawns := Lerp(e.easiest, e.hardest,
        Clamp(minutesPassed / MINUTES_TILL_VICTORY_MINUS_ONE_HOUR, 0.0, 1.0));
    }

    method ConsiderSpawningVisitor(e: Entrance, delta: real, tutorialDone: bool)
      requires Valid()
      requires tutorialDone && e.cooldown - delta <= 0.0 ==> e.minCount <= e.maxCount
      modifies this`spawnsPending, this`spawnCooldown, this`visitors, this`queued, e`cooldown
      ensures Valid()
      ensures tutorialDone ==> Considered(old(Snapshot(e)), Snapshot(e), delta, e.timeBetweenSpawns, e.DoorData())
      ensures !tutorialDone ==> Snapshot(e) == old(Snapshot(e))
    {
      if tutorialDone {
        e.cooldown := e.cooldown - delta;
        if e.cooldown <= 0.0 {
          e.cooldown := e.timeBetweenSpawns;
          assert e.minCount <= e.minCount <= e.maxCount;
          var count :| e.minCount <= count <= e.maxCount;
          spawnsPending := spawnsPending + count;
          queued := queued + count;
        }
        spawnCooldown := spawnCooldown - delta;
        if spawnsPending > 0 && spawnCooldown <= 0.0 {
          assert TrickleReset(SPAWN_COOLDOWN_MIN);
          var next :| TrickleReset(next);
          spawnCooldown := next;
          spawnsPending := spawnsPending - 1;
          SpawnVisitor(TruncateToInt(e.posX + e.boundsMinx), TruncateToInt(e.posY - e.boundsMiny));
        }
      }
    }

    /** Lets a visitor in at (x, y); its desire and looks are not modelled. */
    method SpawnVisitor(x: int, y: int)
      modifies this`visitors
      ensures visitors == old(visitors) + [(x, y)]
    {
      visitors := visitors + [(x, y)];
    }
  }
}
