/** The world map: placing, wandering and travelling. Random draws, the
    weather and the exact distance to the destination come in as parameters. */
module World {
  import opened MapQuest

  const WORLD_SIZE: int := 500
  const WORLD_STEP: int := 14
  const MOUNT_BONUS: int := WORLD_STEP

  datatype Town = Town(x: int, y: int)

  const TOWNS: seq<Town> := [
    Town(250, 250), Town(70, 410), Town(420, 90), Town(130, 150), Town(360, 380), Town(200, 60)
  ]

  function ClampWorld(v: int): int {
    if v < 1 then 1 else if v > WORLD_SIZE then WORLD_SIZE else v
  }

  /** v is the number in lo..hi nearest to wish. */
  predicate IsClamped(v: int, wish: int, lo: int, hi: int) {
    lo <= v <= hi && (v < wish ==> v == hi) && (v > wish ==> v == lo)
  }

  /** The map fields of a sheet; a missing field reads as 0. */
  datatype Place = Place(mx: int, my: int, dest: int) {
    predicate Travelling() { mx != 0 && my != 0 && 0 < dest <= |TOWNS| }

    predicate Inside() { 1 <= mx <= WORLD_SIZE && 1 <= my <= WORLD_SIZE }

    function Goal(): Town
      requires Travelling()
    {
      TOWNS[dest - 1]
    }

    ghost predicate DistLeft(dist: real) {
      Travelling() && IsDist(Goal().x - mx, Goal().y - my, dist)
    }
  }

  /** One tick's luck: two draws below 500 for placing, two below 29 for drifting,
      the mount, the sky overhead, and the distance left. */
  datatype Luck = Luck(px: int, py: int, wx: int, wy: int, mounted: bool, sky: string, dist: real) {
    predicate Fair() {
      && 0 <= px < WORLD_SIZE && 0 <= py < WORLD_SIZE
      && 0 <= wx < 2 * WORLD_STEP + 1 && 0 <= wy < 2 * WORLD_STEP + 1
    }
  }

  const RAIN_SLOW: int := 4
  const SNOW_SLOW: int := 7

  /** What the sky over the traveller takes off a step. */
  function TravelSlow(sky: string): int {
    if sky == "rain" then RAIN_SLOW else if sky == "snow" then SNOW_SLOW else 0
  }

  function TravelStep(l: Luck): int {
    var step := WORLD_STEP + (if l.mounted then MOUNT_BONUS else 0) - TravelSlow(l.sky);
    if step < 2 then 2 else step
  }

  function Moved(p: Place, l: Luck): Place {
    if p.mx == 0 || p.my == 0 then p.(mx := l.px + 1, my := l.py + 1)
    else if p.Travelling() then
      var t := p.Goal();
      var (nx, ny, reached) := StepToward(p.mx, p.my, t.x, t.y, TravelStep(l), l.dist);
      Place(nx, ny, if reached then 0 else p.dest)
    else p.(mx := ClampWorld(p.mx + (l.wx - WORLD_STEP)), my := ClampWorld(p.my + (l.wy - WORLD_STEP)))
  }

  class Sheet {
    var mx: int
    var my: int
    var dest: int

    ghost function Model(): Place
      reads this
    {
      Place(mx, my, dest)
    }

    method MoveOnMap(l: Luck)
      modifies this
      ensures Model() == Moved(old(Model()), l)
      ensures old(mx) == 0 || old(my) == 0 ==> mx == l.px + 1 && my == l.py + 1 && dest == old(dest)
      ensures old(Model()).Travelling() ==>
                var t := TOWNS[old(dest) - 1];
                var slow := if l.sky == "rain" then 4 else if l.sky == "snow" then 7 else 0;
                var step := (if l.mounted then 28 else 14) - slow;
                && (mx, my, dest == 0) == StepToward(old(mx), old(my), t.x, t.y, step, l.dist)
                && (dest == old(dest) || dest == 0)
      ensures old(mx) != 0 && old(my) != 0 && !old(Model()).Travelling() ==>
                && dest == old(dest)
                && IsClamped(mx, old(mx) + l.wx - 14, 1, 500) && IsClamped(my, old(my) + l.wy - 14, 1, 500)
    {
      if mx == 0 || my == 0 {
        mx := l.px + 1;
        my := l.py + 1;
        return;
      }
      if dest > 0 && dest <= |TOWNS| {
        var t := TOWNS[dest - 1];
        var step := WORLD_STEP;
        if l.mounted {
          step := step + MOUNT_BONUS;
        }
        step := step - TravelSlow(l.sky);
        if step < 2 {
          step := 2;
        }
        var (nx, ny, reached) := StepToward(mx, my, t.x, t.y, step, l.dist);
        mx := nx;
        my := ny;
        if reached {
          dest := 0;
        }
        return;
      }
      var x := ClampWorld(mx + (l.wx - WORLD_STEP));
      var y := ClampWorld(my + (l.wy - WORLD_STEP));
      mx := x;
      my := y;
    }
  }

  /** Setting out for a town, or a tick. */
  datatype Event = SetOut(dest: int) | Tick(luck: Luck)

  function Next(p: Place, e: Event): Place {
    match e
    case SetOut(d) => p.(dest := d)
    case Tick(l) => Moved(p, l)
  }

  function After(p: Place, events: seq<Event>): Place {
    if events == [] then p else Next(After(p, events[..|events| - 1]), events[|events| - 1])
  }

  /** Every tick draws fairly and reports the true distance when the character is on
      the road. */
  ghost predicate Honest(p: Place, events: seq<Event>) {
    forall i :: 0 <= i < |events| ==> HonestAt(After(p, events[..i]), events[i])
  }

  ghost predicate HonestAt(p: Place, e: Event) {
    e.Tick? ==> e.luck.Fair() && (p.Travelling() ==> p.DistLeft(e.luck.dist))
  }

  lemma MoveStaysInside(p: Place, l: Luck)
    requires p.Inside() || p.mx == 0 || p.my == 0
    requires HonestAt(p, Tick(l))
    ensures Moved(p, l).Inside()
  {
    if p.Travelling() {
      var t, step := p.Goal(), TravelStep(l);
      if l.dist > step as real {
        BoxHolds(p.mx, p.my, t.x, t.y, step, l.dist);
      }
    }
  }

  ghost predicate HasTicked(events: seq<Event>) {
    events != [] && (events[|events| - 1].Tick? || HasTicked(events[..|events| - 1]))
  }

  lemma {:induction false} TickedAt(events: seq<Event>, i: nat)
    requires i < |events| && events[i].Tick?
    ensures HasTicked(events)
  {
    if i < |events| - 1 {
      TickedAt(events[..|events| - 1], i);
    }
  }

  lemma HonestBefore(p: Place, events: seq<Event>)
    requires Honest(p, events) && events != []
    ensures Honest(p, events[..|events| - 1])
    ensures HonestAt(After(p, events[..|events| - 1]), events[|events| - 1])
  {
    var before := events[..|events| - 1];
    forall i | 0 <= i < |before|
      ensures HonestAt(After(p, before[..i]), before[i])
    {
      assert before[i] == events[i] && before[..i] == events[..i];
    }
  }

  /** A character is unplaced until its first tick, and inside from then on. */
  lemma {:induction false} InsideOnceTicked(p: Place, events: seq<Event>)
    requires (p.mx == 0 || p.my == 0) && Honest(p, events)
    ensures var q := After(p, events); if HasTicked(events) then q.Inside() else q.mx == 0 || q.my == 0
  {
    if events != [] {
      var before, last := events[..|events| - 1], events[|events| - 1];
      HonestBefore(p, events);
      InsideOnceTicked(p, before);
      if last.Tick? {
        MoveStaysInside(After(p, before), last.luck);
      }
    }
  }

  /** Once placed, a character never leaves the realm, so the coordinates never read
      as unplaced again, whatever it does. */
  lemma NeverLeavesRealm(p: Place, events: seq<Event>, i: nat)
    requires p.mx == 0 || p.my == 0
    requires Honest(p, events)
    requires i < |events| && events[i].Tick?
    ensures After(p, events).Inside()
  {
    TickedAt(events, i);
    InsideOnceTicked(p, events);
  }

  /** On the road, each tick either arrives, standing in the town with the
      destination cleared, or comes at least 6.2928 closer, whatever the weather. */
  lemma RoadGetsShorter(p: Place, l: Luck, dist': real)
    requires p.DistLeft(l.dist)
    ensures var p' := Moved(p, l); var t := p.Goal();
      if l.dist <= TravelStep(l) as real then p' == Place(t.x, t.y, 0)
      else p'.dest == p.dest && (p'.DistLeft(dist') ==> dist' <= l.dist - 6.2928)
  {
    var t, step, p' := p.Goal(), TravelStep(l), Moved(p, l);
    if l.dist > step as real && p'.DistLeft(dist') {
      assert step >= 7;
      StepGains(p.mx, p.my, t.x, t.y, step, l.dist, dist');
    }
  }

  /** Nor does a tick bring it closer by more than 28.7072, or arrive from more than 28 away. */
  lemma RoadTakesTime(p: Place, l: Luck, dist': real)
    requires p.DistLeft(l.dist) && l.dist > 28.0
    ensures var p' := Moved(p, l); p'.dest == p.dest && (p'.DistLeft(dist') ==> dist' >= l.dist - 28.7072)
  {
    var t, step, p' := p.Goal(), TravelStep(l), Moved(p, l);
    if p'.DistLeft(dist') {
      StepIsNoLonger(p.mx, p.my, t.x, t.y, step, l.dist, dist');
    }
  }

  /** A road not yet travelled to its end, tick by tick. */
  ghost predicate OnTheRoad(run: seq<Place>, luck: seq<Luck>) {
    && |run| == |luck| > 0 && run[0].Inside()
    && (forall i :: 0 <= i < |run| ==> run[i].DistLeft(luck[i].dist) && luck[i].Fair())
    && forall i :: 0 <= i < |run| - 1 ==> Follows(run, luck, i)
  }

  ghost predicate Follows(run: seq<Place>, luck: seq<Luck>, i: nat)
    requires i < |run| - 1 && |run| == |luck|
  {
    run[i + 1] == Moved(run[i], luck[i])
  }

  lemma {:induction false} RoadSoFar(run: seq<Place>, luck: seq<Luck>, i: nat)
    requires OnTheRoad(run, luck) && i < |run|
    ensures luck[i].dist <= 707.2 - 6.2928 * i as real
    ensures run[i].Inside()
  {
    if i == 0 {
      DistOnMap(run[0].Goal().x - run[0].mx, run[0].Goal().y - run[0].my, luck[0].dist);
    } else {
      RoadSoFar(run, luck, i - 1);
      assert Follows(run, luck, i - 1);
      MoveStaysInside(run[i - 1], luck[i - 1]);
      RoadGetsShorter(run[i - 1], luck[i - 1], luck[i].dist);
    }
  }

  /** A road is no shorter than it is: after i ticks, that much of its length can be behind. */
  lemma {:induction false} RoadStillAhead(run: seq<Place>, luck: seq<Luck>, i: nat)
    requires OnTheRoad(run, luck) && i < |run| && luck[0].dist > 28.0 + 28.7072 * i as real
    ensures luck[i].dist >= luck[0].dist - 28.7072 * i as real
    ensures Moved(run[i], luck[i]).dest == run[i].dest == run[0].dest
  {
    if i > 0 {
      RoadStillAhead(run, luck, i - 1);
      assert Follows(run, luck, i - 1);
      RoadTakesTime(run[i - 1], luck[i - 1], luck[i].dist);
    }
    RoadTakesTime(run[i], luck[i], luck[i].dist);
  }

  /** Every journey to a town ends: under any sequence of weather, with or without a
      mount, within 113 ticks. */
  lemma RoadEnds(run: seq<Place>, luck: seq<Luck>)
    requires OnTheRoad(run, luck)
    ensures |run| <= 113
  {
    RoadSoFar(run, luck, |run| - 1);
  }
}
