/**
 * The parallax background: clouds, buildings and raindrops. They are created
 * once per round and afterwards only recycled: whatever leaves the screen on
 * one side comes back on the other.
 */
module Background {
  import opened Oracle

  const CLOUD_COUNT := 12
  const BUILDING_COUNT := 6
  const RAINDROP_COUNT := 100

  /** Math.random draws made for each new cloud, building and raindrop (opacity draws included). */
  const CLOUD_DRAWS := 6
  const BUILDING_DRAWS := 2
  const RAINDROP_DRAWS := 5

  /** Fixed fields of a building. */
  const BUILDING_SPACING := 80.0
  const BUILDING_WIDTH := 70.0
  const BUILDING_SPEED := 0.2

  /** Sideways drift of a falling raindrop per frame. */
  const RAIN_DRIFT := 0.5

  datatype Cloud = Cloud(x: real, y: real, width: real, height: real, speed: real)

  datatype Building = Building(x: real, y: real, width: real, height: real, speed: real)

  datatype Raindrop = Raindrop(x: real, y: real, speed: real, length: real)

  // ----- creation: initClouds, initBuildings, initRain -----

  /** A cloud made from the draws k .. k+5 of the stream (the last one is its opacity). */
  function NewCloud(w: real, h: real, random: RandomStream, k: nat): (c: Cloud)
    requires 0.0 <= w && 0.0 <= h
    ensures 0.0 <= c.x <= w && 0.0 <= c.y <= h / 2.0
    ensures 60.0 <= c.width < 140.0 && 20.0 <= c.height < 50.0 && 0.1 <= c.speed < 0.4
  {
    Cloud(Scale(random(k), w), Scale(random(k + 1), h) / 2.0,
          random(k + 2) * 80.0 + 60.0, random(k + 3) * 30.0 + 20.0, random(k + 4) * 0.3 + 0.1)
  }

  /** The i-th building, from the draws k and k+1: evenly spaced, 70 wide, rising from the bottom band. */
  function NewBuilding(i: nat, h: real, random: RandomStream, k: nat): (b: Building)
    ensures b.x == i as real * BUILDING_SPACING
    ensures b.width == BUILDING_WIDTH && b.speed == BUILDING_SPEED
    ensures h - 170.0 < b.y <= h - 120.0 && 120.0 <= b.height < 170.0
  {
    Building(i as real * BUILDING_SPACING, h - 120.0 - random(k) * 50.0,
             BUILDING_WIDTH, 120.0 + random(k + 1) * 50.0, BUILDING_SPEED)
  }

  /** A raindrop made from the draws k .. k+4 of the stream (the last one is its opacity). */
  function NewRaindrop(w: real, h: real, random: RandomStream, k: nat): (d: Raindrop)
    requires 0.0 <= w && 0.0 <= h
    ensures 0.0 <= d.x <= w && 0.0 <= d.y <= h
    ensures 1.0 <= d.speed < 3.0 && 5.0 <= d.length < 13.0
  {
    Raindrop(Scale(random(k), w), Scale(random(k + 1), h), random(k + 2) * 2.0 + 1.0, random(k + 3) * 8.0 + 5.0)
  }

  /** The first n clouds of initClouds started at draw k: each takes the draws after those of the clouds before it. */
  function NewClouds(w: real, h: real, random: RandomStream, k: nat, n: nat): (cs: seq<Cloud>)
    requires 0.0 <= w && 0.0 <= h
    ensures |cs| == n
  {
    if n == 0 then [] else NewClouds(w, h, random, k, n - 1) + [NewCloud(w, h, random, k + CLOUD_DRAWS * (n - 1))]
  }

  /** The i-th new cloud is made from the draws k + 6i onwards. */
  lemma {:induction false} NewCloudsPointwise(w: real, h: real, random: RandomStream, k: nat, n: nat)
    requires 0.0 <= w && 0.0 <= h
    ensures forall i :: 0 <= i < n ==> NewClouds(w, h, random, k, n)[i] == NewCloud(w, h, random, k + CLOUD_DRAWS * i)
  {
    if n > 0 {
      NewCloudsPointwise(w, h, random, k, n - 1);
    }
  }

  /** New clouds are in play. */
  lemma NewCloudsInPlay(w: real, h: real, random: RandomStream, k: nat, n: nat)
    requires 0.0 <= w && 0.0 <= h
    ensures CloudsInPlay(NewClouds(w, h, random, k, n))
  {
    NewCloudsPointwise(w, h, random, k, n);
  }

  /** The first n buildings of initBuildings started at draw k. */
  function NewBuildings(h: real, random: RandomStream, k: nat, n: nat): (bs: seq<Building>)
    ensures |bs| == n
  {
    if n == 0 then [] else NewBuildings(h, random, k, n - 1) + [NewBuilding(n - 1, h, random, k + BUILDING_DRAWS * (n - 1))]
  }

  /** The i-th new building stands at 80i and is made from the draws k + 2i and k + 2i + 1. */
  lemma {:induction false} NewBuildingsPointwise(h: real, random: RandomStream, k: nat, n: nat)
    ensures forall i :: 0 <= i < n ==> NewBuildings(h, random, k, n)[i] == NewBuilding(i, h, random, k + BUILDING_DRAWS * i)
  {
    if n > 0 {
      NewBuildingsPointwise(h, random, k, n - 1);
    }
  }

  /** New buildings are in play. */
  lemma NewBuildingsInPlay(h: real, random: RandomStream, k: nat, n: nat)
    ensures BuildingsInPlay(NewBuildings(h, random, k, n))
  {
    NewBuildingsPointwise(h, random, k, n);
  }

  /** The first n raindrops of initRain started at draw k. */
  function NewRain(w: real, h: real, random: RandomStream, k: nat, n: nat): (ds: seq<Raindrop>)
    requires 0.0 <= w && 0.0 <= h
    ensures |ds| == n
  {
    if n == 0 then [] else NewRain(w, h, random, k, n - 1) + [NewRaindrop(w, h, random, k + RAINDROP_DRAWS * (n - 1))]
  }

  /** The i-th new raindrop is made from the draws k + 5i onwards. */
  lemma {:induction false} NewRainPointwise(w: real, h: real, random: RandomStream, k: nat, n: nat)
    requires 0.0 <= w && 0.0 <= h
    ensures forall i :: 0 <= i < n ==> NewRain(w, h, random, k, n)[i] == NewRaindrop(w, h, random, k + RAINDROP_DRAWS * i)
  {
    if n > 0 {
      NewRainPointwise(w, h, random, k, n - 1);
    }
  }

  /** New raindrops are in play. */
  lemma NewRainInPlay(w: real, h: real, random: RandomStream, k: nat, n: nat)
    requires 0.0 <= w && 0.0 <= h
    ensures RainInPlay(NewRain(w, h, random, k, n), w, h)
  {
    NewRainPointwise(w, h, random, k, n);
  }

  /** How many draws rebuilding the whole background takes. */
  const SCENE_DRAWS := CLOUD_DRAWS * CLOUD_COUNT + BUILDING_DRAWS * BUILDING_COUNT + RAINDROP_DRAWS * RAINDROP_COUNT

  // ----- clouds -----

  /** The cloud, after this frame's scroll, is entirely past the left edge. */
  predicate CloudWraps(c: Cloud, gameSpeed: real)
  {
    c.x - c.speed * gameSpeed < -c.width
  }

  /**
   * One frame of a cloud: it scrolls left at its speed times the game speed; once
   * entirely off the left edge it reappears at the right edge, at the height
   * given by the draw.
   */
  function ScrollCloud(c: Cloud, gameSpeed: real, w: real, h: real, draw: Unit): (r: Cloud)
    requires 0.0 <= w && 0.0 <= h
    ensures 0.0 <= c.width ==> r.x >= -r.width
    ensures r.width == c.width && r.height == c.height && r.speed == c.speed
    ensures CloudWraps(c, gameSpeed) ==> r.x == w && 0.0 <= r.y <= h / 2.0
    ensures !CloudWraps(c, gameSpeed) ==> r.x == c.x - c.speed * gameSpeed && r.y == c.y
  {
    if CloudWraps(c, gameSpeed) then c.(x := w, y := Scale(draw, h) / 2.0)
    else c.(x := c.x - c.speed * gameSpeed)
  }

  /** How many of the clouds wrap this frame, i.e. how many Math.random draws their loop makes. */
  function CloudWrapCount(cs: seq<Cloud>, gameSpeed: real): (n: nat)
    ensures n <= |cs|
  {
    if cs == [] then 0
    else CloudWrapCount(cs[..|cs| - 1], gameSpeed) + if CloudWraps(cs[|cs| - 1], gameSpeed) then 1 else 0
  }

  /**
   * The clouds after one frame, updated in order starting at draw k of the
   * stream: each cloud that wraps takes the next draw.
   */
  function ScrollClouds(cs: seq<Cloud>, gameSpeed: real, w: real, h: real, random: RandomStream, k: nat): (r: seq<Cloud>)
    requires 0.0 <= w && 0.0 <= h
    ensures |r| == |cs|
  {
    if cs == [] then []
    else
      var front := cs[..|cs| - 1];
      ScrollClouds(front, gameSpeed, w, h, random, k)
        + [ScrollCloud(cs[|cs| - 1], gameSpeed, w, h, random(k + CloudWrapCount(front, gameSpeed)))]
  }

  /** The i-th cloud's frame is that cloud's own step, taking the draw after those of the clouds before it that wrapped. */
  lemma {:induction false} ScrollCloudsPointwise(cs: seq<Cloud>, gameSpeed: real, w: real, h: real, random: RandomStream, k: nat, i: nat)
    requires 0.0 <= w && 0.0 <= h && i < |cs|
    ensures ScrollClouds(cs, gameSpeed, w, h, random, k)[i]
      == ScrollCloud(cs[i], gameSpeed, w, h, random(k + CloudWrapCount(cs[..i], gameSpeed)))
  {
    var front := cs[..|cs| - 1];
    if i < |cs| - 1 {
      ScrollCloudsPointwise(front, gameSpeed, w, h, random, k, i);
      assert front[..i] == cs[..i];
    } else {
      assert front == cs[..i];
    }
  }

  /** Every cloud has a size and has not yet entirely left the screen on the left. */
  ghost predicate CloudsInPlay(cs: seq<Cloud>)
  {
    forall i :: 0 <= i < |cs| ==> 0.0 <= cs[i].width && cs[i].x >= -cs[i].width
  }

  /** The whole background is in play, with its twelve clouds, six buildings and hundred raindrops. */
  ghost predicate SceneInPlay(cs: seq<Cloud>, bs: seq<Building>, ds: seq<Raindrop>, w: real, h: real)
  {
    && |cs| == CLOUD_COUNT && |bs| == BUILDING_COUNT && |ds| == RAINDROP_COUNT
    && CloudsInPlay(cs) && BuildingsInPlay(bs) && RainInPlay(ds, w, h)
  }

  /** A frame keeps every cloud in play: one that leaves on the left is back on the right. */
  lemma {:induction false} ScrollCloudsKeepInPlay(cs: seq<Cloud>, gameSpeed: real, w: real, h: real, random: RandomStream, k: nat)
    requires 0.0 <= w && 0.0 <= h
    requires CloudsInPlay(cs)
    ensures CloudsInPlay(ScrollClouds(cs, gameSpeed, w, h, random, k))
  {
    if cs != [] {
      ScrollCloudsKeepInPlay(cs[..|cs| - 1], gameSpeed, w, h, random, k);
    }
  }

  /** Extending the prefix by a cloud appends its frame, which takes the draw after those of the clouds before it. */
  lemma ScrollCloudsExtend(cs: seq<Cloud>, i: nat, moved: seq<Cloud>, next: Cloud, gameSpeed: real, w: real, h: real, random: RandomStream, k: nat)
    requires 0.0 <= w && 0.0 <= h && i < |cs|
    requires moved == ScrollClouds(cs[..i], gameSpeed, w, h, random, k)
    requires next == ScrollCloud(cs[i], gameSpeed, w, h, random(k + CloudWrapCount(cs[..i], gameSpeed)))
    ensures moved + [next] == ScrollClouds(cs[..i + 1], gameSpeed, w, h, random, k)
    ensures CloudWrapCount(cs[..i + 1], gameSpeed) == CloudWrapCount(cs[..i], gameSpeed) + if CloudWraps(cs[i], gameSpeed) then 1 else 0
  {
    assert cs[..i + 1][..i] == cs[..i];
  }

  // ----- buildings -----

  /** The building, after this frame's scroll, is entirely past the left edge. */
  predicate BuildingWraps(b: Building, gameSpeed: real)
  {
    b.x - b.speed * gameSpeed < -b.width
  }

  /** One frame of a building: it scrolls left; once entirely off the left edge it reappears at the right edge. */
  function ScrollBuilding(b: Building, gameSpeed: real, w: real): (r: Building)
    requires 0.0 <= w
    ensures 0.0 <= b.width ==> r.x >= -r.width
    ensures r.y == b.y && r.width == b.width && r.height == b.height && r.speed == b.speed
    ensures BuildingWraps(b, gameSpeed) ==> r.x == w
    ensures !BuildingWraps(b, gameSpeed) ==> r.x == b.x - b.speed * gameSpeed
  {
    if BuildingWraps(b, gameSpeed) then b.(x := w) else b.(x := b.x - b.speed * gameSpeed)
  }

  /** The buildings after one frame. */
  function ScrollBuildings(bs: seq<Building>, gameSpeed: real, w: real): (r: seq<Building>)
    requires 0.0 <= w
    ensures |r| == |bs|
  {
    if bs == [] then []
    else ScrollBuildings(bs[..|bs| - 1], gameSpeed, w) + [ScrollBuilding(bs[|bs| - 1], gameSpeed, w)]
  }

  /** Each building's frame depends on that building alone. */
  lemma {:induction false} ScrollBuildingsPointwise(bs: seq<Building>, gameSpeed: real, w: real)
    requires 0.0 <= w
    ensures forall i :: 0 <= i < |bs| ==> ScrollBuildings(bs, gameSpeed, w)[i] == ScrollBuilding(bs[i], gameSpeed, w)
  {
    if bs != [] {
      ScrollBuildingsPointwise(bs[..|bs| - 1], gameSpeed, w);
    }
  }

  /** Every building has a size and has not yet entirely left the screen on the left. */
  ghost predicate BuildingsInPlay(bs: seq<Building>)
  {
    forall i :: 0 <= i < |bs| ==> 0.0 <= bs[i].width && bs[i].x >= -bs[i].width
  }

  /** A frame keeps every building in play. */
  lemma ScrollBuildingsKeepInPlay(bs: seq<Building>, gameSpeed: real, w: real)
    requires 0.0 <= w
    requires BuildingsInPlay(bs)
    ensures BuildingsInPlay(ScrollBuildings(bs, gameSpeed, w))
  {
    ScrollBuildingsPointwise(bs, gameSpeed, w);
  }

  /** Extending the prefix by a building appends its frame. */
  lemma ScrollBuildingsExtend(bs: seq<Building>, i: nat, moved: seq<Building>, next: Building, gameSpeed: real, w: real)
    requires 0.0 <= w && i < |bs|
    requires moved == ScrollBuildings(bs[..i], gameSpeed, w)
    requires next == ScrollBuilding(bs[i], gameSpeed, w)
    ensures moved + [next] == ScrollBuildings(bs[..i + 1], gameSpeed, w)
  {
    assert bs[..i + 1][..i] == bs[..i];
  }

  // ----- rain -----

  /** The raindrop, after this frame's fall, is below the bottom edge. */
  predicate RainWraps(d: Raindrop, h: real)
  {
    d.y + d.speed > h
  }

  /**
   * One frame of a raindrop: it falls by its speed and drifts left by half a
   * unit; below the bottom it restarts just above the top at the column given
   * by the draw; left of the left edge it restarts at the right edge. The two
   * checks are independent and made in that order.
   */
  function FallDrop(d: Raindrop, w: real, h: real, draw: Unit): (r: Raindrop)
    requires 0.0 <= w && 0.0 <= h
    ensures 0.0 <= d.length ==> r.y <= h
    ensures d.x <= w ==> 0.0 <= r.x <= w
    ensures r.speed == d.speed && r.length == d.length
    ensures RainWraps(d, h) ==> r.y == -d.length
    ensures !RainWraps(d, h) ==> r.y == d.y + d.speed
    ensures RainWraps(d, h) ==> r.x == Scale(draw, w)
    ensures !RainWraps(d, h) && d.x - RAIN_DRIFT < 0.0 ==> r.x == w
    ensures !RainWraps(d, h) && d.x - RAIN_DRIFT >= 0.0 ==> r.x == d.x - RAIN_DRIFT
  {
    var top := if RainWraps(d, h) then d.(y := -d.length, x := Scale(draw, w))
               else d.(y := d.y + d.speed, x := d.x - RAIN_DRIFT);
    if top.x < 0.0 then top.(x := w) else top
  }

  /** Every raindrop has a length, lies between the side edges and is not below the bottom. */
  ghost predicate RainInPlay(ds: seq<Raindrop>, w: real, h: real)
  {
    forall i :: 0 <= i < |ds| ==> 0.0 <= ds[i].length && 0.0 <= ds[i].x <= w && ds[i].y <= h
  }

  /** A frame keeps every raindrop in play. */
  lemma {:induction false} FallRainKeepsInPlay(ds: seq<Raindrop>, w: real, h: real, random: RandomStream, k: nat)
    requires 0.0 <= w && 0.0 <= h
    requires RainInPlay(ds, w, h)
    ensures RainInPlay(FallRain(ds, w, h, random, k), w, h)
  {
    if ds != [] {
      FallRainKeepsInPlay(ds[..|ds| - 1], w, h, random, k);
    }
  }

  /** The i-th raindrop's frame is that drop's own step, taking the draw after those of the drops before it that wrapped. */
  lemma {:induction false} FallRainPointwise(ds: seq<Raindrop>, w: real, h: real, random: RandomStream, k: nat, i: nat)
    requires 0.0 <= w && 0.0 <= h && i < |ds|
    ensures FallRain(ds, w, h, random, k)[i] == FallDrop(ds[i], w, h, random(k + RainWrapCount(ds[..i], h)))
  {
    var front := ds[..|ds| - 1];
    if i < |ds| - 1 {
      FallRainPointwise(front, w, h, random, k, i);
      assert front[..i] == ds[..i];
    } else {
      assert front == ds[..i];
    }
  }

  /** Extending the prefix by a raindrop appends its frame, which takes the draw after those of the raindrops before it. */
  lemma FallRainExtend(ds: seq<Raindrop>, i: nat, moved: seq<Raindrop>, next: Raindrop, w: real, h: real, random: RandomStream, k: nat)
    requires 0.0 <= w && 0.0 <= h && i < |ds|
    requires moved == FallRain(ds[..i], w, h, random, k)
    requires next == FallDrop(ds[i], w, h, random(k + RainWrapCount(ds[..i], h)))
    ensures moved + [next] == FallRain(ds[..i + 1], w, h, random, k)
    ensures RainWrapCount(ds[..i + 1], h) == RainWrapCount(ds[..i], h) + if RainWraps(ds[i], h) then 1 else 0
  {
    assert ds[..i + 1][..i] == ds[..i];
  }

  /** How many raindrops restart at the top this frame, i.e. how many Math.random draws their loop makes. */
  function RainWrapCount(ds: seq<Raindrop>, h: real): (n: nat)
    ensures n <= |ds|
  {
    if ds == [] then 0
    else RainWrapCount(ds[..|ds| - 1], h) + if RainWraps(ds[|ds| - 1], h) then 1 else 0
  }

  /** The raindrops after one frame, starting at draw k of the stream. */
  function FallRain(ds: seq<Raindrop>, w: real, h: real, random: RandomStream, k: nat): (r: seq<Raindrop>)
    requires 0.0 <= w && 0.0 <= h
    ensures |r| == |ds|
  {
    if ds == [] then []
    else
      var front := ds[..|ds| - 1];
      FallRain(front, w, h, random, k) + [FallDrop(ds[|ds| - 1], w, h, random(k + RainWrapCount(front, h)))]
  }
}
