/** The cloud spawner: at most one `InitCloud` marker per tick, more than one
    second apart, at a fixed point above the screen. */
module Level {
  import opened Ecs

  const SpawnYPos: real := 800.0
  const CloudSpawnInterval: real := 1.0

  /** `LevelMetadata::default`: the last spawn is at time 0. */
  function DefaultLastCloudSpawnTime(): (t: real)
    ensures t == 0.0
  {
    0.0
  }

  /** The marker `spawn_clouds` asks for: untagged, at (0, 800). */
  function CloudMarker(): (e: Entity)
    ensures e.kind == InitCloud(Vec2(0.0, SpawnYPos)) && e.owner == None && !e.relativeCoinY
  {
    Plain(InitCloud(Vec2(0.0, SpawnYPos)))
  }

  /** A spawn is due when strictly more than a second has passed. */
  predicate CloudDue(last: real, elapsed: real)
  {
    elapsed - last > CloudSpawnInterval
  }

  /** `spawn_clouds`: when due, record the time and spawn one marker. */
  method SpawnClouds(w: World, elapsed: real)
    modifies w`lastCloudSpawnTime, w`entities
    ensures CloudDue(old(w.lastCloudSpawnTime), elapsed) ==>
      w.lastCloudSpawnTime == elapsed && w.entities == old(w.entities) + [CloudMarker()]
    ensures !CloudDue(old(w.lastCloudSpawnTime), elapsed) ==>
      w.lastCloudSpawnTime == old(w.lastCloudSpawnTime) && w.entities == old(w.entities)
  {
    if elapsed - w.lastCloudSpawnTime > CloudSpawnInterval {
      w.lastCloudSpawnTime := elapsed;
      w.entities := w.entities + [CloudMarker()];
    }
  }

  /** The spawner over a run of ticks with the given elapsed times: the final
      `last_cloud_spawn_time` and the number of markers spawned. */
  function RunSpawner(last: real, times: seq<real>): (real, nat)
    decreases |times|
  {
    if times == [] then (last, 0)
    else if CloudDue(last, times[0]) then
      var (l, n) := RunSpawner(times[0], times[1..]); (l, n + 1)
    else RunSpawner(last, times[1..])
  }

  /** Every spawn moves the recorded time on by more than a second, so `n`
      spawns put it more than `n` seconds past where it started, and it never
      goes past the latest tick. */
  lemma {:induction false} SpawnsAreSpaced(last: real, times: seq<real>)
    ensures RunSpawner(last, times).0 >= last + (RunSpawner(last, times).1 as real) * CloudSpawnInterval
    ensures RunSpawner(last, times).1 > 0 ==>
      RunSpawner(last, times).0 > last + (RunSpawner(last, times).1 as real) * CloudSpawnInterval
    ensures RunSpawner(last, times).0 == last || RunSpawner(last, times).0 in times
    decreases |times|
  {
    if times != [] {
      if CloudDue(last, times[0]) {
        SpawnsAreSpaced(times[0], times[1..]);
      } else {
        SpawnsAreSpaced(last, times[1..]);
      }
    }
  }

  /** From the initial metadata, a run whose clock never passes `t` spawns
      fewer than `t` markers. */
  lemma SpawnCountBoundedByTime(times: seq<real>, t: real)
    requires forall i :: 0 <= i < |times| ==> times[i] <= t
    ensures (RunSpawner(DefaultLastCloudSpawnTime(), times).1 as real) < t || RunSpawner(DefaultLastCloudSpawnTime(), times).1 == 0
  {
    SpawnsAreSpaced(0.0, times);
  }
}
