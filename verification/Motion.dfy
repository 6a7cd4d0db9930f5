/** Where a simulated client stands and how it moves (`SimClient.hpp`), over reals.

    Three population shapes: a cube of chunks, one chunk per client, and the 2D walk.  Which
    world axis is up depends on the pose profile: Z for UE5, Y for BWF.
 */
module Motion {
  import opened Wire
  import opened Settings
  import CubeSlots

  datatype Vec = Vec(x: real, y: real, z: real)

  datatype Body = Body(
    world: Vec,
    dir: Vec,
    chunk: Chunk,
    sparseC1: int,
    sparseC2: int,
    pos: Vec,
    vel: Vec,
    yawDeg: real,
    reaimAt: real,
    lastMove: real)

  /** The random draws of a first activation. */
  datatype Spawn = Spawn(jitter1: real, jitter2: real, jitterUp: real, cell1: int, cell2: int, dir: Vec, reaimDelay: real)

  /** The random draws of a re-aim. */
  datatype Aim = Aim(dir: Vec, delay: real)

  const UE5_HEIGHT_OFFSET := -60.0
  const BWF_WALK_HEIGHT := 20.0
  const DEGREES := 180.0 / 3.14159265358979

  const AT_ORIGIN := Body(Vec(0.0, 0.0, 0.0), Vec(1.0, 0.0, 0.0), Chunk(0, 0, 0), 0, 0,
                          Vec(0.0, 0.0, 0.0), Vec(0.0, 0.0, 0.0), 0.0, 0.0, 0.0)

  predicate ValidSpawn(cfg: Config, s: Spawn) {
    && UnitLength(s.dir) && 4.0 <= s.reaimDelay <= 12.0
    && 0.05 <= s.jitter1 <= 0.95 && 0.05 <= s.jitter2 <= 0.95 && 0.05 <= s.jitterUp <= 0.95
    && var range := if cfg.IsSparse() then cfg.sparseRangeChunks else cfg.spawnRadiusChunks;
       -range <= s.cell1 <= range && -range <= s.cell2 <= range
  }

  /** Directions are drawn on the unit sphere, or on its horizontal circle. */
  predicate UnitLength(d: Vec) {
    d.x * d.x + d.y * d.y + d.z * d.z == 1.0
  }

  predicate ValidAim(a: Aim) {
    UnitLength(a.dir) && 4.0 <= a.delay <= 12.0
  }

  /** A world position from its first horizontal, second horizontal and vertical values. */
  function OnAxes(fmt: PoseFormat, h1: real, h2: real, up: real): Vec {
    if fmt == BWF then Vec(h1, up, h2) else Vec(h1, h2, up)
  }

  function Second(fmt: PoseFormat, v: Vec): real {
    if fmt == BWF then v.z else v.y
  }

  function Up(fmt: PoseFormat, v: Vec): real {
    if fmt == BWF then v.y else v.z
  }

  function FloorDiv(w: real, size: real): int
    requires size > 0.0
  {
    (w / size).Floor
  }

  function ChunkOf(size: real, w: Vec): Chunk
    requires size > 0.0
  {
    Chunk(FloorDiv(w.x, size), FloorDiv(w.y, size), FloorDiv(w.z, size))
  }

  /** How far past the edge of chunk k. */
  function Past(w: real, k: int, size: real): real {
    w - k as real * size
  }

  /** `projectPose`. */
  function Project(cfg: Config, b: Body): Body {
    var size := cfg.ChunkSize();
    var c := ChunkOf(size, b.world);
    var pos := if cfg.fmt == BWF then b.world else
                 Vec(Past(b.world.x, c.x, size), Past(b.world.y, c.y, size),
                     if cfg.volumeChunks > 0 then Past(b.world.z, c.z, size) else UE5_HEIGHT_OFFSET);
    b.(chunk := c, pos := pos)
  }

  // ----- Placement ---------------------------------------------------------------------

  /** Where chunk `k` begins on an axis. */
  function Edge(k: int, size: real): real {
    k as real * size
  }

  /** A point of chunk `k` on an axis. */
  function Spot(k: int, jitter: real, size: real): real {
    (k as real + jitter) * size
  }

  function CubeMin(cfg: Config): int {
    -(cfg.volumeChunks / 2)
  }

  /** `placeInCube`. */
  function CubePosition(cfg: Config, index: int, s: Spawn): Vec
    requires cfg.volumeChunks > 0
  {
    CubeSlots.Positive(cfg.volumeChunks);
    var c := CubeSlots.CellOf(cfg.volumeChunks, index);
    var size := cfg.ChunkSize();
    OnAxes(cfg.fmt,
           Spot(CubeMin(cfg) + c.i1, s.jitter1, size),
           Spot(CubeMin(cfg) + c.i2, s.jitter2, size),
           Spot(cfg.volumeBaseUp + c.iup, s.jitterUp, size))
  }

  function GroundHeight(cfg: Config): real {
    if cfg.fmt == BWF then BWF_WALK_HEIGHT else 0.0
  }

  /** The movement half of `initSimulation`. */
  function Place(cfg: Config, index: int, s: Spawn, now: real, b: Body): Body {
    var size := cfg.ChunkSize();
    var placed :=
      if cfg.IsSparse() then
        b.(sparseC1 := s.cell1, sparseC2 := s.cell2, dir := s.dir,
           world := OnAxes(cfg.fmt, Spot(s.cell1, s.jitter1, size), Spot(s.cell2, s.jitter2, size), GroundHeight(cfg)))
      else if cfg.volumeChunks > 0 then
        b.(dir := s.dir, reaimAt := now + s.reaimDelay, world := CubePosition(cfg, index, s))
      else
        b.(dir := s.dir,
           world := OnAxes(cfg.fmt, Edge(s.cell1, size), Edge(s.cell2, size), GroundHeight(cfg)));
    Project(cfg, placed.(lastMove := now))
  }

  // ----- Movement ----------------------------------------------------------------------

  datatype Moved = Moved(v: real, d: real)

  function Abs(r: real): real {
    if r < 0.0 then -r else r
  }

  /** The `bounce` lambda: reflect once off each end, then clamp a step longer than the box. */
  function Bounce(v: real, d: real, lo: real, hi: real): Moved {
    var v1, d1 := if v < lo then lo + (lo - v) else v, if v < lo then Abs(d) else d;
    var v2, d2 := if v1 > hi then hi - (v1 - hi) else v1, if v1 > hi then -Abs(d1) else d1;
    var v3 := if v2 < lo then lo else v2;
    Moved(if v3 > hi then hi else v3, d2)
  }

  lemma BounceConfines(v: real, d: real, lo: real, hi: real)
    requires lo <= hi
    ensures lo <= Bounce(v, d, lo, hi).v <= hi
    ensures lo <= v <= hi ==> Bounce(v, d, lo, hi) == Moved(v, d)
  {
  }

  /** Reflection, said without computing it: a value inside stays; one beyond an end comes back
      as far inside as it went out, and the direction turns inward; one that would then leave
      at the other end comes back once more from above and is held at the lower end. */
  predicate Reflects(v: real, d: real, lo: real, hi: real, w: real, e: real) {
    && lo <= w <= hi && (e == d || e == -d)
    && (lo <= v <= hi ==> w == v && e == d)
    && (v < lo && 2.0 * lo - v <= hi ==> lo - v == w - lo && e >= 0.0)
    && (v > hi && 2.0 * hi - v >= lo ==> v - hi == hi - w && e <= 0.0)
    && (v < lo && 2.0 * lo - v > hi ==> e <= 0.0 && w == if lo - v <= 2.0 * (hi - lo) then hi - (lo - v - (hi - lo)) else lo)
    && (v > hi && 2.0 * hi - v < lo ==> e <= 0.0 && w == lo)
  }

  lemma BounceReflects(v: real, d: real, lo: real, hi: real)
    requires lo <= hi
    ensures Reflects(v, d, lo, hi, Bounce(v, d, lo, hi).v, Bounce(v, d, lo, hi).d)
  {
  }

  function CubeLow(cfg: Config): Vec {
    var size := cfg.ChunkSize();
    OnAxes(cfg.fmt, Edge(CubeMin(cfg), size), Edge(CubeMin(cfg), size), Edge(cfg.volumeBaseUp, size))
  }

  function CubeHigh(cfg: Config): Vec {
    var edge := Edge(cfg.volumeChunks, cfg.ChunkSize());
    var lo := CubeLow(cfg);
    Vec(lo.x + edge, lo.y + edge, lo.z + edge)
  }

  function Along(v: real, d: real, reach: real): real {
    v + d * reach
  }

  function Step(v: Vec, d: Vec, reach: real): Vec {
    Vec(Along(v.x, d.x, reach), Along(v.y, d.y, reach), Along(v.z, d.z, reach))
  }

  function Velocity(d: Vec, speed: real): Vec {
    Vec(d.x * speed, d.y * speed, d.z * speed)
  }

  function Heading(p: Platform, fmt: PoseFormat, d: Vec): real {
    p.atan2(Second(fmt, d), d.x) * DEGREES
  }

  function CubeMove(p: Platform, cfg: Config, b: Body, reach: real, now: real, aim: Aim): Body {
    var w, lo, hi := Step(b.world, b.dir, reach), CubeLow(cfg), CubeHigh(cfg);
    var x, y, z := Bounce(w.x, b.dir.x, lo.x, hi.x), Bounce(w.y, b.dir.y, lo.y, hi.y), Bounce(w.z, b.dir.z, lo.z, hi.z);
    var again := now >= b.reaimAt;
    var d := if again then aim.dir else Vec(x.d, y.d, z.d);
    b.(world := Vec(x.v, y.v, z.v), dir := d,
       reaimAt := if again then now + aim.delay else b.reaimAt,
       vel := Velocity(d, cfg.WalkSpeed()), yawDeg := Heading(p, cfg.fmt, d))
  }

  function SparseMove(p: Platform, cfg: Config, b: Body, reach: real): Body {
    var size, fmt := cfg.ChunkSize(), cfg.fmt;
    var lo1, lo2 := Edge(b.sparseC1, size), Edge(b.sparseC2, size);
    var one := Bounce(Along(b.world.x, b.dir.x, reach), b.dir.x, lo1, lo1 + size);
    var two := Bounce(Along(Second(fmt, b.world), Second(fmt, b.dir), reach), Second(fmt, b.dir), lo2, lo2 + size);
    var d := OnAxes(fmt, one.d, two.d, Up(fmt, b.dir));
    b.(world := OnAxes(fmt, one.v, two.v, Up(fmt, b.world)), dir := d,
       vel := Velocity(d, cfg.WalkSpeed()), yawDeg := Heading(p, fmt, d))
  }

  function AbsInt(i: int): int {
    if i < 0 then -i else i
  }

  function WalkMove(p: Platform, cfg: Config, b: Body, reach: real): Body {
    var size, fmt := cfg.ChunkSize(), cfg.fmt;
    var one, two := Along(b.world.x, b.dir.x, reach), Along(Second(fmt, b.world), Second(fmt, b.dir), reach);
    var out := AbsInt(FloorDiv(one, size)) > cfg.spawnRadiusChunks || AbsInt(FloorDiv(two, size)) > cfg.spawnRadiusChunks;
    var d := if out then OnAxes(fmt, -b.dir.x, -Second(fmt, b.dir), Up(fmt, b.dir)) else b.dir;
    b.(world := OnAxes(fmt, one, two, Up(fmt, b.world)), dir := d,
       vel := Velocity(b.dir, cfg.WalkSpeed()), yawDeg := Heading(p, fmt, b.dir))
  }

  function Move(p: Platform, cfg: Config, b: Body, reach: real, now: real, aim: Aim): Body {
    if cfg.IsSparse() then SparseMove(p, cfg, b, reach)
    else if cfg.volumeChunks > 0 then CubeMove(p, cfg, b, reach, now, aim)
    else WalkMove(p, cfg, b, reach)
  }

  function Reach(cfg: Config, b: Body, now: real): real {
    (now - b.lastMove) * cfg.WalkSpeed()
  }

  /** `updateWalk`. */
  function UpdateWalk(p: Platform, cfg: Config, b: Body, now: real, aim: Aim): Body {
    var moved := b.(lastMove := now);
    if now - b.lastMove <= 0.0 then moved
    else Project(cfg, Move(p, cfg, moved, Reach(cfg, b, now), now, aim))
  }

  /** The pose half of `buildUpdate`. */
  function PoseOf(p: Platform, cfg: Config, b: Body, epochMs: real): Pose {
    if cfg.fmt == BWF then
      Pose(b.pos.x, b.pos.y, b.pos.z, 0.0, p.atan2(b.dir.x, b.dir.z), 0.0, b.vel.x, b.vel.y, b.vel.z, false, epochMs)
    else
      Pose(b.pos.x, b.pos.y, b.pos.z, 0.0, 0.0, b.yawDeg, b.vel.x, b.vel.y, b.vel.z, false, 0.0)
  }

  // ----- Confinement -------------------------------------------------------------------

  lemma FloorAtLeast(w: real, size: real, k: int)
    requires size > 0.0 && w >= Edge(k, size)
    ensures FloorDiv(w, size) >= k
  {
    var q := w / size;
    assert q * size == w;
    assert q < k as real ==> q * size < k as real * size;
  }

  lemma FloorAtMost(w: real, size: real, k: int)
    requires size > 0.0 && w <= Edge(k, size)
    ensures FloorDiv(w, size) <= k
  {
    var q := w / size;
    assert q * size == w;
    assert q > k as real ==> q * size > k as real * size;
  }

  /** The chunks of the cube, and the one beyond the far face that a position exactly on that
      face projects to. */
  ghost predicate NearCube(cfg: Config, c: Chunk) {
    var n, h, u := cfg.volumeChunks, CubeMin(cfg), cfg.volumeBaseUp;
    var y, z := if cfg.fmt == BWF then u else h, if cfg.fmt == BWF then h else u;
    h <= c.x <= h + n && y <= c.y <= y + n && z <= c.z <= z + n
  }

  ghost predicate Inside(lo: Vec, w: Vec, hi: Vec) {
    lo.x <= w.x <= hi.x && lo.y <= w.y <= hi.y && lo.z <= w.z <= hi.z
  }

  ghost predicate Confined(cfg: Config, b: Body) {
    Inside(CubeLow(cfg), b.world, CubeHigh(cfg)) && NearCube(cfg, b.chunk)
  }

  lemma EdgeSum(lo: int, n: nat, size: real)
    ensures Edge(lo, size) + Edge(n, size) == Edge(lo + n, size)
  {
  }

  lemma AxisNear(w: real, size: real, lo: int, n: nat)
    requires size > 0.0 && Edge(lo, size) <= w <= Edge(lo, size) + Edge(n, size)
    ensures lo <= FloorDiv(w, size) <= lo + n
  {
    EdgeSum(lo, n, size);
    FloorAtLeast(w, size, lo);
    FloorAtMost(w, size, lo + n);
  }

  lemma ProjectNear(cfg: Config, b: Body)
    requires Inside(CubeLow(cfg), b.world, CubeHigh(cfg))
    ensures Confined(cfg, Project(cfg, b))
  {
    var size, n, h, u := cfg.ChunkSize(), cfg.volumeChunks, CubeMin(cfg), cfg.volumeBaseUp;
    AxisNear(b.world.x, size, h, n);
    AxisNear(b.world.y, size, if cfg.fmt == BWF then u else h, n);
    AxisNear(b.world.z, size, if cfg.fmt == BWF then h else u, n);
  }

  lemma SpotInChunk(k: int, jitter: real, size: real)
    requires size > 0.0 && 0.05 <= jitter <= 0.95
    ensures FloorDiv(Spot(k, jitter, size), size) == k
  {
    assert Spot(k, jitter, size) / size == k as real + jitter;
  }

  lemma SpotWithin(lo: int, i: int, n: nat, jitter: real, size: real)
    requires size > 0.0 && 0 <= i < n && 0.05 <= jitter <= 0.95
    ensures Edge(lo, size) <= Spot(lo + i, jitter, size) <= Edge(lo, size) + Edge(n, size)
  {
    var t := i as real + jitter;
    assert 0.0 <= t <= n as real;
    assert Spot(lo + i, jitter, size) == Edge(lo, size) + t * size;
    assert 0.0 <= t * size <= n as real * size;
  }

  function CellChunk(cfg: Config, c: CubeSlots.Cell): Chunk {
    var h1, h2, up := CubeMin(cfg) + c.i1, CubeMin(cfg) + c.i2, cfg.volumeBaseUp + c.iup;
    if cfg.fmt == BWF then Chunk(h1, up, h2) else Chunk(h1, h2, up)
  }

  lemma CubePositionPlaced(cfg: Config, index: int, s: Spawn)
    requires cfg.volumeChunks > 0 && ValidSpawn(cfg, s)
    ensures CubeSlots.Slots(cfg.volumeChunks) > 0 && cfg.volumeChunks * cfg.volumeChunks > 0
    ensures var w := CubePosition(cfg, index, s);
            && ChunkOf(cfg.ChunkSize(), w) == CellChunk(cfg, CubeSlots.CellOf(cfg.volumeChunks, index))
            && Inside(CubeLow(cfg), w, CubeHigh(cfg))
  {
    var n, size := cfg.volumeChunks, cfg.ChunkSize();
    CubeSlots.Positive(n);
    CubeSlots.CellInCube(n, index);
    var c := CubeSlots.CellOf(n, index);
    SpotInChunk(CubeMin(cfg) + c.i1, s.jitter1, size);
    SpotInChunk(CubeMin(cfg) + c.i2, s.jitter2, size);
    SpotInChunk(cfg.volumeBaseUp + c.iup, s.jitterUp, size);
    SpotWithin(CubeMin(cfg), c.i1, n, s.jitter1, size);
    SpotWithin(CubeMin(cfg), c.i2, n, s.jitter2, size);
    SpotWithin(cfg.volumeBaseUp, c.iup, n, s.jitterUp, size);
  }

  /** First placement puts the client in the chunk of its cell, whatever the jitter. */
  lemma PlacedInOwnChunk(cfg: Config, index: int, s: Spawn, now: real, b: Body)
    requires cfg.IsCube() && ValidSpawn(cfg, s)
    ensures CubeSlots.Slots(cfg.volumeChunks) > 0 && cfg.volumeChunks * cfg.volumeChunks > 0
    ensures Place(cfg, index, s, now, b).chunk == CellChunk(cfg, CubeSlots.CellOf(cfg.volumeChunks, index))
    ensures Confined(cfg, Place(cfg, index, s, now, b))
  {
    CubePositionPlaced(cfg, index, s);
    var w := CubePosition(cfg, index, s);
    ProjectNear(cfg, b.(dir := s.dir, reaimAt := now + s.reaimDelay, world := w, lastMove := now));
  }

  /** Any n^3 consecutive indices stand in n^3 distinct chunks, however they are jittered. */
  lemma FleetStandsApart(cfg: Config, base: int, i: int, j: int, s: Spawn, t: Spawn, now: real, later: real, b: Body, d: Body)
    requires cfg.IsCube() && ValidSpawn(cfg, s) && ValidSpawn(cfg, t)
    requires base <= i < j < base + CubeSlots.Slots(cfg.volumeChunks)
    ensures Place(cfg, i, s, now, b).chunk != Place(cfg, j, t, later, d).chunk
  {
    PlacedInOwnChunk(cfg, i, s, now, b);
    PlacedInOwnChunk(cfg, j, t, later, d);
    CubeSlots.WindowFillsCube(cfg.volumeChunks, base);
  }

  lemma CubeBoxNonEmpty(cfg: Config)
    ensures Inside(CubeLow(cfg), CubeLow(cfg), CubeHigh(cfg))
  {
    assert Edge(cfg.volumeChunks, cfg.ChunkSize()) >= 0.0;
  }

  /** No step, however long, leaves the cube. */
  lemma WalkStaysConfined(p: Platform, cfg: Config, b: Body, now: real, aim: Aim)
    requires cfg.IsCube() && Confined(cfg, b)
    ensures Confined(cfg, UpdateWalk(p, cfg, b, now, aim))
  {
    if now - b.lastMove > 0.0 {
      var moved, reach := b.(lastMove := now), Reach(cfg, b, now);
      CubeBoxNonEmpty(cfg);
      CubeMoveInside(p, cfg, moved, reach, now, aim);
      ProjectNear(cfg, Move(p, cfg, moved, reach, now, aim));
    }
  }

  lemma CubeMoveInside(p: Platform, cfg: Config, b: Body, reach: real, now: real, aim: Aim)
    requires Inside(CubeLow(cfg), CubeLow(cfg), CubeHigh(cfg))
    requires cfg.IsCube()
    ensures Inside(CubeLow(cfg), Move(p, cfg, b, reach, now, aim).world, CubeHigh(cfg))
  {
    var w, lo, hi := Step(b.world, b.dir, reach), CubeLow(cfg), CubeHigh(cfg);
    BounceConfines(w.x, b.dir.x, lo.x, hi.x);
    BounceConfines(w.y, b.dir.y, lo.y, hi.y);
    BounceConfines(w.z, b.dir.z, lo.z, hi.z);
  }

  // ----- The laws of motion ------------------------------------------------------------

  /** Velocity and heading of a direction walked at full speed. */
  predicate Heads(p: Platform, cfg: Config, b: Body, d: Vec) {
    && b.vel == Vec(d.x * cfg.WalkSpeed(), d.y * cfg.WalkSpeed(), d.z * cfg.WalkSpeed())
    && b.yawDeg == p.atan2(if cfg.fmt == BWF then d.z else d.y, d.x) * DEGREES
  }

  /** Chunk and pose fields are those of the world position: the chunk is its floor, and the pose
      is the position itself (BWF) or what is left of it inside the chunk (UE5), with a fixed
      height unless the population fills a cube. */
  predicate Projected(cfg: Config, b: Body) {
    var size, w, c := cfg.ChunkSize(), b.world, b.chunk;
    && c.x == (w.x / size).Floor && c.y == (w.y / size).Floor && c.z == (w.z / size).Floor
    && if cfg.fmt == BWF then b.pos == w
       else
         && b.pos.x == Past(w.x, c.x, size) && b.pos.y == Past(w.y, c.y, size)
         && b.pos.z == if cfg.volumeChunks > 0 then Past(w.z, c.z, size) else -60.0
  }

  lemma ProjectProjects(cfg: Config, b: Body)
    ensures Projected(cfg, Project(cfg, b))
    ensures Project(cfg, b).(chunk := b.chunk, pos := b.pos) == b
  {
  }

  /** What is left of a position inside its own chunk is less than a chunk, and together with the
      edge of the chunk it is the position again. */
  lemma PastIsInside(w: real, size: real)
    requires size > 0.0
    ensures var k := (w / size).Floor; 0.0 <= Past(w, k, size) < size && Edge(k, size) + Past(w, k, size) == w
  {
    var q, k := w / size, (w / size).Floor;
    assert q * size == w;
    var f := q - k as real;
    assert 0.0 <= f < 1.0;
    ShareOf(f, size);
    assert f * size == q * size - k as real * size;
    assert Past(w, k, size) == f * size;
  }

  lemma ShareOf(f: real, size: real)
    requires 0.0 <= f < 1.0 && size > 0.0
    ensures 0.0 <= f * size < size
  {
    assert (1.0 - f) * size > 0.0;
  }

  /** The straight step of an axis: direction times elapsed time times speed. */
  function Straight(cfg: Config, v: real, d: real, dt: real): real {
    v + d * (dt * cfg.WalkSpeed())
  }

  lemma StraightIsAlong(cfg: Config, b: Body, v: real, d: real, now: real)
    ensures Along(v, d, Reach(cfg, b, now)) == Straight(cfg, v, d, now - b.lastMove)
  {
  }

  /** In a cube every axis moves straight and is reflected at the cube's faces; when its time has
      come the direction is drawn anew; velocity and heading follow the direction. */
  lemma CubeLaw(p: Platform, cfg: Config, b: Body, now: real, aim: Aim)
    requires cfg.IsCube() && now > b.lastMove
    ensures var n, dt, d := UpdateWalk(p, cfg, b, now, aim), now - b.lastMove, b.dir;
            var lo, hi := CubeLow(cfg), CubeHigh(cfg);
            && Projected(cfg, n) && n.lastMove == now && Heads(p, cfg, n, n.dir)
            && n.reaimAt == (if now >= b.reaimAt then now + aim.delay else b.reaimAt)
            && (now >= b.reaimAt ==> n.dir == aim.dir)
            && exists e: Vec ::
                 && (now < b.reaimAt ==> n.dir == e)
                 && Reflects(Straight(cfg, b.world.x, d.x, dt), d.x, lo.x, hi.x, n.world.x, e.x)
                 && Reflects(Straight(cfg, b.world.y, d.y, dt), d.y, lo.y, hi.y, n.world.y, e.y)
                 && Reflects(Straight(cfg, b.world.z, d.z, dt), d.z, lo.z, hi.z, n.world.z, e.z)
  {
    hide Bounce, Reflects, CubeLow, CubeHigh, Projected, Along, Straight, Reach;
    CubeBoxNonEmpty(cfg);
    var lo, hi, reach := CubeLow(cfg), CubeHigh(cfg), Reach(cfg, b, now);
    var w := Step(b.world, b.dir, reach);
    var moved := CubeMove(p, cfg, b.(lastMove := now), reach, now, aim);
    ProjectProjects(cfg, moved);
    StraightIsAlong(cfg, b, b.world.x, b.dir.x, now);
    StraightIsAlong(cfg, b, b.world.y, b.dir.y, now);
    StraightIsAlong(cfg, b, b.world.z, b.dir.z, now);
    BounceReflects(w.x, b.dir.x, lo.x, hi.x);
    BounceReflects(w.y, b.dir.y, lo.y, hi.y);
    BounceReflects(w.z, b.dir.z, lo.z, hi.z);
    var n := UpdateWalk(p, cfg, b, now, aim);
    assert n == Project(cfg, moved);
    hide Project, UpdateWalk;
    var e := Vec(Bounce(w.x, b.dir.x, lo.x, hi.x).d, Bounce(w.y, b.dir.y, lo.y, hi.y).d, Bounce(w.z, b.dir.z, lo.z, hi.z).d);
    assert Reflects(w.x, b.dir.x, lo.x, hi.x, n.world.x, e.x);
  }

  /** The faces of the cube, n chunks apart: centred on the origin chunk horizontally, standing on
      the base vertically. */
  lemma CubeFaces(cfg: Config)
    ensures var lo, hi, size, n := CubeLow(cfg), CubeHigh(cfg), cfg.ChunkSize(), cfg.volumeChunks;
            && lo.x == -(n / 2) as real * size && hi.x - lo.x == n as real * size
            && hi.y - lo.y == n as real * size && hi.z - lo.z == n as real * size
            && (if cfg.fmt == BWF then lo.z == lo.x && lo.y == cfg.volumeBaseUp as real * size
                else lo.y == lo.x && lo.z == cfg.volumeBaseUp as real * size)
  {
  }

  /** A sparse client moves straight on its two horizontal axes, reflected at the edges of the
      chunk it owns; its height stays. */
  lemma SparseLaw(p: Platform, cfg: Config, b: Body, now: real, aim: Aim)
    requires cfg.IsSparse() && now > b.lastMove
    ensures var n, dt, fmt, size := UpdateWalk(p, cfg, b, now, aim), now - b.lastMove, cfg.fmt, cfg.ChunkSize();
            var lo1, lo2 := Edge(b.sparseC1, size), Edge(b.sparseC2, size);
            && Projected(cfg, n) && n.lastMove == now && Heads(p, cfg, n, n.dir) && n.reaimAt == b.reaimAt
            && n.sparseC1 == b.sparseC1 && n.sparseC2 == b.sparseC2
            && Reflects(Straight(cfg, b.world.x, b.dir.x, dt), b.dir.x, lo1, lo1 + size, n.world.x, n.dir.x)
            && Reflects(Straight(cfg, Second(fmt, b.world), Second(fmt, b.dir), dt), Second(fmt, b.dir), lo2, lo2 + size,
                        Second(fmt, n.world), Second(fmt, n.dir))
            && Up(fmt, n.world) == Up(fmt, b.world) && Up(fmt, n.dir) == Up(fmt, b.dir)
  {
    hide Bounce, Reflects, Projected, Along, Straight, Reach, Edge;
    StraightIsAlong(cfg, b, b.world.x, b.dir.x, now);
    StraightIsAlong(cfg, b, Second(cfg.fmt, b.world), Second(cfg.fmt, b.dir), now);
    var reach, fmt, size := Reach(cfg, b, now), cfg.fmt, cfg.ChunkSize();
    var lo1, lo2 := Edge(b.sparseC1, size), Edge(b.sparseC2, size);
    ProjectProjects(cfg, SparseMove(p, cfg, b.(lastMove := now), reach));
    BounceReflects(Along(b.world.x, b.dir.x, reach), b.dir.x, lo1, lo1 + size);
    BounceReflects(Along(Second(fmt, b.world), Second(fmt, b.dir), reach), Second(fmt, b.dir), lo2, lo2 + size);
  }

  /** In the 2D walk a client moves straight and turns right round when the chunk it has come to
      is outside the spawn area; velocity and heading are those it walked with. */
  lemma PlaneLaw(p: Platform, cfg: Config, b: Body, now: real, aim: Aim)
    requires !cfg.IsSparse() && cfg.volumeChunks == 0 && now > b.lastMove
    ensures var n, dt, fmt, r := UpdateWalk(p, cfg, b, now, aim), now - b.lastMove, cfg.fmt, cfg.spawnRadiusChunks as int;
            var c1, c2 := n.chunk.x, if fmt == BWF then n.chunk.z else n.chunk.y;
            && Projected(cfg, n) && n.lastMove == now && Heads(p, cfg, n, b.dir) && n.reaimAt == b.reaimAt
            && n.world.x == Straight(cfg, b.world.x, b.dir.x, dt)
            && Second(fmt, n.world) == Straight(cfg, Second(fmt, b.world), Second(fmt, b.dir), dt)
            && Up(fmt, n.world) == Up(fmt, b.world) && Up(fmt, n.dir) == Up(fmt, b.dir)
            && (if -r <= c1 <= r && -r <= c2 <= r then n.dir == b.dir
                else n.dir.x == -b.dir.x && Second(fmt, n.dir) == -Second(fmt, b.dir))
  {
  }

  /** Without time passing nothing moves. */
  lemma StandstillLaw(p: Platform, cfg: Config, b: Body, now: real, aim: Aim)
    requires now <= b.lastMove
    ensures UpdateWalk(p, cfg, b, now, aim) == b.(lastMove := now)
  {
  }

  // ----- Sparse clients stay in their chunk --------------------------------------------

  /** The closed chunk the client owns, on both horizontal axes. */
  predicate InOwnChunk(cfg: Config, b: Body) {
    var size := cfg.ChunkSize();
    && Edge(b.sparseC1, size) <= b.world.x <= Edge(b.sparseC1, size) + size
    && Edge(b.sparseC2, size) <= Second(cfg.fmt, b.world) <= Edge(b.sparseC2, size) + size
  }

  /** No step, however long, takes a sparse client out of it. */
  lemma SparseStaysHome(p: Platform, cfg: Config, b: Body, now: real, aim: Aim)
    requires cfg.IsSparse() && InOwnChunk(cfg, b)
    ensures InOwnChunk(cfg, UpdateWalk(p, cfg, b, now, aim))
  {
    hide UpdateWalk, Edge, Straight, Projected, Heads;
    if now > b.lastMove {
      SparseLaw(p, cfg, b, now, aim);
    } else {
      StandstillLaw(p, cfg, b, now, aim);
    }
  }

  // ----- First placement ---------------------------------------------------------------

  /** A client of a cube keeps its own spot in the cell it was given, and drifts off as drawn. */
  lemma PlacedInCube(cfg: Config, index: int, s: Spawn, now: real, b: Body)
    requires cfg.IsCube()
    ensures cfg.volumeChunks * cfg.volumeChunks > 0 && CubeSlots.Slots(cfg.volumeChunks) > 0
    ensures var n, size, c := Place(cfg, index, s, now, b), cfg.ChunkSize(), CubeSlots.CellOf(cfg.volumeChunks, index);
            && Projected(cfg, n) && n.dir == s.dir && n.lastMove == now && n.reaimAt == now + s.reaimDelay
            && n.world.x == Spot(c.i1 - cfg.volumeChunks / 2, s.jitter1, size)
            && Second(cfg.fmt, n.world) == Spot(c.i2 - cfg.volumeChunks / 2, s.jitter2, size)
            && Up(cfg.fmt, n.world) == Spot(cfg.volumeBaseUp + c.iup, s.jitterUp, size)
  {
    CubeSlots.Positive(cfg.volumeChunks);
    hide Spot, Projected, Project, CubeSlots.CellOf;
    var moved := b.(dir := s.dir, reaimAt := now + s.reaimDelay, world := CubePosition(cfg, index, s), lastMove := now);
    ProjectProjects(cfg, moved);
    assert Place(cfg, index, s, now, b) == Project(cfg, moved);
  }

  /** A sparse client starts strictly inside the chunk it was given, on the ground; a client of
      the 2D walk on the corner of its chunk. */
  lemma PlacedOnGround(cfg: Config, index: int, s: Spawn, now: real, b: Body)
    requires ValidSpawn(cfg, s) && !cfg.IsCube()
    ensures var n, size, fmt := Place(cfg, index, s, now, b), cfg.ChunkSize(), cfg.fmt;
            && Projected(cfg, n) && n.dir == s.dir && n.lastMove == now && n.reaimAt == b.reaimAt
            && Up(fmt, n.world) == (if fmt == BWF then 20.0 else 0.0)
            && if cfg.IsSparse() then
                 && n.sparseC1 == s.cell1 && n.sparseC2 == s.cell2 && InOwnChunk(cfg, n)
                 && n.world.x == Spot(s.cell1, s.jitter1, size) && Second(fmt, n.world) == Spot(s.cell2, s.jitter2, size)
               else n.world.x == Edge(s.cell1, size) && Second(fmt, n.world) == Edge(s.cell2, size)
  {
    hide Spot, Edge, Project, Projected, CubePosition;
    var size := cfg.ChunkSize();
    SpotIsBetween(s.cell1, s.jitter1, size);
    SpotIsBetween(s.cell2, s.jitter2, size);
    var up := GroundHeight(cfg);
    var sparse := b.(sparseC1 := s.cell1, sparseC2 := s.cell2, dir := s.dir, lastMove := now,
                     world := OnAxes(cfg.fmt, Spot(s.cell1, s.jitter1, size), Spot(s.cell2, s.jitter2, size), up));
    var plane := b.(dir := s.dir, lastMove := now, world := OnAxes(cfg.fmt, Edge(s.cell1, size), Edge(s.cell2, size), up));
    ProjectProjects(cfg, sparse);
    ProjectProjects(cfg, plane);
    assert Place(cfg, index, s, now, b) == Project(cfg, if cfg.IsSparse() then sparse else plane);
  }

  /** A spot lies between the edge of its chunk and the next, its share of the way along. */
  lemma SpotIsBetween(k: int, jitter: real, size: real)
    requires size > 0.0 && 0.0 <= jitter <= 1.0
    ensures Edge(k, size) <= Spot(k, jitter, size) <= Edge(k + 1, size) == Edge(k, size) + size
    ensures Spot(k, jitter, size) - Edge(k, size) == jitter * size && Edge(0, size) == 0.0
  {
    assert Spot(k, jitter, size) == Edge(k, size) + jitter * size;
    assert 0.0 <= jitter * size <= size;
    assert Edge(k + 1, size) == Edge(k, size) + size by {
      assert (k + 1) as real == k as real + 1.0;
      assert (k as real + 1.0) * size == k as real * size + 1.0 * size;
    }
  }
}
