/** The moving half of a simulated client as the object it is (`SimClient.hpp`): each method
    changes the client's fields in place and is proved to do the step of `Motion`. */
module Walker {
  import opened Wire
  import opened Settings
  import opened Motion
  import CubeSlots

  /** The `bounce` lambda, on the value and the direction it is given. */
  method BounceIn(v0: real, d0: real, lo: real, hi: real) returns (v: real, d: real)
    requires lo <= hi
    ensures Moved(v, d) == Bounce(v0, d0, lo, hi)
    ensures lo <= v <= hi
  {
    v, d := v0, d0;
    if v < lo {
      v, d := lo + (lo - v), Abs(d);
    }
    if v > hi {
      v, d := hi - (v - hi), -Abs(d);
    }
    if v < lo {
      v := lo;
    }
    if v > hi {
      v := hi;
    }
  }

  class SimBody {
    var worldX: real
    var worldY: real
    var worldZ: real
    var dirX: real
    var dirY: real
    var dirZ: real
    var chunk: Chunk
    var sparseC1: int
    var sparseC2: int
    var pos: Vec
    var vel: Vec
    var rotYawDeg: real
    var reaimAt: real
    var lastMoveTime: real

    ghost function View(): Body
      reads this
    {
      Body(Vec(worldX, worldY, worldZ), Vec(dirX, dirY, dirZ), chunk, sparseC1, sparseC2, pos, vel, rotYawDeg, reaimAt, lastMoveTime)
    }

    constructor ()
      ensures View() == AT_ORIGIN
    {
      worldX, worldY, worldZ, dirX, dirY, dirZ := 0.0, 0.0, 0.0, 1.0, 0.0, 0.0;
      chunk, sparseC1, sparseC2 := Chunk(0, 0, 0), 0, 0;
      pos, vel := Vec(0.0, 0.0, 0.0), Vec(0.0, 0.0, 0.0);
      rotYawDeg, reaimAt, lastMoveTime := 0.0, 0.0, 0.0;
    }

    /** Assign through the axes: first horizontal, second horizontal, up. */
    method SetWorld(fmt: PoseFormat, h1: real, h2: real, up: real)
      modifies this`worldX, this`worldY, this`worldZ
      ensures View() == old(View()).(world := OnAxes(fmt, h1, h2, up))
    {
      worldX := h1;
      if fmt == BWF {
        worldY, worldZ := up, h2;
      } else {
        worldY, worldZ := h2, up;
      }
    }

    method SetDirection(fmt: PoseFormat, d1: real, d2: real, dup: real)
      modifies this`dirX, this`dirY, this`dirZ
      ensures View() == old(View()).(dir := OnAxes(fmt, d1, d2, dup))
    {
      dirX := d1;
      if fmt == BWF {
        dirY, dirZ := dup, d2;
      } else {
        dirY, dirZ := d2, dup;
      }
    }

    method PlaceInCube(cfg: Config, index: int, s: Spawn)
      requires cfg.volumeChunks > 0
      modifies this`worldX, this`worldY, this`worldZ
      ensures View() == old(View()).(world := CubePosition(cfg, index, s))
    {
      var n := cfg.volumeChunks;
      CubeSlots.Positive(n);
      var c := CubeSlots.CellOf(n, index);
      var size := cfg.ChunkSize();
      SetWorld(cfg.fmt, Spot(CubeMin(cfg) + c.i1, s.jitter1, size), Spot(CubeMin(cfg) + c.i2, s.jitter2, size),
               Spot(cfg.volumeBaseUp + c.iup, s.jitterUp, size));
    }

    method ProjectPose(cfg: Config)
      modifies this`chunk, this`pos
      ensures View() == Project(cfg, old(View()))
    {
      var size := cfg.ChunkSize();
      chunk := Chunk((worldX / size).Floor, (worldY / size).Floor, (worldZ / size).Floor);
      if cfg.fmt == BWF {
        pos := Vec(worldX, worldY, worldZ);
      } else {
        pos := Vec(Past(worldX, chunk.x, size), Past(worldY, chunk.y, size),
                   if cfg.volumeChunks > 0 then Past(worldZ, chunk.z, size) else UE5_HEIGHT_OFFSET);
      }
    }

    method InitMovement(cfg: Config, index: int, s: Spawn, now: real)
      modifies this
      ensures View() == Place(cfg, index, s, now, old(View()))
    {
      hide Project, Spot, Edge, CubePosition;
      var size := cfg.ChunkSize();
      var ground := if cfg.fmt == BWF then BWF_WALK_HEIGHT else 0.0;
      if cfg.IsSparse() {
        sparseC1, sparseC2 := s.cell1, s.cell2;
        SetWorld(cfg.fmt, Spot(sparseC1, s.jitter1, size), Spot(sparseC2, s.jitter2, size), ground);
      } else if cfg.volumeChunks > 0 {
        PlaceInCube(cfg, index, s);
        reaimAt := now + s.reaimDelay;
      } else {
        SetWorld(cfg.fmt, Edge(s.cell1, size), Edge(s.cell2, size), ground);
      }
      dirX, dirY, dirZ := s.dir.x, s.dir.y, s.dir.z;
      lastMoveTime := now;
      ProjectPose(cfg);
    }

    /** Velocity and heading follow the direction. */
    method Drift(p: Platform, cfg: Config)
      modifies this`vel, this`rotYawDeg
      ensures View() == old(View()).(vel := Velocity(Vec(dirX, dirY, dirZ), cfg.WalkSpeed()),
                                     yawDeg := Heading(p, cfg.fmt, Vec(dirX, dirY, dirZ)))
    {
      var speed := cfg.WalkSpeed();
      vel := Vec(dirX * speed, dirY * speed, dirZ * speed);
      rotYawDeg := p.atan2(if cfg.fmt == BWF then dirZ else dirY, dirX) * DEGREES;
    }

    method MoveSparse(p: Platform, cfg: Config, reach: real)
      modifies this`worldX, this`worldY, this`worldZ, this`dirX, this`dirY, this`dirZ, this`vel, this`rotYawDeg
      ensures View() == SparseMove(p, cfg, old(View()), reach)
    {
      hide Along, Bounce, Velocity, Heading, Edge, FloorDiv;
      var size, fmt := cfg.ChunkSize(), cfg.fmt;
      var world, dir := Vec(worldX, worldY, worldZ), Vec(dirX, dirY, dirZ);
      var lo1, lo2 := Edge(sparseC1, size), Edge(sparseC2, size);
      var h1, d1 := BounceIn(Along(world.x, dir.x, reach), dir.x, lo1, lo1 + size);
      var h2, d2 := BounceIn(Along(Second(fmt, world), Second(fmt, dir), reach), Second(fmt, dir), lo2, lo2 + size);
      SetWorld(fmt, h1, h2, Up(fmt, world));
      SetDirection(fmt, d1, d2, Up(fmt, dir));
      Drift(p, cfg);
    }

    /** Reflect each axis in place. */
    method BounceAll(lo: Vec, hi: Vec)
      requires lo.x <= hi.x && lo.y <= hi.y && lo.z <= hi.z
      modifies this`worldX, this`worldY, this`worldZ, this`dirX, this`dirY, this`dirZ
      ensures var b := old(View());
              var x, y, z := Bounce(b.world.x, b.dir.x, lo.x, hi.x), Bounce(b.world.y, b.dir.y, lo.y, hi.y), Bounce(b.world.z, b.dir.z, lo.z, hi.z);
              View() == b.(world := Vec(x.v, y.v, z.v), dir := Vec(x.d, y.d, z.d))
    {
      hide Bounce;
      worldX, dirX := BounceIn(worldX, dirX, lo.x, hi.x);
      worldY, dirY := BounceIn(worldY, dirY, lo.y, hi.y);
      worldZ, dirZ := BounceIn(worldZ, dirZ, lo.z, hi.z);
    }

    method MoveCube(p: Platform, cfg: Config, reach: real, now: real, aim: Aim)
      requires cfg.volumeChunks > 0
      modifies this`worldX, this`worldY, this`worldZ, this`dirX, this`dirY, this`dirZ, this`vel, this`rotYawDeg, this`reaimAt
      ensures View() == CubeMove(p, cfg, old(View()), reach, now, aim)
    {
      hide Along, Bounce, Velocity, Heading, CubeLow, CubeHigh;
      var lo, hi := CubeLow(cfg), CubeHigh(cfg);
      CubeHasRoom(cfg);
      worldX, worldY, worldZ := Along(worldX, dirX, reach), Along(worldY, dirY, reach), Along(worldZ, dirZ, reach);
      BounceAll(lo, hi);
      if now >= reaimAt {
        dirX, dirY, dirZ, reaimAt := aim.dir.x, aim.dir.y, aim.dir.z, now + aim.delay;
      }
      Drift(p, cfg);
    }

    method MoveWalk(p: Platform, cfg: Config, reach: real)
      modifies this`worldX, this`worldY, this`worldZ, this`dirX, this`dirY, this`dirZ, this`vel, this`rotYawDeg
      ensures View() == WalkMove(p, cfg, old(View()), reach)
    {
      hide Along, Bounce, Velocity, Heading, Edge, FloorDiv;
      var size, fmt := cfg.ChunkSize(), cfg.fmt;
      var world, dir := Vec(worldX, worldY, worldZ), Vec(dirX, dirY, dirZ);
      var h1, h2 := Along(world.x, dir.x, reach), Along(Second(fmt, world), Second(fmt, dir), reach);
      SetWorld(fmt, h1, h2, Up(fmt, world));
      Drift(p, cfg);
      if AbsInt(FloorDiv(h1, size)) > cfg.spawnRadiusChunks || AbsInt(FloorDiv(h2, size)) > cfg.spawnRadiusChunks {
        SetDirection(fmt, -dir.x, -Second(fmt, dir), Up(fmt, dir));
      }
    }

    method Walk(p: Platform, cfg: Config, now: real, aim: Aim)
      modifies this
      ensures View() == UpdateWalk(p, cfg, old(View()), now, aim)
    {
      hide SparseMove, CubeMove, WalkMove, Project;
      var dt := now - lastMoveTime;
      lastMoveTime := now;
      if dt <= 0.0 {
        return;
      }
      var reach := dt * cfg.WalkSpeed();
      if cfg.IsSparse() {
        MoveSparse(p, cfg, reach);
      } else if cfg.volumeChunks > 0 {
        MoveCube(p, cfg, reach, now, aim);
      } else {
        MoveWalk(p, cfg, reach);
      }
      assert reach == Reach(cfg, old(View()), now);
      ProjectPose(cfg);
    }
  }

  lemma CubeHasRoom(cfg: Config)
    ensures var lo, hi := CubeLow(cfg), CubeHigh(cfg); lo.x <= hi.x && lo.y <= hi.y && lo.z <= hi.z
  {
    var n, size := cfg.volumeChunks as real, cfg.ChunkSize();
    assert n * size >= 0.0;
  }
}
