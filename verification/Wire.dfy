/** The signed actor update of `Wire.hpp`: a template built once, patched in place and
    re-signed for every send, in two payload profiles.

    HMAC-SHA256 (section 2 of RFC 2104) and the float encodings are arbitrary functions;
    the results hold for every choice of them.
 */
module Wire {
  import opened Bytes

  type Tag = s: Bytes | |s| == 32 witness Zeros(32)
  type Token = s: Bytes | |s| == 64 witness Zeros(64)
  type Uuid = s: Bytes | |s| == 32 witness Zeros(32)
  type F64 = s: Bytes | |s| == 8 witness Zeros(8)
  type F32 = s: Bytes | |s| == 4 witness Zeros(4)

  /** What the machine and OpenSSL supply: HMAC(key, message), which may fail, the two float
      encodings and the heading function. */
  datatype Platform = Platform(
    mac: (Bytes, Bytes) -> Option<Tag>,
    f64: real -> F64,
    f32: real -> F32,
    atan2: (real, real) -> real)

  datatype PoseFormat = UE5 | BWF

  datatype Pose = Pose(posX: real, posY: real, posZ: real, pitch: real, yaw: real, roll: real,
                       velX: real, velY: real, velZ: real, grounded: bool, updatedAtMs: real)

  datatype Chunk = Chunk(x: int, y: int, z: int)

  /** What a template fixes until the next rebuild. */
  datatype Session = Session(fmt: PoseFormat, uuid: Uuid, appId: int, tokenId: int, distance: byte, decay: byte)

  const ACTOR_UPDATE_REQUEST_2: byte := 128
  const SPATIAL_TYPE_BIT: byte := 128
  const STATE_VERSION: byte := 2
  const HEADER_SIZE := 68
  const CONTAINS_AUTH := 35
  const TAIL_WITH_HMAC := 41
  const ACTOR_UPDATE_MAX_SIZE := 197
  const MAX_SIGNED := 2048

  function PayloadSize(fmt: PoseFormat): nat {
    if fmt == BWF then 48 else 88
  }

  function HmacOffset(fmt: PoseFormat): nat {
    HEADER_SIZE + PayloadSize(fmt)
  }

  function TokenIdOffset(fmt: PoseFormat): nat {
    HmacOffset(fmt) + 32
  }

  function SeqOffset(fmt: PoseFormat): nat {
    TokenIdOffset(fmt) + 8
  }

  function UpdateSize(fmt: PoseFormat): nat {
    HEADER_SIZE + PayloadSize(fmt) + TAIL_WITH_HMAC
  }

  /** `hmac::spatialSign`: key the token, sign prefix || token, refuse what does not fit. */
  function Sign(p: Platform, prefix: Bytes, token: Token): Option<Tag> {
    if |prefix| > MAX_SIGNED then None else p.mac(token, prefix + token)
  }

  // ----- The pure encoding -------------------------------------------------------------

  function ChunkBytes(c: Chunk): (s: Bytes)
    ensures |s| == 24
  {
    I64(c.x) + I64(c.y) + I64(c.z)
  }

  function Header(s: Session, c: Chunk): (b: Bytes)
    ensures |b| == HEADER_SIZE
  {
    [ACTOR_UPDATE_REQUEST_2] + I64(s.appId) + ChunkBytes(c) + [s.distance, s.decay, 1] + s.uuid
  }

  function StateBytes(p: Platform, q: Pose): (s: Bytes)
    ensures |s| == 72
  {
    p.f64(q.posX) + p.f64(q.posY) + p.f64(q.posZ)
    + p.f64(q.pitch) + p.f64(q.yaw) + p.f64(q.roll)
    + p.f64(q.velX) + p.f64(q.velY) + p.f64(q.velZ)
  }

  function PoseBytes(p: Platform, q: Pose): (s: Bytes)
    ensures |s| == 34
  {
    p.f32(q.posX) + p.f32(q.posY) + p.f32(q.posZ) + p.f32(q.yaw) + p.f32(q.pitch)
    + p.f32(q.velX) + p.f32(q.velY) + p.f32(q.velZ) + [if q.grounded then 1 else 0] + [0]
  }

  function Payload(p: Platform, fmt: PoseFormat, q: Pose): (s: Bytes)
    ensures |s| == PayloadSize(fmt)
  {
    match fmt
    case UE5 => [STATE_VERSION] + Zeros(7) + StateBytes(p, q) + Zeros(8)
    case BWF => PoseBytes(p, q) + Zeros(2) + p.f64(q.updatedAtMs) + Zeros(4)
  }

  function Prefix(p: Platform, s: Session, c: Chunk, q: Pose): (b: Bytes)
    ensures |b| == HmacOffset(s.fmt)
  {
    Header(s, c) + Payload(p, s.fmt, q)
  }

  function Encode(p: Platform, s: Session, c: Chunk, q: Pose, seqNo: byte, tag: Tag): (b: Bytes)
    ensures |b| == UpdateSize(s.fmt)
  {
    Prefix(p, s, c, q) + tag + I64(s.tokenId) + [seqNo]
  }

  // ----- The template and its patches --------------------------------------------------

  function Template(s: Session): (b: Bytes)
    ensures |b| == ACTOR_UPDATE_MAX_SIZE
  {
    var b := Patch(Zeros(ACTOR_UPDATE_MAX_SIZE), 0, [ACTOR_UPDATE_REQUEST_2]);
    var b := Patch(b, 1, I64(s.appId));
    var b := Patch(b, 33, [s.distance]);
    var b := Patch(b, 34, [s.decay]);
    var b := Patch(b, 35, [1]);
    var b := Patch(b, 36, s.uuid);
    var b := if s.fmt == UE5 then Patch(b, HEADER_SIZE, [STATE_VERSION]) else b;
    Patch(b, TokenIdOffset(s.fmt), I64(s.tokenId))
  }

  function PatchChunk(b: Bytes, c: Chunk): (r: Bytes)
    requires |b| == ACTOR_UPDATE_MAX_SIZE
    ensures |r| == |b|
  {
    Patch(Patch(Patch(b, 9, I64(c.x)), 17, I64(c.y)), 25, I64(c.z))
  }

  function PatchState(p: Platform, b: Bytes, q: Pose): (r: Bytes)
    requires |b| == ACTOR_UPDATE_MAX_SIZE
    ensures |r| == |b|
  {
    var b := Patch(b, HEADER_SIZE + 8, p.f64(q.posX));
    var b := Patch(b, HEADER_SIZE + 16, p.f64(q.posY));
    var b := Patch(b, HEADER_SIZE + 24, p.f64(q.posZ));
    var b := Patch(b, HEADER_SIZE + 32, p.f64(q.pitch));
    var b := Patch(b, HEADER_SIZE + 40, p.f64(q.yaw));
    var b := Patch(b, HEADER_SIZE + 48, p.f64(q.roll));
    var b := Patch(b, HEADER_SIZE + 56, p.f64(q.velX));
    var b := Patch(b, HEADER_SIZE + 64, p.f64(q.velY));
    Patch(b, HEADER_SIZE + 72, p.f64(q.velZ))
  }

  function PatchPose(p: Platform, b: Bytes, q: Pose): (r: Bytes)
    requires |b| == ACTOR_UPDATE_MAX_SIZE
    ensures |r| == |b|
  {
    var b := Patch(b, HEADER_SIZE, p.f32(q.posX));
    var b := Patch(b, HEADER_SIZE + 4, p.f32(q.posY));
    var b := Patch(b, HEADER_SIZE + 8, p.f32(q.posZ));
    var b := Patch(b, HEADER_SIZE + 12, p.f32(q.yaw));
    var b := Patch(b, HEADER_SIZE + 16, p.f32(q.pitch));
    var b := Patch(b, HEADER_SIZE + 20, p.f32(q.velX));
    var b := Patch(b, HEADER_SIZE + 24, p.f32(q.velY));
    var b := Patch(b, HEADER_SIZE + 28, p.f32(q.velZ));
    var b := Patch(b, HEADER_SIZE + 32, [if q.grounded then 1 else 0]);
    var b := Patch(b, HEADER_SIZE + 33, [0]);
    Patch(b, HEADER_SIZE + 36, p.f64(q.updatedAtMs))
  }

  datatype Finalized = Finalized(buf: Bytes, ok: bool)

  function PatchAll(p: Platform, b: Bytes, fmt: PoseFormat, c: Chunk, q: Pose, seqNo: byte): (r: Bytes)
    requires |b| == ACTOR_UPDATE_MAX_SIZE
    ensures |r| == |b|
  {
    var b := PatchChunk(b, c);
    var b := if fmt == BWF then PatchPose(p, b, q) else PatchState(p, b, q);
    Patch(b, SeqOffset(fmt), [seqNo])
  }

  function Finalize(p: Platform, b: Bytes, fmt: PoseFormat, c: Chunk, q: Pose, seqNo: byte, token: Token): (r: Finalized)
    requires |b| == ACTOR_UPDATE_MAX_SIZE
    ensures |r.buf| == |b|
  {
    var b := PatchAll(p, b, fmt, c, q, seqNo);
    match Sign(p, b[..HmacOffset(fmt)], token)
    case Some(tag) => Finalized(Patch(b, HmacOffset(fmt), tag), true)
    case None => Finalized(b, false)
  }

  /** The bytes no send ever rewrites, as the session determines them. */
  predicate Carries(b: Bytes, s: Session) {
    && |b| == ACTOR_UPDATE_MAX_SIZE
    && b[0..9] == [ACTOR_UPDATE_REQUEST_2] + I64(s.appId)
    && b[33..68] == [s.distance, s.decay, 1] + s.uuid
    && b[TokenIdOffset(s.fmt)..SeqOffset(s.fmt)] == I64(s.tokenId)
    && match s.fmt
       case UE5 => b[68..76] == [STATE_VERSION] + Zeros(7) && b[148..156] == Zeros(8)
       case BWF => b[102..104] == Zeros(2) && b[112..116] == Zeros(4)
  }

  lemma ZerosSlice(n: nat, lo: nat, hi: nat)
    requires lo <= hi <= n
    ensures Zeros(n)[lo..hi] == Zeros(hi - lo)
  {
  }

  lemma ChunkPatchIsOne(b: Bytes, c: Chunk)
    requires |b| == ACTOR_UPDATE_MAX_SIZE
    ensures PatchChunk(b, c) == Patch(b, 9, ChunkBytes(c))
  {
    PatchAdjacent(b, 9, I64(c.x), I64(c.y));
    PatchAdjacent(b, 9, I64(c.x) + I64(c.y), I64(c.z));
  }

  lemma StatePatchIsOne(p: Platform, b: Bytes, q: Pose)
    requires |b| == ACTOR_UPDATE_MAX_SIZE
    ensures PatchState(p, b, q) == Patch(b, 76, StateBytes(p, q))
  {
    var x := p.f64(q.posX);
    PatchAdjacent(b, 76, x, p.f64(q.posY));
    x := x + p.f64(q.posY);
    PatchAdjacent(b, 76, x, p.f64(q.posZ));
    x := x + p.f64(q.posZ);
    PatchAdjacent(b, 76, x, p.f64(q.pitch));
    x := x + p.f64(q.pitch);
    PatchAdjacent(b, 76, x, p.f64(q.yaw));
    x := x + p.f64(q.yaw);
    PatchAdjacent(b, 76, x, p.f64(q.roll));
    x := x + p.f64(q.roll);
    PatchAdjacent(b, 76, x, p.f64(q.velX));
    x := x + p.f64(q.velX);
    PatchAdjacent(b, 76, x, p.f64(q.velY));
    x := x + p.f64(q.velY);
    PatchAdjacent(b, 76, x, p.f64(q.velZ));
  }

  lemma PosePatchIsTwo(p: Platform, b: Bytes, q: Pose)
    requires |b| == ACTOR_UPDATE_MAX_SIZE
    ensures PatchPose(p, b, q) == Patch(Patch(b, 68, PoseBytes(p, q)), 104, p.f64(q.updatedAtMs))
  {
    var x := p.f32(q.posX);
    PatchAdjacent(b, 68, x, p.f32(q.posY));
    x := x + p.f32(q.posY);
    PatchAdjacent(b, 68, x, p.f32(q.posZ));
    x := x + p.f32(q.posZ);
    PatchAdjacent(b, 68, x, p.f32(q.yaw));
    x := x + p.f32(q.yaw);
    PatchAdjacent(b, 68, x, p.f32(q.pitch));
    x := x + p.f32(q.pitch);
    PatchAdjacent(b, 68, x, p.f32(q.velX));
    x := x + p.f32(q.velX);
    PatchAdjacent(b, 68, x, p.f32(q.velY));
    x := x + p.f32(q.velY);
    PatchAdjacent(b, 68, x, p.f32(q.velZ));
    x := x + p.f32(q.velZ);
    PatchAdjacent(b, 68, x, [if q.grounded then 1 else 0]);
    x := x + [if q.grounded then 1 else 0];
    PatchAdjacent(b, 68, x, [0]);
  }

  /** A rebuilt template carries its session and nothing of what the buffer held before. */
  lemma TemplateCarries(s: Session)
    ensures Carries(Template(s), s)
  {
    var z, a, t := Zeros(ACTOR_UPDATE_MAX_SIZE), [ACTOR_UPDATE_REQUEST_2] + I64(s.appId), I64(s.tokenId);
    PatchAdjacent(z, 0, [ACTOR_UPDATE_REQUEST_2], I64(s.appId));
    var b1 := Patch(z, 0, a);
    var fixed := [s.distance] + [s.decay] + [1] + s.uuid;
    PatchAdjacent(b1, 33, [s.distance], [s.decay]);
    PatchAdjacent(b1, 33, [s.distance] + [s.decay], [1]);
    PatchAdjacent(b1, 33, [s.distance] + [s.decay] + [1], s.uuid);
    var b2 := Patch(b1, 33, fixed);
    assert fixed == [s.distance, s.decay, 1] + s.uuid;
    var b3 := if s.fmt == UE5 then Patch(b2, 68, [STATE_VERSION]) else b2;
    var b4 := Patch(b3, TokenIdOffset(s.fmt), t);
    assert Template(s) == b4;
    PatchReads(z, 0, a);
    PatchReads(b1, 33, fixed);
    PatchReads(b3, TokenIdOffset(s.fmt), t);
    TemplateKeeps(s, b1, b2, b3, b4);
    TemplateZeros(s, z, a, fixed, b1, b2, b3, b4);
  }

  lemma TemplateKeeps(s: Session, b1: Bytes, b2: Bytes, b3: Bytes, b4: Bytes)
    requires |b1| == ACTOR_UPDATE_MAX_SIZE
    requires exists f: Bytes :: |f| == 35 && b2 == Patch(b1, 33, f)
    requires b3 == if s.fmt == UE5 then Patch(b2, 68, [STATE_VERSION]) else b2
    requires b4 == Patch(b3, TokenIdOffset(s.fmt), I64(s.tokenId))
    ensures b4[0..9] == b1[0..9] && b4[33..68] == b2[33..68]
  {
    var f: Bytes :| |f| == 35 && b2 == Patch(b1, 33, f);
    PatchKeeps(b1, 33, f, 0, 9);
    if s.fmt == UE5 {
      PatchKeeps(b2, 68, [STATE_VERSION], 0, 9);
      PatchKeeps(b2, 68, [STATE_VERSION], 33, 68);
    }
    PatchKeeps(b3, TokenIdOffset(s.fmt), I64(s.tokenId), 0, 9);
    PatchKeeps(b3, TokenIdOffset(s.fmt), I64(s.tokenId), 33, 68);
  }

  lemma KeepsTwo(z: Bytes, a: Bytes, fixed: Bytes, lo: nat, hi: nat)
    requires |z| == ACTOR_UPDATE_MAX_SIZE && |a| == 9 && |fixed| == 35 && 68 <= lo <= hi <= |z|
    ensures Patch(Patch(z, 0, a), 33, fixed)[lo..hi] == z[lo..hi]
  {
    PatchKeeps(z, 0, a, lo, hi);
    PatchKeeps(Patch(z, 0, a), 33, fixed, lo, hi);
  }

  lemma TemplateZeros(s: Session, z: Bytes, a: Bytes, fixed: Bytes, b1: Bytes, b2: Bytes, b3: Bytes, b4: Bytes)
    requires z == Zeros(ACTOR_UPDATE_MAX_SIZE) && |a| == 9 && |fixed| == 35
    requires b1 == Patch(z, 0, a) && b2 == Patch(b1, 33, fixed)
    requires b3 == if s.fmt == UE5 then Patch(b2, 68, [STATE_VERSION]) else b2
    requires b4 == Patch(b3, TokenIdOffset(s.fmt), I64(s.tokenId))
    ensures s.fmt == UE5 ==> b4[68..76] == [STATE_VERSION] + Zeros(7) && b4[148..156] == Zeros(8)
    ensures s.fmt == BWF ==> b4[102..104] == Zeros(2) && b4[112..116] == Zeros(4)
  {
    var t := I64(s.tokenId);
    if s.fmt == UE5 {
      KeepsTwo(z, a, fixed, 69, 76);
      KeepsTwo(z, a, fixed, 148, 156);
      ZerosSlice(197, 69, 76);
      ZerosSlice(197, 148, 156);
      PatchReads(b2, 68, [STATE_VERSION]);
      PatchKeeps(b2, 68, [STATE_VERSION], 69, 76);
      PatchKeeps(b2, 68, [STATE_VERSION], 148, 156);
      assert b3[68..76] == b3[68..69] + b3[69..76];
      PatchKeeps(b3, 188, t, 68, 76);
      PatchKeeps(b3, 188, t, 148, 156);
    } else {
      KeepsTwo(z, a, fixed, 102, 104);
      KeepsTwo(z, a, fixed, 112, 116);
      ZerosSlice(197, 102, 104);
      ZerosSlice(197, 112, 116);
      PatchKeeps(b3, 148, t, 102, 104);
      PatchKeeps(b3, 148, t, 112, 116);
    }
  }

  // ----- No residue --------------------------------------------------------------------

  lemma PatchedPrefixUE5(p: Platform, b: Bytes, s: Session, c: Chunk, q: Pose, seqNo: byte)
    requires Carries(b, s) && s.fmt == UE5
    ensures var r := PatchAll(p, b, UE5, c, q, seqNo);
            Carries(r, s) && r[..156] == Prefix(p, s, c, q) && r[196..197] == [seqNo]
  {
    ChunkPatchIsOne(b, c);
    var x, y := ChunkBytes(c), StateBytes(p, q);
    var b1 := Patch(b, 9, x);
    StatePatchIsOne(p, b1, q);
    var b2 := Patch(b1, 76, y);
    var r := Patch(b2, 196, [seqNo]);
    PatchReads(b, 9, x);
    PatchReads(b1, 76, y);
    PatchReads(b2, 196, [seqNo]);
    assert b1[0..9] == b[..9];
    PatchKeeps(b1, 76, y, 0, 9);
    PatchKeeps(b2, 196, [seqNo], 0, 9);
    PatchKeeps(b1, 76, y, 9, 33);
    PatchKeeps(b2, 196, [seqNo], 9, 33);
    PatchKeeps(b, 9, x, 33, 68);
    PatchKeeps(b1, 76, y, 33, 68);
    PatchKeeps(b2, 196, [seqNo], 33, 68);
    PatchKeeps(b, 9, x, 68, 76);
    PatchKeeps(b1, 76, y, 68, 76);
    PatchKeeps(b2, 196, [seqNo], 68, 76);
    PatchKeeps(b2, 196, [seqNo], 76, 148);
    PatchKeeps(b, 9, x, 148, 156);
    PatchKeeps(b1, 76, y, 148, 156);
    PatchKeeps(b2, 196, [seqNo], 148, 156);
    PatchKeeps(b, 9, x, 188, 196);
    PatchKeeps(b1, 76, y, 188, 196);
    PatchKeeps(b2, 196, [seqNo], 188, 196);
    Pieces(r, 9, 33, 68, 76, 148, 156);
    assert r[..156] == ([ACTOR_UPDATE_REQUEST_2] + I64(s.appId)) + x + ([s.distance, s.decay, 1] + s.uuid)
                       + ([STATE_VERSION] + Zeros(7)) + y + Zeros(8);
    Regroup([ACTOR_UPDATE_REQUEST_2] + I64(s.appId), x, [s.distance, s.decay, 1], s.uuid,
            [STATE_VERSION] + Zeros(7), y, Zeros(8));
  }

  lemma Pieces(r: Bytes, a: nat, b: nat, c: nat, d: nat, e: nat, f: nat)
    requires a <= b <= c <= d <= e <= f <= |r|
    ensures r[..f] == r[0..a] + r[a..b] + r[b..c] + r[c..d] + r[d..e] + r[e..f]
  {
  }

  lemma Regroup(a: Bytes, x: Bytes, k: Bytes, u: Bytes, v: Bytes, y: Bytes, z: Bytes)
    ensures a + x + (k + u) + v + y + z == (a + x + k + u) + (v + y + z)
  {
  }

  lemma PatchedPrefixBWF(p: Platform, b: Bytes, s: Session, c: Chunk, q: Pose, seqNo: byte)
    requires Carries(b, s) && s.fmt == BWF
    ensures var r := PatchAll(p, b, BWF, c, q, seqNo);
            Carries(r, s) && r[..116] == Prefix(p, s, c, q) && r[156..157] == [seqNo]
  {
    ChunkPatchIsOne(b, c);
    var x, y, w := ChunkBytes(c), PoseBytes(p, q), p.f64(q.updatedAtMs);
    var b1 := Patch(b, 9, x);
    PosePatchIsTwo(p, b1, q);
    var b2 := Patch(b1, 68, y);
    var b3 := Patch(b2, 104, w);
    var r := Patch(b3, 156, [seqNo]);
    PatchReads(b, 9, x);
    PatchReads(b1, 68, y);
    PatchReads(b2, 104, w);
    PatchReads(b3, 156, [seqNo]);
    assert b1[0..9] == b[..9];
    KeepsThree(b1, y, w, seqNo, 0, 9);
    KeepsThree(b1, y, w, seqNo, 9, 33);
    PatchKeeps(b, 9, x, 33, 68);
    KeepsThree(b1, y, w, seqNo, 33, 68);
    PatchKeeps(b2, 104, w, 68, 102);
    PatchKeeps(b3, 156, [seqNo], 68, 102);
    PatchKeeps(b, 9, x, 102, 104);
    KeepsThree(b1, y, w, seqNo, 102, 104);
    PatchKeeps(b3, 156, [seqNo], 104, 112);
    PatchKeeps(b, 9, x, 112, 116);
    KeepsThree(b1, y, w, seqNo, 112, 116);
    PatchKeeps(b, 9, x, 148, 156);
    KeepsThree(b1, y, w, seqNo, 148, 156);
    Pieces(r, 9, 33, 68, 102, 104, 112);
    assert r[..116] == r[..112] + r[112..116];
    assert r[..116] == ([ACTOR_UPDATE_REQUEST_2] + I64(s.appId)) + x + ([s.distance, s.decay, 1] + s.uuid)
                       + y + Zeros(2) + w + Zeros(4);
    Regroup([ACTOR_UPDATE_REQUEST_2] + I64(s.appId), x, [s.distance, s.decay, 1], s.uuid, y, Zeros(2), w + Zeros(4));
    Assoc(([ACTOR_UPDATE_REQUEST_2] + I64(s.appId)) + x + ([s.distance, s.decay, 1] + s.uuid) + y + Zeros(2), w, Zeros(4));
    Assoc(y + Zeros(2), w, Zeros(4));
  }

  lemma Assoc(a: Bytes, b: Bytes, c: Bytes)
    ensures a + b + c == a + (b + c)
  {
  }

  lemma KeepsThree(b1: Bytes, y: Bytes, w: Bytes, seqNo: byte, lo: nat, hi: nat)
    requires |b1| == ACTOR_UPDATE_MAX_SIZE && |y| == 34 && |w| == 8 && lo <= hi <= 156
    requires hi <= 68 || (102 <= lo && hi <= 104) || 112 <= lo
    ensures Patch(Patch(Patch(b1, 68, y), 104, w), 156, [seqNo])[lo..hi] == b1[lo..hi]
  {
    PatchKeeps(b1, 68, y, lo, hi);
    PatchKeeps(Patch(b1, 68, y), 104, w, lo, hi);
    PatchKeeps(Patch(Patch(b1, 68, y), 104, w), 156, [seqNo], lo, hi);
  }

  lemma PatchedPrefix(p: Platform, b: Bytes, s: Session, c: Chunk, q: Pose, seqNo: byte)
    requires Carries(b, s)
    ensures var r := PatchAll(p, b, s.fmt, c, q, seqNo);
            && Carries(r, s) && r[..HmacOffset(s.fmt)] == Prefix(p, s, c, q)
            && r[SeqOffset(s.fmt)..UpdateSize(s.fmt)] == [seqNo]
  {
    if s.fmt == UE5 {
      PatchedPrefixUE5(p, b, s, c, q, seqNo);
    } else {
      PatchedPrefixBWF(p, b, s, c, q, seqNo);
    }
  }

  /** Writing the tag keeps the session and yields the pure encoding. */
  lemma TagCompletes(p: Platform, r: Bytes, s: Session, c: Chunk, q: Pose, seqNo: byte, tag: Tag)
    requires Carries(r, s) && r[..HmacOffset(s.fmt)] == Prefix(p, s, c, q)
    requires r[SeqOffset(s.fmt)..UpdateSize(s.fmt)] == [seqNo]
    ensures var out := Patch(r, HmacOffset(s.fmt), tag);
            Carries(out, s) && out[..UpdateSize(s.fmt)] == Encode(p, s, c, q, seqNo, tag)
  {
    var h, t, e, n := HmacOffset(s.fmt), TokenIdOffset(s.fmt), SeqOffset(s.fmt), UpdateSize(s.fmt);
    var out := Patch(r, h, tag);
    PatchReads(r, h, tag);
    PatchKeeps(r, h, tag, 0, 9);
    PatchKeeps(r, h, tag, 33, 68);
    PatchKeeps(r, h, tag, t, e);
    PatchKeeps(r, h, tag, e, n);
    if s.fmt == UE5 {
      PatchKeeps(r, h, tag, 68, 76);
      PatchKeeps(r, h, tag, 148, 156);
    } else {
      PatchKeeps(r, h, tag, 102, 104);
      PatchKeeps(r, h, tag, 112, 116);
    }
    assert out[..n] == out[..h] + out[h..t] + out[t..e] + out[e..n];
  }

  /** Whatever earlier sends left in the buffer, a send is the pure encoding of the session,
      chunk, pose and sequence number, signed with this token; and the buffer still carries
      the session afterwards, also when signing failed. */
  lemma FinalizeEncodes(p: Platform, b: Bytes, s: Session, c: Chunk, q: Pose, seqNo: byte, token: Token)
    requires Carries(b, s)
    ensures var r := Finalize(p, b, s.fmt, c, q, seqNo, token);
            var tag := Sign(p, Prefix(p, s, c, q), token);
            && Carries(r.buf, s) && r.ok == tag.Some?
            && (r.ok ==> r.buf[..UpdateSize(s.fmt)] == Encode(p, s, c, q, seqNo, tag.value))
  {
    PatchedPrefix(p, b, s, c, q, seqNo);
    match Sign(p, Prefix(p, s, c, q), token)
    case Some(tag) => TagCompletes(p, PatchAll(p, b, s.fmt, c, q, seqNo), s, c, q, seqNo, tag);
    case None =>
  }

  // ----- Verification and decoding -----------------------------------------------------

  /** `verifyNotification`. */
  function VerifyNotification(p: Platform, m: Bytes, token: Token): bool {
    if |m| <= CONTAINS_AUTH || m[0] < SPATIAL_TYPE_BIT then true
    else if m[CONTAINS_AUTH] == 0 then true
    else if |m| < HEADER_SIZE + TAIL_WITH_HMAC then false
    else
      var n := |m| - TAIL_WITH_HMAC;
      Sign(p, m[..n], token) == Some(m[n..n + 32])
  }

  /** `verifySignedBundle`. */
  function VerifySignedBundle(p: Platform, m: Bytes, token: Token): bool {
    if |m| <= 33 || m[0] != 30 then false
    else Sign(p, m[..|m| - 32], token) == Some(m[|m| - 32..])
  }

  /** An actor update verifies under a token exactly when it was signed with what that token
      signs. */
  lemma EncodedVerifies(p: Platform, s: Session, c: Chunk, q: Pose, seqNo: byte, tag: Tag, token: Token)
    ensures VerifyNotification(p, Encode(p, s, c, q, seqNo, tag), token)
       <==> Sign(p, Prefix(p, s, c, q), token) == Some(tag)
  {
    var m, h := Encode(p, s, c, q, seqNo, tag), HmacOffset(s.fmt);
    assert m[..h] == Prefix(p, s, c, q) && m[h..h + 32] == tag;
    assert m[0] == ACTOR_UPDATE_REQUEST_2 && m[CONTAINS_AUTH] == 1 by {
      assert Header(s, c)[33..36] == [s.distance, s.decay, 1];
      assert m[..68] == Header(s, c);
    }
  }

  ghost predicate IsI64(v: int) {
    -(TWO_64 / 2) <= v < TWO_64 / 2
  }

  /** The server can read back every identifying field of an update. */
  lemma EncodingDecodes(p: Platform, s: Session, c: Chunk, q: Pose, seqNo: byte, tag: Tag)
    requires IsI64(s.appId) && IsI64(s.tokenId) && IsI64(c.x) && IsI64(c.y) && IsI64(c.z)
    ensures var m := Encode(p, s, c, q, seqNo, tag);
            && ReadI64(m[1..9]) == s.appId
            && ReadI64(m[9..17]) == c.x && ReadI64(m[17..25]) == c.y && ReadI64(m[25..33]) == c.z
            && m[33] == s.distance && m[34] == s.decay && m[36..68] == s.uuid
            && m[|m| - TAIL_WITH_HMAC..|m| - 9] == tag
            && ReadI64(m[|m| - 9..|m| - 1]) == s.tokenId && m[|m| - 1] == seqNo
  {
    var m, h, hd := Encode(p, s, c, q, seqNo, tag), HmacOffset(s.fmt), Header(s, c);
    assert m[..68] == hd;
    assert hd[1..9] == I64(s.appId) && hd[9..33] == ChunkBytes(c);
    assert hd[33..36] == [s.distance, s.decay, 1] && hd[36..68] == s.uuid;
    var cb := ChunkBytes(c);
    assert cb[0..8] == I64(c.x) && cb[8..16] == I64(c.y) && cb[16..24] == I64(c.z);
    Sub(m, 68, 1, 9);
    Sub(m, 68, 33, 36);
    Sub(m, 68, 36, 68);
    ChunkSlices(m, hd, cb);
    assert m[33] == m[33..36][0] && m[34] == m[33..36][1];
    assert m[h..h + 32] == tag && m[h + 32..h + 40] == I64(s.tokenId);
    I64RoundTrip(s.appId);
    I64RoundTrip(s.tokenId);
    I64RoundTrip(c.x);
    I64RoundTrip(c.y);
    I64RoundTrip(c.z);
  }

  lemma Sub(m: Bytes, n: nat, lo: nat, hi: nat)
    requires lo <= hi <= n <= |m|
    ensures m[..n][lo..hi] == m[lo..hi]
  {
  }

  lemma ChunkSlices(m: Bytes, hd: Bytes, cb: Bytes)
    requires |m| >= 68 && hd == m[..68] && cb == hd[9..33]
    ensures m[9..17] == cb[0..8] && m[17..25] == cb[8..16] && m[25..33] == cb[16..24]
  {
    Sub(m, 68, 9, 33);
    SliceOfSlice(m, 9, 33, 0, 8);
    SliceOfSlice(m, 9, 33, 8, 16);
    SliceOfSlice(m, 9, 33, 16, 24);
  }

  /** Where the fields of the UE5 state lie in a message. */
  predicate HoldsState(p: Platform, m: Bytes, q: Pose) {
    && |m| == 197 && m[68] == 2
    && m[76..84] == p.f64(q.posX)
    && m[84..92] == p.f64(q.posY)
    && m[92..100] == p.f64(q.posZ)
    && m[100..108] == p.f64(q.pitch)
    && m[108..116] == p.f64(q.yaw)
    && m[116..124] == p.f64(q.roll)
    && m[124..132] == p.f64(q.velX)
    && m[132..140] == p.f64(q.velY)
    && m[140..148] == p.f64(q.velZ)
  }

  /** Where the fields of the BWF pose lie in a message. */
  predicate HoldsPose(p: Platform, m: Bytes, q: Pose) {
    && |m| == 157
    && m[68..72] == p.f32(q.posX)
    && m[72..76] == p.f32(q.posY)
    && m[76..80] == p.f32(q.posZ)
    && m[80..84] == p.f32(q.yaw)
    && m[84..88] == p.f32(q.pitch)
    && m[88..92] == p.f32(q.velX)
    && m[92..96] == p.f32(q.velY)
    && m[96..100] == p.f32(q.velZ)
    && m[100] == (if q.grounded then 1 else 0) && m[101] == 0 && m[104..112] == p.f64(q.updatedAtMs)
  }

  lemma StateSlices(p: Platform, q: Pose)
    ensures var s := StateBytes(p, q);
            && s[0..8] == p.f64(q.posX) && s[8..16] == p.f64(q.posY) && s[16..24] == p.f64(q.posZ)
            && s[24..32] == p.f64(q.pitch) && s[32..40] == p.f64(q.yaw) && s[40..48] == p.f64(q.roll)
            && s[48..56] == p.f64(q.velX) && s[56..64] == p.f64(q.velY) && s[64..72] == p.f64(q.velZ)
  {
  }

  lemma PoseSlices(p: Platform, q: Pose)
    ensures var s := PoseBytes(p, q);
            && s[0..4] == p.f32(q.posX) && s[4..8] == p.f32(q.posY) && s[8..12] == p.f32(q.posZ) && s[12..16] == p.f32(q.yaw)
            && s[16..20] == p.f32(q.pitch) && s[20..24] == p.f32(q.velX) && s[24..28] == p.f32(q.velY) && s[28..32] == p.f32(q.velZ)
            && s[32] == (if q.grounded then 1 else 0) && s[33] == 0
  {
  }

  /** Every field of the pose can be found in the encoding, at its own place. */
  lemma EncodingHoldsPose(p: Platform, s: Session, c: Chunk, q: Pose, seqNo: byte, tag: Tag)
    ensures var m := Encode(p, s, c, q, seqNo, tag);
            && (if s.fmt == UE5 then HoldsState(p, m, q) else HoldsPose(p, m, q))
            && m[9..17] == I64(c.x) && m[17..25] == I64(c.y) && m[25..33] == I64(c.z) && m[|m| - 1] == seqNo
  {
    hide StateBytes, PoseBytes, HoldsState, HoldsPose;
    var m, pl := Encode(p, s, c, q, seqNo, tag), Payload(p, s.fmt, q);
    assert m[..68] == Header(s, c) && m[68..68 + |pl|] == pl;
    var hd, cb := Header(s, c), ChunkBytes(c);
    assert hd[9..33] == cb && cb[0..8] == I64(c.x) && cb[8..16] == I64(c.y) && cb[16..24] == I64(c.z);
    ChunkSlices(m, hd, cb);
    if s.fmt == UE5 {
      StatePlaced(p, m, q);
    } else {
      PosePlaced(p, m, q);
    }
  }

  lemma StatePlaced(p: Platform, m: Bytes, q: Pose)
    requires |m| == 197 && m[68..156] == [STATE_VERSION] + Zeros(7) + StateBytes(p, q) + Zeros(8)
    ensures HoldsState(p, m, q)
  {
    hide StateBytes;
    var st := StateBytes(p, q);
    StateSlices(p, q);
    assert m[68..156][0] == STATE_VERSION;
    assert m[68..156][8..80] == st;
    SliceOfSlice(m, 68, 156, 8, 80);
    assert m[76..148] == st;
    SliceOfSlice(m, 76, 148, 0, 8);
    SliceOfSlice(m, 76, 148, 8, 16);
    SliceOfSlice(m, 76, 148, 16, 24);
    SliceOfSlice(m, 76, 148, 24, 32);
    SliceOfSlice(m, 76, 148, 32, 40);
    SliceOfSlice(m, 76, 148, 40, 48);
    SliceOfSlice(m, 76, 148, 48, 56);
    SliceOfSlice(m, 76, 148, 56, 64);
    SliceOfSlice(m, 76, 148, 64, 72);
  }

  lemma PosePlaced(p: Platform, m: Bytes, q: Pose)
    requires |m| == 157 && m[68..116] == PoseBytes(p, q) + Zeros(2) + p.f64(q.updatedAtMs) + Zeros(4)
    ensures HoldsPose(p, m, q)
  {
    hide PoseBytes;
    var st := PoseBytes(p, q);
    PoseSlices(p, q);
    assert m[68..116][0..34] == st && m[68..116][36..44] == p.f64(q.updatedAtMs);
    SliceOfSlice(m, 68, 116, 0, 34);
    SliceOfSlice(m, 68, 116, 36, 44);
    assert m[68..102] == st;
    assert m[100] == m[68..102][32] && m[101] == m[68..102][33];
    SliceOfSlice(m, 68, 102, 0, 4);
    SliceOfSlice(m, 68, 102, 4, 8);
    SliceOfSlice(m, 68, 102, 8, 12);
    SliceOfSlice(m, 68, 102, 12, 16);
    SliceOfSlice(m, 68, 102, 16, 20);
    SliceOfSlice(m, 68, 102, 20, 24);
    SliceOfSlice(m, 68, 102, 24, 28);
    SliceOfSlice(m, 68, 102, 28, 32);
  }

  // ----- In place ----------------------------------------------------------------------

  /** `initActorUpdateTemplateFmt`. */
  method InitTemplateFmt(buf: array<byte>, s: Session)
    requires buf.Length == ACTOR_UPDATE_MAX_SIZE
    modifies buf
    ensures buf[..] == Template(s)
  {
    Clear(buf);
    Write(buf, 0, [ACTOR_UPDATE_REQUEST_2]);
    Write(buf, 1, I64(s.appId));
    Write(buf, 33, [s.distance]);
    Write(buf, 34, [s.decay]);
    Write(buf, 35, [1]);
    Write(buf, 36, s.uuid);
    if s.fmt == UE5 {
      Write(buf, HEADER_SIZE, [STATE_VERSION]);
    }
    Write(buf, TokenIdOffset(s.fmt), I64(s.tokenId));
  }

  method WriteChunk(buf: array<byte>, c: Chunk)
    requires buf.Length == ACTOR_UPDATE_MAX_SIZE
    modifies buf
    ensures buf[..] == PatchChunk(old(buf[..]), c)
  {
    Write(buf, 9, I64(c.x));
    Write(buf, 17, I64(c.y));
    Write(buf, 25, I64(c.z));
  }

  method WriteState(p: Platform, buf: array<byte>, q: Pose)
    requires buf.Length == ACTOR_UPDATE_MAX_SIZE
    modifies buf
    ensures buf[..] == PatchState(p, old(buf[..]), q)
  {
    Write(buf, HEADER_SIZE + 8, p.f64(q.posX));
    Write(buf, HEADER_SIZE + 16, p.f64(q.posY));
    Write(buf, HEADER_SIZE + 24, p.f64(q.posZ));
    Write(buf, HEADER_SIZE + 32, p.f64(q.pitch));
    Write(buf, HEADER_SIZE + 40, p.f64(q.yaw));
    Write(buf, HEADER_SIZE + 48, p.f64(q.roll));
    Write(buf, HEADER_SIZE + 56, p.f64(q.velX));
    Write(buf, HEADER_SIZE + 64, p.f64(q.velY));
    Write(buf, HEADER_SIZE + 72, p.f64(q.velZ));
  }

  method WritePose(p: Platform, buf: array<byte>, q: Pose)
    requires buf.Length == ACTOR_UPDATE_MAX_SIZE
    modifies buf
    ensures buf[..] == PatchPose(p, old(buf[..]), q)
  {
    Write(buf, HEADER_SIZE, p.f32(q.posX));
    Write(buf, HEADER_SIZE + 4, p.f32(q.posY));
    Write(buf, HEADER_SIZE + 8, p.f32(q.posZ));
    Write(buf, HEADER_SIZE + 12, p.f32(q.yaw));
    Write(buf, HEADER_SIZE + 16, p.f32(q.pitch));
    Write(buf, HEADER_SIZE + 20, p.f32(q.velX));
    Write(buf, HEADER_SIZE + 24, p.f32(q.velY));
    Write(buf, HEADER_SIZE + 28, p.f32(q.velZ));
    Write(buf, HEADER_SIZE + 32, [if q.grounded then 1 else 0]);
    Write(buf, HEADER_SIZE + 33, [0]);
    Write(buf, HEADER_SIZE + 36, p.f64(q.updatedAtMs));
  }

  /** `finalizeActorUpdateFmt`. */
  method FinalizeFmt(p: Platform, buf: array<byte>, fmt: PoseFormat, c: Chunk, q: Pose, seqNo: byte, token: Token)
    returns (ok: bool)
    requires buf.Length == ACTOR_UPDATE_MAX_SIZE
    modifies buf
    ensures Finalized(buf[..], ok) == Finalize(p, old(buf[..]), fmt, c, q, seqNo, token)
  {
    WriteChunk(buf, c);
    if fmt == BWF {
      WritePose(p, buf, q);
    } else {
      WriteState(p, buf, q);
    }
    Write(buf, SeqOffset(fmt), [seqNo]);
    var tag := Sign(p, buf[..HmacOffset(fmt)], token);
    assert buf[..HmacOffset(fmt)] == buf[..][..HmacOffset(fmt)];
    if tag.Some? {
      Write(buf, HmacOffset(fmt), tag.value);
    }
    ok := tag.Some?;
  }

  /** The older `initActorUpdateTemplate` gives the UE5 template byte for byte. */
  method InitTemplate(buf: array<byte>, uuid: Uuid, appId: int, tokenId: int, distance: byte, decay: byte)
    requires buf.Length == ACTOR_UPDATE_MAX_SIZE
    modifies buf
    ensures buf[..] == Template(Session(UE5, uuid, appId, tokenId, distance, decay))
  {
    Clear(buf);
    Write(buf, 0, [ACTOR_UPDATE_REQUEST_2]);
    Write(buf, 1, I64(appId));
    Write(buf, 33, [distance]);
    Write(buf, 34, [decay]);
    Write(buf, 35, [1]);
    Write(buf, 36, uuid);
    Write(buf, HEADER_SIZE, [STATE_VERSION]);
    Write(buf, 188, I64(tokenId));
  }

  /** The older `finalizeActorUpdate` gives the UE5 send byte for byte. */
  method FinalizeUE5(p: Platform, buf: array<byte>, c: Chunk, q: Pose, seqNo: byte, token: Token)
    returns (ok: bool)
    requires buf.Length == ACTOR_UPDATE_MAX_SIZE
    modifies buf
    ensures Finalized(buf[..], ok) == Finalize(p, old(buf[..]), UE5, c, q, seqNo, token)
  {
    Write(buf, 9, I64(c.x));
    Write(buf, 17, I64(c.y));
    Write(buf, 25, I64(c.z));
    WriteState(p, buf, q);
    Write(buf, 196, [seqNo]);
    var tag := Sign(p, buf[..156], token);
    assert buf[..156] == buf[..][..156];
    if tag.Some? {
      Write(buf, 156, tag.value);
    }
    ok := tag.Some?;
  }
}
