/** The configuration values the modelled code reads (`Config.hpp`), as `validate` admits them. */
module Settings {
  import opened Bytes
  import opened Wire

  datatype Config = Config(
    appId: int,
    threads: nat,
    updateHz: nat,
    walkSpeedUnits: real,
    spawnRadiusChunks: nat,
    distance: byte,
    decay: byte,
    fmt: PoseFormat,
    chunkSizeUnits: real,
    volumeChunks: nat,
    volumeBaseUp: int,
    sparseRangeChunks: nat,
    permWindowRadiusChunks: nat,
    permReloadGraceMs: nat,
    rxSilentReassignSec: nat,
    clientCaps: bool,
    capsIntervalSec: int,
    tokenRefreshLeadSec: int)
  {
    /** Chunk edge in position units, resolved per pose format when unset. */
    function ChunkSize(): (s: real)
      ensures s > 0.0
    {
      if chunkSizeUnits > 0.0 then chunkSizeUnits else if fmt == BWF then 16.0 else 1600.0
    }

    function WalkSpeed(): (s: real)
      ensures s > 0.0
    {
      if walkSpeedUnits > 0.0 then walkSpeedUnits else if fmt == BWF then 4.0 else 150.0
    }

    predicate IsSparse() {
      sparseRangeChunks > 0
    }

    predicate IsCube() {
      !IsSparse() && volumeChunks > 0
    }
  }
}
