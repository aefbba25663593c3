/** The configuration fields that the simulation kernel reads. */
module Configuration {
  import opened Base

  datatype Source = Audio | Texture | Weight

  datatype QosTag = Critical | High | Normal

  datatype Policy = Fifo | Qos

  /** `compression.path`; any other string takes the guarded branch and changes nothing else. */
  datatype Compression = Uncompressed | InlineHw | Cpu | Unrecognised

  datatype LodSizes = LodSizes(lod0Mb: int, lod1Mb: int, lod2Mb: int)

  datatype RawConfig = RawConfig(
    bus: pos,                 // bytes per microsecond
    policy: Policy,
    quantumUs: pos,
    criticalPct: nat,         // critical rate limit, percent of the bus
    weightHigh: int,
    weightNormal: int,
    neuroDma: bool,           // dma.path == "neuro_dma"
    memcpy: pos,
    cyclesPerByte: nat,
    sglEntryBytes: pos,
    dmaSetupCycles: nat,
    compression: Compression,
    weightRatio: real,
    textureRatio: real,
    decompressorBw: int,
    hwSetupCycles: nat,
    cpuDecompressBw: int,
    cpuCyclesPerByte: nat,
    lodSizes: LodSizes)

  /** Bandwidth of a bounce transfer: two bus passes and one memory copy in series. */
  function BounceBw(c: RawConfig): int {
    c.bus * c.memcpy / (2 * c.memcpy + c.bus)
  }

  /** `static_cast<int>` of a bandwidth estimate, followed by the guard that lifts it to one. */
  function AtLeastOne(bandwidth: real): pos {
    if bandwidth.Floor <= 0 then 1 else bandwidth.Floor
  }

  function RatioFor(c: RawConfig, s: Source): real {
    if s == Weight then c.weightRatio else c.textureRatio
  }

  /** Bandwidth before compression is taken into account. */
  function PathBw(c: RawConfig, s: Source): int {
    if s == Weight && !c.neuroDma then BounceBw(c) else c.bus
  }

  /** Bandwidth of compressed bytes, counted uncompressed. */
  function Boosted(c: RawConfig, s: Source): real {
    PathBw(c, s) as real * RatioFor(c, s)
  }

  /** Effective bandwidth that `Scheduler::accept` gives to a transaction. */
  function EffectiveBw(c: RawConfig, s: Source): int {
    var base := PathBw(c, s);
    if s == Audio || c.compression == Uncompressed then base
    else match c.compression
      case InlineHw => AtLeastOne(RMin(Boosted(c, s), c.decompressorBw as real))
      case Cpu => AtLeastOne(RMin(Boosted(c, s), c.cpuDecompressBw as real))
      case _ => if base <= 0 then 1 else base
  }

  /** What the scheduler silently needs: an uncompressed bounce path must not round down to zero. */
  predicate Servable(c: RawConfig) {
    c.neuroDma || c.compression != Uncompressed || c.bus * c.memcpy >= 2 * c.memcpy + c.bus
  }

  lemma BounceBwPositive(c: RawConfig)
    ensures BounceBw(c) > 0 <==> c.bus * c.memcpy >= 2 * c.memcpy + c.bus
  {
    DivPositive(c.bus * c.memcpy, 2 * c.memcpy + c.bus);
  }

  /** The condition is exact: without it some weight transfer divides by a zero bandwidth. */
  lemma ServableIsExact(c: RawConfig)
    ensures Servable(c) <==> forall s: Source :: EffectiveBw(c, s) > 0
  {
    BounceBwPositive(c);
    assert EffectiveBw(c, Weight) > 0 <==> Servable(c);
    assert EffectiveBw(c, Audio) > 0 && EffectiveBw(c, Texture) > 0;
  }

  /** The configuration that ships with the program (`config.yaml`). */
  const SHIPPED: RawConfig :=
    RawConfig(16000, Qos, 100, 5, 2, 1, true, 12000, 3, 1048576, 1000, InlineHw, 2.0, 2.0,
              16000, 1000, 1500, 5, LodSizes(100, 30, 10))

  type Config = c: RawConfig | Servable(c) witness SHIPPED

  /** Service quantum of a transaction: one scatter-gather entry on the zero-copy path. */
  function QuantumFor(c: Config, s: Source): pos {
    if s == Weight && c.neuroDma then
      var q := CeilDiv(c.sglEntryBytes, c.bus);
      if q <= 0 then 1 else q
    else c.quantumUs
  }

  /** Bytes the bus moves in one default quantum; the unit in which picks are charged. */
  function QuantumBytes(c: Config): pos
  {
    MulPos(c.bus, c.quantumUs);
    c.bus * c.quantumUs
  }

  lemma MulPos(a: pos, b: pos)
    ensures a * b > 0
  {
  }
}
