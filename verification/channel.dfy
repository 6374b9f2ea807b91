/** Constants, the three NR bands and the per-link channel formulas of the estimator. */
module Channel {

  /** Path-loss exponent; also the exponent of the distance-cubed power proxy. */
  const PATH_EXP: nat := 3
  const EARTH_R: real := 6371000.0
  const C_LIGHT: real := 299792458.0
  /** 4x4 MIMO, applied as a linear throughput multiplier. */
  const MIMO_STREAMS: real := 4.0

  const BS_RX_GAIN_DBI: real := 14.0
  const UE_TX_GAIN_DBI: real := 0.0
  const PARENT_RX_GAIN_DBI: real := 6.0

  /** A link distance of zero is replaced by this many metres before path loss. */
  const MIN_DISTANCE: real := 0.1
  /** Every linear SNR is raised to at least this before its capacity is computed. */
  const SNR_FLOOR: real := 0.01
  /** Threshold and divisor of the power formatter. */
  const MW_PER_W: real := 1000.0

  datatype Band = Band(tag: string, fc: real, bw: real, eirpDbm: real)

  /** The band table, in the order the estimator visits it. */
  const BANDS: seq<Band> := [
    Band("n77", 3.7e9, 200.0e6, 30.0),
    Band("n260", 39.0e9, 1600.0e6, 30.0),
    Band("n261", 28.0e9, 1600.0e6, 30.0)
  ]

  /** The floating-point transcendental functions the estimator calls, left uninterpreted:
      the arc term atan2(sqrt a, sqrt(1 - a)) of the haversine formula (from two points in
      degrees), 10^x and log2. */
  datatype Kernels = Kernels(
    centralAngle: (real, real, real, real) -> real,
    pow10: real -> real,
    log2: real -> real)

  /** What the model assumes of those library functions. */
  ghost predicate Sane(k: Kernels) {
    && (forall lat1, lon1, lat2, lon2 :: k.centralAngle(lat1, lon1, lat2, lon2) >= 0.0)
    && (forall x :: k.pow10(x) > 0.0)
    && (forall x :: x >= 1.0 ==> k.log2(x) >= 0.0)
    && (forall x, y :: 1.0 <= x <= y ==> k.log2(x) <= k.log2(y))
  }

  /** The normal noise generator, as a stream: the sample drawn at a given draw index for a
      given bandwidth. Each SNR evaluation consumes one draw. */
  type NoiseStream = (nat, real) -> real

  /** A continuous distribution never yields exactly zero. */
  ghost predicate NonZeroNoise(noise: NoiseStream) {
    forall i: nat, bw: real :: noise(i, bw) != 0.0
  }

  function Abs(x: real): real {
    if x < 0.0 then -x else x
  }

  /** Great-circle distance in metres between two points given in degrees. */
  function HaversineM(k: Kernels, lat1: real, lon1: real, lat2: real, lon2: real): (d: real)
    ensures Sane(k) ==> d >= 0.0
  {
    EARTH_R * 2.0 * k.centralAngle(lat1, lon1, lat2, lon2)
  }

  /** Linear power in watts of a level in dBm (referenced to 1 mW). */
  function DbmToW(k: Kernels, dbm: real): (w: real)
    ensures Sane(k) ==> w > 0.0
  {
    k.pow10((dbm - 30.0) / 10.0)
  }

  /** Who receives an uplink: the base station, or another UE acting as relay. */
  datatype Receiver = BaseStationRx | RelayRx

  /** Linear receive gain of a receiver. */
  function RxGain(k: Kernels, rx: Receiver): (g: real)
    ensures Sane(k) ==> g > 0.0
  {
    match rx
    case BaseStationRx => k.pow10(BS_RX_GAIN_DBI / 10.0)
    case RelayRx => k.pow10(PARENT_RX_GAIN_DBI / 10.0)
  }

  /** Linear transmit gain of every UE. */
  function UeTxGain(k: Kernels): (g: real)
    ensures Sane(k) ==> g > 0.0
  {
    k.pow10(UE_TX_GAIN_DBI / 10.0)
  }

  function Pow(x: real, n: nat): real {
    if n == 0 then 1.0 else x * Pow(x, n - 1)
  }

  lemma {:induction false} PowSign(x: real, n: nat)
    ensures x >= 0.0 ==> Pow(x, n) >= 0.0
    ensures x > 0.0 ==> Pow(x, n) > 0.0
    ensures x != 0.0 ==> Pow(x, n) != 0.0
  {
    if n > 0 {
      PowSign(x, n - 1);
    }
  }

  /** Cubic path loss d^3 / lambda^2 with lambda = c / fc. */
  function PathLoss(fc: real, d: real): (loss: real)
    requires fc != 0.0
    ensures d > 0.0 ==> loss > 0.0
    ensures d != 0.0 ==> loss != 0.0
  {
    var lambda := C_LIGHT / fc;
    PowSign(d, PATH_EXP);
    assert lambda * lambda > 0.0;
    Pow(d, PATH_EXP) / (lambda * lambda)
  }

  /** Received SNR of one link for one noise sample; a zero distance is clamped first, so the
      path loss is never zero. */
  function SnrRayleigh(pt: real, d: real, fc: real, gTx: real, gRx: real, noiseSample: real): real
    requires fc != 0.0 && noiseSample != 0.0
  {
    var dist := if d == 0.0 then MIN_DISTANCE else d;
    var prx := pt * gTx * gRx / PathLoss(fc, dist);
    prx / Abs(noiseSample)
  }

  /** Non-negative powers, gains and distances give a non-negative SNR. */
  lemma SnrNonNegative(pt: real, d: real, fc: real, gTx: real, gRx: real, noiseSample: real)
    requires fc != 0.0 && noiseSample != 0.0
    requires pt >= 0.0 && gTx >= 0.0 && gRx >= 0.0 && d >= 0.0
    ensures SnrRayleigh(pt, d, fc, gTx, gRx, noiseSample) >= 0.0
  {
    var dist := if d == 0.0 then MIN_DISTANCE else d;
    var loss := PathLoss(fc, dist);
    assert loss > 0.0;
    assert pt * gTx >= 0.0;
    assert pt * gTx * gRx >= 0.0;
    assert pt * gTx * gRx / loss >= 0.0;
  }

  lemma ZeroDistanceIsClamped(pt: real, fc: real, gTx: real, gRx: real, noiseSample: real)
    requires fc != 0.0 && noiseSample != 0.0
    ensures SnrRayleigh(pt, 0.0, fc, gTx, gRx, noiseSample)
         == SnrRayleigh(pt, MIN_DISTANCE, fc, gTx, gRx, noiseSample)
  {
  }

  /** The SNR actually fed to the capacity formula. */
  function FloorSnr(snr: real): (r: real)
    ensures r >= SNR_FLOOR
    ensures snr >= SNR_FLOOR ==> r == snr
    ensures snr < SNR_FLOOR ==> r == SNR_FLOOR
  {
    if snr >= SNR_FLOOR then snr else SNR_FLOOR
  }

  /** Shannon capacity in bit/s. */
  function Capacity(k: Kernels, bw: real, snr: real): real {
    bw * k.log2(1.0 + snr)
  }

  lemma CapacityNonNegative(k: Kernels, bw: real, snr: real)
    requires Sane(k) && bw >= 0.0 && snr >= 0.0
    ensures Capacity(k, bw, snr) >= 0.0
  {
    assert k.log2(1.0 + snr) >= 0.0;
  }

  lemma CapacityMonotoneInSnr(k: Kernels, bw: real, snr1: real, snr2: real)
    requires Sane(k) && bw >= 0.0 && 0.0 <= snr1 <= snr2
    ensures Capacity(k, bw, snr1) <= Capacity(k, bw, snr2)
  {
    var l1, l2 := k.log2(1.0 + snr1), k.log2(1.0 + snr2);
    assert l1 <= l2;
    assert bw * l1 <= bw * l2;
  }

  lemma CapacityMonotoneInBandwidth(k: Kernels, bw1: real, bw2: real, snr: real)
    requires Sane(k) && 0.0 <= bw1 <= bw2 && snr >= 0.0
    ensures Capacity(k, bw1, snr) <= Capacity(k, bw2, snr)
  {
    var l := k.log2(1.0 + snr);
    assert l >= 0.0;
    assert bw1 * l <= bw2 * l;
  }

  /** MIMO-scaled rate of one uplink from a UE at distance d, for one noise sample. */
  function LinkRate(k: Kernels, band: Band, pt: real, d: real, rx: Receiver, noiseSample: real): real
    requires band.fc != 0.0 && noiseSample != 0.0
  {
    var snr := FloorSnr(SnrRayleigh(pt, d, band.fc, UeTxGain(k), RxGain(k, rx), noiseSample));
    MIMO_STREAMS * Capacity(k, band.bw, snr)
  }

  /** Thanks to the SNR floor, every link rate is non-negative, whatever the sampled noise. */
  lemma LinkRateNonNegative(k: Kernels, band: Band, pt: real, d: real, rx: Receiver, noiseSample: real)
    requires band.fc != 0.0 && noiseSample != 0.0
    requires Sane(k) && band.bw >= 0.0
    ensures LinkRate(k, band, pt, d, rx, noiseSample) >= 0.0
  {
    var snr := FloorSnr(SnrRayleigh(pt, d, band.fc, UeTxGain(k), RxGain(k, rx), noiseSample));
    CapacityNonNegative(k, band.bw, snr);
  }

  /** The power proxy of one link: its length in kilometres, cubed. */
  function ProxyTerm(d: real): real {
    Pow(d / 1000.0, PATH_EXP)
  }

  lemma ProxyTermNonNegative(d: real)
    requires d >= 0.0
    ensures ProxyTerm(d) >= 0.0
  {
    PowSign(d / 1000.0, PATH_EXP);
  }

  /** A power value as the report shows it: in "mW" below 1000, otherwise in "W". */
  datatype PowerLabel = MilliWatts(amount: real) | Watts(amount: real)

  function LabelValue(shown: PowerLabel): real {
    match shown
    case MilliWatts(a) => a
    case Watts(a) => a * MW_PER_W
  }

  function FmtPower(p: real): (shown: PowerLabel)
    ensures shown.MilliWatts? <==> p < MW_PER_W
    ensures LabelValue(shown) == p
    ensures shown.Watts? ==> shown.amount >= 1.0
  {
    if p < MW_PER_W then MilliWatts(p) else Watts(p / MW_PER_W)
  }
}
