/** The synthesis engine of main.go: the coefficient reset, the
    per-output-sample state machine with its 8x supersampling loop, the
    streaming and file sinks, and the WAV export.

    Signal values and coefficients are ideal reals (float32/float64 rounding
    is not modelled); the integer counters, indices, clamps and the envelope
    are exact. math.Sin is the function `sin` the engine is built with, and
    the noise refill draws arbitrary values in [-1, 1). */
module Synth {
  import opened Bytes
  import opened Params

  const PI: real := 3.14159265
  /** Safety limit of ExportWAV: about ten seconds at 44.1 kHz. */
  const MaxSamples: int := 44100 * 10
  /** ExportWAV renders in chunks of this many samples. */
  const Chunk: int := 256

  function Sq(x: real): (r: real)
    ensures r >= 0.0
  {
    x * x
  }

  function Cube(x: real): real { x * x * x }

  function Abs(x: real): (r: real)
    ensures r >= 0.0
  {
    if x < 0.0 then -x else x
  }

  function Min(a: int, b: int): int { if a <= b then a else b }

  /** Clamps x to [lo, hi] the way the source does: first the lower bound,
      then the upper one. */
  function Clamp(x: real, lo: real, hi: real): (r: real)
    requires lo <= hi
    ensures lo <= r <= hi
    ensures lo <= x <= hi ==> r == x
    ensures x < lo ==> r == lo
    ensures x > hi ==> r == hi
  {
    var y := if x < lo then lo else x;
    if y > hi then hi else y
  }

  /** Every sample of s lies in [-1, 1]. */
  ghost predicate Clipped(s: seq<real>)
  {
    forall j :: 0 <= j < |s| ==> -1.0 <= s[j] <= 1.0
  }

  /** The sample clip used by both sinks: Clamp to [-1, 1]. The source tests
      the upper bound first, which gives the same value. */
  function Clip(x: real): (r: real)
    ensures -1.0 <= r <= 1.0
    ensures -1.0 <= x <= 1.0 ==> r == x
    ensures x > 1.0 ==> r == 1.0
    ensures x < -1.0 ==> r == -1.0
  {
    Clamp(x, -1.0, 1.0)
  }

  /** x & 1023, for the nonnegative operands the phaser uses. */
  function Mask1023(x: int): (r: int)
    requires x >= 0
    ensures 0 <= r < 1024
    ensures x < 1024 ==> r == x
  {
    x % 1024
  }

  // ---------------------------------------------------------------------
  // Derived coefficients computed by ResetSample (main.go:166-230)

  function BasePeriod(p: Params): (r: real)
    ensures r > 0.0
  {
    100.0 / (Sq(Value(p.baseFreq)) + 0.001)
  }

  function MaxPeriod(p: Params): (r: real)
    ensures r > 0.0
  {
    100.0 / (Sq(Value(p.freqLimit)) + 0.001)
  }

  function SlideFactor(p: Params): real { 1.0 - Cube(Value(p.freqRamp)) * 0.01 }
  function DeltaSlide(p: Params): real { -Cube(Value(p.freqDramp)) * 0.000001 }
  function StartDuty(p: Params): real { 0.5 - Value(p.duty) * 0.5 }
  function DutySlide(p: Params): real { -Value(p.dutyRamp) * 0.00005 }

  function ArpMultiplier(p: Params): real
  {
    var m := Value(p.arpMod);
    if m >= 0.0 then 1.0 - Sq(m) * 0.9 else 1.0 + Sq(m) * 10.0
  }

  /** The arpeggio countdown limit; 0 means the arpeggio never fires. */
  function ArpLimit(p: Params): (r: int)
    ensures r == 0 <==> Value(p.arpSpeed) == 1.0
    ensures r != 0 ==> r >= 32
  {
    var limit := Trunc(Sq(1.0 - Value(p.arpSpeed)) * 20000.0 + 32.0);
    if Value(p.arpSpeed) == 1.0 then 0 else limit
  }

  /** The repeat countdown limit; 0 means the note is never re-triggered. */
  function RepeatLimit(p: Params): (r: int)
    ensures r == 0 <==> Value(p.repeatSpeed) == 0.0
    ensures r != 0 ==> r >= 32
  {
    var limit := Trunc(Sq(1.0 - Value(p.repeatSpeed)) * 20000.0 + 32.0);
    if Value(p.repeatSpeed) == 0.0 then 0 else limit
  }

  /** The three envelope stage lengths, in output samples. */
  function EnvLengths(p: Params): (r: seq<int>)
    ensures |r| == 3 && r[0] >= 0 && r[1] >= 0 && r[2] >= 0
  {
    [Trunc(Sq(Value(p.envAttack)) * 100000.0),
     Trunc(Sq(Value(p.envSustain)) * 100000.0),
     Trunc(Sq(Value(p.envDecay)) * 100000.0)]
  }

  /** The number of output samples from a trigger to the end of the envelope. */
  function EnvTotal(p: Params): int
  {
    var l := EnvLengths(p);
    l[0] + l[1] + l[2] + 3
  }

  function LpfCutoff(p: Params): real { Cube(Value(p.lpfFreq)) * 0.1 }
  function LpfSweep(p: Params): real { 1.0 + Value(p.lpfRamp) * 0.0001 }

  function LpfDamping(p: Params): (r: real)
    ensures r <= 0.8
  {
    var d := 5.0 / (1.0 + Sq(Value(p.lpfResonance)) * 20.0) * (0.01 + LpfCutoff(p));
    if d > 0.8 then 0.8 else d
  }

  function HpfCutoff(p: Params): real { Sq(Value(p.hpfFreq)) * 0.1 }
  function HpfSweep(p: Params): real { 1.0 + Value(p.hpfRamp) * 0.0003 }
  function VibSpeed(p: Params): real { Sq(Value(p.vibSpeed)) * 0.01 }
  function VibAmp(p: Params): real { Value(p.vibStrength) * 0.5 }

  function PhaserOffset(p: Params): real
  {
    var o := Sq(Value(p.phaOffset)) * 1020.0;
    if Value(p.phaOffset) < 0.0 then -o else o
  }

  function PhaserSweep(p: Params): real
  {
    var d := Sq(Value(p.phaRamp));
    if Value(p.phaRamp) < 0.0 then -d else d
  }

  // ---------------------------------------------------------------------
  // The envelope as a countdown

  /** Output samples left until the envelope reaches stage 3, from stage
      `stage` with `time` samples spent in it: a stage of length L lasts L + 1
      samples. */
  function Remaining(stage: int, time: int, len: seq<int>): int
    requires |len| == 3 && 0 <= stage <= 3
    decreases 3 - stage
  {
    if stage == 3 then 0 else len[stage] + 1 - time + Remaining(stage + 1, 0, len)
  }

  predicate EnvInRange(stage: int, time: int, len: seq<int>)
  {
    |len| == 3 && len[0] >= 0 && len[1] >= 0 && len[2] >= 0 &&
    0 <= stage <= 3 && 0 <= time && (stage < 3 ==> time <= len[stage])
  }

  /** The countdown is never negative, is positive before stage 3 and is 0 at it. */
  lemma {:induction false} RemainingBounds(stage: int, time: int, len: seq<int>)
    requires EnvInRange(stage, time, len)
    ensures Remaining(stage, time, len) >= 0
    ensures stage < 3 <==> Remaining(stage, time, len) > 0
    decreases 3 - stage
  {
    if stage < 3 {
      RemainingBounds(stage + 1, 0, len);
    }
  }

  /** From a fresh trigger the envelope takes L0 + L1 + L2 + 3 samples. */
  lemma RemainingFromStart(len: seq<int>)
    requires |len| == 3
    ensures Remaining(0, 0, len) == len[0] + len[1] + len[2] + 3
  {
    assert Remaining(3, 0, len) == 0;
  }

  /** The envelope moved on by exactly one output sample: its stage did
      not go back and one sample less remains until stage 3. */
  predicate EnvAdvanced(e0: Envelope, e1: Envelope)
  {
    && EnvInRange(e0.stage, e0.time, e0.length) && EnvInRange(e1.stage, e1.time, e1.length)
    && e1.length == e0.length && e0.stage <= e1.stage
    && Remaining(e1.stage, e1.time, e1.length) == Remaining(e0.stage, e0.time, e0.length) - 1
  }

  /** The fraction of an envelope stage that has elapsed. The source divides
      by the stage length even when that length is 0 (0/0 on the first sample
      of an empty sustain or decay stage); here that fraction is 0. */
  function Fraction(time: int, len: int): (r: real)
    requires 0 <= time <= len
    ensures 0.0 <= r <= 1.0
    ensures 0 < time ==> 0.0 < r
    ensures time == len ==> r == (if len == 0 then 0.0 else 1.0)
  {
    if len == 0 then 0.0 else RatioBounds(time as real, len as real); (time as real) / (len as real)
  }

  /** A ratio of a part to a positive whole lies in [0, 1]. */
  lemma RatioBounds(a: real, b: real)
    requires 0.0 <= a <= b && 0.0 < b
    ensures 0.0 <= a / b <= 1.0
    ensures 0.0 < a ==> 0.0 < a / b
    ensures a == b ==> a / b == 1.0
  {
    var inv := 1.0 / b;
    assert inv > 0.0;
    assert a / b == a * inv;
    assert 1.0 - a / b == (b - a) * inv;
    assert (b - a) * inv >= 0.0;
  }

  // ---------------------------------------------------------------------
  // The synthesis state, grouped as the source groups its globals

  /** Oscillator period (in subsamples), its ceiling, the slide and its delta. */
  datatype Slide = Slide(fperiod: real, fmaxperiod: real, fslide: real, fdslide: real)
  /** square_duty and square_slide. */
  datatype Duty = Duty(square: real, slide: real)
  /** arp_mod, arp_time, arp_limit. */
  datatype Arpeggio = Arpeggio(mult: real, time: int, limit: int)
  /** rep_time, rep_limit. */
  datatype Repeat = Repeat(time: int, limit: int)
  /** vib_phase, vib_speed, vib_amp. */
  datatype Vibrato = Vibrato(phase: real, speed: real, amp: real)
  /** env_stage, env_time, env_length, env_vol. */
  datatype Envelope = Envelope(stage: int, time: int, length: seq<int>, vol: real)
  /** fphase, fdphase, iphase and the write index ipp of the delay line. */
  datatype Phaser = Phaser(fphase: real, fdphase: real, iphase: int, ipp: int)
  /** The low-pass state fltp, fltdp, its coefficients fltw, fltw_d, fltdmp,
      and the high-pass state fltphp with its coefficients flthp, flthp_d. */
  datatype Filter = Filter(p: real, dp: real, w: real, wD: real, dmp: real,
                           php: real, hp: real, hpD: real)
  /** file_sampleswritten, filesample, fileacc. */
  datatype Sink = Sink(written: int, sample: real, acc: int)

  /** The base waveform at a phase of the current period. */
  function Waveform(waveType: int, phase: int, period: int, duty: real, noise: seq<real>,
                    sin: real -> real): (r: real)
    requires 0 <= phase < period && |noise| == 32
    ensures waveType == 0 ==> r == 0.5 || r == -0.5
    ensures waveType == 1 ==> -1.0 < r <= 1.0
    ensures waveType == 3 ==> exists k :: 0 <= k < 32 && r == noise[k]
    ensures !(0 <= waveType <= 3) ==> r == 0.0
  {
    var fp := (phase as real) / (period as real);
    PhaseFraction(phase, period);
    if waveType == 0 then (if fp < duty then 0.5 else -0.5)
    else if waveType == 1 then 1.0 - fp * 2.0
    else if waveType == 2 then sin(fp * 2.0 * PI)
    else if waveType == 3 then NoiseIndex(phase, period); noise[phase * 32 / period]
    else 0.0
  }

  lemma PhaseFraction(phase: int, period: int)
    requires 0 <= phase < period
    ensures 0.0 <= (phase as real) / (period as real) < 1.0
  {
    var fp := (phase as real) / (period as real);
    assert fp * (period as real) == phase as real;
  }

  /** The noise table index phase*32/period lies in [0, 31]. */
  lemma NoiseIndex(phase: int, period: int)
    requires 0 <= phase < period
    ensures 0 <= phase * 32 / period < 32
  {
    var q := phase * 32 / period;
    assert q * period <= phase * 32 < 32 * period;
  }

  lemma MulBound(a: real, b: real)
    requires 0.0 <= a <= 1.0 && 0.0 <= b
    ensures 0.0 <= a * b <= b
  {
    assert (1.0 - a) * b >= 0.0;
  }

  /** One output sample of the volume envelope, with `punch` the sustain
      punch parameter. A stage of length L lasts L + 1 samples; the volume
      ramps up during attack, starts at 1 + 2 * punch and falls back to 1
      during sustain, ramps down during decay, and is left as it was when
      stage 3 (the end of the note) is reached. */
  function NextEnvelope(e: Envelope, punch: real): (r: Envelope)
    requires EnvInRange(e.stage, e.time, e.length) && e.stage < 3
    ensures EnvInRange(r.stage, r.time, r.length)
    ensures r.length == e.length
    ensures Remaining(r.stage, r.time, r.length) == Remaining(e.stage, e.time, e.length) - 1
    ensures r.stage == e.stage ==> r.time == e.time + 1
    ensures r.stage != e.stage ==> r.stage == e.stage + 1 && r.time == 0
    ensures r.stage == 0 ==> 0.0 < r.vol <= 1.0 && r.vol == Fraction(r.time, e.length[0])
    ensures r.stage == 1 ==> r.vol == 1.0 + (1.0 - Fraction(r.time, e.length[1])) * 2.0 * punch
    ensures r.stage == 1 && punch >= 0.0 ==> 1.0 <= r.vol <= 1.0 + 2.0 * punch
    ensures r.stage == 2 ==> 0.0 <= r.vol <= 1.0 && r.vol == 1.0 - Fraction(r.time, e.length[2])
    ensures r.stage == 3 ==> r.vol == e.vol
  {
    var next := e.time + 1 > e.length[e.stage];
    assert Remaining(e.stage, e.time, e.length) == e.length[e.stage] + 1 - e.time + Remaining(e.stage + 1, 0, e.length);
    var stage := if next then e.stage + 1 else e.stage;
    var time := if next then 0 else e.time + 1;
    var vol :=
      if stage == 0 then Fraction(time, e.length[0])
      else if stage == 1 then 1.0 + (1.0 - Fraction(time, e.length[1])) * 2.0 * punch
      else if stage == 2 then 1.0 - Fraction(time, e.length[2])
      else e.vol;
    if stage == 1 && punch >= 0.0 then
      MulBound(1.0 - Fraction(time, e.length[1]), 2.0 * punch);
      Envelope(stage, time, e.length, vol)
    else
      Envelope(stage, time, e.length, vol)
  }

  /** One subsample through the low-pass filter (bypassed when the cutoff
      parameter is exactly 1.0) and then the high-pass filter, whose output
      is the new `php`. */
  function FilterStep(f: Filter, sample: real, bypass: bool): (r: Filter)
    ensures 0.0 <= r.w <= 0.1
    ensures bypass ==> r.p == sample && r.dp == 0.0
    ensures r.wD == f.wD && r.dmp == f.dmp && r.hp == f.hp && r.hpD == f.hpD
    ensures f.hp == 0.0 ==> r.php - f.php == r.p - f.p
  {
    var w := Clamp(f.w * f.wD, 0.0, 0.1);
    var dp1 := f.dp + (sample - f.p) * w;
    var dp := if bypass then 0.0 else dp1 - dp1 * f.dmp;
    var p := (if bypass then sample else f.p) + dp;
    var php1 := f.php + p - f.p;
    Filter(p, dp, w, f.wD, f.dmp, php1 - php1 * f.hp, f.hp, f.hpD)
  }

  // ---------------------------------------------------------------------
  // The file sink's quantized samples

  /** A flushed sample: a signed 16-bit value in [-32000, 32000] or an
      unsigned 8-bit value in [1, 255]. */
  predicate PcmValue(v: int, bits: int)
  {
    if bits == 16 then -32000 <= v <= 32000 else 1 <= v <= 255
  }

  /** The level the file sink accumulates for one output sample: amplified
      by 4 and clipped, after the streaming clip when a buffer is also given. */
  function FileLevel(s: real, buffered: bool): (r: real)
    ensures -1.0 <= r <= 1.0
  {
    Clip((if buffered then Clip(s) else s) * 4.0)
  }

  /** int16(x * 32000) or uint8(x * 127 + 128) of a level in [-1, 1]. */
  function Quantize(x: real, bits: int): (v: int)
    requires -1.0 <= x <= 1.0
    ensures PcmValue(v, bits)
    ensures x == 0.0 ==> v == (if bits == 16 then 0 else 128)
  {
    if bits == 16 then Trunc(x * 32000.0) else Trunc(x * 127.0 + 128.0)
  }

  /** Quantization preserves the order of levels. */
  lemma QuantizeMonotone(x: real, y: real, bits: int)
    requires -1.0 <= x <= y <= 1.0
    ensures Quantize(x, bits) <= Quantize(y, bits)
  {
    if bits == 16 {
      TruncMonotone(x * 32000.0, y * 32000.0);
    } else {
      TruncMonotone(x * 127.0 + 128.0, y * 127.0 + 128.0);
    }
  }

  /** binary.Write of one int16 or uint8 sample (the low bits of v). */
  function PcmSample(v: int, bits: int): (r: seq<byte>)
    ensures |r| == (if bits == 16 then 2 else 1)
    ensures bits != 16 && PcmValue(v, bits) ==> r == [v]
  {
    if bits == 16 then I16LE(v) else [v % 0x100]
  }

  /** A 16-bit sample reads back as the value written. */
  lemma PcmSampleRoundTrip(v: int)
    requires PcmValue(v, 16)
    ensures ReadI16LE(PcmSample(v, 16), 0) == v
  {
    I16RoundTrip(v);
  }

  function PcmBytes(vals: seq<int>, bits: int): (r: seq<byte>)
    ensures |r| == (if bits == 16 then 2 * |vals| else |vals|)
  {
    if vals == [] then [] else PcmSample(vals[0], bits) + PcmBytes(vals[1..], bits)
  }

  lemma {:induction false} PcmBytesAppend(a: seq<int>, b: seq<int>, bits: int)
    ensures PcmBytes(a + b, bits) == PcmBytes(a, bits) + PcmBytes(b, bits)
  {
    if a == [] {
      assert a + b == b;
    } else {
      assert (a + b)[1..] == a[1..] + b;
      PcmBytesAppend(a[1..], b, bits);
    }
  }

  /** The file sink's bookkeeping for one output sample of the given level:
      the new sink and the values it flushes (main.go:395-408). */
  function Accumulate(s: Sink, level: real, freq: int, bits: int): (Sink, seq<int>)
    requires s.acc == 0 || s.acc == 1
    requires (s.acc == 0 ==> s.sample == 0.0) && -1.0 <= s.sample <= 1.0 && -1.0 <= level <= 1.0
  {
    var total := s.sample + level;
    var acc := s.acc + 1;
    if freq == 44100 || acc == 2 then
      (Sink(s.written + 1, 0.0, 0), [Quantize(total / (acc as real), bits)])
    else
      (Sink(s.written + 1, total, acc), [])
  }

  /** At 44100 Hz every sample is flushed on its own, quantized as is. */
  lemma AccumulateFull(s: Sink, level: real, bits: int)
    requires s.acc == 0 && s.sample == 0.0 && -1.0 <= level <= 1.0
    ensures Accumulate(s, level, 44100, bits) == (Sink(s.written + 1, 0.0, 0), [Quantize(level, bits)])
  {
    assert (s.sample + level) / (1 as real) == level;
  }

  /** At 22050 Hz two consecutive samples are flushed as one, the quantized
      mean of their levels. */
  lemma AccumulatePair(s: Sink, a: real, b: real, freq: int, bits: int)
    requires freq != 44100
    requires s.acc == 0 && s.sample == 0.0 && -1.0 <= a <= 1.0 && -1.0 <= b <= 1.0
    ensures var (s1, f1) := Accumulate(s, a, freq, bits);
      && f1 == [] && s1.acc == 1
      && var (s2, f2) := Accumulate(s1, b, freq, bits);
         f2 == [Quantize((a + b) / 2.0, bits)] && s2 == Sink(s.written + 2, 0.0, 0)
  {
    var (s1, f1) := Accumulate(s, a, freq, bits);
    assert s1 == Sink(s.written + 1, a, 1) && f1 == [];
    assert (a + b) / (2 as real) == (a + b) / 2.0;
  }

  /** Writing what Accumulate flushes advances the file sink by one sample. */
  lemma AccumulateAdvances(s0: Sink, level: real, freq: int, bits: int,
                           c0: seq<byte>, p0: nat, contents: seq<byte>, pos: nat)
    requires s0.acc == 0 || s0.acc == 1
    requires (s0.acc == 0 ==> s0.sample == 0.0) && -1.0 <= s0.sample <= 1.0 && -1.0 <= level <= 1.0
    requires var (_, flushed) := Accumulate(s0, level, freq, bits);
      contents == WriteAt(c0, p0, PcmBytes(flushed, bits)) && pos == p0 + |PcmBytes(flushed, bits)|
    ensures var (s, flushed) := Accumulate(s0, level, freq, bits);
      SinkAdvanced(freq, bits, c0, p0, s0, 1, flushed, s, contents, pos)
  {
  }

  /** The file sink after n output samples: starting from sink s0 and a
      file holding c0 with its offset at p0, it has counted n samples,
      flushed the values `flushed` (one per sample at 44100 Hz, one per pair
      at 22050 Hz) and written them as PCM at p0, leaving sink s. */
  ghost predicate SinkAdvanced(freq: int, bits: int, c0: seq<byte>, p0: nat, s0: Sink, n: nat,
                               flushed: seq<int>, s: Sink, contents: seq<byte>, pos: nat)
  {
    && (s0.acc == 0 || s0.acc == 1)
    && s.written == s0.written + n
    && (forall j :: 0 <= j < |flushed| ==> PcmValue(flushed[j], bits))
    && (freq == 44100 ==> |flushed| == n && (n > 0 ==> s.acc == 0) && (n == 0 ==> s.acc == s0.acc))
    && (freq != 44100 ==> |flushed| == (s0.acc + n) / 2 && s.acc == (s0.acc + n) % 2)
    && contents == WriteAt(c0, p0, PcmBytes(flushed, bits))
    && pos == p0 + |PcmBytes(flushed, bits)|
  }

  /** Zero samples leave the sink and the file as they were. */
  lemma SinkStart(freq: int, bits: int, c0: seq<byte>, p0: nat, s0: Sink)
    requires s0.acc == 0 || s0.acc == 1
    ensures SinkAdvanced(freq, bits, c0, p0, s0, 0, [], s0, c0, p0)
  {
  }

  /** Rendering n samples and then m more is rendering n + m samples. */
  lemma SinkCompose(freq: int, bits: int, c0: seq<byte>, p0: nat, s0: Sink, n: nat, a: seq<int>,
                    s1: Sink, c1: seq<byte>, p1: nat, m: nat, b: seq<int>, s2: Sink, c2: seq<byte>, p2: nat)
    requires s0.acc == 0 || s0.acc == 1
    requires SinkAdvanced(freq, bits, c0, p0, s0, n, a, s1, c1, p1)
    requires SinkAdvanced(freq, bits, c1, p1, s1, m, b, s2, c2, p2)
    ensures SinkAdvanced(freq, bits, c0, p0, s0, n + m, a + b, s2, c2, p2)
  {
    PcmBytesAppend(a, b, bits);
    WriteAtTwice(c0, p0, PcmBytes(a, bits), PcmBytes(b, bits));
    assert forall j :: 0 <= j < |a + b| ==> (a + b)[j] == if j < |a| then a[j] else b[j - |a|];
    if freq != 44100 {
      var t := s0.acc + n;
      assert t == 2 * (t / 2) + t % 2;
      assert |a + b| == (t + m) / 2;
    }
  }

  /** The 12-byte RIFF chunk header with the remaining-file-size field. */
  function RiffHeader(riffSize: u32): (h: seq<byte>)
    ensures |h| == 12
  {
    Tag("RIFF") + U32LE(riffSize) + Tag("WAVE")
  }

  /** The 24-byte "fmt " chunk: uncompressed PCM, one channel. */
  function FmtChunk(freq: int, bits: int): (h: seq<byte>)
    requires freq == 22050 || freq == 44100
    requires bits == 8 || bits == 16
    ensures |h| == 24
  {
    FmtHead() + FmtRates(freq, bits)
  }

  /** The fixed part of the "fmt " chunk: tag, chunk size 16, PCM, mono. */
  function FmtHead(): (h: seq<byte>)
    ensures |h| == 12
  {
    Tag("fmt ") + U32LE(16) + U16LE(1) + U16LE(1)
  }

  /** The rate-dependent part: sample rate, byte rate, block align, bits. */
  function FmtRates(freq: int, bits: int): (h: seq<byte>)
    requires freq == 22050 || freq == 44100
    requires bits == 8 || bits == 16
    ensures |h| == 12
  {
    U32LE(freq) + U32LE(freq * bits / 8) + U16LE(bits / 8) + U16LE(bits)
  }

  /** The 8-byte "data" chunk header with the payload size field. */
  function DataHeader(dataSize: u32): (h: seq<byte>)
    ensures |h| == 8
  {
    Tag("data") + U32LE(dataSize)
  }

  /** The 44-byte RIFF/WAVE header ExportWAV writes, with the given RIFF and
      data chunk sizes. */
  function WavHeader(freq: int, bits: int, riffSize: u32, dataSize: u32): (h: seq<byte>)
    requires freq == 22050 || freq == 44100
    requires bits == 8 || bits == 16
    ensures |h| == 44
  {
    RiffHeader(riffSize) + FmtChunk(freq, bits) + DataHeader(dataSize)
  }

  /** The size fields of the chunk headers read back as written. */
  lemma ChunkSizes(riffSize: u32, dataSize: u32)
    ensures ReadU32LE(RiffHeader(riffSize), 4) == riffSize
    ensures ReadU32LE(DataHeader(dataSize), 4) == dataSize
  {
    U32RoundTrip(riffSize);
    U32RoundTrip(dataSize);
    var r := RiffHeader(riffSize);
    assert r[4..8] == U32LE(riffSize);
    var d := DataHeader(dataSize);
    assert d[4..8] == U32LE(dataSize);
  }

  /** Reading inside a prefix is not affected by what follows it. */
  lemma ReadInPrefix(p: seq<byte>, b: seq<byte>, off: nat)
    requires off + 2 <= |p|
    ensures ReadU16LE(p + b, off) == ReadU16LE(p, off)
    ensures off + 4 <= |p| ==> ReadU32LE(p + b, off) == ReadU32LE(p, off)
  {
  }

  /** A field appended last reads back at its offset. */
  lemma ReadLast(a: seq<byte>, x: u32, y: u16)
    ensures ReadU32LE(a + U32LE(x), |a|) == x
    ensures ReadU16LE(a + U16LE(y), |a|) == y
  {
    U32RoundTrip(x);
    assert (a + U32LE(x))[|a|..] == U32LE(x);
    assert (a + U16LE(y))[|a|..] == U16LE(y);
  }

  /** Reading past a prefix reads what follows it. */
  lemma ReadAfter(a: seq<byte>, b: seq<byte>, off: nat)
    requires off + 2 <= |b|
    ensures ReadU16LE(a + b, |a| + off) == ReadU16LE(b, off)
    ensures off + 4 <= |b| ==> ReadU32LE(a + b, |a| + off) == ReadU32LE(b, off)
  {
  }

  /** The fixed format fields read back as written. */
  lemma HeadFields()
    ensures var h := FmtHead();
      ReadU32LE(h, 4) == 16 && ReadU16LE(h, 8) == 1 && ReadU16LE(h, 10) == 1
  {
    var p1 := Tag("fmt ");
    var p2 := p1 + U32LE(16);
    var p3 := p2 + U16LE(1);
    ReadLast(p1, 16, 0);
    ReadLast(p2, 0, 1);
    ReadLast(p3, 0, 1);
    ReadInPrefix(p2, U16LE(1), 4);
    ReadInPrefix(p3, U16LE(1), 4);
    ReadInPrefix(p3, U16LE(1), 8);
  }

  /** The rate-dependent format fields read back as written. */
  lemma RatesFields(freq: int, bits: int)
    requires freq == 22050 || freq == 44100
    requires bits == 8 || bits == 16
    ensures var h := FmtRates(freq, bits);
      && ReadU32LE(h, 0) == freq && ReadU32LE(h, 4) == freq * bits / 8
      && ReadU16LE(h, 8) == bits / 8 && ReadU16LE(h, 10) == bits
  {
    var p1 := U32LE(freq);
    var p2 := p1 + U32LE(freq * bits / 8);
    var p3 := p2 + U16LE(bits / 8);
    U32RoundTrip(freq);
    ReadLast(p1, freq * bits / 8, 0);
    ReadLast(p2, 0, bits / 8);
    ReadLast(p3, 0, bits);
    ReadInPrefix(p2, U16LE(bits / 8), 0);
    ReadInPrefix(p3, U16LE(bits), 0);
    ReadInPrefix(p2, U16LE(bits / 8), 4);
    ReadInPrefix(p3, U16LE(bits), 4);
    ReadInPrefix(p3, U16LE(bits), 8);
  }

  /** The format fields read back as written. */
  lemma FmtFields(freq: int, bits: int)
    requires freq == 22050 || freq == 44100
    requires bits == 8 || bits == 16
    ensures var h := FmtChunk(freq, bits);
      && ReadU32LE(h, 4) == 16 && ReadU16LE(h, 8) == 1 && ReadU16LE(h, 10) == 1
      && ReadU32LE(h, 12) == freq && ReadU32LE(h, 16) == freq * bits / 8
      && ReadU16LE(h, 20) == bits / 8 && ReadU16LE(h, 22) == bits
  {
    var a, b := FmtHead(), FmtRates(freq, bits);
    HeadFields();
    RatesFields(freq, bits);
    ReadInPrefix(a, b, 4);
    ReadInPrefix(a, b, 8);
    ReadInPrefix(a, b, 10);
    ReadAfter(a, b, 0);
    ReadAfter(a, b, 4);
    ReadAfter(a, b, 8);
    ReadAfter(a, b, 10);
  }

  /** What a reader of the whole header finds at each offset. */
  lemma WavHeaderLayout(freq: int, bits: int, riffSize: u32, dataSize: u32)
    requires freq == 22050 || freq == 44100
    requires bits == 8 || bits == 16
    ensures var h := WavHeader(freq, bits, riffSize, dataSize);
      && h[0..4] == Tag("RIFF") && ReadU32LE(h, 4) == riffSize && h[8..12] == Tag("WAVE")
      && h[12..16] == Tag("fmt ") && ReadU32LE(h, 16) == 16
      && ReadU16LE(h, 20) == 1 && ReadU16LE(h, 22) == 1
      && ReadU32LE(h, 24) == freq && ReadU32LE(h, 28) == freq * bits / 8
      && ReadU16LE(h, 32) == bits / 8 && ReadU16LE(h, 34) == bits
      && h[36..40] == Tag("data") && ReadU32LE(h, 40) == dataSize
  {
    WavHeaderChunks(freq, bits, riffSize, dataSize);
    WavHeaderFormat(freq, bits, riffSize, dataSize);
  }

  /** The tags and the two size fields of the header. */
  lemma WavHeaderChunks(freq: int, bits: int, riffSize: u32, dataSize: u32)
    requires freq == 22050 || freq == 44100
    requires bits == 8 || bits == 16
    ensures var h := WavHeader(freq, bits, riffSize, dataSize);
      && h[0..4] == Tag("RIFF") && ReadU32LE(h, 4) == riffSize && h[8..12] == Tag("WAVE")
      && h[12..16] == Tag("fmt ") && h[36..40] == Tag("data") && ReadU32LE(h, 40) == dataSize
  {
    var r, f, d := RiffHeader(riffSize), FmtChunk(freq, bits), DataHeader(dataSize);
    var h := WavHeader(freq, bits, riffSize, dataSize);
    ChunkSizes(riffSize, dataSize);
    ReadInPrefix(r, f, 4);
    ReadInPrefix(r + f, d, 4);
    ReadAfter(r + f, d, 4);
    assert h[..12] == r && h[12..36] == f && h[36..] == d;
    assert h[0..4] == r[..4] == Tag("RIFF");
    assert h[8..12] == r[8..] == Tag("WAVE");
    assert h[12..16] == f[..4] == Tag("fmt ");
    assert h[36..40] == d[..4] == Tag("data");
  }

  /** The format fields of the header. */
  lemma WavHeaderFormat(freq: int, bits: int, riffSize: u32, dataSize: u32)
    requires freq == 22050 || freq == 44100
    requires bits == 8 || bits == 16
    ensures var h := WavHeader(freq, bits, riffSize, dataSize);
      && ReadU32LE(h, 16) == 16 && ReadU16LE(h, 20) == 1 && ReadU16LE(h, 22) == 1
      && ReadU32LE(h, 24) == freq && ReadU32LE(h, 28) == freq * bits / 8
      && ReadU16LE(h, 32) == bits / 8 && ReadU16LE(h, 34) == bits
  {
    var r, f, d := RiffHeader(riffSize), FmtChunk(freq, bits), DataHeader(dataSize);
    FmtFields(freq, bits);
    ReadAfter(r, f, 4);
    ReadAfter(r, f, 8);
    ReadAfter(r, f, 10);
    ReadAfter(r, f, 12);
    ReadAfter(r, f, 16);
    ReadAfter(r, f, 20);
    ReadAfter(r, f, 22);
    ReadInPrefix(r + f, d, 16);
    ReadInPrefix(r + f, d, 20);
    ReadInPrefix(r + f, d, 22);
    ReadInPrefix(r + f, d, 24);
    ReadInPrefix(r + f, d, 28);
    ReadInPrefix(r + f, d, 32);
    ReadInPrefix(r + f, d, 34);
  }

  /** Overwriting the two size fields of a header leaves the payload alone. */
  lemma PatchHeader(payload: seq<byte>, freq: int, bits: int, riffSize: u32, dataSize: u32)
    requires freq == 22050 || freq == 44100
    requires bits == 8 || bits == 16
    ensures var c := WavHeader(freq, bits, 0, 0) + payload;
      WriteAt(WriteAt(c, 4, U32LE(riffSize)), 40, U32LE(dataSize))
        == WavHeader(freq, bits, riffSize, dataSize) + payload
  {
    var f := FmtChunk(freq, bits);
    PatchRiff(f, 0, riffSize, U32LE(0), payload);
    PatchData(f, riffSize, 0, dataSize, payload);
  }

  /** The first write of PatchHeader: the RIFF size field. */
  lemma PatchRiff(f: seq<byte>, r0: u32, r1: u32, v: seq<byte>, payload: seq<byte>)
    ensures var t, w, d := Tag("RIFF"), Tag("WAVE"), Tag("data");
      WriteAt(t + U32LE(r0) + w + f + (d + v) + payload, 4, U32LE(r1))
        == t + U32LE(r1) + w + f + (d + v) + payload
  {
    var t, w, d := Tag("RIFF"), Tag("WAVE"), Tag("data");
    var rest := w + f + (d + v) + payload;
    Regroup(t, U32LE(r0), w, f, d, v, payload);
    Regroup(t, U32LE(r1), w, f, d, v, payload);
    WriteOver(t, U32LE(r0), rest, U32LE(r1));
  }

  /** The second write of PatchHeader: the data chunk size field. */
  lemma PatchData(f: seq<byte>, r: u32, d0: u32, d1: u32, payload: seq<byte>)
    requires |f| == 24
    ensures var t, w, d := Tag("RIFF"), Tag("WAVE"), Tag("data");
      WriteAt(t + U32LE(r) + w + f + (d + U32LE(d0)) + payload, 40, U32LE(d1))
        == t + U32LE(r) + w + f + (d + U32LE(d1)) + payload
  {
    var t, w, d := Tag("RIFF"), Tag("WAVE"), Tag("data");
    var front := t + U32LE(r) + w + f + d;
    Regroup(t, U32LE(r), w, f, d, U32LE(d0), payload);
    Regroup(t, U32LE(r), w, f, d, U32LE(d1), payload);
    WriteOver(front, U32LE(d0), payload, U32LE(d1));
  }

  /** The groupings of a header's pieces that PatchHeader moves between. */
  lemma Regroup(t: seq<byte>, u: seq<byte>, w: seq<byte>, f: seq<byte>, d: seq<byte>,
                v: seq<byte>, p: seq<byte>)
    ensures t + u + w + f + (d + v) + p == t + u + (w + f + (d + v) + p)
    ensures t + u + (w + f + (d + v) + p) == t + u + w + f + d + v + p
    ensures t + u + w + f + d + v + p == t + u + w + f + (d + v) + p
  {
  }

  /** What an export has done after some whole chunks: the file holds the
      header and the PCM bytes of `samples` and its offset is at its end;
      the sink has counted every rendered sample and flushed one value per
      sample (44100 Hz) or per pair (22050 Hz); the envelope countdown has
      gone down by as many samples as were rendered; unless the frequency
      floor can cut it short, the note plays exactly until stage 3; and a
      note still playing has rendered whole chunks only. */
  ghost predicate ExportedSoFar(freq: int, bits: int, total: int, floor: bool, header: seq<byte>,
                                samples: seq<int>, v: Voice, contents: seq<byte>, pos: nat)
  {
    && EnvInRange(v.env.stage, v.env.time, v.env.length)
    && pos == |contents| && contents == header + PcmBytes(samples, bits)
    && (forall j :: 0 <= j < |samples| ==> PcmValue(samples[j], bits))
    && |samples| == (if freq == 44100 then v.sink.written else v.sink.written / 2)
    && v.sink.acc == (if freq == 44100 then 0 else v.sink.written % 2)
    && Remaining(v.env.stage, v.env.time, v.env.length) == total - v.sink.written
    && (!floor ==> (v.playing <==> v.env.stage < 3))
    && (v.playing ==> v.sink.written % Chunk == 0)
    && 0 <= v.sink.written <= 441088
  }

  /** One chunk of at most 256 samples, rendered from a playing voice,
      keeps ExportedSoFar and counts at least one more sample. */
  lemma ExportStep(freq: int, bits: int, total: int, floor: bool, header: seq<byte>,
                   samples: seq<int>, v0: Voice, c0: seq<byte>, n: nat, fl: seq<int>,
                   v: Voice, contents: seq<byte>, pos: nat)
    requires ExportedSoFar(freq, bits, total, floor, header, samples, v0, c0, |c0|)
    requires v0.playing && v0.sink.written < MaxSamples
    requires Ran(v0, n, v, floor) && n <= Chunk && (n < Chunk ==> !v.playing)
    requires SinkAdvanced(freq, bits, c0, |c0|, v0.sink, n, fl, v.sink, contents, pos)
    ensures ExportedSoFar(freq, bits, total, floor, header, samples + fl, v, contents, pos)
    ensures v0.sink.written < v.sink.written
  {
    var w0 := v0.sink.written;
    ChunkBound(w0);
    AppendFlushed(header, samples, fl, bits, c0, contents);
    if freq != 44100 {
      CountPairs(w0, n);
    }
    if v.playing {
      ChunkStep(w0);
    }
  }

  /** A note just triggered, with nothing rendered yet, starts an export. */
  lemma ExportStart(freq: int, bits: int, floor: bool, header: seq<byte>, v: Voice)
    requires v.playing && v.sink == Sink(0, 0.0, 0) && v.env.stage == 0
    requires EnvInRange(v.env.stage, v.env.time, v.env.length)
    ensures ExportedSoFar(freq, bits, Remaining(v.env.stage, v.env.time, v.env.length), floor,
                          header, [], v, header, |header|)
  {
    assert header + PcmBytes([], bits) == header;
  }

  /** When the loop stops, because the note ended or the safety limit was
      reached, the export has rendered no more samples than the envelope
      lasts, and all of them unless the frequency floor cut the note short
      or the limit was reached first. */
  lemma ExportDone(freq: int, bits: int, total: int, floor: bool, header: seq<byte>,
                   samples: seq<int>, v: Voice, contents: seq<byte>, pos: nat)
    requires ExportedSoFar(freq, bits, total, floor, header, samples, v, contents, pos)
    requires !v.playing || v.sink.written >= MaxSamples
    ensures 0 <= v.sink.written < MaxSamples + Chunk
    ensures v.sink.written <= total
    ensures !floor ==> v.sink.written == Min(total, 441088)
  {
    RemainingBounds(v.env.stage, v.env.time, v.env.length);
  }

  /** Values flushed at the end of a file holding a header and earlier
      values extend the file by their PCM bytes. */
  lemma AppendFlushed(header: seq<byte>, samples: seq<int>, fl: seq<int>, bits: int,
                      c0: seq<byte>, contents: seq<byte>)
    requires c0 == header + PcmBytes(samples, bits)
    requires contents == WriteAt(c0, |c0|, PcmBytes(fl, bits))
    requires forall j :: 0 <= j < |samples| ==> PcmValue(samples[j], bits)
    requires forall j :: 0 <= j < |fl| ==> PcmValue(fl[j], bits)
    ensures contents == header + PcmBytes(samples + fl, bits)
    ensures forall j :: 0 <= j < |samples + fl| ==> PcmValue((samples + fl)[j], bits)
  {
    WriteAtEnd(c0, PcmBytes(fl, bits));
    PcmBytesAppend(samples, fl, bits);
    AppendAssoc(header, PcmBytes(samples, bits), PcmBytes(fl, bits));
    var more := samples + fl;
    forall j | 0 <= j < |more|
      ensures PcmValue(more[j], bits)
    {
      if j >= |samples| {
        assert more[j] == fl[j - |samples|];
      }
    }
  }

  /** At 22050 Hz the sink flushes one value per pair of samples: the count
      of flushed values and the pending sample stay in step with the count
      of rendered samples. */
  lemma CountPairs(w0: int, n: int)
    requires 0 <= w0 && 0 <= n
    ensures w0 / 2 + (w0 % 2 + n) / 2 == (w0 + n) / 2
    ensures (w0 % 2 + n) % 2 == (w0 + n) % 2
  {
    var q := w0 / 2;
    assert w0 == 2 * q + w0 % 2;
    assert w0 + n == 2 * q + (w0 % 2 + n);
  }

  lemma ChunkStep(w: int)
    requires w % Chunk == 0
    ensures (w + Chunk) % Chunk == 0
  {
  }

  lemma ChunkBound(w: int)
    requires 0 <= w < MaxSamples && w % Chunk == 0
    ensures w + Chunk <= 441088
  {
    var k := w / Chunk;
    assert w == k * Chunk;
  }

  // ---------------------------------------------------------------------
  // What SynthSample promises, stated on values

  /** The part of the synthesis state the contracts of SynthSample observe:
      playing_sample, the envelope, rep_limit, period, fperiod, fmaxperiod,
      phase, square_duty, fltw, iphase, flthp, flthp_d and the file sink. */
  datatype Voice = Voice(playing: bool, env: Envelope, repLimit: int, period: int,
                         fperiod: real, fmaxperiod: real, phase: int,
                         duty: real, w: real, iphase: int, hp: real, hpD: real, sink: Sink)

  /** The clamps that hold after every output sample: period at least 8 with
      the phase inside it, fperiod at most its ceiling, duty in [0, 0.5], the low-pass cutoff in [0, 0.1],
      the phaser delay in [0, 1023] and, while it sweeps, the high-pass
      cutoff in [0.00001, 0.1]. */
  predicate Clamped(v: Voice)
  {
    && v.period >= 8 && 0 <= v.phase < v.period && v.fperiod <= v.fmaxperiod
    && 0.0 <= v.duty <= 0.5 && 0.0 <= v.w <= 0.1 && 0 <= v.iphase <= 1023
    && (v.hpD != 0.0 ==> 0.00001 <= v.hp <= 0.1)
  }

  /** One output sample of a playing voice: the envelope moves on by one
      sample, the clamps hold, rep_limit stays, and the note stops only when
      the envelope reaches stage 3 or, with a positive frequency limit
      (`floor`), with fperiod at its ceiling fmaxperiod. */
  predicate Stepped(v: Voice, v1: Voice, floor: bool)
  {
    && v.playing && EnvAdvanced(v.env, v1.env) && Clamped(v1) && v1.repLimit == v.repLimit
    && (!v1.playing ==> v1.env.stage == 3 || (floor && v1.fperiod == v1.fmaxperiod))
    && (!floor ==> (v1.playing <==> v1.env.stage < 3))
  }

  /** n output samples from v0: nothing happens unless the voice was
      playing; the envelope stage never goes back and n samples fewer remain
      until stage 3; and the same stopping rule as for one sample. */
  predicate Ran(v0: Voice, n: nat, v: Voice, floor: bool)
  {
    && EnvInRange(v0.env.stage, v0.env.time, v0.env.length)
    && EnvInRange(v.env.stage, v.env.time, v.env.length)
    && (n == 0 ==> v.playing == v0.playing)
    && (n > 0 ==> v0.playing && Clamped(v))
    && v.env.length == v0.env.length && v0.env.stage <= v.env.stage
    && v.repLimit == v0.repLimit
    && (v0.playing ==>
          Remaining(v.env.stage, v.env.time, v.env.length)
            == Remaining(v0.env.stage, v0.env.time, v0.env.length) - n)
    && (v0.playing && !v.playing ==> v.env.stage == 3 || (floor && v.fperiod == v.fmaxperiod))
    && (n > 0 && !floor ==> (v.playing <==> v.env.stage < 3))
  }

  /** A buffer whose first i entries are clipped and the rest as in b0 still
      is so for i + 1 entries once entry i is written with a clipped value. */
  lemma ClippedStep(i: nat, b0: seq<real>, b: seq<real>, b1: seq<real>)
    requires i < |b| == |b0| && Clipped(b[..i]) && b[i..] == b0[i..]
    requires |b1| == |b| && b1 == b[i := b1[i]] && -1.0 <= b1[i] <= 1.0
    ensures Clipped(b1[..i + 1]) && b1[i + 1..] == b0[i + 1..]
  {
    assert b1[..i + 1] == b[..i] + [b1[i]];
    assert b1[i + 1..] == b[i + 1..] == b[i..][1..];
    assert b0[i..][1..] == b0[i + 1..];
  }

  lemma RanStart(v0: Voice, floor: bool)
    requires EnvInRange(v0.env.stage, v0.env.time, v0.env.length)
    ensures Ran(v0, 0, v0, floor)
  {
  }

  /** n samples and then one more are n + 1 samples. */
  lemma RanStep(v0: Voice, n: nat, v: Voice, v1: Voice, floor: bool)
    requires Ran(v0, n, v, floor) && Stepped(v, v1, floor)
    ensures Ran(v0, n + 1, v1, floor)
  {
  }

  // ---------------------------------------------------------------------
  // The engine: one voice, its parameters and its synthesis state

  class Engine {
    // the parameter set (package globals p_*, wave_type, filter_on, sound_vol)
    var params: Params
    const masterVol: real
    const sin: real -> real

    // synthesis state
    var playing: bool
    var phase: int
    var period: int
    var slide: Slide
    var duty: Duty
    var arp: Arpeggio
    var rep: Repeat
    var vib: Vibrato
    var env: Envelope
    var pha: Phaser
    const phaserBuffer: array<real>
    const noiseBuffer: array<real>
    var flt: Filter

    // export format and the file sink's accumulator
    var wavBits: int
    var wavFreq: int
    var sink: Sink

    ghost predicate Valid()
      reads this`env, this`playing, this`pha, this`phase, this`sink, this`wavFreq, this`wavBits
    {
      && phaserBuffer.Length == 1024 && noiseBuffer.Length == 32 && phaserBuffer != noiseBuffer
      && EnvInRange(env.stage, env.time, env.length)
      && (playing ==> env.stage < 3)
      && 0 <= pha.ipp < 1024
      && phase >= 0
      && (sink.acc == 0 || sink.acc == 1)
      && (sink.acc == 0 ==> sink.sample == 0.0) && -1.0 <= sink.sample <= 1.0
      && sink.written >= 0
      && (wavFreq == 22050 || wavFreq == 44100)
      && (wavBits == 8 || wavBits == 16)
    }

    /** Output samples left before the envelope ends the note. */
    ghost function EnvRemaining(): int
      reads this`env
      requires EnvInRange(env.stage, env.time, env.length)
    {
      Remaining(env.stage, env.time, env.length)
    }

    /** The observed part of the synthesis state, as a value. */
    ghost function Snap(): Voice
      reads this`playing, this`env, this`rep, this`period, this`slide, this`phase, this`duty,
            this`flt, this`pha, this`sink
    {
      Voice(playing, env, rep.limit, period, slide.fperiod, slide.fmaxperiod, phase, duty.square,
            flt.w, pha.iphase, flt.hp, flt.hpD, sink)
    }

    /** The program's start-up state: every global at Go's zero value except
        master_vol 0.05, sound_vol 0.5, 16 bits and 44100 Hz. */
    constructor (sine: real -> real)
      ensures Valid() && fresh(phaserBuffer) && fresh(noiseBuffer)
      ensures params == Initial() && sin == sine && masterVol == 0.05
      ensures !playing && wavBits == 16 && wavFreq == 44100
      ensures sink == Sink(0, 0.0, 0)
    {
      params := Initial();
      masterVol := 0.05;
      sin := sine;
      playing := false;
      phase, period := 0, 0;
      slide := Slide(0.0, 0.0, 0.0, 0.0);
      duty := Duty(0.0, 0.0);
      arp := Arpeggio(0.0, 0, 0);
      rep := Repeat(0, 0);
      vib := Vibrato(0.0, 0.0, 0.0);
      env := Envelope(0, 0, [0, 0, 0], 0.0);
      pha := Phaser(0.0, 0.0, 0, 0);
      phaserBuffer := new real[1024](_ => 0.0);
      noiseBuffer := new real[32](_ => 0.0);
      flt := Filter(0.0, 0.0, 0.0, 0.0, 0.0, 0.0, 0.0, 0.0);
      wavBits, wavFreq := 16, 44100;
      sink := Sink(0, 0.0, 0);
    }

    /** ResetParams: every parameter back to its default; sound_vol is kept. */
    method ResetParams()
      modifies this`params
      ensures params == old(params).(
        waveType := 0, baseFreq := Point3, freqLimit := Zero, freqRamp := Zero,
        freqDramp := Zero, duty := Zero, dutyRamp := Zero,
        vibStrength := Zero, vibSpeed := Zero, vibDelay := Zero,
        envAttack := Zero, envSustain := Point3, envDecay := Point4, envPunch := Zero,
        filterOn := false, lpfResonance := Zero, lpfFreq := One, lpfRamp := Zero,
        hpfFreq := Zero, hpfRamp := Zero, phaOffset := Zero, phaRamp := Zero,
        repeatSpeed := Zero, arpSpeed := Zero, arpMod := Zero)
    {
      var p := params.(waveType := 0);
      p := p.(baseFreq := Point3, freqLimit := Zero, freqRamp := Zero, freqDramp := Zero);
      p := p.(duty := Zero, dutyRamp := Zero);
      p := p.(vibStrength := Zero, vibSpeed := Zero, vibDelay := Zero);
      p := p.(envAttack := Zero, envSustain := Point3, envDecay := Point4, envPunch := Zero);
      p := p.(filterOn := false, lpfResonance := Zero, lpfFreq := One, lpfRamp := Zero);
      p := p.(hpfFreq := Zero, hpfRamp := Zero);
      p := p.(phaOffset := Zero, phaRamp := Zero);
      p := p.(repeatSpeed := Zero);
      p := p.(arpSpeed := Zero, arpMod := Zero);
      params := p;
    }

    /** The HZ button: the export rate alternates between 44100 and 22050. */
    method ToggleSampleRate()
      requires Valid()
      modifies this`wavFreq
      ensures Valid()
      ensures wavFreq == if old(wavFreq) == 44100 then 22050 else 44100
    {
      if wavFreq == 44100 { wavFreq := 22050; } else { wavFreq := 44100; }
    }

    /** The BIT button: the export depth alternates between 16 and 8. */
    method ToggleBitDepth()
      requires Valid()
      modifies this`wavBits
      ensures Valid()
      ensures wavBits == if old(wavBits) == 16 then 8 else 16
    {
      if wavBits == 16 { wavBits := 8; } else { wavBits := 16; }
    }

    /** Fills the noise table with fresh values in [-1, 1). */
    method RefillNoise()
      requires noiseBuffer.Length == 32
      modifies noiseBuffer
      ensures forall i :: 0 <= i < 32 ==> -1.0 <= noiseBuffer[i] < 1.0
    {
      for i := 0 to 32
        invariant forall k :: 0 <= k < i ==> -1.0 <= noiseBuffer[k] < 1.0
      {
        var r: real :| -1.0 <= r < 1.0;
        noiseBuffer[i] := r;
      }
    }

    method ClearPhaser()
      requires phaserBuffer.Length == 1024
      modifies phaserBuffer
      ensures forall i :: 0 <= i < 1024 ==> phaserBuffer[i] == 0.0
    {
      for i := 0 to 1024
        invariant forall k :: 0 <= k < i ==> phaserBuffer[k] == 0.0
      {
        phaserBuffer[i] := 0.0;
      }
    }

    /** Period, slide, duty and arpeggio as ResetSample leaves them: the
        period at its starting value, its ceiling from the frequency limit,
        and the arpeggio countdown rewound. */
    ghost predicate FrequencyReset()
      reads this
    {
      && slide == Slide(BasePeriod(params), MaxPeriod(params), SlideFactor(params), DeltaSlide(params))
      && period == Trunc(slide.fperiod)
      && duty == Duty(StartDuty(params), DutySlide(params))
      && arp == Arpeggio(ArpMultiplier(params), 0, ArpLimit(params))
    }

    /** Filter, vibrato, envelope, phaser, noise table and repeat countdown as
        a fresh trigger leaves them. */
    ghost predicate VoiceReset()
      reads this, phaserBuffer, noiseBuffer
      requires phaserBuffer.Length == 1024 && noiseBuffer.Length == 32
    {
      && flt == Filter(0.0, 0.0, LpfCutoff(params), LpfSweep(params), LpfDamping(params),
                       0.0, HpfCutoff(params), HpfSweep(params))
      && vib == Vibrato(0.0, VibSpeed(params), VibAmp(params))
      && env == Envelope(0, 0, EnvLengths(params), 0.0)
      && pha.fphase == PhaserOffset(params) && pha.fdphase == PhaserSweep(params)
      && pha.iphase == Trunc(Abs(pha.fphase)) && pha.ipp == 0
      && (forall i :: 0 <= i < 1024 ==> phaserBuffer[i] == 0.0)
      && (forall i :: 0 <= i < 32 ==> -1.0 <= noiseBuffer[i] < 1.0)
      && rep == Repeat(0, RepeatLimit(params))
    }

    /** The part of ResetSample run in both modes: period, slide, duty and
        arpeggio. This is all ResetSample(true) does. */
    method ResetFrequency()
      modifies this`slide, this`period, this`duty, this`arp
      ensures FrequencyReset()
    {
      slide := Slide(BasePeriod(params), MaxPeriod(params), SlideFactor(params), DeltaSlide(params));
      period := Trunc(slide.fperiod);
      duty := Duty(StartDuty(params), DutySlide(params));
      arp := Arpeggio(ArpMultiplier(params), 0, ArpLimit(params));
    }

    /** The part of ResetSample run only on a fresh trigger: filter, vibrato,
        envelope, phaser, noise table and repeat countdown. */
    method ResetVoice()
      requires Valid()
      modifies this`flt, this`vib, this`env, this`pha, this`rep, phaserBuffer, noiseBuffer
      ensures Valid() && VoiceReset()
    {
      flt := Filter(0.0, 0.0, LpfCutoff(params), LpfSweep(params), LpfDamping(params),
                    0.0, HpfCutoff(params), HpfSweep(params));
      vib := Vibrato(0.0, VibSpeed(params), VibAmp(params));
      env := Envelope(0, 0, EnvLengths(params), 0.0);
      var fphase := PhaserOffset(params);
      pha := Phaser(fphase, PhaserSweep(params), Trunc(Abs(fphase)), 0);
      ClearPhaser();
      RefillNoise();
      rep := Repeat(0, RepeatLimit(params));
    }

    /** ResetSample(restart): a fresh trigger resets everything and the phase;
        a repeat (restart) refreshes only period, slide, duty and arpeggio. */
    method ResetSample(restart: bool)
      requires Valid()
      modifies this, phaserBuffer, noiseBuffer
      ensures Valid()
      ensures params == old(params) && playing == old(playing)
      ensures wavBits == old(wavBits) && wavFreq == old(wavFreq) && sink == old(sink)
      ensures FrequencyReset()
      ensures restart ==>
        && phase == old(phase) && flt == old(flt) && vib == old(vib) && env == old(env)
        && pha == old(pha) && rep == old(rep)
        && phaserBuffer[..] == old(phaserBuffer[..]) && noiseBuffer[..] == old(noiseBuffer[..])
      ensures !restart ==> phase == 0 && VoiceReset()
    {
      if !restart {
        phase := 0;
      }
      ResetFrequency();
      if !restart {
        ResetVoice();
      }
    }

    /** PlaySample: a fresh trigger. */
    method PlaySample()
      requires Valid()
      modifies this, phaserBuffer, noiseBuffer
      ensures Valid() && playing
      ensures params == old(params) && wavBits == old(wavBits) && wavFreq == old(wavFreq)
      ensures sink == old(sink)
      ensures FrequencyReset() && phase == 0 && VoiceReset()
      ensures EnvRemaining() == EnvTotal(params)
    {
      ResetSample(false);
      playing := true;
      RemainingFromStart(env.length);
    }

    // -------------------------------------------------------------------
    // The once-per-output-sample steps of SynthSample (main.go:245-315)

    /** rep_time counts up; reaching rep_limit re-triggers the frequency part. */
    method StepRepeat() returns (ghost retriggered: bool)
      modifies this`rep, this`slide, this`period, this`duty, this`arp
      ensures retriggered <==> old(rep.limit) != 0 && old(rep.time) + 1 >= old(rep.limit)
      ensures rep == Repeat(if retriggered then 0 else old(rep.time) + 1, old(rep.limit))
      ensures retriggered ==> FrequencyReset()
      ensures !retriggered ==>
        slide == old(slide) && period == old(period) && duty == old(duty) && arp == old(arp)
    {
      var t := rep.time + 1;
      var fire := rep.limit != 0 && t >= rep.limit;
      retriggered := fire;
      if fire {
        rep := rep.(time := 0);
        ResetFrequency();   // ResetSample(true)
      } else {
        rep := rep.(time := t);
      }
    }

    /** arp_time counts up; reaching arp_limit scales the period once. */
    method StepArpeggio() returns (ghost fired: bool)
      modifies this`arp, this`slide
      ensures fired <==> old(arp.limit) != 0 && old(arp.time) + 1 >= old(arp.limit)
      ensures arp == old(arp).(time := old(arp.time) + 1, limit := if fired then 0 else old(arp.limit))
      ensures slide == if fired then old(slide).(fperiod := old(slide.fperiod) * old(arp.mult)) else old(slide)
    {
      var t := arp.time + 1;
      var fire := arp.limit != 0 && t >= arp.limit;
      fired := fire;
      if fire {
        arp := arp.(time := t, limit := 0);
        slide := slide.(fperiod := slide.fperiod * arp.mult);
      } else {
        arp := arp.(time := t);
      }
    }

    /** The slide, then the period ceiling; hitting the ceiling ends the note
        when the frequency limit parameter is positive. */
    method StepSlide()
      modifies this`slide, this`playing
      ensures slide.fslide == old(slide.fslide) + old(slide.fdslide)
      ensures slide.fmaxperiod == old(slide.fmaxperiod) && slide.fdslide == old(slide.fdslide)
      ensures var target := old(slide.fperiod) * slide.fslide;
        && slide.fperiod == (if target > slide.fmaxperiod then slide.fmaxperiod else target)
        && playing == (old(playing) && !(target > slide.fmaxperiod && Value(params.freqLimit) > 0.0))
    {
      var s := slide.fslide + slide.fdslide;
      var f := slide.fperiod * s;
      if f > slide.fmaxperiod {
        f := slide.fmaxperiod;
        if Value(params.freqLimit) > 0.0 {
          playing := false;
        }
      }
      slide := slide.(fperiod := f, fslide := s);
    }

    /** Vibrato modulates the period used this sample, which is at least 8. */
    method StepVibrato()
      modifies this`vib, this`period
      ensures vib == if old(vib.amp) > 0.0 then old(vib).(phase := old(vib.phase) + old(vib.speed)) else old(vib)
      ensures var r := Trunc(if vib.amp > 0.0 then slide.fperiod * (1.0 + sin(vib.phase) * vib.amp) else slide.fperiod);
        period == if r < 8 then 8 else r
      ensures period >= 8
    {
      var rfperiod := slide.fperiod;
      if vib.amp > 0.0 {
        vib := vib.(phase := vib.phase + vib.speed);
        rfperiod := slide.fperiod * (1.0 + sin(vib.phase) * vib.amp);
      }
      var p := Trunc(rfperiod);
      if p < 8 {
        p := 8;
      }
      period := p;
    }

    /** The duty sweep, kept in [0, 0.5]. */
    method StepDuty()
      modifies this`duty
      ensures duty == old(duty).(square := Clamp(old(duty.square) + old(duty.slide), 0.0, 0.5))
      ensures 0.0 <= duty.square <= 0.5
    {
      duty := duty.(square := Clamp(duty.square + duty.slide, 0.0, 0.5));
    }

    /** The envelope step; reaching stage 3 ends the note. */
    method StepEnvelope()
      requires EnvInRange(env.stage, env.time, env.length) && env.stage < 3
      modifies this`env, this`playing
      ensures env == NextEnvelope(old(env), Value(params.envPunch))
      ensures playing == (old(playing) && env.stage < 3)
    {
      env := NextEnvelope(env, Value(params.envPunch));
      if env.stage == 3 {
        playing := false;
      }
    }

    /** The phaser offset sweep; the delay is at most 1023 subsamples. */
    method StepPhaser()
      modifies this`pha
      ensures pha == old(pha).(fphase := old(pha.fphase) + old(pha.fdphase),
                               iphase := Min(Trunc(Abs(pha.fphase)), 1023))
      ensures 0 <= pha.iphase <= 1023
    {
      var f := pha.fphase + pha.fdphase;
      var i := Trunc(Abs(f));
      if i > 1023 {
        i := 1023;
      }
      pha := pha.(fphase := f, iphase := i);
    }

    /** The high-pass cutoff sweep, kept in [0.00001, 0.1] while it runs. */
    method StepHighPass()
      modifies this`flt
      ensures old(flt.hpD) == 0.0 ==> flt == old(flt)
      ensures old(flt.hpD) != 0.0 ==> flt == old(flt).(hp := Clamp(old(flt.hp) * old(flt.hpD), 0.00001, 0.1))
    {
      if flt.hpD != 0.0 {
        flt := flt.(hp := Clamp(flt.hp * flt.hpD, 0.00001, 0.1));
      }
    }

    /** Repeat, arpeggio, slide, vibrato and duty: the pitch and the shape
        of this output sample. */
    method ModulatePitch() returns (ghost retriggered: bool)
      modifies this`rep, this`slide, this`period, this`duty, this`arp, this`vib, this`playing
      ensures retriggered <==> old(rep.limit) != 0 && old(rep.time) + 1 >= old(rep.limit)
      ensures rep == Repeat(if retriggered then 0 else old(rep.time) + 1, old(rep.limit))
      ensures period >= 8 && 0.0 <= duty.square <= 0.5
      ensures slide.fperiod <= slide.fmaxperiod
      ensures playing ==> old(playing)
      ensures !playing && old(playing) ==> Value(params.freqLimit) > 0.0 && slide.fperiod == slide.fmaxperiod
    {
      retriggered := StepRepeat();
      var _ := StepArpeggio();
      StepSlide();
      StepVibrato();
      StepDuty();
    }

    /** Envelope, phaser offset and high-pass sweep. */
    method ModulateLevel()
      requires EnvInRange(env.stage, env.time, env.length) && env.stage < 3
      modifies this`env, this`playing, this`pha, this`flt
      ensures env == NextEnvelope(old(env), Value(params.envPunch))
      ensures playing == (old(playing) && env.stage < 3)
      ensures 0 <= pha.iphase <= 1023 && pha.ipp == old(pha.ipp)
      ensures flt == old(flt).(hp := flt.hp)
      ensures flt.hpD != 0.0 ==> 0.00001 <= flt.hp <= 0.1
    {
      StepEnvelope();
      StepPhaser();
      StepHighPass();
    }

    /** Everything SynthSample updates once per output sample. */
    method Modulate() returns (ghost retriggered: bool)
      requires Valid() && playing
      modifies this`rep, this`slide, this`period, this`duty, this`arp, this`playing,
               this`vib, this`env, this`pha, this`flt
      ensures Valid()
      ensures retriggered <==> old(rep.limit) != 0 && old(rep.time) + 1 >= old(rep.limit)
      ensures rep == Repeat(if retriggered then 0 else old(rep.time) + 1, old(rep.limit))
      ensures period >= 8 && 0.0 <= duty.square <= 0.5 && 0 <= pha.iphase <= 1023
      ensures pha.ipp == old(pha.ipp)
      ensures flt == old(flt).(hp := flt.hp)
      ensures flt.hpD != 0.0 ==> 0.00001 <= flt.hp <= 0.1
      ensures env == NextEnvelope(old(env), Value(params.envPunch))
      ensures !playing ==> env.stage == 3 || (Value(params.freqLimit) > 0.0 && slide.fperiod == slide.fmaxperiod)
      ensures Value(params.freqLimit) <= 0.0 ==> (playing <==> env.stage < 3)
      ensures slide.fperiod <= slide.fmaxperiod
    {
      retriggered := ModulatePitch();
      ModulateLevel();
    }

    // -------------------------------------------------------------------
    // The subsample loop of SynthSample (main.go:318-373)

    /** The oscillator phase advances and wraps at the period; a wrap of
        the noise waveform refills the noise table. */
    method AdvancePhase()
      requires Valid() && period >= 8
      modifies this`phase, noiseBuffer
      ensures Valid()
      ensures phase == if old(phase) + 1 >= period then (old(phase) + 1) % period else old(phase) + 1
      ensures 0 <= phase < period
      ensures old(phase) + 1 >= period && params.waveType == 3 ==>
        forall i :: 0 <= i < 32 ==> -1.0 <= noiseBuffer[i] < 1.0
      ensures !(old(phase) + 1 >= period && params.waveType == 3) ==> noiseBuffer[..] == old(noiseBuffer[..])
    {
      var p := phase + 1;
      if p >= period {
        p := p % period;
        if params.waveType == 3 {
          RefillNoise();
        }
      }
      phase := p;
    }

    /** One subsample: waveform, filters and phaser, scaled by the envelope.
        The delay line gets the filtered subsample at the old write index and
        the output adds the subsample `iphase` steps back. */
    method Subsample() returns (out: real)
      requires Valid() && period >= 8 && 0 <= pha.iphase <= 1023
      modifies this`phase, this`flt, this`pha, phaserBuffer, noiseBuffer
      ensures Valid()
      ensures 0 <= phase < period
      ensures 0.0 <= flt.w <= 0.1
      ensures flt.hp == old(flt.hp) && flt.hpD == old(flt.hpD)
      ensures pha == old(pha).(ipp := (old(pha.ipp) + 1) % 1024)
      ensures phaserBuffer[old(pha.ipp)] == flt.php
      ensures forall i :: 0 <= i < 1024 && i != old(pha.ipp) ==> phaserBuffer[i] == old(phaserBuffer[i])
      ensures out == (flt.php + phaserBuffer[(old(pha.ipp) - pha.iphase + 1024) % 1024]) * env.vol
    {
      AdvancePhase();
      var sample := Waveform(params.waveType, phase, period, duty.square, noiseBuffer[..], sin);
      flt := FilterStep(flt, sample, Value(params.lpfFreq) == 1.0);
      sample := PhaserStep(flt.php);
      out := sample * env.vol;
    }

    /** The phaser: the delay line gets the sample at the write index, the
        tap `iphase` steps back is mixed in, and the index moves on. */
    method PhaserStep(sample: real) returns (out: real)
      requires phaserBuffer.Length == 1024 && 0 <= pha.ipp < 1024 && 0 <= pha.iphase <= 1023
      modifies this`pha, phaserBuffer
      ensures pha == old(pha).(ipp := (old(pha.ipp) + 1) % 1024)
      ensures phaserBuffer[old(pha.ipp)] == sample
      ensures forall i :: 0 <= i < 1024 && i != old(pha.ipp) ==> phaserBuffer[i] == old(phaserBuffer[i])
      ensures out == sample + phaserBuffer[(old(pha.ipp) - pha.iphase + 1024) % 1024]
    {
      phaserBuffer[Mask1023(pha.ipp)] := sample;
      out := sample + phaserBuffer[Mask1023(pha.ipp - pha.iphase + 1024)];
      pha := pha.(ipp := Mask1023(pha.ipp + 1));
    }

    /** The 8x supersampling loop: the sum of eight subsamples. */
    method Supersample() returns (ssample: real)
      requires Valid() && period >= 8 && 0 <= pha.iphase <= 1023
      modifies this`phase, this`flt, this`pha, phaserBuffer, noiseBuffer
      ensures Valid()
      ensures 0 <= phase < period
      ensures 0.0 <= flt.w <= 0.1
      ensures flt.hp == old(flt.hp) && flt.hpD == old(flt.hpD)
      ensures pha == old(pha).(ipp := (old(pha.ipp) + 8) % 1024)
    {
      ssample := 0.0;
      for si := 0 to 8
        invariant Valid()
        invariant si > 0 ==> 0 <= phase < period && 0.0 <= flt.w <= 0.1
        invariant flt.hp == old(flt.hp) && flt.hpD == old(flt.hpD)
        invariant pha == old(pha).(ipp := (old(pha.ipp) + si) % 1024)
      {
        var s := Subsample();
        ssample := ssample + s;
      }
    }

    // -------------------------------------------------------------------
    // The sinks (main.go:378-412)

    /** Hands one finished output sample to the sinks: the streaming buffer
        gets it clipped to [-1, 1]; the file sink gets its level. */
    method Emit(i: int, ssample: real, buffer: array?<real>, file: ByteFile?)
      returns (ghost flushed: seq<int>)
      requires Valid()
      requires buffer != null ==> 0 <= i < buffer.Length && buffer != phaserBuffer && buffer != noiseBuffer
      modifies this`sink, buffer, file
      ensures Valid()
      ensures buffer != null ==> buffer[..] == old(buffer[..])[i := Clip(ssample)]
      ensures file == null ==> sink == old(sink) && flushed == []
      ensures file != null ==>
        SinkAdvanced(wavFreq, wavBits, old(file.contents), old(file.pos), old(sink), 1,
                     flushed, sink, file.contents, file.pos)
    {
      flushed := [];
      if buffer != null {
        buffer[i] := Clip(ssample);
      }
      if file != null {
        var level := FileLevel(ssample, buffer != null);
        ghost var s0 := sink;
        flushed := Record(level, file);
        AccumulateAdvances(s0, level, wavFreq, wavBits, old(file.contents), old(file.pos),
                           file.contents, file.pos);
      }
    }

    /** The file sink: accumulates the level and writes what Accumulate
        flushes at the current offset. */
    method Record(level: real, file: ByteFile) returns (ghost flushed: seq<int>)
      requires Valid()
      requires -1.0 <= level <= 1.0
      modifies this`sink, file
      ensures Valid()
      ensures (sink, flushed) == Accumulate(old(sink), level, wavFreq, wavBits)
      ensures file.contents == WriteAt(old(file.contents), old(file.pos), PcmBytes(flushed, wavBits))
      ensures file.pos == old(file.pos) + |PcmBytes(flushed, wavBits)|
    {
      var total := sink.sample + level;
      var acc := sink.acc + 1;
      if wavFreq == 44100 || acc == 2 {
        assert -1.0 <= total / (acc as real) <= 1.0 by {
          if acc == 1 {
            assert total == level;
          } else {
            assert acc == 2 && -2.0 <= total <= 2.0;
          }
        }
        total := total / (acc as real);
        var v := Quantize(total, wavBits);
        if file.pos == |file.contents| {
          WriteAtEnd(file.contents, PcmSample(v, wavBits));
        }
        file.Write(PcmSample(v, wavBits));
        flushed := [v];
        assert PcmBytes(flushed, wavBits) == PcmSample(v, wavBits) + PcmBytes([], wavBits);
        assert PcmBytes(flushed, wavBits) == PcmSample(v, wavBits);
        sink := Sink(sink.written + 1, 0.0, 0);
      } else {
        flushed := [];
        assert PcmBytes(flushed, wavBits) == [];
        sink := Sink(sink.written + 1, total, acc);
      }
    }

    /** One output sample of SynthSample: the per-sample modulation, the
        supersampled signal scaled by the master and sound volumes, and its
        delivery to the sinks at index i. */
    method RenderOne(i: int, buffer: array?<real>, file: ByteFile?)
      returns (ghost retriggered: bool, ghost flushed: seq<int>)
      requires Valid() && playing
      requires buffer != null ==> 0 <= i < buffer.Length && buffer != phaserBuffer && buffer != noiseBuffer
      modifies this`rep, this`slide, this`period, this`duty, this`arp, this`playing,
               this`vib, this`env, this`pha, this`flt, this`phase, this`sink,
               phaserBuffer, noiseBuffer, buffer, file
      ensures Valid()
      ensures retriggered <==> old(rep.limit) != 0 && old(rep.time) + 1 >= old(rep.limit)
      ensures Stepped(old(Snap()), Snap(), Value(params.freqLimit) > 0.0)
      ensures buffer != null ==> buffer[..] == old(buffer[..])[i := buffer[i]] && -1.0 <= buffer[i] <= 1.0
      ensures file == null ==> sink == old(sink) && flushed == []
      ensures file != null ==>
        SinkAdvanced(wavFreq, wavBits, old(file.contents), old(file.pos), old(sink), 1,
                     flushed, sink, file.contents, file.pos)
    {
      retriggered := Modulate();
      var ssample := Supersample();
      ssample := ssample / 8.0 * masterVol;
      ssample := ssample * (2.0 * Value(params.soundVol));
      flushed := Emit(i, ssample, buffer, file);
    }

    /** SynthSample(length, buffer, file): renders up to `length` output
        samples, stopping early once the note has ended. */
    method SynthSample(length: int, buffer: array?<real>, file: ByteFile?)
      returns (ghost produced: nat, ghost flushed: seq<int>, ghost retriggers: nat)
      requires Valid()
      requires buffer != null ==> length <= buffer.Length && buffer != phaserBuffer && buffer != noiseBuffer
      modifies this`rep, this`slide, this`period, this`duty, this`arp, this`playing,
               this`vib, this`env, this`pha, this`flt, this`phase, this`sink,
               phaserBuffer, noiseBuffer, buffer, file
      ensures Valid()
      ensures params == old(params) && wavBits == old(wavBits) && wavFreq == old(wavFreq)
      ensures produced <= (if length < 0 then 0 else length)
      ensures produced < length ==> !playing
      ensures Ran(old(Snap()), produced, Snap(), Value(params.freqLimit) > 0.0)
      ensures rep.limit == 0 ==> retriggers == 0
      ensures buffer != null ==>
        Clipped(buffer[..produced]) && buffer[produced..] == old(buffer[produced..])
      ensures file == null ==> sink == old(sink) && flushed == []
      ensures file != null ==>
        SinkAdvanced(wavFreq, wavBits, old(file.contents), old(file.pos), old(sink), produced,
                     flushed, sink, file.contents, file.pos)
    {
      ghost var v0 := Snap();
      ghost var b0 := if buffer != null then buffer[..] else [];
      ghost var c0 := if file != null then file.contents else [];
      ghost var p0 := if file != null then file.pos else 0;
      if file != null {
        SinkStart(wavFreq, wavBits, c0, p0, sink);
      }
      RanStart(v0, Value(params.freqLimit) > 0.0);
      produced, flushed, retriggers := RenderSamples(length, buffer, file, v0, b0, c0, p0);
    }

    /** The loop of SynthSample: output samples until `length` are done or
        the note has ended, each one extending Rendered by one sample. */
    method RenderSamples(length: int, buffer: array?<real>, file: ByteFile?, ghost v0: Voice,
                         ghost b0: seq<real>, ghost c0: seq<byte>, ghost p0: nat)
      returns (produced: nat, ghost flushed: seq<int>, ghost retriggers: nat)
      requires Rendered(0, buffer, file, v0, b0, c0, p0, [])
      requires buffer != null ==> length <= buffer.Length && buffer != phaserBuffer && buffer != noiseBuffer
      modifies this`rep, this`slide, this`period, this`duty, this`arp, this`playing,
               this`vib, this`env, this`pha, this`flt, this`phase, this`sink,
               phaserBuffer, noiseBuffer, buffer, file
      ensures produced <= (if length < 0 then 0 else length)
      ensures produced < length ==> !playing
      ensures Rendered(produced, buffer, file, v0, b0, c0, p0, flushed)
      ensures rep.limit == 0 ==> retriggers == 0
    {
      flushed := [];
      retriggers := 0;
      var i := 0;
      while i < length && playing
        invariant 0 <= i && (length >= 0 ==> i <= length) && (length < 0 ==> i == 0)
        invariant Rendered(i, buffer, file, v0, b0, c0, p0, flushed)
        invariant rep.limit == 0 ==> retriggers == 0
      {
        ghost var retriggered;
        retriggered, flushed := SynthOne(i, buffer, file, v0, b0, c0, p0, flushed);
        if retriggered {
          retriggers := retriggers + 1;
        }
        i := i + 1;
      }
      produced := i;
    }

    /** What SynthSample's loop has established after i output samples,
        starting from voice v0, buffer contents b0 and a file holding c0
        with its offset at p0: the first i buffer entries are clipped and the
        rest untouched, and the file sink has advanced by i samples. */
    ghost predicate Rendered(i: nat, buffer: array?<real>, file: ByteFile?, v0: Voice,
                             b0: seq<real>, c0: seq<byte>, p0: nat, flushed: seq<int>)
      reads this`env, this`playing, this`pha, this`phase, this`sink, this`wavFreq, this`wavBits,
            this`params, this`rep, this`period, this`slide, this`duty, this`flt, buffer, file
    {
      && Valid()
      && Ran(v0, i, Snap(), Value(params.freqLimit) > 0.0)
      && (buffer != null ==>
            i <= buffer.Length && |b0| == buffer.Length && Clipped(buffer[..i]) && buffer[i..] == b0[i..])
      && (file == null ==> sink == v0.sink && flushed == [])
      && (file != null ==>
            SinkAdvanced(wavFreq, wavBits, c0, p0, v0.sink, i, flushed, sink, file.contents, file.pos))
    }

    /** Output sample i of a SynthSample call that started from voice v0,
        buffer contents b0 and a file holding c0 with its offset at p0: what
        the loop has established for i samples then holds for i + 1. */
    method SynthOne(i: nat, buffer: array?<real>, file: ByteFile?, ghost v0: Voice,
                    ghost b0: seq<real>, ghost c0: seq<byte>, ghost p0: nat, ghost pre: seq<int>)
      returns (ghost retriggered: bool, ghost flushed: seq<int>)
      requires Rendered(i, buffer, file, v0, b0, c0, p0, pre) && playing
      requires buffer != null ==> i < buffer.Length && buffer != phaserBuffer && buffer != noiseBuffer
      modifies this`rep, this`slide, this`period, this`duty, this`arp, this`playing,
               this`vib, this`env, this`pha, this`flt, this`phase, this`sink,
               phaserBuffer, noiseBuffer, buffer, file
      ensures Rendered(i + 1, buffer, file, v0, b0, c0, p0, flushed)
      ensures retriggered ==> rep.limit != 0
    {
      ghost var v := Snap();
      ghost var s1, c1, p1 := sink, if file != null then file.contents else [],
                              if file != null then file.pos else 0;
      ghost var b1 := if buffer != null then buffer[..] else [];
      ghost var f;
      retriggered, f := RenderOne(i, buffer, file);
      flushed := pre + f;
      RanStep(v0, i, v, Snap(), Value(params.freqLimit) > 0.0);
      if buffer != null {
        ClippedStep(i, b0, b1, buffer[..]);
      }
      if file != null {
        SinkCompose(wavFreq, wavBits, c0, p0, v0.sink, i, pre, s1, c1, p1, 1, f, sink,
                    file.contents, file.pos);
      }
    }

    /** The header ExportWAV writes first, both size fields still 0. */
    static method WriteHeader(f: ByteFile, freq: int, bits: int)
      requires freq == 22050 || freq == 44100
      requires bits == 8 || bits == 16
      requires f.contents == [] && f.pos == 0
      modifies f
      ensures f.contents == WavHeader(freq, bits, 0, 0) && f.pos == 44
    {
      WriteRiff(f);
      assert f.contents == RiffHeader(0);
      WriteFmt(f, freq, bits);
      WriteDataHeader(f);
    }

    /** The RIFF chunk header, its size left at zero. */
    static method WriteRiff(f: ByteFile)
      requires f.pos == |f.contents|
      modifies f
      ensures f.contents == old(f.contents) + RiffHeader(0) && f.pos == |f.contents|
    {
      f.Write(Tag("RIFF"));
      f.Write(U32LE(0));           // remaining file size
      f.Write(Tag("WAVE"));
    }

    /** The "fmt " chunk for the given rate and depth. */
    static method WriteFmt(f: ByteFile, freq: int, bits: int)
      requires freq == 22050 || freq == 44100
      requires bits == 8 || bits == 16
      requires f.pos == |f.contents|
      modifies f
      ensures f.contents == old(f.contents) + FmtChunk(freq, bits) && f.pos == |f.contents|
    {
      f.Write(Tag("fmt "));
      f.Write(U32LE(16));          // chunk size
      f.Write(U16LE(1));           // compression code
      f.Write(U16LE(1));           // channels
      ghost var o := old(f.contents);
      AppendAssoc(o, Tag("fmt ") + U32LE(16) + U16LE(1), U16LE(1));
      AppendAssoc(o, Tag("fmt ") + U32LE(16), U16LE(1));
      AppendAssoc(o, Tag("fmt "), U32LE(16));
      WriteRates(f, freq, bits);
      AppendAssoc(o, FmtHead(), FmtRates(freq, bits));
    }

    /** The rate-dependent fields of the "fmt " chunk. */
    static method WriteRates(f: ByteFile, freq: int, bits: int)
      requires freq == 22050 || freq == 44100
      requires bits == 8 || bits == 16
      requires f.pos == |f.contents|
      modifies f
      ensures f.contents == old(f.contents) + FmtRates(freq, bits) && f.pos == |f.contents|
    {
      var rate := freq * bits / 8;
      assert rate <= 88200;
      f.Write(U32LE(freq));        // sample rate
      f.Write(U32LE(rate));        // bytes/sec
      f.Write(U16LE(bits / 8));    // block align
      f.Write(U16LE(bits));        // bits per sample
      ghost var o := old(f.contents);
      AppendAssoc(o, U32LE(freq) + U32LE(rate) + U16LE(bits / 8), U16LE(bits));
      AppendAssoc(o, U32LE(freq) + U32LE(rate), U16LE(bits / 8));
      AppendAssoc(o, U32LE(freq), U32LE(rate));
    }

    /** The "data" chunk header, its size left at zero. */
    static method WriteDataHeader(f: ByteFile)
      requires f.pos == |f.contents|
      modifies f
      ensures f.contents == old(f.contents) + DataHeader(0) && f.pos == |f.contents|
    {
      f.Write(Tag("data"));
      f.Write(U32LE(0));           // chunk size
    }

    /** Seeks back and writes the RIFF size (datasize - 4 + data bytes) at
        offset 4 and the data chunk size at offset datasize - 4. */
    static method PatchSizes(f: ByteFile, datasize: nat, written: nat, freq: int, bits: int,
                             ghost payload: seq<byte>)
      requires freq == 22050 || freq == 44100
      requires bits == 8 || bits == 16
      requires datasize == 44 && written <= 441088
      requires f.contents == WavHeader(freq, bits, 0, 0) + payload
      modifies f
      ensures f.contents == WavHeader(freq, bits, 40 + written * bits / 8, written * bits / 8) + payload
    {
      var dataBytes := written * bits / 8;
      assert dataBytes <= 2 * 441088 by {
        if bits == 16 { assert dataBytes == written * 2; } else { assert dataBytes == written; }
      }
      var at := f.Seek(4);
      f.Write(U32LE(datasize - 4 + dataBytes));
      at := f.Seek(datasize - 4);
      f.Write(U32LE(dataBytes));
      PatchHeader(payload, freq, bits, 40 + dataBytes, dataBytes);
    }

    /** The state between two chunks of an export (see ExportedSoFar). */
    ghost predicate Exporting(f: ByteFile, header: seq<byte>, samples: seq<int>)
      reads this`env, this`playing, this`pha, this`phase, this`sink, this`wavFreq, this`wavBits,
            this`params, this`rep, this`period, this`slide, this`duty, this`flt, f
    {
      && Valid()
      && ExportedSoFar(wavFreq, wavBits, EnvTotal(params), Value(params.freqLimit) > 0.0,
                       header, samples, Snap(), f.contents, f.pos)
    }

    /** The start of ExportWAV's data: the sample count cleared and the note
        triggered, with nothing rendered after the header yet. */
    method BeginExport(f: ByteFile, ghost header: seq<byte>)
      requires Valid()
      requires f.contents == header && f.pos == |header|
      modifies this, phaserBuffer, noiseBuffer
      ensures Exporting(f, header, []) && playing && sink.written == 0
      ensures EnvRemaining() == EnvTotal(params)
      ensures params == old(params) && wavBits == old(wavBits) && wavFreq == old(wavFreq)
    {
      sink := Sink(0, 0.0, 0);
      PlaySample();
      ExportStart(wavFreq, wavBits, Value(params.freqLimit) > 0.0, header, Snap());
    }

    /** ExportWAV's loop: chunks of 256 samples while the note plays and
        fewer than 441000 samples have been written. */
    method RenderChunks(f: ByteFile, ghost header: seq<byte>, ghost samples: seq<int>)
      returns (ghost all: seq<int>)
      requires Exporting(f, header, samples)
      modifies this, phaserBuffer, noiseBuffer, f
      ensures Exporting(f, header, all)
      ensures !playing || sink.written >= MaxSamples
      ensures params == old(params) && wavBits == old(wavBits) && wavFreq == old(wavFreq)
    {
      all := samples;
      while playing && sink.written < MaxSamples
        invariant Exporting(f, header, all)
        invariant params == old(params) && wavBits == old(wavBits) && wavFreq == old(wavFreq)
        decreases MaxSamples - sink.written
      {
        all := RenderChunk(f, header, all);
      }
    }

    /** One pass of ExportWAV's loop: SynthSample(256, nil, file). */
    method RenderChunk(f: ByteFile, ghost header: seq<byte>, ghost samples: seq<int>)
      returns (ghost more: seq<int>)
      requires Exporting(f, header, samples) && playing && sink.written < MaxSamples
      modifies this, phaserBuffer, noiseBuffer, f
      ensures Exporting(f, header, more)
      ensures params == old(params) && wavBits == old(wavBits) && wavFreq == old(wavFreq)
      ensures old(sink.written) < sink.written
    {
      ghost var v0, c0 := Snap(), f.contents;
      var n, fl, _ := SynthSample(Chunk, null, f);
      more := samples + fl;
      ExportStep(wavFreq, wavBits, EnvTotal(params), Value(params.freqLimit) > 0.0,
                 header, samples, v0, c0, n, fl, Snap(), f.contents, f.pos);
    }

    /** ExportWAV's sample data: resets the file sink, triggers the note,
        renders chunks of 256 samples while it plays and the safety limit is
        not reached, then clears playing_sample. */
    method RenderAll(f: ByteFile, ghost header: seq<byte>) returns (ghost samples: seq<int>)
      requires Valid()
      requires f.contents == header && f.pos == |header|
      modifies this, phaserBuffer, noiseBuffer, f
      ensures Valid() && !playing
      ensures params == old(params) && wavBits == old(wavBits) && wavFreq == old(wavFreq)
      ensures 0 <= sink.written <= 441088 && sink.written <= EnvTotal(params)
      ensures Value(params.freqLimit) <= 0.0 ==> sink.written == Min(EnvTotal(params), 441088)
      ensures forall j :: 0 <= j < |samples| ==> PcmValue(samples[j], wavBits)
      ensures |samples| == (if wavFreq == 44100 then sink.written else sink.written / 2)
      ensures f.contents == header + PcmBytes(samples, wavBits)
    {
      // write sample data
      BeginExport(f, header);
      samples := RenderChunks(f, header, []);
      ExportDone(wavFreq, wavBits, EnvTotal(params), Value(params.freqLimit) > 0.0, header,
                 samples, Snap(), f.contents, f.pos);
      Stop();
    }

    /** Clears playing_sample, leaving every other global as it is. */
    method Stop()
      requires Valid()
      modifies this`playing
      ensures Valid() && !playing
    {
      playing := false;
    }

    /** ExportWAV: writes the RIFF/WAVE header with zero sizes, triggers the
        note, renders it in chunks of 256 samples until it ends or the
        safety limit is reached, then patches the size fields. `canCreate`
        is whether os.Create succeeds. */
    method ExportWAV(canCreate: bool) returns (ok: bool, file: ByteFile?, ghost samples: seq<int>)
      requires Valid()
      modifies this, phaserBuffer, noiseBuffer
      ensures Valid()
      ensures ok == canCreate && (ok <==> file != null)
      ensures !ok ==> unchanged(this) && unchanged(phaserBuffer) && unchanged(noiseBuffer)
      ensures ok ==> fresh(file) && !playing
      ensures params == old(params) && wavBits == old(wavBits) && wavFreq == old(wavFreq)
      ensures ok ==> 0 <= sink.written < MaxSamples + Chunk
      ensures ok ==> sink.written <= EnvTotal(params)
      ensures ok && Value(params.freqLimit) <= 0.0 ==> sink.written == Min(EnvTotal(params), 441088)
      ensures ok ==>
        && (forall j :: 0 <= j < |samples| ==> PcmValue(samples[j], wavBits))
        && |samples| == (if wavFreq == 44100 then sink.written else sink.written / 2)
        && file.contents == WavHeader(wavFreq, wavBits,
             40 + sink.written * wavBits / 8, sink.written * wavBits / 8) + PcmBytes(samples, wavBits)
    {
      samples := [];
      if !canCreate {
        return false, null, samples;
      }
      var f := new ByteFile();
      file := f;
      WriteHeader(f, wavFreq, wavBits);
      ghost var header := WavHeader(wavFreq, wavBits, 0, 0);
      var datasize := f.Tell();
      samples := RenderAll(f, header);
      PatchSizes(f, datasize, sink.written, wavFreq, wavBits, PcmBytes(samples, wavBits));
      ok := true;
    }
  }
}
