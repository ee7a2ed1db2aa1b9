/** The sound parameter set: the package-level p_* globals of main.go (plus
    wave_type, filter_on and sound_vol), each float kept as the float32 bit
    pattern Go stores, so that the parameter file can carry it bit-exactly. */
module Params {
  import opened Bytes

  /** A float32, as its IEEE-754 binary32 bit pattern. */
  datatype Float32 = Float32(bits: u32)

  function Pow2(n: nat): (r: nat)
    ensures r >= 1
  {
    if n == 0 then 1 else 2 * Pow2(n - 1)
  }

  lemma {:induction false} Pow2Add(a: nat, b: nat)
    ensures Pow2(a + b) == Pow2(a) * Pow2(b)
    decreases b
  {
    if b > 0 {
      Pow2Add(a, b - 1);
      assert Pow2(a + b) == 2 * Pow2(a + b - 1);
    }
  }

  /** The real number a finite float32 denotes: sign, 8-bit biased exponent,
      23-bit fraction; subnormals when the exponent field is 0. The two
      non-finite encodings (exponent field 255: infinities and NaNs) have no
      real value and are read as 0.0. */
  function Value(f: Float32): (r: real)
    ensures f.bits < 0x8000_0000 ==> r >= 0.0
    ensures f.bits >= 0x8000_0000 ==> r <= 0.0
  {
    var e := (f.bits / 0x80_0000) % 0x100;
    var m := f.bits % 0x80_0000;
    var mag :=
      if e == 0xFF then 0.0
      else if e == 0 then Scale(2 * m, 0)
      else Scale(0x80_0000 + m, e);
    if f.bits >= 0x8000_0000 then -mag else mag
  }

  /** 2^150: the exponent bias of binary32 (127) plus its 23 fraction bits. A
      normal float32 is (2^23 + fraction) * 2^(exponent - 150). */
  const TwoTo150: real := 1427247692705959881058285969449495136382746624.0

  /** m * 2^(e - 150), as a real. */
  function Scale(m: nat, e: nat): (r: real)
    ensures r >= 0.0
  {
    ((m * Pow2(e)) as real) / TwoTo150
  }

  // float32 constants used by the program
  const Zero := Float32(0)               // 0.0
  const Point3 := Float32(0x3E99_999A)   // float32(0.3)
  const Point4 := Float32(0x3ECC_CCCD)   // float32(0.4)
  const Half := Float32(0x3F00_0000)     // 0.5
  const One := Float32(0x3F80_0000)      // 1.0

  datatype Params = Params(
    waveType: int,          // 0 square, 1 sawtooth, 2 sine, 3 noise
    soundVol: Float32,
    baseFreq: Float32,
    freqLimit: Float32,
    freqRamp: Float32,
    freqDramp: Float32,
    duty: Float32,
    dutyRamp: Float32,
    vibStrength: Float32,
    vibSpeed: Float32,
    vibDelay: Float32,      // persisted, never read by the synthesis
    envAttack: Float32,
    envSustain: Float32,
    envDecay: Float32,
    envPunch: Float32,
    filterOn: bool,         // persisted, never read by the synthesis
    lpfResonance: Float32,
    lpfFreq: Float32,
    lpfRamp: Float32,
    hpfFreq: Float32,
    hpfRamp: Float32,
    phaOffset: Float32,
    phaRamp: Float32,
    repeatSpeed: Float32,
    arpSpeed: Float32,
    arpMod: Float32)

  /** The zero values Go gives the globals at start-up (sound_vol starts at 0.5). */
  function Initial(): (p: Params)
    ensures p.soundVol == Half && p.waveType == 0 && !p.filterOn
    ensures Value(p.soundVol) == 0.5 && Value(p.baseFreq) == 0.0 && Value(p.lpfFreq) == 0.0
  {
    HalfValue();
    ZeroValue();
    Params(0, Half, Zero, Zero, Zero, Zero, Zero, Zero, Zero, Zero, Zero,
           Zero, Zero, Zero, Zero, false, Zero, Zero, Zero, Zero, Zero,
           Zero, Zero, Zero, Zero, Zero)
  }

  /** The powers of two the program's constants need. */
  lemma Pow2Table()
    ensures Pow2(125) == 0x2000_0000_0000_0000_0000_0000_0000_0000
    ensures Pow2(126) == 0x4000_0000_0000_0000_0000_0000_0000_0000
    ensures Pow2(127) == 0x8000_0000_0000_0000_0000_0000_0000_0000
  {
    assert Pow2(8) == 256;
    assert Pow2(5) == 32;
    Pow2Add(8, 8);
    Pow2Add(16, 16);
    Pow2Add(32, 32);
    Pow2Add(64, 32);
    Pow2Add(96, 16);
    Pow2Add(112, 8);
    Pow2Add(120, 5);
    Pow2Add(125, 1);
    Pow2Add(126, 1);
  }

  /** The decoded values of the program's float32 constants. */
  lemma ZeroValue()
    ensures Value(Zero) == 0.0
  {
    assert Scale(0, 0) == 0.0;
  }

  lemma HalfValue()
    ensures Value(Half) == 0.5
  {
    Pow2Table();
    assert (Half.bits / 0x80_0000) % 0x100 == 126 && Half.bits % 0x80_0000 == 0;
    assert Scale(0x80_0000, 126) == 0.5;
  }

  lemma OneValue()
    ensures Value(One) == 1.0
  {
    Pow2Table();
    assert (One.bits / 0x80_0000) % 0x100 == 127 && One.bits % 0x80_0000 == 0;
    assert Scale(0x80_0000, 127) == 1.0;
  }

  /** float32(0.3) and float32(0.4): the nearest binary32 values to 0.3 and 0.4. */
  lemma Point3Value()
    ensures Value(Point3) == 10066330.0 / 33554432.0
    ensures 0.2999999 < Value(Point3) < 0.3000001
  {
    Pow2Table();
    assert (Point3.bits / 0x80_0000) % 0x100 == 125 && Point3.bits % 0x80_0000 == 0x19_999A;
    assert Scale(0x99_999A, 125) == 10066330.0 / 33554432.0;
  }

  lemma Point4Value()
    ensures Value(Point4) == 13421773.0 / 33554432.0
    ensures 0.3999999 < Value(Point4) < 0.4000001
  {
    Pow2Table();
    assert (Point4.bits / 0x80_0000) % 0x100 == 125 && Point4.bits % 0x80_0000 == 0x4C_CCCD;
    assert Scale(0xCC_CCCD, 125) == 13421773.0 / 33554432.0;
  }
}
