/** The parameter file of settings.go: a little-endian binary record of the
    sound parameters. SaveSettings always writes version 102; LoadSettings
    also reads the older versions 100 and 101, which lack some fields.

    Layout (byte offsets; `a` is where base_freq starts, 12 for version 102
    and 8 otherwise; `b` is where duty starts, a + 16 for versions 101 and
    102 and a + 12 for version 100):

      0 version (int32)       4 wave_type (int32)   8 sound_vol (102 only)
      a base_freq             a+4 freq_limit        a+8 freq_ramp
      a+12 freq_dramp (101 and 102)
      b duty        b+4 duty_ramp     b+8 vib_strength   b+12 vib_speed
      b+16 vib_delay    b+20 env_attack   b+24 env_sustain   b+28 env_decay
      b+32 env_punch    b+36 filter_on (one byte)            b+37 lpf_resonance
      b+41 lpf_freq     b+45 lpf_ramp     b+49 hpf_freq      b+53 hpf_ramp
      b+57 pha_offset   b+61 pha_ramp     b+65 repeat_speed
      b+69 arp_speed    b+73 arp_mod (101 and 102)

    Every field but filter_on is four bytes; every float is its float32 bit
    pattern. */
module Settings {
  import opened Bytes
  import opened Params
  import opened Synth

  // ---------------------------------------------------------------------
  // The record, as values

  /** binary.Write of a float32: its bit pattern, little-endian. */
  function F32LE(f: Float32): (r: seq<byte>)
    ensures |r| == 4
  {
    U32LE(f.bits)
  }

  /** binary.Write of a bool: one byte, 1 for true and 0 for false. */
  function BoolByte(b: bool): byte
  {
    if b then 1 else 0
  }

  /** The record SaveSettings writes: version 102, then every field in order. */
  function Encode(p: Params): (r: seq<byte>)
    ensures |r| == 105
  {
    I32LE(102) + I32LE(p.waveType) + F32LE(p.soundVol)
    + F32LE(p.baseFreq) + F32LE(p.freqLimit) + F32LE(p.freqRamp) + F32LE(p.freqDramp)
    + F32LE(p.duty) + F32LE(p.dutyRamp)
    + F32LE(p.vibStrength) + F32LE(p.vibSpeed) + F32LE(p.vibDelay)
    + F32LE(p.envAttack) + F32LE(p.envSustain) + F32LE(p.envDecay) + F32LE(p.envPunch)
    + [BoolByte(p.filterOn)] + F32LE(p.lpfResonance) + F32LE(p.lpfFreq) + F32LE(p.lpfRamp)
    + F32LE(p.hpfFreq) + F32LE(p.hpfRamp)
    + F32LE(p.phaOffset) + F32LE(p.phaRamp)
    + F32LE(p.repeatSpeed)
    + F32LE(p.arpSpeed) + F32LE(p.arpMod)
  }

  /** The version a reader finds: the first int32, or 0 (the zero value of
      the variable it is read into) when the file is shorter than that. */
  function Version(data: seq<byte>): (v: int)
    ensures -0x8000_0000 <= v < 0x8000_0000
  {
    if 4 <= |data| then ReadI32LE(data, 0) else 0
  }

  /** LoadSettings goes on past the version check. */
  predicate Accepted(data: seq<byte>)
  {
    var v := Version(data);
    v == 100 || v == 101 || v == 102
  }

  /** The bytes a record of each version holds. */
  function RecordSize(version: int): nat
  {
    if version == 102 then 105 else if version == 101 then 101 else 89
  }

  /** What binary.Read leaves in an int32 variable holding dflt when it
      reads at offset off: the field, or dflt if the file ends first. */
  function I32At(data: seq<byte>, off: nat, dflt: int): int
  {
    if off + 4 <= |data| then ReadI32LE(data, off) else dflt
  }

  /** The same for a float32 variable. */
  function F32At(data: seq<byte>, off: nat, dflt: Float32): Float32
  {
    if off + 4 <= |data| then Float32(ReadU32LE(data, off)) else dflt
  }

  /** The same for a bool variable: any nonzero byte reads as true. */
  function BoolAt(data: seq<byte>, off: nat, dflt: bool): bool
  {
    if off + 1 <= |data| then data[off] != 0 else dflt
  }

  /** A field ending at byte `end` of a file of n bytes: the saved value
      when the file holds it, the prior one otherwise. */
  function Kept(n: nat, end: nat, saved: Float32, prior: Float32): Float32
  {
    if end <= n then saved else prior
  }

  /** The parameters after loading an accepted file over p0, read off the
      layout table above. wave_type and sound_vol do not keep their old
      values: wave_type is read through a fresh variable, and sound_vol is
      set to 0.5 before the version-102 read. */
  function Decoded(data: seq<byte>, p0: Params): Params
    requires Accepted(data)
  {
    var v := Version(data);
    var a := if v == 102 then 12 else 8;
    var b := if v == 100 then a + 12 else a + 16;
    Params(
      waveType := I32At(data, 4, 0),
      soundVol := if v == 102 then F32At(data, 8, Half) else Half,
      baseFreq := F32At(data, a, p0.baseFreq),
      freqLimit := F32At(data, a + 4, p0.freqLimit),
      freqRamp := F32At(data, a + 8, p0.freqRamp),
      freqDramp := if v == 100 then p0.freqDramp else F32At(data, a + 12, p0.freqDramp),
      duty := F32At(data, b, p0.duty),
      dutyRamp := F32At(data, b + 4, p0.dutyRamp),
      vibStrength := F32At(data, b + 8, p0.vibStrength),
      vibSpeed := F32At(data, b + 12, p0.vibSpeed),
      vibDelay := F32At(data, b + 16, p0.vibDelay),
      envAttack := F32At(data, b + 20, p0.envAttack),
      envSustain := F32At(data, b + 24, p0.envSustain),
      envDecay := F32At(data, b + 28, p0.envDecay),
      envPunch := F32At(data, b + 32, p0.envPunch),
      filterOn := BoolAt(data, b + 36, p0.filterOn),
      lpfResonance := F32At(data, b + 37, p0.lpfResonance),
      lpfFreq := F32At(data, b + 41, p0.lpfFreq),
      lpfRamp := F32At(data, b + 45, p0.lpfRamp),
      hpfFreq := F32At(data, b + 49, p0.hpfFreq),
      hpfRamp := F32At(data, b + 53, p0.hpfRamp),
      phaOffset := F32At(data, b + 57, p0.phaOffset),
      phaRamp := F32At(data, b + 61, p0.phaRamp),
      repeatSpeed := F32At(data, b + 65, p0.repeatSpeed),
      arpSpeed := if v == 100 then p0.arpSpeed else F32At(data, b + 69, p0.arpSpeed),
      arpMod := if v == 100 then p0.arpMod else F32At(data, b + 73, p0.arpMod))
  }

  // ---------------------------------------------------------------------
  // Properties of the record

  /** The version field of a saved record. */
  lemma SavedVersion(p: Params)
    ensures Version(Encode(p)) == 102
  {
    U32RoundTrip(102);
    assert ReadU32LE(Encode(p), 0) == 102;
  }

  /** The wave type field of a saved record. */
  lemma SavedWaveType(p: Params)
    ensures ReadI32LE(Encode(p), 4) == Wrap32(p.waveType)
  {
    var x := p.waveType % 0x1_0000_0000;
    U32RoundTrip(x);
    I32RoundTrip(p.waveType);
    assert ReadU32LE(Encode(p), 4) == x;
  }

  /** The float fields of a saved record, group by group. */
  lemma SavedPitch(p: Params)
    ensures ReadU32LE(Encode(p), 8) == p.soundVol.bits
    ensures ReadU32LE(Encode(p), 12) == p.baseFreq.bits
    ensures ReadU32LE(Encode(p), 16) == p.freqLimit.bits
    ensures ReadU32LE(Encode(p), 20) == p.freqRamp.bits
  {
    U32RoundTrip(p.soundVol.bits);
    U32RoundTrip(p.baseFreq.bits);
    U32RoundTrip(p.freqLimit.bits);
    U32RoundTrip(p.freqRamp.bits);
  }

  lemma SavedSlide(p: Params)
    ensures ReadU32LE(Encode(p), 24) == p.freqDramp.bits
    ensures ReadU32LE(Encode(p), 28) == p.duty.bits
    ensures ReadU32LE(Encode(p), 32) == p.dutyRamp.bits
  {
    U32RoundTrip(p.freqDramp.bits);
    U32RoundTrip(p.duty.bits);
    U32RoundTrip(p.dutyRamp.bits);
  }

  lemma SavedVibrato(p: Params)
    ensures ReadU32LE(Encode(p), 36) == p.vibStrength.bits
    ensures ReadU32LE(Encode(p), 40) == p.vibSpeed.bits
    ensures ReadU32LE(Encode(p), 44) == p.vibDelay.bits
  {
    U32RoundTrip(p.vibStrength.bits);
    U32RoundTrip(p.vibSpeed.bits);
    U32RoundTrip(p.vibDelay.bits);
  }

  lemma SavedEnvelope(p: Params)
    ensures ReadU32LE(Encode(p), 48) == p.envAttack.bits
    ensures ReadU32LE(Encode(p), 52) == p.envSustain.bits
    ensures ReadU32LE(Encode(p), 56) == p.envDecay.bits
    ensures ReadU32LE(Encode(p), 60) == p.envPunch.bits
    ensures Encode(p)[64] == BoolByte(p.filterOn)
  {
    U32RoundTrip(p.envAttack.bits);
    U32RoundTrip(p.envSustain.bits);
    U32RoundTrip(p.envDecay.bits);
    U32RoundTrip(p.envPunch.bits);
  }

  lemma SavedFilters(p: Params)
    ensures ReadU32LE(Encode(p), 65) == p.lpfResonance.bits
    ensures ReadU32LE(Encode(p), 69) == p.lpfFreq.bits
    ensures ReadU32LE(Encode(p), 73) == p.lpfRamp.bits
    ensures ReadU32LE(Encode(p), 77) == p.hpfFreq.bits
    ensures ReadU32LE(Encode(p), 81) == p.hpfRamp.bits
    ensures ReadU32LE(Encode(p), 85) == p.phaOffset.bits
  {
    U32RoundTrip(p.lpfResonance.bits);
    U32RoundTrip(p.lpfFreq.bits);
    U32RoundTrip(p.lpfRamp.bits);
    U32RoundTrip(p.hpfFreq.bits);
    U32RoundTrip(p.hpfRamp.bits);
    U32RoundTrip(p.phaOffset.bits);
  }

  lemma SavedTail(p: Params)
    ensures ReadU32LE(Encode(p), 89) == p.phaRamp.bits
    ensures ReadU32LE(Encode(p), 93) == p.repeatSpeed.bits
    ensures ReadU32LE(Encode(p), 97) == p.arpSpeed.bits
    ensures ReadU32LE(Encode(p), 101) == p.arpMod.bits
  {
    U32RoundTrip(p.phaRamp.bits);
    U32RoundTrip(p.repeatSpeed.bits);
    U32RoundTrip(p.arpSpeed.bits);
    U32RoundTrip(p.arpMod.bits);
  }

  /** Saving then loading gives every parameter back bit for bit, whatever
      was loaded over; wave_type comes back as Go's int32(wave_type). */
  lemma SaveLoadRoundTrip(p: Params, q: Params)
    ensures Accepted(Encode(p)) && Version(Encode(p)) == 102
    ensures Decoded(Encode(p), q) == p.(waveType := Wrap32(p.waveType))
  {
    SavedVersion(p);
    SavedWaveType(p);
    SavedPitch(p);
    SavedSlide(p);
    SavedVibrato(p);
    SavedEnvelope(p);
    SavedFilters(p);
    SavedTail(p);
  }

  /** A record is read field by field from the front: cutting the file
      anywhere keeps every field that still fits, and the rest take their
      defaults. */
  lemma ReadPrefix(data: seq<byte>, n: nat)
    requires n <= |data|
    ensures forall off: nat, d :: I32At(data[..n], off, d) == if off + 4 <= n then I32At(data, off, d) else d
    ensures forall off: nat, d :: F32At(data[..n], off, d) == if off + 4 <= n then F32At(data, off, d) else d
    ensures forall off: nat, d :: BoolAt(data[..n], off, d) == if off + 1 <= n then BoolAt(data, off, d) else d
  {
  }

  /** Only the first RecordSize(version) bytes matter: whatever follows
      the record is never read. */
  lemma {:induction false} ReadsOnlyRecord(data: seq<byte>, n: nat, q: Params)
    requires Accepted(data) && RecordSize(Version(data)) <= n <= |data|
    ensures Accepted(data[..n]) && Version(data[..n]) == Version(data)
    ensures Decoded(data[..n], q) == Decoded(data, q)
  {
    var v := Version(data);
    var a := if v == 102 then 12 else 8;
    var b := if v == 100 then a + 12 else a + 16;
    assert b + 69 <= n && (v != 100 ==> b + 77 <= n);
    ReadPrefix(data, n);
  }

  /** A file holding nothing but an accepted version still loads: wave_type
      becomes 0, sound_vol 0.5, and every other parameter keeps its value. */
  lemma VersionOnly(v: int, q: Params)
    requires v == 100 || v == 101 || v == 102
    ensures Accepted(I32LE(v)) && Decoded(I32LE(v), q) == q.(waveType := 0, soundVol := Half)
  {
    U32RoundTrip(v);
    assert Version(I32LE(v)) == v;
  }

  /** A saved record cut after n bytes still loads. Each field whose bytes
      lie inside the first n comes back as saved; every later field keeps
      the value it had before the load, except wave_type and sound_vol,
      which fall back to 0 and 0.5. */
  lemma {:induction false} SaveTruncated(p: Params, q: Params, n: nat)
    requires 4 <= n <= 105
    ensures Accepted(Encode(p)[..n]) && Version(Encode(p)[..n]) == 102
    ensures Decoded(Encode(p)[..n], q) == Params(
      waveType := if 8 <= n then Wrap32(p.waveType) else 0,
      soundVol := Kept(n, 12, p.soundVol, Half),
      baseFreq := Kept(n, 16, p.baseFreq, q.baseFreq),
      freqLimit := Kept(n, 20, p.freqLimit, q.freqLimit),
      freqRamp := Kept(n, 24, p.freqRamp, q.freqRamp),
      freqDramp := Kept(n, 28, p.freqDramp, q.freqDramp),
      duty := Kept(n, 32, p.duty, q.duty),
      dutyRamp := Kept(n, 36, p.dutyRamp, q.dutyRamp),
      vibStrength := Kept(n, 40, p.vibStrength, q.vibStrength),
      vibSpeed := Kept(n, 44, p.vibSpeed, q.vibSpeed),
      vibDelay := Kept(n, 48, p.vibDelay, q.vibDelay),
      envAttack := Kept(n, 52, p.envAttack, q.envAttack),
      envSustain := Kept(n, 56, p.envSustain, q.envSustain),
      envDecay := Kept(n, 60, p.envDecay, q.envDecay),
      envPunch := Kept(n, 64, p.envPunch, q.envPunch),
      filterOn := if 65 <= n then p.filterOn else q.filterOn,
      lpfResonance := Kept(n, 69, p.lpfResonance, q.lpfResonance),
      lpfFreq := Kept(n, 73, p.lpfFreq, q.lpfFreq),
      lpfRamp := Kept(n, 77, p.lpfRamp, q.lpfRamp),
      hpfFreq := Kept(n, 81, p.hpfFreq, q.hpfFreq),
      hpfRamp := Kept(n, 85, p.hpfRamp, q.hpfRamp),
      phaOffset := Kept(n, 89, p.phaOffset, q.phaOffset),
      phaRamp := Kept(n, 93, p.phaRamp, q.phaRamp),
      repeatSpeed := Kept(n, 97, p.repeatSpeed, q.repeatSpeed),
      arpSpeed := Kept(n, 101, p.arpSpeed, q.arpSpeed),
      arpMod := Kept(n, 105, p.arpMod, q.arpMod))
  {
    var e := Encode(p);
    SaveLoadRoundTrip(p, q);
    assert Version(e[..n]) == 102;
    forall off: nat, d: Float32 | off + 4 <= 105
      ensures F32At(e[..n], off, d) == Kept(n, off + 4, F32At(e, off, d), d)
    {
    }
    assert BoolAt(e[..n], 64, q.filterOn) == if 65 <= n then e[64] != 0 else q.filterOn;
    assert I32At(e[..n], 4, 0) == if 8 <= n then I32At(e, 4, 0) else 0;
  }

  /** filter_on is written as 1 or 0, and any nonzero byte in its place
      loads as true, with every other field unaffected. */
  lemma {:induction false} FilterByte(p: Params, q: Params, x: byte)
    ensures Accepted(Encode(p)[64 := x])
    ensures Decoded(Encode(p)[64 := x], q) == p.(waveType := Wrap32(p.waveType), filterOn := x != 0)
  {
    var e := Encode(p);
    var e' := e[64 := x];
    SaveLoadRoundTrip(p, q);
    ReadUpdate(e, 64, x);
    assert e'[..64] == e[..64];
    assert e'[65..] == e[65..];
  }

  /** Changing one byte leaves every field that does not contain it alone. */
  lemma ReadUpdate(s: seq<byte>, i: nat, x: byte)
    requires i < |s|
    ensures forall off: nat :: off + 4 <= |s| && (i < off || off + 4 <= i) ==>
      ReadU32LE(s[i := x], off) == ReadU32LE(s, off)
  {
  }

  /** The version gate: a file is accepted exactly when it starts with the
      int32 100, 101 or 102; one too short to hold a version is refused. */
  lemma {:induction false} VersionGate(v: int, rest: seq<byte>)
    requires -0x8000_0000 <= v < 0x8000_0000
    ensures Accepted(I32LE(v) + rest) <==> v == 100 || v == 101 || v == 102
  {
    I32RoundTrip(v);
    assert (I32LE(v) + rest)[..4] == I32LE(v);
  }

  lemma ShortFileRefused(data: seq<byte>)
    requires |data| < 4
    ensures !Accepted(data)
  {
  }

  /** Versions 100 and 101 carry no volume, so sound_vol becomes 0.5;
      version 100 also lacks freq_dramp, arp_speed and arp_mod, which keep
      the values they had before the load. */
  lemma OlderVersions(data: seq<byte>, q: Params)
    requires Accepted(data)
    ensures Version(data) != 102 ==> Decoded(data, q).soundVol == Half
    ensures Version(data) == 100 ==>
      var r := Decoded(data, q);
      r.freqDramp == q.freqDramp && r.arpSpeed == q.arpSpeed && r.arpMod == q.arpMod
  {
  }

  // ---------------------------------------------------------------------
  // Saving and loading through a file

  /** SaveSettings: os.Create's outcome is canCreate; on success the file
      holds the version-102 record of the engine's parameters. */
  method SaveSettings(e: Engine, canCreate: bool) returns (ok: bool, file: ByteFile?)
    ensures ok == canCreate && (file != null <==> ok)
    ensures file != null ==> fresh(file) && file.contents == Encode(e.params) && file.pos == 105
  {
    if !canCreate {
      return false, null;
    }
    var p := e.params;
    var f := new ByteFile();
    f.Append(I32LE(102));
    assert f.contents == I32LE(102);
    f.Append(I32LE(p.waveType));
    f.Append(F32LE(p.soundVol));

    f.Append(F32LE(p.baseFreq));
    f.Append(F32LE(p.freqLimit));
    f.Append(F32LE(p.freqRamp));
    f.Append(F32LE(p.freqDramp));
    f.Append(F32LE(p.duty));
    f.Append(F32LE(p.dutyRamp));

    f.Append(F32LE(p.vibStrength));
    f.Append(F32LE(p.vibSpeed));
    f.Append(F32LE(p.vibDelay));

    f.Append(F32LE(p.envAttack));
    f.Append(F32LE(p.envSustain));
    f.Append(F32LE(p.envDecay));
    f.Append(F32LE(p.envPunch));

    f.Append([BoolByte(p.filterOn)]);
    f.Append(F32LE(p.lpfResonance));
    f.Append(F32LE(p.lpfFreq));
    f.Append(F32LE(p.lpfRamp));
    f.Append(F32LE(p.hpfFreq));
    f.Append(F32LE(p.hpfRamp));

    f.Append(F32LE(p.phaOffset));
    f.Append(F32LE(p.phaRamp));

    f.Append(F32LE(p.repeatSpeed));

    f.Append(F32LE(p.arpSpeed));
    f.Append(F32LE(p.arpMod));
    return true, f;
  }

  /** binary.Read into an int32 variable holding dflt. The reader stands at
      the nominal offset off of the field, or at the end of the file if the
      file ends before off. */
  method ReadInt32(f: ByteFile, ghost off: nat, dflt: int) returns (v: int)
    requires f.pos == Min(off, |f.contents|)
    modifies f`pos
    ensures v == I32At(f.contents, off, dflt) && f.pos == Min(off + 4, |f.contents|)
  {
    var b := f.Read(4);
    if b.Some? {
      v := ReadI32LE(b.value, 0);
    } else {
      v := dflt;
    }
  }

  /** binary.Read into a float32 variable holding dflt. */
  method ReadFloat32(f: ByteFile, ghost off: nat, dflt: Float32) returns (v: Float32)
    requires f.pos == Min(off, |f.contents|)
    modifies f`pos
    ensures v == F32At(f.contents, off, dflt) && f.pos == Min(off + 4, |f.contents|)
  {
    var b := f.Read(4);
    if b.Some? {
      v := Float32(ReadU32LE(b.value, 0));
    } else {
      v := dflt;
    }
  }

  /** binary.Read into a bool variable holding dflt. */
  method ReadBool(f: ByteFile, ghost off: nat, dflt: bool) returns (v: bool)
    requires f.pos == Min(off, |f.contents|)
    modifies f`pos
    ensures v == BoolAt(f.contents, off, dflt) && f.pos == Min(off + 1, |f.contents|)
  {
    var b := f.Read(1);
    if b.Some? {
      v := b.value[0] != 0;
    } else {
      v := dflt;
    }
  }

  /** LoadSettings from a file that os.Open opened (null when it failed).
      A version other than 100, 101 or 102 is refused before anything is
      changed; otherwise the fields are read in order, each one that the
      file still holds replacing the parameter, and the load succeeds even
      if the file ends early. */
  method LoadSettings(e: Engine, file: ByteFile?) returns (ok: bool)
    requires file != null ==> file.pos == 0
    modifies e`params, file
    ensures file == null ==> !ok
    ensures file != null ==> ok == Accepted(file.contents)
    ensures file != null && ok ==>
      && e.params == Decoded(file.contents, old(e.params))
      && file.pos == Min(RecordSize(Version(file.contents)), |file.contents|)
    ensures !ok ==> e.params == old(e.params)
  {
    if file == null {
      return false;
    }
    ghost var data := file.contents;
    var version := ReadInt32(file, 0, 0);
    assert version == Version(data);
    if version != 100 && version != 101 && version != 102 {
      return false;
    }

    var p := e.params;
    var waveType := ReadInt32(file, 4, 0);

    var soundVol := Half;
    ghost var a := 8;
    if version == 102 {
      soundVol := ReadFloat32(file, 8, soundVol);
      a := 12;
    }

    var baseFreq := ReadFloat32(file, a, p.baseFreq);
    var freqLimit := ReadFloat32(file, a + 4, p.freqLimit);
    var freqRamp := ReadFloat32(file, a + 8, p.freqRamp);
    var freqDramp := p.freqDramp;
    ghost var b := a + 12;
    if version >= 101 {
      freqDramp := ReadFloat32(file, a + 12, freqDramp);
      b := a + 16;
    }
    var q := ReadBody(file, b, p.(waveType := waveType, soundVol := soundVol, baseFreq := baseFreq,
                                  freqLimit := freqLimit, freqRamp := freqRamp, freqDramp := freqDramp));

    var arpSpeed, arpMod := p.arpSpeed, p.arpMod;
    if version >= 101 {
      arpSpeed := ReadFloat32(file, b + 69, arpSpeed);
      arpMod := ReadFloat32(file, b + 73, arpMod);
    }

    assert a == (if version == 102 then 12 else 8);
    assert b == (if version == 100 then a + 12 else a + 16);
    e.params := q.(arpSpeed := arpSpeed, arpMod := arpMod);
    return true;
  }

  /** The run of fields every version stores, p_duty to p_repeat_speed,
      with p_duty at offset b: each one the file still holds replaces the
      value in p. */
  method ReadBody(file: ByteFile, ghost b: nat, p: Params) returns (q: Params)
    requires file.pos == Min(b, |file.contents|)
    modifies file`pos
    ensures var c := file.contents; q == p.(
      duty := F32At(c, b, p.duty), dutyRamp := F32At(c, b + 4, p.dutyRamp),
      vibStrength := F32At(c, b + 8, p.vibStrength), vibSpeed := F32At(c, b + 12, p.vibSpeed),
      vibDelay := F32At(c, b + 16, p.vibDelay),
      envAttack := F32At(c, b + 20, p.envAttack), envSustain := F32At(c, b + 24, p.envSustain),
      envDecay := F32At(c, b + 28, p.envDecay), envPunch := F32At(c, b + 32, p.envPunch),
      filterOn := BoolAt(c, b + 36, p.filterOn),
      lpfResonance := F32At(c, b + 37, p.lpfResonance), lpfFreq := F32At(c, b + 41, p.lpfFreq),
      lpfRamp := F32At(c, b + 45, p.lpfRamp), hpfFreq := F32At(c, b + 49, p.hpfFreq),
      hpfRamp := F32At(c, b + 53, p.hpfRamp),
      phaOffset := F32At(c, b + 57, p.phaOffset), phaRamp := F32At(c, b + 61, p.phaRamp),
      repeatSpeed := F32At(c, b + 65, p.repeatSpeed))
    ensures file.pos == Min(b + 69, |file.contents|)
  {
    var duty := ReadFloat32(file, b, p.duty);
    var dutyRamp := ReadFloat32(file, b + 4, p.dutyRamp);
    q := p.(duty := duty, dutyRamp := dutyRamp);
    q := ReadVibrato(file, b, q);
    q := ReadEnvelope(file, b, q);
    q := ReadFilter(file, b, q);
    q := ReadPhaser(file, b, q);
    var repeatSpeed := ReadFloat32(file, b + 65, p.repeatSpeed);
    q := q.(repeatSpeed := repeatSpeed);
  }

  /** The vibrato fields, with p_duty at offset b. */
  method ReadVibrato(file: ByteFile, ghost b: nat, p: Params) returns (q: Params)
    requires file.pos == Min(b + 8, |file.contents|)
    modifies file`pos
    ensures var c := file.contents; q == p.(
      vibStrength := F32At(c, b + 8, p.vibStrength), vibSpeed := F32At(c, b + 12, p.vibSpeed),
      vibDelay := F32At(c, b + 16, p.vibDelay))
    ensures file.pos == Min(b + 20, |file.contents|)
  {
    var vibStrength := ReadFloat32(file, b + 8, p.vibStrength);
    var vibSpeed := ReadFloat32(file, b + 12, p.vibSpeed);
    var vibDelay := ReadFloat32(file, b + 16, p.vibDelay);
    q := p.(vibStrength := vibStrength, vibSpeed := vibSpeed, vibDelay := vibDelay);
  }

  /** The envelope fields, with p_duty at offset b. */
  method ReadEnvelope(file: ByteFile, ghost b: nat, p: Params) returns (q: Params)
    requires file.pos == Min(b + 20, |file.contents|)
    modifies file`pos
    ensures var c := file.contents; q == p.(
      envAttack := F32At(c, b + 20, p.envAttack), envSustain := F32At(c, b + 24, p.envSustain),
      envDecay := F32At(c, b + 28, p.envDecay), envPunch := F32At(c, b + 32, p.envPunch))
    ensures file.pos == Min(b + 36, |file.contents|)
  {
    var envAttack := ReadFloat32(file, b + 20, p.envAttack);
    var envSustain := ReadFloat32(file, b + 24, p.envSustain);
    var envDecay := ReadFloat32(file, b + 28, p.envDecay);
    var envPunch := ReadFloat32(file, b + 32, p.envPunch);
    q := p.(envAttack := envAttack, envSustain := envSustain, envDecay := envDecay, envPunch := envPunch);
  }

  /** filter_on and the low-pass and high-pass fields, with p_duty at
      offset b; filter_on takes one byte. */
  method ReadFilter(file: ByteFile, ghost b: nat, p: Params) returns (q: Params)
    requires file.pos == Min(b + 36, |file.contents|)
    modifies file`pos
    ensures var c := file.contents; q == p.(
      filterOn := BoolAt(c, b + 36, p.filterOn),
      lpfResonance := F32At(c, b + 37, p.lpfResonance), lpfFreq := F32At(c, b + 41, p.lpfFreq),
      lpfRamp := F32At(c, b + 45, p.lpfRamp), hpfFreq := F32At(c, b + 49, p.hpfFreq),
      hpfRamp := F32At(c, b + 53, p.hpfRamp))
    ensures file.pos == Min(b + 57, |file.contents|)
  {
    var filterOn := ReadBool(file, b + 36, p.filterOn);
    var lpfResonance := ReadFloat32(file, b + 37, p.lpfResonance);
    var lpfFreq := ReadFloat32(file, b + 41, p.lpfFreq);
    var lpfRamp := ReadFloat32(file, b + 45, p.lpfRamp);
    var hpfFreq := ReadFloat32(file, b + 49, p.hpfFreq);
    var hpfRamp := ReadFloat32(file, b + 53, p.hpfRamp);
    q := p.(filterOn := filterOn, lpfResonance := lpfResonance, lpfFreq := lpfFreq, lpfRamp := lpfRamp,
            hpfFreq := hpfFreq, hpfRamp := hpfRamp);
  }

  /** The phaser fields, with p_duty at offset b. */
  method ReadPhaser(file: ByteFile, ghost b: nat, p: Params) returns (q: Params)
    requires file.pos == Min(b + 57, |file.contents|)
    modifies file`pos
    ensures var c := file.contents; q == p.(
      phaOffset := F32At(c, b + 57, p.phaOffset), phaRamp := F32At(c, b + 61, p.phaRamp))
    ensures file.pos == Min(b + 65, |file.contents|)
  {
    var phaOffset := ReadFloat32(file, b + 57, p.phaOffset);
    var phaRamp := ReadFloat32(file, b + 61, p.phaRamp);
    q := p.(phaOffset := phaOffset, phaRamp := phaRamp);
  }
}
