/** The audio stream encoder of main.go's main loop: while a sound plays,
    blocks of 1024 samples are rendered into a float buffer and each sample
    is queued as a little-endian signed 16-bit value. */
module Stream {
  import opened Bytes
  import opened Synth

  /** Samples rendered per queued block. */
  const BlockSize: int := 1024

  /** The int16 queued for sample f: f clamped to [-1, 1] (lower bound
      first), scaled by 32767 and truncated toward zero. */
  function StreamValue(f: real): (v: int)
    ensures -32767 <= v <= 32767
    ensures f >= 1.0 ==> v == 32767
    ensures f <= -1.0 ==> v == -32767
    ensures -1.0 <= f <= 1.0 ==> v as real - 1.0 < f * 32767.0 < v as real + 1.0
    ensures (f >= 0.0 ==> v >= 0) && (f <= 0.0 ==> v <= 0)
  {
    Trunc(Clamp(f, -1.0, 1.0) * 32767.0)
  }

  /** The two bytes queued for sample f: the value masked with 0xFF, then
      the value shifted right arithmetically by 8 and masked with 0xFF. */
  function StreamBytes(f: real): (r: seq<byte>)
    ensures |r| == 2
  {
    var v := StreamValue(f);
    [v % 0x100, (v / 0x100) % 0x100]
  }

  /** The bytes are the int16's little-endian two's-complement encoding, so
      a reader of the queue gets the value back. */
  lemma {:induction false} StreamBytesRoundTrip(f: real)
    ensures StreamBytes(f) == I16LE(StreamValue(f))
    ensures ReadI16LE(StreamBytes(f), 0) == StreamValue(f)
  {
    var v := StreamValue(f);
    var u := v % 0x1_0000;
    if v < 0 {
      assert u == v + 0x1_0000;
      assert u % 0x100 == v % 0x100;
      assert u / 0x100 == v / 0x100 + 0x100;
      assert (v / 0x100) % 0x100 == u / 0x100;
    }
    I16RoundTrip(v);
  }

  /** Louder samples never encode to smaller values. */
  lemma {:induction false} StreamValueMonotone(f: real, g: real)
    requires f <= g
    ensures StreamValue(f) <= StreamValue(g)
  {
    var x, y := Clamp(f, -1.0, 1.0) * 32767.0, Clamp(g, -1.0, 1.0) * 32767.0;
    assert x <= y;
    TruncMonotone(x, y);
  }

  /** Encodes a rendered block for the audio queue: bytes 2i and 2i + 1
      hold sample i. */
  method EncodeBlock(fbuf: array<real>) returns (out: array<byte>)
    ensures fresh(out)
    ensures out.Length == 2 * fbuf.Length
    ensures forall i :: 0 <= i < fbuf.Length ==> out[2 * i..2 * i + 2] == StreamBytes(fbuf[i])
    ensures forall i :: 0 <= i < fbuf.Length ==> ReadI16LE(out[..], 2 * i) == StreamValue(fbuf[i])
  {
    out := new byte[2 * fbuf.Length](_ => 0);
    var i := 0;
    while i < fbuf.Length
      invariant 0 <= i <= fbuf.Length
      invariant forall k :: 0 <= k < i ==>
        out[2 * k] == StreamBytes(fbuf[k])[0] && out[2 * k + 1] == StreamBytes(fbuf[k])[1]
    {
      var f := fbuf[i];
      if f < -1.0 {
        f := -1.0;
      }
      if f > 1.0 {
        f := 1.0;
      }
      var v := Trunc(f * 32767.0);
      out[2 * i] := v % 0x100;
      out[2 * i + 1] := (v / 0x100) % 0x100;
      i := i + 1;
    }
    forall i | 0 <= i < fbuf.Length
      ensures out[2 * i..2 * i + 2] == StreamBytes(fbuf[i])
      ensures ReadI16LE(out[..], 2 * i) == StreamValue(fbuf[i])
    {
      StreamBytesRoundTrip(fbuf[i]);
      assert out[2 * i..2 * i + 2] == [out[2 * i], out[2 * i + 1]];
    }
  }

  /** One iteration of the playback loop: render a block of 1024 samples
      into a zeroed buffer and encode it. The samples the engine produced
      are queued as their int16 values; the rest of the block is silence. */
  method StreamBlock(e: Engine) returns (ghost produced: nat, out: array<byte>)
    requires e.Valid()
    modifies e`rep, e`slide, e`period, e`duty, e`arp, e`playing,
             e`vib, e`env, e`pha, e`flt, e`phase, e`sink, e.phaserBuffer, e.noiseBuffer
    ensures e.Valid() && e.params == old(e.params)
    ensures produced <= BlockSize && (produced < BlockSize ==> !e.playing)
    ensures out.Length == 2 * BlockSize
    ensures forall i :: 0 <= i < BlockSize ==> -32767 <= ReadI16LE(out[..], 2 * i) <= 32767
    ensures forall i :: produced <= i < BlockSize ==> ReadI16LE(out[..], 2 * i) == 0
  {
    var fbuf := new real[BlockSize](_ => 0.0);
    ghost var zeros := fbuf[..];
    ghost var fl, rt;
    produced, fl, rt := e.SynthSample(BlockSize, fbuf, null);
    out := EncodeBlock(fbuf);
    forall i | produced <= i < BlockSize
      ensures fbuf[i] == 0.0
    {
      assert fbuf[produced..][i - produced] == zeros[produced..][i - produced];
    }
  }
}
