# sfxr-go in Dafny

sfxr-go is a Go port of sfxr, a small sound-effect synthesizer. This project
models its core:

- **The synthesis engine** (`synth.dfy`, module `Synth`). The package globals
  of `main.go` become the `Engine` class: the parameters, the synthesis state,
  the phaser and noise tables as arrays, and the export format. The class has
  `ResetParams`, `ResetSample`, `PlaySample`, the per-sample loop of
  `SynthSample` and `ExportWAV`.
  - `SynthSample` is split into methods, one per block of the Go loop body:
    repeat, arpeggio, slide, vibrato, duty, envelope, phaser, high-pass, the
    8x supersampling, and the buffer/file output.
  - `SynthSample` is proved against `Ran`. This relation says:
    - the envelope advances by exactly one sample per output sample;
    - its stage never goes back;
    - the clamps hold (period at least 8 with the phase inside it, fperiod at
      most its ceiling fmaxperiod, duty in [0, 0.5], low-pass cutoff in
      [0, 0.1], phaser delay in [0, 1023], and high-pass cutoff in
      [0.00001, 0.1] while it sweeps);
    - the note stops only at envelope stage 3 or, with a positive frequency
      limit, with fperiod held at its ceiling fmaxperiod.
  - The file sink is proved against `Accumulate`. `ExportWAV` is proved to
    leave the 44-byte RIFF/WAVE header followed by the flushed PCM values. It
    writes the two size fields as the code computes them: the RIFF size is
    40 plus the data size, and at 22050 Hz the data size counts rendered
    samples, so it is twice the payload.
- **The stream encoder** (`stream.dfy`, module `Stream`). This is the
  float to int16 to little-endian byte split of the playback loop in `main`.
- **The parameter file codec** (`settings.dfy`, module `Settings`).
  - `SaveSettings` writes the 105-byte version-102 record `Encode`.
  - `LoadSettings` reads version 100, 101 or 102 records through a file
    cursor. Its result is stated as `Decoded`, a table of field offsets. A
    field past the end of a short file keeps its previous value, as
    `binary.Read`'s ignored error leaves it.
- **The TGA loader** (`tga.dfy`, module `Tga`). `LoadTGAFromIoReader` reads the
  18-byte header, skips the image ID and reads the pixel rows bottom-up into a
  `Spriteset`. It is proved against `Image`, the row-major array of
  `0xAARRGGBB` words the stream describes, and against `Check`, the error the
  stream gives.
- **Shared pieces.**
  - `bytes.dfy` (module `Bytes`): little-endian integers, Go's truncating
    float-to-int conversion, and `ByteFile`, a file as bytes plus an offset.
  - `params.dfy` (module `Params`): the parameter record, with each float32
    kept as its IEEE-754 bit pattern so the codec round-trips bit-exactly.

## Model

| member | source | states |
|---|---|---|
| Bytes.Wrap32 | settings.go:78 | int32(x) lies in [-2^31, 2^31), is congruent to x mod 2^32 and leaves in-range values alone |
| Bytes.I32RoundTrip | settings.go:76-78 | reading back the int32 encoding of x gives int32(x) |
| Bytes.U32RoundTrip | settings.go:80-111 | a uint32 (a float32's bits) reads back from its little-endian bytes |
| Bytes.U16RoundTrip | main.go:430-435 | a uint16 header field reads back from its little-endian bytes |
| Bytes.I16RoundTrip | main.go:403-404 | an int16 sample reads back from its two's-complement little-endian bytes |
| Bytes.U32ReadWrite | tga.go:57-67 | re-encoding the word read from four bytes gives the same four bytes |
| Bytes.Trunc | main.go:167 | Go's int(x) truncates toward zero: within 1 of x, with no sign change |
| Bytes.TruncMonotone | main.go:554 | truncation preserves order |
| Bytes.WriteAtPointwise | main.go:458-461 | a write at an offset replaces exactly the bytes it covers, keeps the rest and zero-fills a gap |
| Bytes.WriteOver | main.go:458-461 | overwriting a field of equal length leaves the surrounding bytes alone |
| Bytes.ReadI32LE | settings.go:15-16 | binary.Read of an int32 gives a value in [-2^31, 2^31) |
| Bytes.WriteAtEnd | main.go:424-438 | writing at the end of a file appends |
| Bytes.WriteAtTwice | main.go:424-438 | two consecutive writes are one write of their concatenation |
| Bytes.ByteFile.constructor | main.go:417 | os.Create gives an empty file at offset 0 |
| Bytes.ByteFile.Write | main.go:424-438 | the bytes land at the offset, which moves past them; at the end of the file they are appended |
| Bytes.ByteFile.Append | main.go:404 | a write at the end of a write-only file appends |
| Bytes.ByteFile.Read | settings.go:16 | binary.Read gets all n bytes or fails, leaving the offset at the end of the file |
| Bytes.ByteFile.Tell | main.go:440 | Seek(0, 1) returns the current offset |
| Bytes.ByteFile.Seek | main.go:458 | Seek(offset, 0) moves to the offset |
| Params.Value | main.go:22-54 | a float32 bit pattern's real value is non-negative when the sign bit is clear and non-positive when it is set |
| Params.Initial | main.go:19-55 | the start-up parameters: Go zero values, with sound_vol 0.5 |
| Params.HalfValue | main.go:54 | the bit pattern of sound_vol's default is 0.5 |
| Params.OneValue | main.go:148 | the bit pattern of p_lpf_freq's default is 1.0 |
| Params.ZeroValue | main.go:131 | the zero bit pattern is 0.0 |
| Params.Point3Value | main.go:130 | float32(0.3) is within 1e-7 of 0.3 |
| Params.Point4Value | main.go:143 | float32(0.4) is within 1e-7 of 0.4 |
| Synth.Clamp | main.go:548-553 | clamping to [lo, hi], lower bound first, gives a value in range and keeps in-range values |
| Synth.Clip | main.go:379-384 | the buffer clip keeps values in [-1, 1] and sends larger ones to the nearer bound |
| Synth.Mask1023 | main.go:368-370 | `&1023` of a non-negative index lies in [0, 1023] and keeps smaller values |
| Synth.ArpLimit | main.go:179-182 | arp_limit is 0 exactly when p_arp_speed is 1, and at least 32 otherwise |
| Synth.RepeatLimit | main.go:227-230 | rep_limit is 0 exactly when p_repeat_speed is 0, and at least 32 otherwise |
| Synth.EnvLengths | main.go:204-206 | three non-negative stage lengths |
| Synth.LpfDamping | main.go:189-192 | fltdmp is at most 0.8 |
| Synth.RemainingBounds | main.go:282-289 | the envelope countdown is positive before stage 3 and 0 at stage 3 |
| Synth.RemainingFromStart | main.go:200-206 | from a fresh trigger the envelope lasts L0 + L1 + L2 + 3 output samples |
| Synth.Fraction | main.go:291-297 | the elapsed part of a stage lies in [0, 1], is positive after the first sample and is 1 at the stage's end |
| Synth.Waveform | main.go:330-345 | square gives ±0.5, sawtooth lies in (-1, 1], noise is one of the 32 table values, and an unknown wave type gives 0 |
| Synth.PhaseFraction | main.go:331 | phase/period lies in [0, 1) |
| Synth.NoiseIndex | main.go:344 | the noise index phase*32/period lies in [0, 31] |
| Synth.NextEnvelope | main.go:281-298 | one sample less remains; the stage only advances, and then from time 0; the volume ramps up, punches or decays as its stage says |
| Synth.FilterStep | main.go:346-366 | fltw stays in [0, 0.1]; without a low-pass the filter follows the sample; the sweep and high-pass coefficients are untouched |
| Synth.FileLevel | main.go:390-396 | the sink's level is in [-1, 1] |
| Synth.Quantize | main.go:402-407 | a flushed value is in [-32000, 32000] (16-bit) or [1, 255] (8-bit), and silence maps to 0 or 128 |
| Synth.QuantizeMonotone | main.go:402-407 | quantization preserves order |
| Synth.PcmSample | main.go:402-408 | a sample is 2 bytes at 16 bits, and at 8 bits it is the value's single byte |
| Synth.PcmSampleRoundTrip | main.go:403-404 | a 16-bit sample reads back as the value written |
| Synth.PcmBytes | main.go:404-407 | the sample bytes are 2 or 1 per value |
| Synth.PcmBytesAppend | main.go:404-407 | the bytes of two runs of samples are the concatenation of their bytes |
| Synth.AccumulateFull | main.go:397-410 | at 44100 Hz each sample is flushed on its own, unaveraged |
| Synth.AccumulatePair | main.go:397-410 | at 22050 Hz the first of two samples flushes nothing and the second flushes their average; the count still grows by one per sample |
| Synth.AccumulateAdvances | main.go:387-412 | one sample's flush leaves its bytes at the file offset |
| Synth.SinkStart | main.go:444-446 | zero samples flush nothing and write nothing |
| Synth.SinkCompose | main.go:387-412 | n samples and then m more are n + m samples, flushing both runs in order |
| Synth.ChunkSizes | main.go:425 | the RIFF and data size fields read back as written |
| Synth.HeadFields | main.go:429-431 | fmt size 16, format code 1, one channel |
| Synth.RatesFields | main.go:432-435 | sample rate, byte rate freq*bits/8, block align bits/8, bits per sample |
| Synth.FmtFields | main.go:428-435 | every field of the fmt chunk at its offset |
| Synth.WavHeaderLayout | main.go:423-438 | the RIFF, WAVE, fmt and data tags and every size and format field at its byte offset |
| Synth.WavHeaderChunks | main.go:424-438 | the four tags and the two size fields at offsets 4 and 40 |
| Synth.WavHeaderFormat | main.go:428-435 | the format fields at offsets 16 to 34 |
| Synth.PatchHeader | main.go:457-461 | the two seek-and-write patches give the header with the final sizes, and the sample data is untouched |
| Synth.PatchRiff | main.go:458-459 | the patch at offset 4 replaces the RIFF size only |
| Synth.PatchData | main.go:460-461 | the patch at offset 40 replaces the data size only |
| Synth.ExportStart | main.go:443-447 | when the render loop starts, nothing is written beyond the header and the whole envelope is still ahead |
| Synth.ExportStep | main.go:451-453 | a 256-sample chunk keeps the render loop's invariant and writes at least one sample |
| Synth.ExportDone | main.go:450-454 | when the loop ends, the count is below 441000 + 256 and at most the envelope length; with no positive frequency limit it is min(L0+L1+L2+3, 441088) |
| Synth.AppendFlushed | main.go:404-407 | appended flushes extend the file's sample data in order, each value in range |
| Synth.ChunkBound | main.go:450-452 | a chunk that starts below the cap ends by 441088 |
| Synth.RanStart | main.go:239-240 | zero output samples change nothing |
| Synth.RanStep | main.go:240-413 | n samples and then one more are n + 1 samples |
| Synth.Engine.constructor | main.go:53-103 | the start-up state: zero values, master_vol 0.05, sound_vol 0.5, 16 bits, 44100 Hz |
| Synth.Engine.ResetParams | main.go:127-160 | every parameter gets its default, and sound_vol is kept |
| Synth.Engine.ToggleSampleRate | ui.go:559-564 | the rate alternates between 44100 and 22050 |
| Synth.Engine.ToggleBitDepth | ui.go:567-572 | the depth alternates between 16 and 8 |
| Synth.Engine.RefillNoise | main.go:222-224 | the noise table holds values in [-1, 1) |
| Synth.Engine.ClearPhaser | main.go:218-220 | the phaser ring buffer is all zero |
| Synth.Engine.ResetFrequency | main.go:166-182 | period, slide, duty and arpeggio get their start values from the parameters |
| Synth.Engine.ResetVoice | main.go:183-231 | filter, vibrato, envelope, phaser, both tables and the repeat counter get their start values |
| Synth.Engine.ResetSample | main.go:162-232 | a partial reset changes only the frequency, duty and arpeggio state; a full one also resets phase, filter, vibrato, envelope, phaser, tables and repeat |
| Synth.Engine.PlaySample | main.go:234-237 | a full reset with playing set: phase 0; period, slide, duty and arpeggio at their start values; filter, vibrato, envelope, phaser, both tables and repeat counter reset; the envelope has L0+L1+L2+3 samples ahead |
| Synth.Engine.StepRepeat | main.go:245-249 | the repeat counter retriggers (a partial reset) exactly when armed and due |
| Synth.Engine.StepArpeggio | main.go:252-256 | the arpeggio fires exactly when armed and due, multiplies the period once and disarms itself |
| Synth.Engine.StepSlide | main.go:257-264 | the period slides up to its ceiling; reaching it stops the note only with a positive frequency limit |
| Synth.Engine.StepVibrato | main.go:265-273 | the vibrato phase advances only when the amplitude is positive, and the period is at least 8 |
| Synth.Engine.StepDuty | main.go:274-280 | square_duty slides and stays in [0, 0.5] |
| Synth.Engine.StepEnvelope | main.go:281-298 | the envelope takes one step, and the note stops exactly when stage 3 is reached |
| Synth.Engine.StepPhaser | main.go:300-305 | fphase sweeps and iphase lies in [0, 1023] |
| Synth.Engine.StepHighPass | main.go:307-315 | while it sweeps, flthp is clamped to [0.00001, 0.1]; otherwise the filter is untouched |
| Synth.Engine.ModulatePitch | main.go:245-280 | the repeat, arpeggio, slide, vibrato and duty steps: period at least 8, duty in range, fperiod at most its ceiling; the note stops here only with a positive frequency limit and fperiod at the ceiling |
| Synth.Engine.ModulateLevel | main.go:281-315 | the envelope, phaser and high-pass steps with their clamps |
| Synth.Engine.Modulate | main.go:245-315 | all per-sample modulation: the clamps hold, and the note stops only at stage 3 or, with a positive frequency limit, with fperiod at its ceiling |
| Synth.Engine.AdvancePhase | main.go:320-329 | the phase wraps by modulo into [0, period), refreshing the noise table only for noise |
| Synth.Engine.Subsample | main.go:319-372 | one subsample: fltw in range, the ring buffer gets the filtered sample at ipp, ipp advances mod 1024 and the delayed tap is mixed in |
| Synth.Engine.PhaserStep | main.go:367-370 | the delay line gets the sample at ipp and nothing else changes in it, the tap iphase steps back is added, and ipp advances mod 1024 |
| Synth.Engine.Supersample | main.go:317-374 | eight subsamples: ipp advances by 8 mod 1024 and the clamps hold |
| Synth.Engine.Emit | main.go:378-412 | the buffer gets the clipped sample at i, and the file sink takes one sample |
| Synth.Engine.Record | main.go:387-411 | the sink follows Accumulate, and the flushed values' bytes land at the file offset |
| Synth.Engine.RenderOne | main.go:240-413 | one output sample of a playing voice is one Stepped step, with one buffer slot and one sink step |
| Synth.Engine.SynthOne | main.go:240-413 | the loop body keeps the Rendered invariant for one more sample |
| Synth.ClippedStep | main.go:377-384 | writing a clipped sample at index i extends the clipped buffer prefix by one entry and leaves the entries after it as they were |
| Synth.Engine.RenderSamples | main.go:240-242 | the loop stops at length or at the first sample with the note ended, with Rendered holding for every sample it produced |
| Synth.Engine.SynthSample | main.go:239-414 | produces at most length samples, stopping early only when the note ended; Ran over them; the buffer prefix is clipped and the rest untouched; the file got exactly the flushed samples; no retrigger when rep_limit is 0 |
| Synth.Engine.WriteHeader | main.go:423-438 | a new file holds the 44-byte header with both size fields 0, and the offset is 44 |
| Synth.Engine.WriteRiff | main.go:424-426 | appends "RIFF", a zero size and "WAVE" |
| Synth.Engine.WriteFmt | main.go:428-435 | appends the fmt chunk for the rate and depth |
| Synth.Engine.WriteRates | main.go:432-435 | appends the sample rate, byte rate, block align and bits per sample |
| Synth.Engine.WriteDataHeader | main.go:437-438 | appends "data" and a zero size |
| Synth.Engine.PatchSizes | main.go:457-461 | seeking back and writing the RIFF size 40 + n*bits/8 and the data size n*bits/8 leaves the sample data intact |
| Synth.Engine.RenderChunk | main.go:451-453 | one SynthSample(256, nil, file) call keeps the export invariant and makes progress |
| Synth.Engine.RenderChunks | main.go:451-453 | the export loop keeps the export invariant and ends with the note stopped or at least 441000 samples written |
| Synth.Engine.BeginExport | main.go:444-447 | clearing the sample count and triggering the note starts the export invariant with nothing rendered and L0+L1+L2+3 samples ahead |
| Synth.Engine.RenderAll | main.go:447-455 | the render loop ends with the note stopped, at most 441088 and at most L0+L1+L2+3 samples, exactly min of the two without a positive frequency limit, and the file is the header plus the flushed samples |
| Synth.Engine.Stop | main.go:454 | clears playing and keeps the invariant |
| Synth.Engine.ExportWAV | main.go:416-464 | fails only when the file cannot be created, changing nothing; otherwise the file is the 44-byte header with RIFF size 40 + n*bits/8 and data size n*bits/8, then the flushed samples |
| Stream.StreamValue | main.go:547-554 | the queued int16 lies in [-32767, 32767], saturates outside [-1, 1], is within 1 of f*32767 and keeps the sign |
| Stream.StreamBytes | main.go:556-557 | two bytes per sample |
| Stream.StreamBytesRoundTrip | main.go:554-557 | the mask-and-shift bytes are the int16's little-endian encoding and read back as the value |
| Stream.StreamValueMonotone | main.go:547-554 | louder samples never encode smaller |
| Stream.EncodeBlock | main.go:545-558 | bytes 2i and 2i+1 encode sample i, reading back as its int16 |
| Stream.StreamBlock | main.go:538-559 | a rendered 1024-sample block: every value in [-32767, 32767], and silence after the note ended |
| Settings.Version | settings.go:15-16 | the version is an int32, 0 when the file is too short to hold it |
| Settings.SavedVersion | settings.go:75-76 | the record starts with version 102 |
| Settings.SavedWaveType | settings.go:78 | bytes 4-7 hold int32(wave_type) |
| Settings.SavedPitch | settings.go:80-84 | sound_vol, base_freq, freq_limit and freq_ramp at 8, 12, 16 and 20 |
| Settings.SavedSlide | settings.go:85-87 | freq_dramp, duty and duty_ramp at 24, 28 and 32 |
| Settings.SavedVibrato | settings.go:89-91 | the vibrato fields at 36, 40 and 44 |
| Settings.SavedEnvelope | settings.go:93-98 | the envelope fields at 48 to 60, then the filter_on byte at 64 |
| Settings.SavedFilters | settings.go:99-105 | the filter and phaser-offset fields at 65 to 85 |
| Settings.SavedTail | settings.go:106-111 | pha_ramp, repeat_speed, arp_speed and arp_mod at 89 to 101 |
| Settings.SaveLoadRoundTrip | settings.go:8-114 | a saved record is accepted and loads back every field bit-exactly, wave_type as int32(wave_type), whatever the parameters were before |
| Settings.ReadsOnlyRecord | settings.go:15-63 | a loader reads 89, 101 or 105 bytes for versions 100, 101 and 102; trailing bytes change nothing |
| Settings.VersionOnly | settings.go:21-28 | a file holding only a valid version is accepted and sets wave_type 0 and sound_vol 0.5, keeping every other parameter |
| Settings.SaveTruncated | settings.go:30-63 | a saved record cut after n >= 4 bytes is still accepted as version 102; each field whose bytes end by n comes back as saved, each later field keeps its old value, except wave_type (0 below 8 bytes) and sound_vol (0.5 below 12 bytes) |
| Settings.FilterByte | settings.go:48 | any nonzero filter_on byte loads as true and 0 as false, with no other field affected |
| Settings.ReadUpdate | settings.go:48-50 | changing one byte leaves the 4-byte fields not covering it alone |
| Settings.VersionGate | settings.go:15-19 | a file is accepted exactly when its version is 100, 101 or 102 |
| Settings.ShortFileRefused | settings.go:15-19 | a file shorter than 4 bytes is refused |
| Settings.OlderVersions | settings.go:25-35 | below 102 sound_vol becomes 0.5; version 100 keeps freq_dramp, arp_speed and arp_mod |
| Settings.SaveSettings | settings.go:68-114 | fails only when the file cannot be created; otherwise the file is exactly Encode of the parameters |
| Settings.ReadInt32 | settings.go:21-22 | binary.Read of an int32 at the cursor: the field, or the old value past the end |
| Settings.ReadFloat32 | settings.go:30 | binary.Read of a float32 at the cursor: the field, or the old value past the end |
| Settings.ReadBool | settings.go:48 | binary.Read of a bool: any nonzero byte is true, or the old value past the end |
| Settings.LoadSettings | settings.go:8-66 | fails with the parameters untouched when the file is missing or its version is not 100-102; otherwise the parameters become Decoded and the cursor ends after the record or at the end of the file |
| Settings.ReadBody | settings.go:36-58 | with p_duty at offset b, p_duty to p_repeat_speed each take the file's value when it holds the field and keep their old value otherwise; the cursor ends at b + 69 or the end of the file |
| Settings.ReadVibrato | settings.go:39-41 | the three vibrato fields at b + 8 to b + 19, each read or kept |
| Settings.ReadEnvelope | settings.go:43-46 | the four envelope fields at b + 20 to b + 35, each read or kept |
| Settings.ReadFilter | settings.go:48-53 | filter_on as one byte at b + 36, then the five filter floats, each read or kept |
| Settings.ReadPhaser | settings.go:55-56 | the two phaser fields at b + 57 to b + 64, each read or kept |
| Tga.Spriteset.constructor | tga.go:73-78 | the result has the data, width and height, and pitch equal to width |
| Tga.PixelChannels | tga.go:57-67 | a pixel word's bytes are B, G, R and then A for 32-bit or 0 for 24-bit |
| Tga.Image | tga.go:47 | the image has width*height words |
| Tga.RowStartClosed | tga.go:51-56 | the r-th row read starts at 18 + idLength + r*width*bpp |
| Tga.RowStartMono | tga.go:51 | later rows start later in the stream |
| Tga.RowStartEnd | tga.go:51-71 | the last row ends at 18 + idLength + width*height*bpp |
| Tga.IdxBound | tga.go:69 | y*width+x is inside the data for an in-range pixel |
| Tga.RowFits | tga.go:69 | a whole row lies inside the data |
| Tga.IdxUnique | tga.go:69 | distinct pixels have distinct indices, so each index is written exactly once |
| Tga.DivIdx | tga.go:69 | the index y*width+x gives back y and x |
| Tga.RowMajor | tga.go:69 | every data index is the index of exactly one pixel |
| Tga.ImageAt | tga.go:51-69 | image row y, column x is the pixel read in row height-1-y of the stream |
| Tga.StreamOrder | tga.go:51-69 | the k-th pixel of the stream lands at (height-1-k/width)*width + k%width |
| Tga.ReadRow | tga.go:52-70 | a row read fills its slots with the pixels at stride bpp or fails when the stream ends first; nothing else changes |
| Tga.LoadRow | tga.go:51-70 | row y of the data gets its image pixels, or the read fails exactly when the stream is shorter than the row's end |
| Tga.LoadPixels | tga.go:47-71 | the data is the whole image, or the read fails exactly when the stream is shorter than the pixels |
| Tga.LoadTGAFromIoReader | tga.go:26-79 | the error is Check of the stream (short header, depth not 24 or 32, short ID, short pixels); on success the sprite set holds Image, width, height and pitch, and exactly 18 + idLength + width*height*bpp bytes were consumed |

## Left out

- ui.go is not part of this model: drawing, widgets, mouse state, file dialogs, and the preset, randomize and mutate generators. The only parts kept are the HZ and BIT toggles, which keep the export format at 22050/44100 Hz and 8/16 bits.
- The SDL setup, window, texture, audio device, queue-size check and event loop of `main` (main.go:466-611) are left out. The one exception is the int16 byte split, which is modelled as `Stream.EncodeBlock`.
- Floating-point rounding is left out. Signal values and coefficients are reals, and float32/float64 rounding is not modelled. A float32 parameter keeps its bit pattern and is read as its exact value; NaN and infinity read as 0.
- `math.Pow` is written as products. `math.Sin` is a function the engine is built with, so the sine waveform and the vibrato are stated without bounds.
- The random numbers of `frnd` and the noise-table refills are arbitrary values in [-1, 1). Their granularity is not modelled.
- Synth.Fraction: the 0/0 that Go computes on the first sample of a zero-length sustain or decay stage (a NaN volume) is taken as 0.
- Integer counters (`rep_time`, `arp_time`, `env_time`, `file_sampleswritten`) are unbounded. Go's 64-bit wrap-around cannot be reached by them.
- `wave_type` is an unbounded integer. Its int32 conversion on save is modelled (`Bytes.Wrap32`); Go's 64-bit int is not.
- os.Create and os.Open are modelled as inputs:
  - `canCreate` stands for whether os.Create succeeded;
  - a null file stands for a failed os.Open.
  - Close, write failures (whose errors `binary.Write` drops) and the `LoadTGA(filename)` wrapper are left out.
- `mute_stream` is left out: it is set and cleared but never read. `filter_on` and `p_vib_delay` are carried through the codec but have no effect on synthesis, as in the source.
- TGA image type, colour-map fields and origin bits are not read, as in the source.
- Synth.Engine.Supersample: states the clamps and the ring-buffer cursor, not the value of the averaged sample.
- Synth.Engine.SynthSample: the buffer values are stated only as clipped to [-1, 1], and the file samples only through the sink relation. Neither is stated as a function of the parameters, because that would need the float signal math left out above.
- Synth.Engine.ExportWAV: with a positive frequency limit, only an upper bound on the samples rendered is stated. When the period reaches its ceiling depends on the float signal math.
- Tga.LoadTGAFromIoReader: after an error, the reader's position is not stated.
