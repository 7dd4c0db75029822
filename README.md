# N64 music visualizer — a verified model

This project models the core of an N64 music visualizer in Dafny. The visualizer has three parts:

- **The playback and spectrum side** (`src/audio.c`). A track is a cursor over a buffer of 16-bit samples. Each frame, `audio_update` does one of two things:
  - with nothing playing, it writes a synthetic demo spectrum;
  - otherwise it copies a window of samples at the cursor and zero-pads it, runs a 256-point radix-2 Cooley–Tukey FFT in place, averages the half-spectrum into 64 frequency bins, and advances the cursor by a hop of 1024 samples, wrapping to 0 at the end.
- **The renderer state** (`src/main.c` with `src/config.h`). Each frame moves 64 bar heights towards targets taken from the bins, using a damped spring followed by a clamp. It then picks a neon colour per bar from three intensity tiers. Finally it draws each bar as a vertical line centred on the screen, with glow lines and flow lines.
- **The WAV-to-C converter** (`tools/wav_to_c.py`). It decodes 16-bit little-endian PCM and averages multi-channel frames to mono. It writes the samples as a C array of 16 values per row into `src/<stem>_data.c`, and writes a matching header with an include guard.

Modules:

| file | module | models |
|---|---|---|
| `config.dfy` | `Config` | the constants of `src/config.h` and `src/audio.h`, and the `CLAMP` and `LERP` macros |
| `fft_index.dfy` | `FftIndex` | the index arithmetic of the FFT: powers of two, bit reversal, the reversed-counter increment, butterfly index bounds |
| `audio.dfy` | `Audio` | `audio_track_t` and its transitions, the cursor advance, and the FFT and binning pipeline as a class over its static arrays |
| `visualizer.dfy` | `Visualizer` | `init_visualizer`, `process_audio`, `get_neon_color`, `draw_neon_line` and the bar geometry of `render_visualizer` |
| `decimal.dfy` | `Decimal` | Python's decimal text of integers (`str`, `format(x, "6d")`), and a scanner that reads the integers back |
| `wav_to_c.dfy` | `WavToC` | `wav_to_c_array` and the naming in `main` of the converter |
| `wrappers.dfy` | `Wrappers` | `Option` |

Conventions:

- **Floats** are exact `real`s.
- **libm functions** (`sinf`, `cosf`, `sqrtf`, `logf`) are opaque functions. They are handed to the analyzer and the visualizer when these are built.
- **The transform size** is 2^logN, with logN a parameter of the analyzer. The visualizer builds its analyzer with logN = 8. `audio.c` includes `config.h` after `audio.h`, so it sees `FFT_SIZE` = 256 rather than 512.
- **The file-level statics** of `audio.c` are fields of the `Audio.Analyzer` class:
  - the twiddle tables and the `fft_initialized` flag;
  - the `real`/`imag` work arrays, the sample window and the spectrum;
  - `demo_time`.
- **The globals** of `main.c` are fields of the `Visualizer.Visualizer` class.
- **The converter as written.** `WavToC.WavToCArray` and `WavToC.Run` compute the header path and the guard as the script does. The corrected definitions of the two findings below are proved beside them, together with the conditions under which both agree (`WavToC.HeaderPathAgrees`, `WavToC.GuardAgrees`).
- **Python failure paths**: a Python `False` return, or an exception caught by the converter, is `None`.

## Model

| member | source | states |
|---|---|---|
| `Config.Clamp` | src/config.h:55 | CLAMP lies in [lo, hi] when lo <= hi; it is x inside the range, lo below it, and hi above it |
| `Config.ClampIdempotent` | src/config.h:55 | clamping a clamped value changes nothing |
| `Config.Lerp` | src/config.h:56 | LERP(a, b, 0) = a and LERP(a, b, 1) = b |
| `Config.ConfigConsistent` | src/config.h:9-48 | 0 < MIN_BAR_HEIGHT <= MAX_BAR_HEIGHT; LOW < HIGH threshold; NUM_BARS*BAR_WIDTH = SCREEN_WIDTH; CENTER_Y*2 = SCREEN_HEIGHT; half the tallest bar fits above the centre; 1 <= NUM_FREQUENCY_BINS <= FFT_SIZE/2, so the bin size is at least 1 |
| `FftIndex.FftSizeIsPow2` | src/config.h:48 | FFT_SIZE is 2 to the power LOG2_FFT_SIZE, the exponent the transform is built with (256 = 2^8) |
| `FftIndex.Pow2` | src/audio.c:165 | every stage length is at least 1 |
| `FftIndex.Pow2Add` | src/audio.c:165-166 | 2^(a+b) = 2^a * 2^b: the stride of a stage times its span is the transform size |
| `FftIndex.Rev` | src/audio.c:142-162 | the reversal of an index over k bits is below 2^k |
| `FftIndex.RevTopBit` | src/audio.c:142-162 | reversing a number whose top bit is b puts b at the bottom and shifts the reversed rest up by one |
| `FftIndex.RevInvolution` | src/audio.c:142-162 | bit reversal over k bits is its own inverse on [0, 2^k) |
| `FftIndex.NextRevIsRevOfSuccessor` | src/audio.c:143-149 | the `while (j & bit) j ^= bit; j ^= bit` step, started from rev(i) with the top bit, yields rev(i+1) |
| `FftIndex.BitReversed` | src/audio.c:142-162 | the bit-reversal permutation keeps the length |
| `FftIndex.BitReversedTwice` | src/audio.c:142-162 | running the permutation twice restores the original arrays |
| `FftIndex.ButterflyIndices` | src/audio.c:165-172 | in every stage, for block start i and offset j: step = N/len, u < v < N, and the twiddle index w = j*step < N/2 |
| `FftIndex.DivExact` | src/audio.c:166 | (q*len)/len = q: the stride divides N exactly |
| `Audio.Track.constructor` | src/audio.h:15-20 | a fresh track has no samples, length 0, cursor 0, and is not playing |
| `Audio.Play` | src/audio.c:82-91 | with samples: playing and cursor 0; without samples: nothing changes; null track: nothing |
| `Audio.Stop` | src/audio.c:94-102 | clears `playing` and leaves samples, length and cursor unchanged |
| `Audio.Cleanup` | src/audio.c:266-278 | with samples: all four fields reset; otherwise the track is unchanged |
| `Audio.Advance` | src/audio.c:259-262 | the cursor moves one hop if that stays below the length, else wraps to 0; it stays in [0, length) when length > 0 |
| `Audio.CursorWraps` | src/audio.c:259-262 | starting at 0, the cursor after t frames is t*BUFFER_SIZE until the end, and it is 0 again after HopsToEnd frames |
| `Audio.Analyzer.constructor` | src/audio.c:105-119 | the tables are not initialised yet; the transform size is 2^logN; the demo clock is 0 |
| `Audio.Analyzer.Init` | src/audio.c:105-119 | fft_init fills both twiddle tables with cos/sin of -2*pi*i/N and sets the flag; a second call changes no table entry |
| `Audio.Analyzer.LoadInput` | src/audio.c:129-139 | after loading, imag is all zero; real[p] is sample p / 32768 for p < size and 0 from size on |
| `Audio.Analyzer.Butterflies` | src/audio.c:164-185 | the butterfly stages run with every index in bounds, and an all-zero input stays all zero |
| `Audio.Analyzer.Magnitudes` | src/audio.c:187-190 | exactly size/2 outputs are written, each the magnitude of its bin; the rest of output is untouched |
| `Audio.Analyzer.Compute` | src/audio.c:122-191 | fft_compute initialises the tables, writes size/2 magnitudes and nothing past them, and maps silence to sqrt(0) in every bin |
| `Audio.Analyzer.ToBins` | src/audio.c:194-212 | for num_bins <= fft_size/2, group i reads exactly [i*b, (i+1)*b) with b = (fft_size/2)/num_bins, all inside the half-spectrum; bin i is log(1 + 10*mean); exactly num_bins outputs are written |
| `Audio.BinSize` | src/audio.c:195 | the bin size is at least 1 iff num_bins <= fft_size/2, and the groups cover the half-spectrum up to a remainder below num_bins |
| `Audio.GroupInRange` | src/audio.c:199-200 | group i ends at (i+1)*b, within num_bins*b |
| `Audio.GroupsDisjoint` | src/audio.c:197-205 | earlier groups end before later ones start |
| `Audio.SumStep` | src/audio.c:203-205 | the accumulation of one more spectrum value extends the sum by it |
| `Audio.Analyzer.Update` | src/audio.c:215-263 | demo path (null track, not playing, or no samples): demo_time grows by one mod 2^32, bins hold the demo levels, and no track field changes. Playing path: window = min(N, length-position) samples from the cursor then zeros, spectrum = magnitudes, bins = group levels, cursor advanced |
| `Audio.Analyzer.Demo` | src/audio.c:216-233 | demo_time is incremented mod 2^32, and the first 64 bins are the demo levels of the new time |
| `Audio.Analyzer.Analyse` | src/audio.c:235-262 | the playing path of audio_update: window copy with tail zero-padding, FFT, binning, and cursor advance with wrap |
| `Audio.ReversedSuccessor` | src/audio.c:143-149 | from j = rev(i-1), the reversed-increment loop gives j = rev(i), within [0, N) |
| `Audio.BitReverse` | src/audio.c:141-162 | after the loop, slot i holds the element originally at rev(i), in both arrays |
| `Audio.ExchangeIfBelow` | src/audio.c:151-161 | the swap at step i exchanges slots i and rev(i) only when i < rev(i) |
| `Audio.Arranged` | src/audio.c:142-162 | the arrangement after the first i steps has the array's length |
| `Audio.ArrangedStart` | src/audio.c:142-143 | before step 1 the arrays are unchanged, since rev(0) = 0 |
| `Audio.ArrangedStep` | src/audio.c:151-161 | one step swaps slots i and rev(i) if i < rev(i), and otherwise leaves the arrays alone: each pair is exchanged once, and self-reversed slots are never touched |
| `Audio.ArrangedEnd` | src/audio.c:142-162 | after all N steps the arrays are the bit-reversal permutation of the input |
| `Audio.RevOfZero` | src/audio.c:142 | rev(0) = 0, so the loop may start at i = 1 with j = 0 |
| `Visualizer.Trunc` | src/main.c:162 | (int) truncates toward zero |
| `Visualizer.Half` | src/main.c:167-168 | C's height/2 truncates toward zero |
| `Visualizer.Spring` | src/main.c:87-93 | v' = (v + (target-h)*RESPONSE_SPEED)*DAMPING_FACTOR, with the velocity not reset by the clamp; h' lies in [MIN_BAR_HEIGHT, MAX_BAR_HEIGHT] |
| `Visualizer.ClampMonotone` | src/config.h:55 | CLAMP is monotone in x |
| `Visualizer.SpringAtRest` | src/main.c:87-93 | a bar at rest on its target stays there |
| `Visualizer.SpringFromRest` | src/main.c:87-93 | a bar starting at rest moves towards its clamped target and does not overshoot it |
| `Visualizer.NeonColor` | src/main.c:98-122 | always teal, purple or pink; total < LOW gives teal; pink only when total >= HIGH; total >= HIGH never gives teal |
| `Visualizer.NeonColorMonotone` | src/main.c:110-121 | a higher intensity never gives a colour of a lower tier |
| `Visualizer.NeonLines` | src/main.c:125-144 | the main line comes first, followed by at most four glow lines, all in the same colour |
| `Visualizer.NeonLinesGuards` | src/main.c:131-142 | each of the four glow lines is drawn iff its guard holds (x1, x2 > 0; x1, x2 < W-1; y1, y2 > 0; y1, y2 < H-1) |
| `Visualizer.NeonLinesOnScreen` | src/main.c:131-142 | for on-screen endpoints, every glow line drawn stays on screen |
| `Visualizer.Place` | src/main.c:160-168 | the bar lies in its own column and symmetric about CENTER_Y, with top <= CENTER_Y <= bottom and a span of at most the truncated height |
| `Visualizer.PlaceOnScreen` | src/main.c:160-168 | for i < NUM_BARS and 0 <= height <= MAX_BAR_HEIGHT: x < SCREEN_WIDTH and 0 <= top <= bottom < SCREEN_HEIGHT |
| `Visualizer.Target` | src/main.c:80-84 | the target is 0 for a silent bin; while sinf stays in [-1, 1] it lies within a tenth of twice the level times MAX_BAR_HEIGHT |
| `Visualizer.AudioInfluence` | src/main.c:104-107 | a bar past the last bin gets no influence; a bin level in [0, 1] gives an influence in [0, 2] |
| `Visualizer.TotalIntensity` | src/main.c:110 | past the last bin the total is half the intensity; with intensity and bin level in [0, 1] it lies in [0, 1.5] |
| `Visualizer.BarLines` | src/main.c:159-186 | a bar draws 1 to 7 lines, all in its neon colour; the first is its vertical line at its placement; from the second bar on, the last two join the previous bar's top and bottom to its own |
| `Visualizer.Scene` | src/main.c:159-186 | the first k bars draw between k and 7k lines, all in neon colours |
| `Visualizer.BarLinesOnScreen` | src/main.c:159-186 | every line of a drawable bar (main, glow and flow lines) is on screen and neon |
| `Visualizer.SceneOnScreen` | src/main.c:159-186 | every line of the first k bars is on screen and neon |
| `Visualizer.Visualizer.constructor` | src/main.c:33-39 | the globals start zeroed, with an idle track |
| `Visualizer.Visualizer.Init` | src/main.c:49-70 | zeroes heights, velocities and bins; sets frame_counter to 0; points the track at the embedded samples with length AUDIO_LENGTH, cursor 0 and playing |
| `Visualizer.Visualizer.ProcessAudio` | src/main.c:73-95 | after audio_update, every bar is one spring step towards its target and lies in [MIN_BAR_HEIGHT, MAX_BAR_HEIGHT]; the cursor advanced if a track was playing, and the bins hold the demo levels otherwise |
| `Visualizer.Visualizer.AnimateBars` | src/main.c:78-94 | the loop applies one spring step to every bar |
| `Visualizer.Visualizer.RenderBars` | src/main.c:158-186 | the lines drawn are the scene of all bars, each on screen and neon |
| `Visualizer.Visualizer.DrawBar` | src/main.c:160-184 | the lines of one bar: its placement, colour, glow and flow lines |
| `Decimal.NatText` | tools/wav_to_c.py:67 | str(n) is a non-empty run of digits without a leading zero, and it denotes n |
| `Decimal.IntText` | tools/wav_to_c.py:76 | str(x) starts with '-' iff x < 0, and is digits after that |
| `Decimal.PadLeft` | tools/wav_to_c.py:76 | `{s:6d}` pads on the left with spaces to width 6 and keeps the text as its suffix |
| `Decimal.DigitRun` | tools/wav_to_c.py:76 | the digit run at the start of a text is maximal |
| `Decimal.ScanSkip` | tools/wav_to_c.py:76 | the padding spaces add no numbers |
| `Decimal.ScanInt` | tools/wav_to_c.py:76 | str(x) followed by a non-digit reads back as x |
| `Decimal.ScanPadded` | tools/wav_to_c.py:76 | a padded field followed by a non-digit reads back as its number |
| `WavToC.Int16LE` | tools/wav_to_c.py:49 | `struct.unpack('<h')` gives a signed 16-bit value, negative iff the high byte is >= 128 |
| `WavToC.Int16Bytes` | tools/wav_to_c.py:49 | every 16-bit value has a two-byte little-endian encoding that decodes to it |
| `WavToC.Int16BytesOfLE` | tools/wav_to_c.py:49 | decoding then encoding two bytes gives them back |
| `WavToC.Downmix` | tools/wav_to_c.py:56 | (L+R)//2 is the floor of the mean, between L and R |
| `WavToC.DownmixRange` | tools/wav_to_c.py:56 | the mono sample stays a 16-bit value, and the mean of equal channels is that channel |
| `WavToC.MonoSpec` | tools/wav_to_c.py:46-50 | mono gives |data|/2 samples, all 16-bit |
| `WavToC.DownmixSpec` | tools/wav_to_c.py:52-57 | non-mono gives |data|/4 samples, all 16-bit |
| `WavToC.DecodeSamples` | tools/wav_to_c.py:46-57 | the loops succeed iff every slice `struct.unpack` sees is whole; the result is sample k = value of bytes [2k, 2k+2) for mono, and the floor mean of group k for non-mono |
| `WavToC.MonoRoundTrip` | tools/wav_to_c.py:46-50 | encoding 16-bit samples as mono bytes and decoding them gives them back |
| `WavToC.StereoRoundTrip` | tools/wav_to_c.py:52-57 | encoding left/right channels as stereo bytes and decoding gives the floor means |
| `WavToC.Chunks` | tools/wav_to_c.py:74-75 | the samples split into ceil(n/16) rows |
| `WavToC.ChunkSizes` | tools/wav_to_c.py:75 | every row has between 1 and 16 values |
| `WavToC.ChunkLength` | tools/wav_to_c.py:75 | every row but the last has 16 values; the last has the remainder |
| `WavToC.Lines` | tools/wav_to_c.py:74-79 | one text line per row |
| `WavToC.ArrayBody` | tools/wav_to_c.py:74-79 | the row loop writes exactly the specified array body |
| `WavToC.FormatLine` | tools/wav_to_c.py:75-78 | a row is four spaces, then the padded fields joined by ", ", then a trailing comma iff more samples follow; with its newline it is the specified line of those samples |
| `WavToC.AppendLine` | tools/wav_to_c.py:77-79 | a row ends with "," iff it is not the last row, and appending it advances the loop invariant |
| `WavToC.ScanJoin` | tools/wav_to_c.py:76 | the fields joined by ", " read back as the values |
| `WavToC.ScanLine` | tools/wav_to_c.py:76-79 | a row reads back as its values |
| `WavToC.ScanLinesFrom` | tools/wav_to_c.py:74-79 | the rows from k on read back as the chunks from k on |
| `WavToC.FlattenChunksFrom` | tools/wav_to_c.py:74-75 | the chunks from k on, joined, are the samples from 16k on |
| `WavToC.BodyRoundTrip` | tools/wav_to_c.py:71-81 | the integers in the array body, read in order, are exactly the samples |
| `WavToC.FieldCommas` | tools/wav_to_c.py:76 | a padded field holds no comma |
| `WavToC.JoinCommas` | tools/wav_to_c.py:76 | a row of m values holds m-1 separating commas |
| `WavToC.LineCommas` | tools/wav_to_c.py:76-78 | a row holds one more comma iff more samples follow |
| `WavToC.LineCommasAt` | tools/wav_to_c.py:74-79 | row k holds 16 commas when it is not the last row |
| `WavToC.LinesCommasFrom` | tools/wav_to_c.py:74-79 | the rows from k on hold n - 16k - 1 commas |
| `WavToC.BodyCommas` | tools/wav_to_c.py:74-79 | the body of n >= 1 samples holds exactly n-1 commas, one between each pair of values and none after the last |
| `WavToC.DurationMs` | tools/wav_to_c.py:68 | AUDIO_DURATION_MS is floor(n*1000/rate) |
| `WavToC.DurationOfIntro` | src/intensidade-intro-mono-44100_data.h:9-10 | 387937 samples at 44100 Hz give 8796 ms |
| `WavToC.Define` | tools/wav_to_c.py:65 | a `#define NAME value` line reads back as the numbers in the name, then the value |
| `WavToC.ScanDefine` | tools/wav_to_c.py:65-68 | a define line whose name holds no number, followed by any text, reads back as its value followed by that text's numbers |
| `WavToC.ScanFourDefines` | tools/wav_to_c.py:65-68 | four define lines and a blank line read back as their four values |
| `WavToC.Defines` | tools/wav_to_c.py:65-68 | the parameter block reads back as [rate, 1, n, floor(n*1000/rate)]; the header writes the same block (lines 91-94) |
| `WavToC.ArrayHead` | tools/wav_to_c.py:71 | `int16_t name[n]` reads back as the 16 of the type, the numbers in the name, and n |
| `WavToC.CSource` | tools/wav_to_c.py:60-81 | read as integers, the C file holds the numbers in the input's name, then rate, 1, n, the duration, 16, the numbers in the array name, n, and then exactly the samples in order |
| `WavToC.HeaderSource` | tools/wav_to_c.py:85-96 | read as integers, the header holds the guard's numbers twice, the same rate, 1, n, duration, 16, array-name numbers and n as the C file, and the guard's numbers once more |
| `Decimal.ScanConcat` | tools/wav_to_c.py:60-96 | two texts joined where the second starts with a separator read back as the numbers of the first, then those of the second |
| `WavToC.Basename` | tools/wav_to_c.py:120 | os.path.basename is the suffix after the last '/' |
| `WavToC.BasenameAfter` | tools/wav_to_c.py:120 | the basename of dir/name is name |
| `WavToC.LastDot` | tools/wav_to_c.py:120 | the last '.' of a name, or none |
| `WavToC.Stem` | tools/wav_to_c.py:120 | os.path.splitext(...)[0] is a prefix of the name |
| `WavToC.StemOfWav` | tools/wav_to_c.py:120 | the stem of name.wav is name, unless the name is all dots |
| `WavToC.StemOfDotfile` | tools/wav_to_c.py:120 | a leading dot does not start an extension: the stem of ".wav" is ".wav" |
| `WavToC.OutputOfWav` | tools/wav_to_c.py:120-121 | for an input stem.wav the output is src/stem_data.c |
| `WavToC.OutputPath` | tools/wav_to_c.py:120-121 | the output is `src/` + the stem of the input's basename + `_data.c` |
| `WavToC.ReplaceC` | tools/wav_to_c.py:84 | `replace('.c', '.h')` keeps the length and changes exactly the 'c' of every ".c" into 'h' |
| `WavToC.HeaderPathAsWritten` | tools/wav_to_c.py:84 | the header path as written has the C path's length, ends in ".h" when the C path ends in ".c", and equals the C path when it has no '.' |
| `WavToC.ArrayName` | tools/wav_to_c.py:117 | the array name is argv[2] if given, else "audio_data" |
| `WavToC.ReplaceCHit` | tools/wav_to_c.py:84 | `.replace('.c', '.h')` turns each ".c" it meets into ".h" |
| `WavToC.HeaderPathAgrees` | tools/wav_to_c.py:84 | when the stem has no '.', the header path as written is the intended one |
| `WavToC.HeaderPathRenamesStem` | tools/wav_to_c.py:84 | for a stem a.cb, the path as written is src/a.hb_data.h, not src/a.cb_data.h |
| `WavToC.HeaderPath` | tools/wav_to_c.py:84 | the header path ends in ".h" and differs from the C path |
| `WavToC.HeaderPathOfOutput` | tools/wav_to_c.py:84 | the header of src/stem_data.c is src/stem_data.h |
| `WavToC.GuardAsWritten` | tools/wav_to_c.py:86 | the guard as written has one character per character of the header's basename |
| `WavToC.MacroNameAsWritten` | tools/wav_to_c.py:86 | for a basename word-rest, the preprocessor's macro name of the written guard is just WORD |
| `WavToC.GuardCollision` | src/intensidade-intro-mono-44100_data.h:1-2 | the guards the script writes for the 44100 Hz and the 22050 Hz headers differ as text, yet both name the same macro INTENSIDADE |
| `WavToC.Guard` | tools/wav_to_c.py:86 | the corrected guard consists of identifier characters only |
| `WavToC.GuardIsMacroName` | tools/wav_to_c.py:86 | the whole corrected guard is the macro name |
| `WavToC.GuardAgrees` | tools/wav_to_c.py:86 | on basenames of letters, digits, '_' and '.', the corrected guard is the guard as written |
| `WavToC.GuardsDistinct` | src/intensidade-intro-mono-22050_data.h:1-2 | with the corrected guard, the two headers define distinct macros |
| `WavToC.WavToCArray` | tools/wav_to_c.py:11-108 | returns the files iff rate > 0, sample width 2, and the frames split whole; the C file is the given output with the text of the decoded samples; the header goes to `replace('.c', '.h')` of the output and carries the guard `basename(header).upper().replace('.', '_')`, as the script computes them |
| `WavToC.Run` | tools/wav_to_c.py:110-142 | exit 0 iff the files were produced; this needs an argument and an existing input; the C file is src/stem_data.c with the array named by ArrayName; the header is `replace('.c', '.h')` of that path, which is src/stem_data.h when the stem has no '.' |

## Left out

- **Floating point.** All float arithmetic is exact real arithmetic, so rounding, NaN and infinity are not modelled; `sinf`, `cosf`, `sqrtf` and `logf` are opaque functions, and no spectral value is computed.
- `Audio.Analyzer.Butterflies`: proved for index bounds and for preserving silence only, not for computing the discrete Fourier transform.
- **The demo spectrum and the bar targets.** These are stated through the opaque trig functions. Nothing bounds their values; `Visualizer.Target` states its bounds for the case where `sinf` stays in [-1, 1].
- **Display and hardware calls.** `visualizer_audio_init`, `display_*`, `graphics_*` and `debugf` are not modelled; drawing is the list of lines handed to `graphics_draw_line`.
- **The main loop** of `main.c`: its frame limiter and the 32-bit wrap of `frame_counter`, which only feeds trig phases. The frame counter is a field that the callers pass in.
- **The unused parts of `render_visualizer`.** The background average intensity, the centre line, the title text, the progress line and the `SHOW_FPS` block draw nothing the bars depend on.
- `audio_load_wav` and `wav_header_t`: a stub that parses nothing.
- `free()` in `audio_cleanup`: only the field resets are modelled.
- **`playing`** is a `bool` rather than an `int` flag; the source only ever stores 0 or 1 in it.
- **Bars at index NUM_FREQUENCY_BINS or above.** `process_audio` loops while `i < NUM_BARS && i < NUM_FREQUENCY_BINS`. Both are 64, so every bar is updated, and "bars past the last bin are never touched" holds vacuously.
- **Track length.** The track must be valid when the playing path runs: `0 <= position < length`, and the samples cover the length. The source relies on this without checking; `memcpy` with a negative count is not modelled.
- **FFT_SIZE.** `src/audio.h` says 512 and `src/config.h` says 256; the model follows what `audio.c` compiles with (256).
- **Converter I/O and printing.** `wave.open`, `open`/`write`, `print`, `os.makedirs` and `os.path.exists` are not modelled. The WAV parameters and frame bytes are a `Wav` value; whether the input exists is a parameter; the written files are an `Output` value.
- **Partial writes.** A failure between writing the C file and the header, which would leave one file behind, is not modelled.
- **Unicode upper-casing.** `upper()` is modelled for ASCII letters only.
- `WavToC.DurationMs`: the float `int(n * 1000 / rate)` is modelled as exact floor division; the two agree while n*1000 stays below 2^53.
- `WavToC.WavToCArray`: requires a non-negative frame rate, as the `wave` module reports one. A zero rate fails (the duration print divides by it), as the source does.
- `WavToC.DecodeSamples`: with more than two channels, consecutive 4-byte groups are averaged as pairs, as the source does; such input is not downmixed per frame.
- `WavToC.Guard`: a header basename starting with a digit still gives a guard that starts with a digit.

## Findings

| source | as written | input that shows it | evidently intended | confidence | as-written member | corrected member |
|---|---|---|---|---|---|---|
| tools/wav_to_c.py:84 | `output_file.replace('.c', '.h')` replaces every ".c" in the path, including any inside the stem | input `song.cut.wav`: the C file is `src/song.cut_data.c`, but the header goes to `src/song.hut_data.h` | only the final extension changes: `src/song.cut_data.h` | high, not executed | `WavToC.HeaderPathRenamesStem` | `WavToC.HeaderPath`, `WavToC.HeaderPathOfOutput` |
| tools/wav_to_c.py:86 | the guard only maps '.' to '_', so a '-' in the basename survives, and `#ifndef INTENSIDADE-INTRO-…` tests the macro `INTENSIDADE` | the headers the script generates for `intensidade-intro-mono-44100.wav` and `intensidade-intro-mono-22050.wav`: both guards test and define `INTENSIDADE`, so including both skips the second (the preprocessor only warns about the extra tokens); the checked-in 44100 header, src/intensidade-intro-mono-44100_data.h:1-2, carries such a guard | a guard that is one identifier, with every non-identifier character mapped to '_' (as the checked-in 22050 header has) | high, not executed | `WavToC.GuardCollision`, `WavToC.MacroNameAsWritten` | `WavToC.Guard`, `WavToC.GuardIsMacroName`, `WavToC.GuardsDistinct` |
