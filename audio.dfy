/**
 * The audio side of the visualizer (src/audio.c): the playback cursor over an
 * in-memory track, the twiddle tables, the in-place radix-2 FFT, the grouping
 * of the half spectrum into frequency bins, and the per-frame update that
 * either analyses the next window of the track or synthesises a demo spectrum.
 *
 * Single-precision floats are modelled as exact reals; the math library
 * (pi, sin, cos, sqrt, log) is given to the analyzer at construction.
 */
module Audio {
  import opened Config
  import opened FftIndex

  /** audio_track_t: a borrowed sample buffer and the playback cursor over it. */
  class Track {
    var samples: array?<int>
    var length: int
    var position: int
    var playing: bool

    /** A track with static storage duration: every field is zero. */
    constructor ()
      ensures samples == null && length == 0 && position == 0 && !playing
      ensures Valid()
    {
      samples, length, position, playing := null, 0, 0, false;
    }

    /**
     * The cursor is inside the track (or at 0 for an empty one) and the
     * buffer holds at least `length` samples.
     */
    ghost predicate Valid()
      reads this
    {
      0 <= length && 0 <= position && (position < length || position == 0)
      && (samples != null ==> length <= samples.Length)
    }
  }

  /** The condition under which audio_update analyses the track. */
  predicate Playing(track: Track?)
    reads track
  {
    track != null && track.playing && track.samples != null
  }

  /** audio_play: start from the beginning, only when a buffer is attached. */
  method Play(track: Track?)
    modifies track
    ensures track != null ==> track.samples == old(track.samples) && track.length == old(track.length)
    ensures track != null && track.samples != null ==> track.playing && track.position == 0
    ensures track != null && track.samples == null ==>
      track.playing == old(track.playing) && track.position == old(track.position)
    ensures track != null && old(track.Valid()) ==> track.Valid()
  {
    if track != null && track.samples != null {
      track.playing := true;
      track.position := 0;
    }
  }

  /** audio_stop: clear the playing flag and keep the cursor and the buffer. */
  method Stop(track: Track?)
    modifies track
    ensures track != null ==> !track.playing
    ensures track != null ==>
      track.samples == old(track.samples) && track.length == old(track.length) && track.position == old(track.position)
    ensures track != null && old(track.Valid()) ==> track.Valid()
  {
    if track != null {
      track.playing := false;
    }
  }

  /** audio_cleanup: detach the buffer and reset every field, if a buffer is attached. */
  method Cleanup(track: Track?)
    modifies track
    ensures track != null && old(track.samples) != null ==>
      track.samples == null && track.length == 0 && track.position == 0 && !track.playing
    ensures track != null && old(track.samples) == null ==> unchanged(track)
    ensures track != null && old(track.Valid()) ==> track.Valid()
  {
    if track != null && track.samples != null {
      track.samples := null;
      track.length := 0;
      track.position := 0;
      track.playing := false;
    }
  }

  /** The cursor after one update: advance by the hop, back to 0 at or past the end. */
  function Advance(position: int, length: int): (p: int)
    ensures 0 <= position && 0 < length ==> 0 <= p < length
    ensures position + BUFFER_SIZE < length ==> p == position + BUFFER_SIZE
    ensures 0 <= position && position + BUFFER_SIZE >= length ==> p == 0
  {
    if position + BUFFER_SIZE < length then position + BUFFER_SIZE else 0
  }

  /** The cursor after t updates of a track that starts at 0. */
  function CursorAfter(length: int, t: nat): int
  {
    if t == 0 then 0 else Advance(CursorAfter(length, t - 1), length)
  }

  /** ceil(length / BUFFER_SIZE): the number of hops that reach the end. */
  function HopsToEnd(length: nat): nat
  {
    (length + BUFFER_SIZE - 1) / BUFFER_SIZE
  }

  /**
   * The track loops: from position 0 the cursor advances one hop per update
   * and is back at 0 after exactly ceil(length / BUFFER_SIZE) updates.
   */
  lemma {:induction false} CursorWraps(length: nat, t: nat)
    requires 0 < length
    ensures t < HopsToEnd(length) ==> CursorAfter(length, t) == t * BUFFER_SIZE < length
    ensures t == HopsToEnd(length) ==> CursorAfter(length, t) == 0
  {
    if t > 0 && t <= HopsToEnd(length) {
      CursorWraps(length, t - 1);
    }
  }

  /** The magnitude sum of a contiguous part of the spectrum, left to right. */
  function Sum(s: seq<real>): real
  {
    if s == [] then 0.0 else Sum(s[..|s| - 1]) + s[|s| - 1]
  }

  /** Group i of size b, [i*b, (i+1)*b), lies inside [0, len). */
  predicate GroupFits(i: int, b: int, len: int)
  {
    0 <= i && 1 <= b && (i + 1) * b <= len
  }

  /** The mean of group i of size b: the magnitudes at [i*b, (i+1)*b). */
  function GroupMean(s: seq<real>, i: int, b: int): real
    requires GroupFits(i, b, |s|)
  {
    assert 0 <= i * b <= i * b + b == (i + 1) * b;
    Sum(s[i * b..(i + 1) * b]) / (b as real)
  }

  /**
   * The group size (half / numBins) is at least one exactly when numBins does
   * not exceed half (otherwise the division by it fails); the groups then
   * cover [0, numBins * size) and leave fewer than numBins values unused.
   */
  lemma BinSize(half: int, numBins: int)
    requires 0 <= half && 1 <= numBins
    ensures half / numBins >= 1 <==> numBins <= half
    ensures numBins * (half / numBins) <= half < numBins * (half / numBins) + numBins
  {
    var b := half / numBins;
    assert half == numBins * b + half % numBins;
  }

  /** Group i of size b lies in [0, numBins * b). */
  lemma GroupInRange(i: int, numBins: int, b: nat)
    requires 0 <= i < numBins
    ensures 0 <= i * b && i * b + b == (i + 1) * b <= numBins * b
  {
    MulMonotone(i + 1, numBins, b);
  }

  lemma SumStep(s: seq<real>, lo: int, j: int)
    requires 0 <= lo <= j < |s|
    ensures Sum(s[lo..j + 1]) == Sum(s[lo..j]) + s[j]
  {
    assert s[lo..j + 1][..j - lo] == s[lo..j];
  }

  /** Earlier groups end at or before later ones start: the groups are disjoint. */
  lemma GroupsDisjoint(i: nat, i': nat, b: nat)
    requires i < i'
    ensures i * b + b <= i' * b
  {
    MulMonotone(i + 1, i', b);
  }

  function Min(a: int, b: int): int
  {
    if a < b then a else b
  }

  /**
   * The statics of audio.c: twiddle tables and their guard, the scratch
   * arrays of the transform, the window and spectrum of audio_update, and the
   * demo clock.
   */
  class Analyzer {
    const logN: nat
    const n: nat
    const pi: real
    const sin: real -> real
    const cos: real -> real
    const sqrt: real -> real
    const log: real -> real

    const cosTable: array<real>
    const sinTable: array<real>
    var initialized: bool
    const re: array<real>
    const im: array<real>
    const window: array<int>
    const spectrum: array<real>
    var demoTime: int

    ghost predicate Valid()
      reads this, cosTable, sinTable
    {
      && n == Pow2(logN)
      && cosTable.Length == n && sinTable.Length == n && re.Length == n && im.Length == n
      && window.Length == n && spectrum.Length == n
      && cosTable != sinTable && cosTable != re && cosTable != im && cosTable != spectrum
      && sinTable != re && sinTable != im && sinTable != spectrum
      && re != im && re != spectrum && im != spectrum
      && 0 <= demoTime < 0x1_0000_0000
      && (initialized ==> TablesFilled())
    }

    /** The arrays of real values this object owns. */
    function Buffers(): set<array<real>>
    {
      {cosTable, sinTable, re, im, spectrum}
    }

    /** The angle of twiddle i: -2*pi*i/N. */
    function Angle(i: int): real
      requires n > 0
    {
      -2.0 * pi * (i as real) / (n as real)
    }

    ghost predicate TablesFilled()
      reads cosTable, sinTable
      requires cosTable.Length == n && sinTable.Length == n
    {
      forall i :: 0 <= i < n ==> cosTable[i] == cos(Angle(i)) && sinTable[i] == sin(Angle(i))
    }

    function Magnitude(a: real, b: real): real
    {
      sqrt(a * a + b * b)
    }

    /** One value of the synthetic spectrum shown when nothing is playing. */
    function DemoLevel(demoTime: int, i: int): real
    {
      var freq := (i as real) / (NUM_FREQUENCY_BINS as real);
      var time := (demoTime as real) * 0.1;
      var bass := sin(time * 0.5 + freq * 2.0) * 0.4 + 0.4;
      var mid := sin(time * 0.8 + freq * 8.0) * 0.3 + 0.3;
      var treble := cos(time * 1.2 + freq * 15.0) * 0.2 + 0.2;
      bass + mid + treble
    }

    /** The static storage of audio.c before anything runs: all zero. */
    constructor (logN: nat, pi: real, sin: real -> real, cos: real -> real,
                 sqrt: real -> real, log: real -> real)
      ensures Valid() && !initialized && demoTime == 0
      ensures this.logN == logN && n == Pow2(logN)
      ensures this.pi == pi && this.sin == sin && this.cos == cos
      ensures this.sqrt == sqrt && this.log == log
      ensures fresh(cosTable) && fresh(sinTable) && fresh(re) && fresh(im)
      ensures fresh(window) && fresh(spectrum)
    {
      var size := Pow2(logN);
      this.logN, n := logN, size;
      this.pi, this.sin, this.cos, this.sqrt, this.log := pi, sin, cos, sqrt, log;
      cosTable := new real[size](_ => 0.0);
      sinTable := new real[size](_ => 0.0);
      re := new real[size](_ => 0.0);
      im := new real[size](_ => 0.0);
      window := new int[size](_ => 0);
      spectrum := new real[size](_ => 0.0);
      initialized := false;
      demoTime := 0;
    }

    /** fft_init: fill the twiddle tables once; later calls change nothing. */
    method Init()
      requires Valid()
      modifies this`initialized, cosTable, sinTable
      ensures Valid() && initialized
      ensures old(initialized) ==> unchanged(cosTable, sinTable)
      ensures TablesFilled()
    {
      if initialized {
        return;
      }
      var i := 0;
      while i < n
        invariant 0 <= i <= n
        invariant forall p :: 0 <= p < i ==> cosTable[p] == cos(Angle(p)) && sinTable[p] == sin(Angle(p))
      {
        var angle := Angle(i);
        cosTable[i] := cos(angle);
        sinTable[i] := sin(angle);
        i := i + 1;
      }
      initialized := true;
    }

    /**
     * The input stage of fft_compute: the first min(size, N) samples scaled
     * by 1/32768 into the real parts, zeros everywhere else.
     */
    method LoadInput(samples: array<int>, size: int)
      requires Valid() && 0 <= size && Min(size, n) <= samples.Length
      modifies re, im
      ensures Valid()
      ensures forall p :: 0 <= p < n ==> im[p] == 0.0
      ensures forall p :: 0 <= p < n ==> re[p] == if p < size then (samples[p] as real) / 32768.0 else 0.0
    {
      var i := 0;
      while i < size && i < n
        invariant 0 <= i <= n && i <= size
        invariant forall p :: 0 <= p < i ==> re[p] == (samples[p] as real) / 32768.0 && im[p] == 0.0
      {
        re[i] := (samples[i] as real) / 32768.0;
        im[i] := 0.0;
        i := i + 1;
      }
      i := size;
      while i < n
        invariant size <= i
        invariant forall p :: 0 <= p < size && p < n ==> re[p] == (samples[p] as real) / 32768.0 && im[p] == 0.0
        invariant forall p :: size <= p < i && p < n ==> re[p] == 0.0 && im[p] == 0.0
      {
        re[i] := 0.0;
        im[i] := 0.0;
        i := i + 1;
      }
    }

    ghost predicate Silent()
      reads re, im
      requires re.Length == n && im.Length == n
    {
      forall p :: 0 <= p < n ==> re[p] == 0.0 && im[p] == 0.0
    }

    /**
     * The butterfly stages of fft_compute. Every index it touches is in
     * bounds (u < v < N, twiddle index below N/2), and a silent buffer stays
     * silent.
     */
    method Butterflies()
      requires Valid()
      modifies re, im
      ensures Valid()
      ensures old(Silent()) ==> Silent()
    {
      ghost var silent := Silent();
      var len := 2;
      ghost var s: nat := 1;
      while len <= n
        invariant 1 <= s && len == Pow2(s)
        invariant silent ==> Silent()
      {
        Pow2Below(s, logN);
        var step := n / len;
        var i := 0;
        ghost var g: nat := 0;
        while i < n
          invariant i == g * len
          invariant silent ==> Silent()
        {
          BlockBelow(g, Pow2(logN - s), len, logN, s);
          var j := 0;
          while j < len / 2
            invariant 0 <= j <= len / 2
            invariant silent ==> Silent()
          {
            ButterflyIndices(logN, s, g, j);
            var u := i + j;
            var v := i + j + len / 2;
            var w := j * step;
            var wr := cosTable[w];
            var wi := sinTable[w];
            var vr := re[v] * wr - im[v] * wi;
            var vi := re[v] * wi + im[v] * wr;
            re[v] := re[u] - vr;
            im[v] := im[u] - vi;
            re[u] := re[u] + vr;
            im[u] := im[u] + vi;
            j := j + 1;
          }
          i := i + len;
          g := g + 1;
        }
        len := len * 2;
        s := s + 1;
      }
    }

    /** The output stage of fft_compute: size/2 magnitudes, nothing more. */
    method Magnitudes(output: array<real>, size: int)
      requires Valid() && 0 <= size && size / 2 <= n && size / 2 <= output.Length
      requires output != cosTable && output != sinTable && output != re && output != im
      modifies output
      ensures Valid()
      ensures forall k :: 0 <= k < size / 2 ==> output[k] == Magnitude(re[k], im[k])
      ensures forall k :: size / 2 <= k < output.Length ==> output[k] == old(output[k])
    {
      var i := 0;
      while i < size / 2
        invariant 0 <= i <= size / 2
        invariant forall k :: 0 <= k < i ==> output[k] == Magnitude(re[k], im[k])
        invariant forall k :: i <= k < output.Length ==> output[k] == old(output[k])
      {
        output[i] := Magnitude(re[i], im[i]);
        i := i + 1;
      }
    }

    /**
     * fft_compute: transform the first `size` samples (zero-padded to N) and
     * write size/2 magnitudes. A window of zeros yields magnitude sqrt(0).
     */
    method Compute(samples: array<int>, output: array<real>, size: int)
      requires Valid()
      requires 0 <= size && Min(size, n) <= samples.Length
      requires size / 2 <= n && size / 2 <= output.Length
      requires output != cosTable && output != sinTable && output != re && output != im
      modifies this`initialized, cosTable, sinTable, re, im, output
      ensures Valid() && initialized
      ensures forall k :: 0 <= k < size / 2 ==> output[k] == Magnitude(re[k], im[k])
      ensures forall k :: size / 2 <= k < output.Length ==> output[k] == old(output[k])
      ensures (forall p :: 0 <= p < size && p < n ==> samples[p] == 0) ==>
        forall k :: 0 <= k < size / 2 ==> output[k] == sqrt(0.0)
    {
      if !initialized {
        Init();
      }
      LoadInput(samples, size);
      ghost var quiet := forall p :: 0 <= p < size && p < n ==> samples[p] == 0;
      assert quiet ==> Silent();
      ghost var loaded := re[..];
      ghost var loadedIm := im[..];
      BitReverse(re, im, logN);
      assert quiet ==> Silent() by {
        if quiet {
          forall p | 0 <= p < n
            ensures re[p] == 0.0 && im[p] == 0.0
          {
            assert re[..][p] == loaded[Rev(p, logN)];
            assert im[..][p] == loadedIm[Rev(p, logN)];
          }
        }
      }
      Butterflies();
      Magnitudes(output, size);
    }

    /** Bin i: log(1 + 10 * mean of group i of size b). */
    function BinLevel(s: seq<real>, i: int, b: int): real
      requires GroupFits(i, b, |s|)
    {
      log(1.0 + GroupMean(s, i, b) * 10.0)
    }

    /**
     * fft_to_frequency_bins: bin i is log(1 + 10 * mean of group i), where the
     * half spectrum is cut into numBins groups of (fftSize/2)/numBins values.
     * Only numBins outputs are written.
     */
    method ToBins(fftOutput: array<real>, bins: array<real>, fftSize: int, numBins: int)
      requires 1 <= numBins <= fftSize / 2 <= fftOutput.Length
      requires numBins <= bins.Length && bins != fftOutput
      modifies bins
      ensures forall i :: 0 <= i < numBins ==> GroupFits(i, (fftSize / 2) / numBins, fftOutput.Length)
      ensures forall i :: 0 <= i < numBins ==>
        bins[i] == BinLevel(fftOutput[..], i, (fftSize / 2) / numBins)
      ensures forall i :: numBins <= i < bins.Length ==> bins[i] == old(bins[i])
    {
      ghost var s := fftOutput[..];
      var half := fftSize / 2;
      var binSize := half / numBins;
      BinSize(half, numBins);
      forall i | 0 <= i < numBins
        ensures GroupFits(i, binSize, fftOutput.Length)
      {
        GroupInRange(i, numBins, binSize);
      }
      var i := 0;
      while i < numBins
        invariant 0 <= i <= numBins
        invariant forall i' :: 0 <= i' < i ==> bins[i'] == BinLevel(s, i', binSize)
        invariant forall i' :: i <= i' < bins.Length ==> bins[i'] == old(bins[i'])
      {
        var sum := 0.0;
        var start := i * binSize;
        var end := start + binSize;
        GroupInRange(i, numBins, binSize);
        var j := start;
        ghost var written := bins[..];
        while j < end && j < half
          invariant start <= j <= end
          invariant sum == Sum(s[start..j])
          invariant bins[..] == written
        {
          SumStep(s, start, j);
          sum := sum + fftOutput[j];
          j := j + 1;
        }
        assert sum == Sum(s[i * binSize..(i + 1) * binSize]);
        bins[i] := sum / (binSize as real);
        bins[i] := log(1.0 + bins[i] * 10.0);
        assert bins[i] == BinLevel(s, i, binSize);
        i := i + 1;
      }
    }

    /**
     * audio_update. With no playing track it advances the demo clock and
     * writes the synthetic spectrum, touching no track field. Otherwise it
     * copies the window at the cursor (zero-padded past the end of the track),
     * transforms it, bins it and advances the cursor by one hop, looping to 0.
     */
    method Update(track: Track?, frequencyData: array<real>)
      requires Valid() && (track != null ==> track.Valid())
      requires NUM_FREQUENCY_BINS <= n / 2 && NUM_FREQUENCY_BINS <= frequencyData.Length
      requires frequencyData !in Buffers()
      requires Playing(track) ==> track.samples != window
      modifies this`initialized, this`demoTime, cosTable, sinTable, re, im, window, spectrum
      modifies frequencyData, track
      ensures Valid() && (track != null ==> track.Valid())
      ensures forall i :: NUM_FREQUENCY_BINS <= i < frequencyData.Length ==> frequencyData[i] == old(frequencyData[i])
      // demo path
      ensures !old(Playing(track)) ==> demoTime == (old(demoTime) + 1) % 0x1_0000_0000
      ensures !old(Playing(track)) ==> forall i :: 0 <= i < NUM_FREQUENCY_BINS ==> frequencyData[i] == DemoLevel(demoTime, i)
      ensures !old(Playing(track)) ==> track == null || unchanged(track)
      ensures !old(Playing(track)) ==> unchanged(window, spectrum) && initialized == old(initialized)
      // playing path
      ensures old(Playing(track)) ==> demoTime == old(demoTime) && initialized
      ensures old(Playing(track)) ==>
        track.samples == old(track.samples) && track.length == old(track.length) && track.playing
        && track.position == Advance(old(track.position), track.length)
      ensures old(Playing(track)) ==> forall p :: 0 <= p < n ==>
        window[p] == if p < Min(n, track.length - old(track.position)) then track.samples[old(track.position) + p] else 0
      ensures old(Playing(track)) ==> forall k :: 0 <= k < n / 2 ==> spectrum[k] == Magnitude(re[k], im[k])
      ensures old(Playing(track)) ==> forall i :: 0 <= i < NUM_FREQUENCY_BINS ==>
        GroupFits(i, (n / 2) / NUM_FREQUENCY_BINS, spectrum.Length)
      ensures old(Playing(track)) ==> forall i :: 0 <= i < NUM_FREQUENCY_BINS ==>
        frequencyData[i] == BinLevel(spectrum[..], i, (n / 2) / NUM_FREQUENCY_BINS)
      ensures old(Playing(track)) && (forall p :: 0 <= p < n ==> window[p] == 0) ==>
        forall k :: 0 <= k < n / 2 ==> spectrum[k] == sqrt(0.0)
    {
      if !Playing(track) {
        Demo(frequencyData);
      } else {
        Analyse(track, frequencyData);
      }
    }

    /** The demo branch of audio_update. */
    method Demo(frequencyData: array<real>)
      requires Valid() && NUM_FREQUENCY_BINS <= frequencyData.Length
      requires frequencyData !in Buffers()
      modifies this`demoTime, frequencyData
      ensures Valid()
      ensures demoTime == (old(demoTime) + 1) % 0x1_0000_0000
      ensures forall i :: 0 <= i < NUM_FREQUENCY_BINS ==> frequencyData[i] == DemoLevel(demoTime, i)
      ensures forall i :: NUM_FREQUENCY_BINS <= i < frequencyData.Length ==> frequencyData[i] == old(frequencyData[i])
    {
      demoTime := (demoTime + 1) % 0x1_0000_0000;
      var i := 0;
      while i < NUM_FREQUENCY_BINS
        invariant 0 <= i <= NUM_FREQUENCY_BINS
        invariant demoTime == (old(demoTime) + 1) % 0x1_0000_0000
        invariant forall i' :: 0 <= i' < i ==> frequencyData[i'] == DemoLevel(demoTime, i')
        invariant forall i' :: NUM_FREQUENCY_BINS <= i' < frequencyData.Length ==> frequencyData[i'] == old(frequencyData[i'])
      {
        frequencyData[i] := DemoLevel(demoTime, i);
        i := i + 1;
      }
    }

    /** The analysing branch of audio_update, for a playing track. */
    method Analyse(track: Track, frequencyData: array<real>)
      requires Valid() && track.Valid() && Playing(track)
      requires NUM_FREQUENCY_BINS <= n / 2 && NUM_FREQUENCY_BINS <= frequencyData.Length
      requires frequencyData !in Buffers() && track.samples != window
      modifies this`initialized, cosTable, sinTable, re, im, window, spectrum
      modifies frequencyData, track`position
      ensures Valid() && track.Valid() && initialized
      ensures track.position == Advance(old(track.position), track.length)
      ensures forall i :: NUM_FREQUENCY_BINS <= i < frequencyData.Length ==> frequencyData[i] == old(frequencyData[i])
      ensures forall p :: 0 <= p < n ==>
        window[p] == if p < Min(n, track.length - old(track.position)) then track.samples[old(track.position) + p] else 0
      ensures forall k :: 0 <= k < n / 2 ==> spectrum[k] == Magnitude(re[k], im[k])
      ensures forall i :: 0 <= i < NUM_FREQUENCY_BINS ==> GroupFits(i, (n / 2) / NUM_FREQUENCY_BINS, spectrum.Length)
      ensures forall i :: 0 <= i < NUM_FREQUENCY_BINS ==>
        frequencyData[i] == BinLevel(spectrum[..], i, (n / 2) / NUM_FREQUENCY_BINS)
      ensures (forall p :: 0 <= p < n ==> window[p] == 0) ==>
        forall k :: 0 <= k < n / 2 ==> spectrum[k] == sqrt(0.0)
    {
      var toCopy := n;
      if track.position + toCopy > track.length {
        toCopy := track.length - track.position;
      }
      var samples := track.samples;
      var from := track.position;
      forall p | 0 <= p < toCopy {
        window[p] := samples[from + p];
      }
      if toCopy < n {
        forall p | toCopy <= p < n {
          window[p] := 0;
        }
      }
      Compute(window, spectrum, n);
      ToBins(spectrum, frequencyData, n, NUM_FREQUENCY_BINS);

      track.position := track.position + BUFFER_SIZE;
      if track.position >= track.length {
        track.position := 0;
      }
    }
  }

  /**
   * The reversed-counter step of the bit-reversal pass over 2^k points: from
   * j = Rev(i - 1) it clears the leading run of set bits from the top and
   * sets the next one, which yields Rev(i).
   */
  method ReversedSuccessor(j: int, k: nat, ghost i: nat) returns (r: int)
    requires 1 <= i < Pow2(k) && j == Rev(i - 1, k)
    ensures r == Rev(i, k)
  {
    assert k >= 1 && Pow2(k) == 2 * Pow2(k - 1);
    var bit: nat := Pow2(k) / 2;
    NextRevIsRevOfSuccessor(i - 1, k);
    r := j;
    while BitSet(r, bit)
      invariant NextRev(r, bit) == Rev(i, k)
      decreases bit
    {
      NextRevUnfold(r, bit);
      r := FlipBit(r, bit);
      bit := bit / 2;
    }
    NextRevUnfold(r, bit);
    r := FlipBit(r, bit);
  }

  lemma NextRevUnfold(r: int, bit: nat)
    ensures NextRev(r, bit) == if BitSet(r, bit) then NextRev(FlipBit(r, bit), bit / 2) else FlipBit(r, bit)
  {
  }

  /**
   * The bit-reversal pass of fft_compute over the 2^k real and imaginary
   * parts. Afterwards slot p holds the value that was at Rev(p): the pair
   * (x, Rev(x)) is exchanged when the pass visits its smaller end.
   */
  method BitReverse(re: array<real>, im: array<real>, k: nat)
    requires re.Length == Pow2(k) && im.Length == Pow2(k) && re != im
    modifies re, im
    ensures re[..] == BitReversed(old(re[..]), k)
    ensures im[..] == BitReversed(old(im[..]), k)
  {
    ghost var re0, im0 := re[..], im[..];
    ArrangedStart(re0, k);
    ArrangedStart(im0, k);
    RevOfZero(k);
    var n := Pow2(k);
    var j := 0;
    var i := 1;
    while i < n
      invariant 1 <= i <= n
      invariant j == Rev(i - 1, k)
      invariant re[..] == Arranged(re0, k, i) && im[..] == Arranged(im0, k, i)
    {
      j := ReversedSuccessor(j, k, i);
      ExchangeIfBelow(re, im, i, j, k, re0, im0);
      i := i + 1;
    }
    ArrangedEnd(re0, k);
    ArrangedEnd(im0, k);
  }

  /** The exchange of the bit-reversal pass at index i, whose reversal is j. */
  method ExchangeIfBelow(re: array<real>, im: array<real>, i: int, j: int,
                         ghost k: nat, ghost re0: seq<real>, ghost im0: seq<real>)
    requires re.Length == Pow2(k) && im.Length == Pow2(k) && re != im
    requires |re0| == Pow2(k) && |im0| == Pow2(k)
    requires 0 <= i < Pow2(k) && j == Rev(i, k)
    requires re[..] == Arranged(re0, k, i) && im[..] == Arranged(im0, k, i)
    modifies re, im
    ensures re[..] == Arranged(re0, k, i + 1) && im[..] == Arranged(im0, k, i + 1)
  {
    ArrangedStep(re0, k, i);
    ArrangedStep(im0, k, i);
    if i < j {
      re[i], re[j] := re[j], re[i];
      im[i], im[j] := im[j], im[i];
    }
  }

  /** Where slot p finds its value once the indices below i have been visited. */
  ghost function Source(p: nat, k: nat, i: int): nat
  {
    if Min(p, Rev(p, k)) < i then Rev(p, k) else p
  }

  /** The array of the bit-reversal pass after the indices below i have been visited. */
  ghost function Arranged<T>(s: seq<T>, k: nat, i: int): (r: seq<T>)
    requires |s| == Pow2(k)
    ensures |r| == |s|
  {
    seq(|s|, p requires 0 <= p < |s| => s[Source(p, k, i)])
  }

  lemma ArrangedStart<T>(s: seq<T>, k: nat)
    requires |s| == Pow2(k)
    ensures Arranged(s, k, 1) == s
  {
    RevOfZero(k);
    forall p | 0 <= p < |s|
      ensures Arranged(s, k, 1)[p] == s[p]
    {
      if Rev(p, k) == 0 {
        RevInvolution(p, k);
      }
    }
  }

  /** Visiting i exchanges slots i and Rev(i) when i < Rev(i) and changes nothing otherwise. */
  lemma ArrangedStep<T>(s: seq<T>, k: nat, i: nat)
    requires |s| == Pow2(k) && i < |s|
    ensures var a, r := Arranged(s, k, i), Rev(i, k);
      Arranged(s, k, i + 1) == if i < r then a[i := a[r]][r := a[i]] else a
  {
    var a, b, r := Arranged(s, k, i), Arranged(s, k, i + 1), Rev(i, k);
    RevInvolution(i, k);
    var c := if i < r then a[i := a[r]][r := a[i]] else a;
    forall p | 0 <= p < |s|
      ensures b[p] == c[p]
    {
      RevInvolution(p, k);
    }
  }

  lemma ArrangedEnd<T>(s: seq<T>, k: nat)
    requires |s| == Pow2(k)
    ensures Arranged(s, k, |s|) == BitReversed(s, k)
  {
  }

  lemma {:induction false} RevOfZero(k: nat)
    ensures Rev(0, k) == 0
  {
    if k > 0 {
      RevOfZero(k - 1);
    }
  }

  /** Exponents follow their powers of two. */
  lemma {:induction false} Pow2Below(a: nat, b: nat)
    requires Pow2(a) <= Pow2(b)
    ensures a <= b
  {
    if a > b {
      Pow2Grows(b, a);
    }
  }

  lemma {:induction false} Pow2Grows(b: nat, a: nat)
    requires b < a
    ensures Pow2(b) < Pow2(a)
  {
    if a - 1 > b {
      Pow2Grows(b, a - 1);
    }
  }

  /** A block that starts below 2^k is one of the 2^(k-s) blocks of span 2^s. */
  lemma BlockBelow(g: nat, q: nat, len: nat, k: nat, s: nat)
    requires s <= k && q == Pow2(k - s) && len == Pow2(s)
    requires g * len < Pow2(k)
    ensures g < q
  {
    Pow2Add(k - s, s);
    if g >= q {
      MulMonotone(q, g, len);
    }
  }
}
