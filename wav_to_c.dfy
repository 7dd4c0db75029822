/**
 * tools/wav_to_c.py: turns a 16-bit WAV file into a C source file holding the
 * samples as a `const int16_t` array, plus the header that declares it.
 * Multi-channel input is folded to mono by averaging consecutive pairs of
 * samples with Python's floor division.
 */
module WavToC {
  import opened Wrappers
  import opened Decimal

  type Byte = b: int | 0 <= b < 256

  predicate IsInt16(x: int)
  {
    -32768 <= x < 32768
  }

  predicate AllInt16(s: seq<int>)
  {
    forall k :: 0 <= k < |s| ==> IsInt16(s[k])
  }

  // ---------------------------------------------------------------------------
  // Sample decoding: struct.unpack('<h', ...)

  /** A little-endian signed 16-bit integer from its two bytes, low byte first. */
  function Int16LE(lo: Byte, hi: Byte): (x: int)
    ensures IsInt16(x)
    ensures x < 0 <==> hi >= 128
  {
    var u := lo + 256 * hi;
    if u < 32768 then u else u - 65536
  }

  /** The two bytes, low byte first, that encode x as a little-endian int16. */
  function Int16Bytes(x: int): (b: (Byte, Byte))
    requires IsInt16(x)
    ensures Int16LE(b.0, b.1) == x
  {
    var u := if x < 0 then x + 65536 else x;
    (u % 256, u / 256)
  }

  /** Decoding and then encoding gives back the two bytes. */
  lemma Int16BytesOfLE(lo: Byte, hi: Byte)
    ensures Int16Bytes(Int16LE(lo, hi)) == (lo, hi)
  {
    var u := lo + 256 * hi;
    assert u % 256 == lo && u / 256 == hi;
  }

  /** `(left + right) // 2`: the mean of two samples, rounded towards minus infinity. */
  function Downmix(left: int, right: int): (m: int)
    ensures 2 * m <= left + right < 2 * m + 2
    ensures (if left < right then left else right) <= m <= (if left < right then right else left)
  {
    (left + right) / 2
  }

  /** The mean of two int16 samples is an int16; a sample averaged with itself is unchanged. */
  lemma DownmixRange(left: int, right: int)
    ensures IsInt16(left) && IsInt16(right) ==> IsInt16(Downmix(left, right))
    ensures Downmix(left, left) == left
  {
  }

  /** The samples of a mono stream: one int16 per two bytes. */
  function MonoSpec(data: seq<Byte>): (s: seq<int>)
    ensures |s| == |data| / 2 && AllInt16(s)
  {
    seq(|data| / 2, k requires 0 <= k < |data| / 2 => Int16LE(data[2 * k], data[2 * k + 1]))
  }

  /** The samples of a multi-channel stream: each four bytes, two int16s, averaged. */
  function DownmixSpec(data: seq<Byte>): (s: seq<int>)
    ensures |s| == |data| / 4 && AllInt16(s)
  {
    seq(|data| / 4, k requires 0 <= k < |data| / 4 =>
      DownmixAt(data, k))
  }

  function DownmixAt(data: seq<Byte>, k: nat): (m: int)
    requires 4 * k + 4 <= |data|
    ensures IsInt16(m)
  {
    DownmixRange(Int16LE(data[4 * k], data[4 * k + 1]), Int16LE(data[4 * k + 2], data[4 * k + 3]));
    Downmix(Int16LE(data[4 * k], data[4 * k + 1]), Int16LE(data[4 * k + 2], data[4 * k + 3]))
  }

  /** The samples the converter produces from a stream with the given channel count. */
  function SamplesSpec(channels: int, data: seq<Byte>): seq<int>
  {
    if channels == 1 then MonoSpec(data) else DownmixSpec(data)
  }

  /**
   * Whether every slice handed to struct.unpack holds two bytes: a stream
   * whose length is not a multiple of the step raises struct.error.
   */
  predicate WholeFrames(channels: int, data: seq<Byte>)
  {
    if channels == 1 then |data| % 2 == 0 else |data| % 4 == 0
  }

  /**
   * The decoding loops. None stands for the struct.error raised when the
   * last slice is short; the converter's handler then reports failure.
   */
  method DecodeSamples(channels: int, data: seq<Byte>) returns (r: Option<seq<int>>)
    ensures r.Some? <==> WholeFrames(channels, data)
    ensures r.Some? ==> r.value == SamplesSpec(channels, data)
  {
    var samples: seq<int> := [];
    var i := 0;
    if channels == 1 {
      while i < |data|
        invariant 0 <= i <= |data| && i % 2 == 0
        invariant samples == MonoSpec(data[..i])
      {
        if i + 2 > |data| {
          return None;
        }
        MonoStep(data, i);
        samples := samples + [Int16LE(data[i], data[i + 1])];
        i := i + 2;
      }
      assert data[..i] == data;
    } else {
      while i < |data|
        invariant 0 <= i <= |data| && i % 4 == 0
        invariant samples == DownmixSpec(data[..i])
      {
        if i + 4 > |data| {
          return None;
        }
        var left := Int16LE(data[i], data[i + 1]);
        var right := Int16LE(data[i + 2], data[i + 3]);
        var mono := (left + right) / 2;
        DownmixStep(data, i);
        samples := samples + [mono];
        i := i + 4;
      }
      assert data[..i] == data;
    }
    return Some(samples);
  }

  /** Decoding two more bytes of a mono stream appends one sample. */
  lemma MonoStep(data: seq<Byte>, i: nat)
    requires i % 2 == 0 && i + 2 <= |data|
    ensures MonoSpec(data[..i + 2]) == MonoSpec(data[..i]) + [Int16LE(data[i], data[i + 1])]
  {
    var a, b := data[..i], data[..i + 2];
    assert b[i] == data[i] && b[i + 1] == data[i + 1];
    forall k | 0 <= k < i / 2
      ensures MonoSpec(b)[k] == MonoSpec(a)[k]
    {
      assert b[2 * k] == a[2 * k] && b[2 * k + 1] == a[2 * k + 1];
    }
  }

  /** Decoding four more bytes of a multi-channel stream appends one averaged sample. */
  lemma DownmixStep(data: seq<Byte>, i: nat)
    requires i % 4 == 0 && i + 4 <= |data|
    ensures DownmixSpec(data[..i + 4])
      == DownmixSpec(data[..i]) + [(Int16LE(data[i], data[i + 1]) + Int16LE(data[i + 2], data[i + 3])) / 2]
  {
    var a, b := data[..i], data[..i + 4];
    assert DownmixAt(b, i / 4) == (Int16LE(data[i], data[i + 1]) + Int16LE(data[i + 2], data[i + 3])) / 2 by {
      assert b[i] == data[i] && b[i + 1] == data[i + 1] && b[i + 2] == data[i + 2] && b[i + 3] == data[i + 3];
    }
    forall k | 0 <= k < i / 4
      ensures DownmixSpec(b)[k] == DownmixSpec(a)[k]
    {
      assert DownmixAt(b, k) == DownmixAt(a, k) by {
        assert b[4 * k] == a[4 * k] && b[4 * k + 1] == a[4 * k + 1];
        assert b[4 * k + 2] == a[4 * k + 2] && b[4 * k + 3] == a[4 * k + 3];
      }
    }
  }

  /** Little-endian bytes of a mono stream. */
  function MonoBytes(s: seq<int>): (data: seq<Byte>)
    requires AllInt16(s)
    ensures |data| == 2 * |s|
  {
    seq(2 * |s|, i requires 0 <= i < 2 * |s| =>
      var b := Int16Bytes(s[i / 2]);
      if i % 2 == 0 then b.0 else b.1)
  }

  /** Decoding the bytes of a mono stream gives back its samples. */
  lemma MonoRoundTrip(s: seq<int>)
    requires AllInt16(s)
    ensures WholeFrames(1, MonoBytes(s))
    ensures SamplesSpec(1, MonoBytes(s)) == s
  {
    var data := MonoBytes(s);
    forall k | 0 <= k < |s|
      ensures MonoSpec(data)[k] == s[k]
    {
      assert (2 * k) / 2 == k && (2 * k + 1) / 2 == k;
    }
  }

  /** Interleaved little-endian bytes of a two-channel stream. */
  function StereoBytes(left: seq<int>, right: seq<int>): (data: seq<Byte>)
    requires |left| == |right| && AllInt16(left) && AllInt16(right)
    ensures |data| == 4 * |left|
  {
    seq(4 * |left|, i requires 0 <= i < 4 * |left| =>
      var b := Int16Bytes(if i % 4 < 2 then left[i / 4] else right[i / 4]);
      if i % 2 == 0 then b.0 else b.1)
  }

  /** Decoding a two-channel stream averages its channels frame by frame. */
  lemma StereoRoundTrip(left: seq<int>, right: seq<int>)
    requires |left| == |right| && AllInt16(left) && AllInt16(right)
    ensures WholeFrames(2, StereoBytes(left, right))
    ensures SamplesSpec(2, StereoBytes(left, right)) == seq(|left|, k requires 0 <= k < |left| => Downmix(left[k], right[k]))
  {
    var data := StereoBytes(left, right);
    forall k | 0 <= k < |left|
      ensures DownmixSpec(data)[k] == Downmix(left[k], right[k])
    {
      StereoFrame(left, right, k);
    }
  }

  /** Frame k of the interleaved bytes decodes to the two samples of frame k. */
  lemma StereoFrame(left: seq<int>, right: seq<int>, k: nat)
    requires |left| == |right| && AllInt16(left) && AllInt16(right)
    requires k < |left|
    ensures DownmixAt(StereoBytes(left, right), k) == Downmix(left[k], right[k])
  {
    var data := StereoBytes(left, right);
    FrameOffsets(k);
    var l, r := Int16Bytes(left[k]), Int16Bytes(right[k]);
    assert data[4 * k] == l.0 && data[4 * k + 1] == l.1;
    assert data[4 * k + 2] == r.0 && data[4 * k + 3] == r.1;
  }

  lemma FrameOffsets(k: nat)
    ensures (4 * k) / 4 == k && (4 * k + 1) / 4 == k && (4 * k + 2) / 4 == k && (4 * k + 3) / 4 == k
    ensures (4 * k) % 4 == 0 && (4 * k + 1) % 4 == 1 && (4 * k + 2) % 4 == 2 && (4 * k + 3) % 4 == 3
    ensures (4 * k) % 2 == 0 && (4 * k + 1) % 2 == 1 && (4 * k + 2) % 2 == 0 && (4 * k + 3) % 2 == 1
  {
    ByteOffset(k, 0);
    ByteOffset(k, 1);
    ByteOffset(k, 2);
    ByteOffset(k, 3);
  }

  /** Byte i of frame k: (4k + i) / 4 == k, with remainder i modulo 4 and i % 2 modulo 2. */
  lemma ByteOffset(k: nat, i: nat)
    requires i < 4
    ensures (4 * k + i) / 4 == k && (4 * k + i) % 4 == i && (4 * k + i) % 2 == i % 2
  {
    var n := 4 * k + i;
    var q, r := n / 4, n % 4;
    assert 4 * (q - k) == i - r;
    var q2, r2 := n / 2, n % 2;
    assert 2 * (q2 - 2 * k - i / 2) == i % 2 - r2;
  }

  // ---------------------------------------------------------------------------
  // The array initializer: 16 values per line, each as format(s, "6d")

  const VALUES_PER_LINE: nat := 16

  function Min(a: int, b: int): int
  {
    if a < b then a else b
  }

  function Field(x: int): string
  {
    PadLeft(IntText(x), 6)
  }

  /** `", ".join(...)` over the fields of xs. */
  function Join(xs: seq<int>): string
    decreases |xs|
  {
    if |xs| == 0 then ""
    else if |xs| == 1 then Field(xs[0])
    else Field(xs[0]) + ", " + Join(xs[1..])
  }

  /** One line of the initializer; `more` when further samples follow it. */
  function Line(values: seq<int>, more: bool): string
  {
    "    " + Join(values) + LineEnd(more)
  }

  /** The end of a line: a comma when more samples follow, then the newline. */
  function LineEnd(more: bool): string
  {
    if more then ",\n" else "\n"
  }

  /** samples[i:i+16] for i = 0, 16, 32, ...: the values of each line. */
  function Chunks(s: seq<int>): (c: seq<seq<int>>)
    ensures |c| == (|s| + VALUES_PER_LINE - 1) / VALUES_PER_LINE
  {
    seq((|s| + VALUES_PER_LINE - 1) / VALUES_PER_LINE, k requires 0 <= k < (|s| + VALUES_PER_LINE - 1) / VALUES_PER_LINE =>
      s[VALUES_PER_LINE * k..Min(VALUES_PER_LINE * k + VALUES_PER_LINE, |s|)])
  }

  /** There is a line k exactly when sample 16 * k exists. */
  lemma ChunkCount(n: nat, k: nat)
    ensures k < (n + VALUES_PER_LINE - 1) / VALUES_PER_LINE <==> VALUES_PER_LINE * k < n
  {
  }

  /** The lines of the initializer; every line but the last ends in a comma. */
  function Lines(s: seq<int>): (ls: seq<string>)
    ensures |ls| == |Chunks(s)|
  {
    var c := Chunks(s);
    seq(|c|, k requires 0 <= k < |c| => Line(c[k], k + 1 < |c|))
  }

  function Concat(ls: seq<string>): string
    decreases |ls|
  {
    if ls == [] then "" else ls[0] + Concat(ls[1..])
  }

  function Flatten(c: seq<seq<int>>): seq<int>
    decreases |c|
  {
    if c == [] then [] else c[0] + Flatten(c[1..])
  }

  /** Everything between `= {` and `};` of the generated array. */
  function Body(s: seq<int>): string
  {
    Concat(Lines(s))
  }

  /** The line-writing loop of the converter produces the initializer text. */
  method ArrayBody(samples: seq<int>) returns (text: string)
    ensures text == Body(samples)
  {
    text := "";
    var i := 0;
    ghost var k := 0;
    ChunkCount(|samples|, 0);
    assert Lines(samples)[0..] == Lines(samples);
    while i < |samples|
      invariant 0 <= k <= |Lines(samples)| && i == VALUES_PER_LINE * k
      invariant k < |Lines(samples)| <==> i < |samples|
      invariant Body(samples) == text + Concat(Lines(samples)[k..])
    {
      var lineStr := FormatLine(samples, i);
      AppendLine(samples, i, k, text, lineStr);
      text := text + (lineStr + "\n");
      i := i + VALUES_PER_LINE;
      k := k + 1;
    }
    assert Lines(samples)[k..] == [];
  }

  /** Writing line k keeps the text followed by the unwritten lines equal to the body. */
  lemma AppendLine(samples: seq<int>, i: nat, k: nat, text: string, lineStr: string)
    requires i == VALUES_PER_LINE * k && i < |samples|
    requires lineStr == "    " + Join(samples[i..Min(i + VALUES_PER_LINE, |samples|)])
      + (if i + VALUES_PER_LINE < |samples| then "," else "")
    requires Body(samples) == text + Concat(Lines(samples)[k..])
    ensures k + 1 <= |Lines(samples)| && (k + 1 < |Lines(samples)| <==> i + VALUES_PER_LINE < |samples|)
    ensures Body(samples) == text + (lineStr + "\n") + Concat(Lines(samples)[k + 1..])
  {
    LineStep(samples, k, lineStr);
    ChunkCount(|samples|, k + 1);
    AppendAssoc(text, lineStr + "\n", Concat(Lines(samples)[k + 1..]));
  }

  /** The text of the line that starts at sample i, before its newline. */
  method FormatLine(samples: seq<int>, i: nat) returns (lineStr: string)
    requires i < |samples|
    ensures lineStr == "    " + Join(samples[i..Min(i + VALUES_PER_LINE, |samples|)])
      + (if i + VALUES_PER_LINE < |samples| then "," else "")
    ensures lineStr + "\n" == Line(samples[i..Min(i + VALUES_PER_LINE, |samples|)], i + VALUES_PER_LINE < |samples|)
  {
    var lineSamples := samples[i..Min(i + VALUES_PER_LINE, |samples|)];
    lineStr := "    " + Join(lineSamples);
    if i + VALUES_PER_LINE < |samples| {
      AppendAssoc(lineStr, ",", "\n");
      lineStr := lineStr + ",";
    } else {
      assert lineStr == lineStr + "";
    }
  }

  /** Line k of the initializer, as the loop assembles it, and the lines after it. */
  lemma LineStep(s: seq<int>, k: nat, lineStr: string)
    requires VALUES_PER_LINE * k < |s|
    requires lineStr == "    " + Join(s[VALUES_PER_LINE * k..Min(VALUES_PER_LINE * k + VALUES_PER_LINE, |s|)])
      + (if VALUES_PER_LINE * k + VALUES_PER_LINE < |s| then "," else "")
    ensures k < |Lines(s)|
    ensures Concat(Lines(s)[k..]) == (lineStr + "\n") + Concat(Lines(s)[k + 1..])
  {
    var ls := Lines(s);
    ChunkCount(|s|, k);
    ChunkCount(|s|, k + 1);
    var more := VALUES_PER_LINE * k + VALUES_PER_LINE < |s|;
    var head := "    " + Join(Chunks(s)[k]);
    assert ls[k] == head + LineEnd(more);
    if more {
      assert lineStr == head + ",";
      assert LineEnd(more) == "," + "\n";
      AppendAssoc(head, ",", "\n");
    } else {
      assert lineStr == head + "";
      assert head + "" == head;
    }
    assert lineStr + "\n" == ls[k];
    ConcatFrom(ls, k);
  }

  lemma ConcatFrom(ls: seq<string>, k: nat)
    requires k < |ls|
    ensures Concat(ls[k..]) == ls[k] + Concat(ls[k + 1..])
  {
    assert ls[k..][1..] == ls[k + 1..];
  }

  /** The joined fields scan back to the values they show. */
  lemma {:induction false} ScanJoin(xs: seq<int>, tail: string)
    requires tail == [] || !IsDigit(tail[0])
    ensures Scan(Join(xs) + tail) == xs + Scan(tail)
    decreases |xs|
  {
    if |xs| == 0 {
      assert Join(xs) + tail == tail;
      assert xs == [];
    } else if |xs| == 1 {
      ScanPadded(xs[0], 6, tail);
      assert xs == [xs[0]];
    } else {
      ScanJoin(xs[1..], tail);
      ScanJoinStep(xs, tail);
    }
  }

  lemma ScanJoinStep(xs: seq<int>, tail: string)
    requires |xs| > 1
    requires Scan(Join(xs[1..]) + tail) == xs[1..] + Scan(tail)
    ensures Scan(Join(xs) + tail) == xs + Scan(tail)
  {
    var later := Join(xs[1..]) + tail;
    JoinCons(xs, tail);
    ScanField(xs[0], later);
    HeadAndTail(xs, Scan(tail));
  }

  /** A field and its separator scan back to the field's value. */
  lemma ScanField(x: int, later: string)
    ensures Scan(PadLeft(IntText(x), 6) + (", " + later)) == [x] + Scan(later)
  {
    var rest := ", " + later;
    assert rest[0] == ',';
    ScanPadded(x, 6, rest);
    ScanSkip(", ", later);
  }

  lemma JoinCons(xs: seq<int>, tail: string)
    requires |xs| > 1
    ensures Join(xs) + tail == PadLeft(IntText(xs[0]), 6) + (", " + (Join(xs[1..]) + tail))
  {
    AppendAssoc(Field(xs[0]) + ", ", Join(xs[1..]), tail);
    AppendAssoc(Field(xs[0]), ", ", Join(xs[1..]) + tail);
  }

  lemma HeadAndTail<T>(xs: seq<T>, t: seq<T>)
    requires |xs| >= 1
    ensures [xs[0]] + (xs[1..] + t) == xs + t
  {
    assert xs == [xs[0]] + xs[1..];
  }

  /** A line followed by anything scans to its values followed by what comes after. */
  lemma ScanLine(values: seq<int>, more: bool, rest: string)
    ensures Scan(Line(values, more) + rest) == values + Scan(rest)
  {
    var after := LineEnd(more) + rest;
    Associate("    ", Join(values), LineEnd(more), rest);
    LineParts(more, rest);
    ScanSkip("    ", Join(values) + after);
    ScanJoin(values, after);
    ScanSkip(LineEnd(more), rest);
  }

  /** The indentation and the end of a line hold no number. */
  lemma LineParts(more: bool, rest: string)
    ensures AllSeparators("    ") && AllSeparators(LineEnd(more))
    ensures (LineEnd(more) + rest)[0] == LineEnd(more)[0] && !IsDigit(LineEnd(more)[0])
  {
  }


  lemma Associate<T>(a: seq<T>, b: seq<T>, c: seq<T>, d: seq<T>)
    ensures a + b + c + d == a + (b + (c + d))
  {
  }

  lemma {:induction false} ScanLinesFrom(s: seq<int>, k: nat)
    requires k <= |Lines(s)|
    ensures Scan(Concat(Lines(s)[k..])) == Flatten(Chunks(s)[k..])
    decreases |Lines(s)| - k
  {
    var ls, c := Lines(s), Chunks(s);
    if k == |ls| {
      assert ls[k..] == [] && c[k..] == [];
    } else {
      assert ls[k..][1..] == ls[k + 1..] && c[k..][1..] == c[k + 1..];
      ScanLine(c[k], k + 1 < |c|, Concat(ls[k + 1..]));
      ScanLinesFrom(s, k + 1);
    }
  }

  /** Concatenating the lines' values restores the samples. */
  lemma {:induction false} FlattenChunksFrom(s: seq<int>, k: nat)
    requires k <= |Chunks(s)|
    ensures Flatten(Chunks(s)[k..]) == s[Min(VALUES_PER_LINE * k, |s|)..]
    decreases |Chunks(s)| - k
  {
    var c := Chunks(s);
    ChunkCount(|s|, k);
    if k < |c| {
      assert c[k..][1..] == c[k + 1..];
      FlattenChunksFrom(s, k + 1);
      var a, b := VALUES_PER_LINE * k, Min(VALUES_PER_LINE * k + VALUES_PER_LINE, |s|);
      ChunkCount(|s|, k + 1);
      assert s[a..] == s[a..b] + s[b..];
    } else {
      assert c[k..] == [];
    }
  }

  /** The generated initializer holds exactly the samples, in order. */
  lemma BodyRoundTrip(s: seq<int>)
    ensures Scan(Body(s)) == s
  {
    ScanLinesFrom(s, 0);
    FlattenChunksFrom(s, 0);
  }

  /** The number of commas in a text. */
  function Commas(t: string): nat
    decreases |t|
  {
    if t == [] then 0 else (if t[0] == ',' then 1 else 0) + Commas(t[1..])
  }

  lemma {:induction false} CommasAppend(a: string, b: string)
    ensures Commas(a + b) == Commas(a) + Commas(b)
    decreases |a|
  {
    if a == [] {
      assert a + b == b;
    } else {
      assert (a + b)[1..] == a[1..] + b;
      CommasAppend(a[1..], b);
    }
  }

  lemma {:induction false} NoCommas(t: string)
    requires forall i :: 0 <= i < |t| ==> t[i] != ','
    ensures Commas(t) == 0
    decreases |t|
  {
    if t != [] {
      NoCommas(t[1..]);
    }
  }

  lemma FieldCommas(x: int)
    ensures Commas(Field(x)) == 0
  {
    var t := IntText(x);
    var pad := Spaces(if |t| < 6 then 6 - |t| else 0);
    assert Field(x) == pad + t;
    CommasAppend(pad, t);
    assert Commas(pad) == 0 by {
      NoCommas(pad);
    }
    assert Commas(t) == 0 by {
      forall i | 0 <= i < |t|
        ensures t[i] != ','
      {
        if i > 0 {
          assert t[1..][i - 1] == t[i];
        }
      }
      NoCommas(t);
    }
  }

  lemma {:induction false} JoinCommas(xs: seq<int>)
    requires |xs| >= 1
    ensures Commas(Join(xs)) == |xs| - 1
    decreases |xs|
  {
    FieldCommas(xs[0]);
    if |xs| > 1 {
      JoinCommas(xs[1..]);
      CommasAppend(Field(xs[0]), ", ");
      CommasAppend(Field(xs[0]) + ", ", Join(xs[1..]));
      assert Commas(", ") == 1;
    }
  }

  lemma LineCommas(values: seq<int>, more: bool)
    requires |values| >= 1
    ensures Commas(Line(values, more)) == |values| - 1 + (if more then 1 else 0)
  {
    JoinCommas(values);
    CommasAppend("    ", Join(values));
    CommasAppend("    " + Join(values), LineEnd(more));
    assert Commas("    ") == 0;
    assert "\n"[1..] == [] && Commas("\n") == 0;
    if more {
      assert LineEnd(more)[1..] == "\n";
    }
  }

  lemma {:induction false} LinesCommasFrom(s: seq<int>, k: nat)
    requires k < |Lines(s)|
    ensures Commas(Concat(Lines(s)[k..])) == |s| - VALUES_PER_LINE * k - 1
    decreases |Lines(s)| - k
  {
    var ls := Lines(s);
    ConcatFrom(ls, k);
    CommasAppend(ls[k], Concat(ls[k + 1..]));
    LineCommasAt(s, k);
    if k + 1 < |ls| {
      LinesCommasFrom(s, k + 1);
    } else {
      assert ls[k + 1..] == [];
    }
  }

  /** Line k holds 16 values and a trailing comma, or is the last line. */
  lemma LineCommasAt(s: seq<int>, k: nat)
    requires k < |Lines(s)|
    ensures Commas(Lines(s)[k]) == if k + 1 < |Lines(s)| then VALUES_PER_LINE else |s| - VALUES_PER_LINE * k - 1
  {
    var c := Chunks(s);
    ChunkLength(s, k);
    LineCommas(c[k], k + 1 < |c|);
  }

  /** Every chunk but the last is full; the last holds what remains. */
  lemma ChunkLength(s: seq<int>, k: nat)
    requires k < |Chunks(s)|
    ensures |Chunks(s)[k]| == if k + 1 < |Chunks(s)| then VALUES_PER_LINE else |s| - VALUES_PER_LINE * k
  {
    ChunkCount(|s|, k);
    ChunkCount(|s|, k + 1);
  }

  /**
   * The initializer of a non-empty array separates consecutive values by
   * exactly one comma: the last line carries no trailing comma and every
   * other line ends with one.
   */
  lemma BodyCommas(s: seq<int>)
    requires |s| >= 1
    ensures Commas(Body(s)) == |s| - 1
  {
    ChunkCount(|s|, 0);
    LinesCommasFrom(s, 0);
    assert Lines(s)[0..] == Lines(s);
  }

  /** Lines, each holding between one and sixteen values, as many as ceil(n / 16). */
  lemma ChunkSizes(s: seq<int>, k: nat)
    requires k < |Chunks(s)|
    ensures 1 <= |Chunks(s)[k]| <= VALUES_PER_LINE
  {
    ChunkCount(|s|, k);
  }

  // ---------------------------------------------------------------------------
  // The audio parameter defines, shared by the C file and the header

  /** `int(n * 1000 / rate)`: the length in whole milliseconds. */
  function DurationMs(n: nat, rate: nat): (ms: nat)
    requires rate > 0
    ensures ms * rate <= n * 1000 < (ms + 1) * rate
  {
    (n * 1000) / rate
  }

  /** The checked-in 44100 Hz header: 387937 samples last 8796 ms. */
  lemma DurationOfIntro()
    ensures DurationMs(387937, 44100) == 8796
  {
  }

  /**
   * A `#define NAME value` line. It reads back as the numbers in the name
   * followed by the value.
   */
  function Define(name: string, value: nat): (d: string)
    ensures Scan(d) == Scan(name) + [value]
  {
    FileLiterals();
    ScanBetween("#define ", name, " ", NatText(value) + "\n");
    ScanNat(value, "\n");
    ScanSeparators("\n");
    "#define " + (name + (" " + (NatText(value) + "\n")))
  }

  /** A define line with a name free of numbers, followed by anything. */
  lemma ScanDefine(name: string, value: nat, rest: string)
    requires AllSeparators(name)
    ensures Scan(Define(name, value) + rest) == [value] + Scan(rest)
  {
    var d := Define(name, value);
    assert d[|d| - 1] == '\n';
    ScanConcatAfter(d, rest);
    ScanSeparators(name);
  }

  /** Four define lines and a blank line read back as their four values. */
  lemma ScanFourDefines(n0: string, n1: string, n2: string, n3: string, v0: nat, v1: nat, v2: nat, v3: nat)
    requires AllSeparators(n0) && AllSeparators(n1) && AllSeparators(n2) && AllSeparators(n3)
    ensures Scan(Define(n0, v0) + Define(n1, v1) + Define(n2, v2) + Define(n3, v3) + "\n") == [v0, v1, v2, v3]
  {
    var d0, d1, d2, d3 := Define(n0, v0), Define(n1, v1), Define(n2, v2), Define(n3, v3);
    var t3 := d3 + "\n";
    var t2 := d2 + t3;
    var t1 := d1 + t2;
    assert d0 + d1 + d2 + d3 + "\n" == d0 + t1 by {
      AppendAssoc(d0 + d1 + d2, d3, "\n");
      AppendAssoc(d0 + d1, d2, t3);
      AppendAssoc(d0, d1, t2);
    }
    assert Scan(t3) == [v3] by {
      ScanSeparators("\n");
      ScanDefine(n3, v3, "\n");
    }
    ScanDefine(n2, v2, t3);
    ScanDefine(n1, v1, t2);
    ScanDefine(n0, v0, t1);
  }

  /** The names of the four defines hold no digit and no minus sign. */
  lemma DefineNames()
    ensures AllSeparators("AUDIO_SAMPLE_RATE") && AllSeparators("AUDIO_CHANNELS")
    ensures AllSeparators("AUDIO_LENGTH") && AllSeparators("AUDIO_DURATION_MS")
  {
  }

  /**
   * The parameter block shared by the C file and the header: it reads back as
   * the rate, one channel, the length and the duration.
   */
  function Defines(rate: nat, n: nat): (d: string)
    requires rate > 0
    ensures Scan(d) == [rate, 1, n, DurationMs(n, rate)]
  {
    DefineNames();
    ScanFourDefines("AUDIO_SAMPLE_RATE", "AUDIO_CHANNELS", "AUDIO_LENGTH", "AUDIO_DURATION_MS",
      rate, 1, n, DurationMs(n, rate));
    Define("AUDIO_SAMPLE_RATE", rate) + Define("AUDIO_CHANNELS", 1) + Define("AUDIO_LENGTH", n)
      + Define("AUDIO_DURATION_MS", DurationMs(n, rate)) + "\n"
  }

  /** The literal parts of both files that hold no number. */
  lemma FileLiterals()
    ensures AllSeparators("#define ") && AllSeparators(" ") && AllSeparators("\n") && AllSeparators("\n\n")
    ensures AllSeparators("// Audio data converted from ") && AllSeparators("const ") && AllSeparators(" = {\n")
    ensures AllSeparators("};\n") && AllSeparators("extern const ") && AllSeparators(";\n\n")
    ensures AllSeparators("#endif // ") && AllSeparators("#ifndef ") && AllSeparators("[") && AllSeparators("]")
  {
  }

  /** A separator, a text, a non-empty separator and the rest: the text's numbers, then the rest's. */
  lemma ScanBetween(p: string, x: string, q: string, rest: string)
    requires AllSeparators(p) && AllSeparators(q) && q != []
    ensures Scan(p + (x + (q + rest))) == Scan(x) + Scan(rest)
  {
    assert (q + rest)[0] == q[0];
    ScanSkip(p, x + (q + rest));
    ScanConcat(x, q + rest);
    ScanSkip(q, rest);
  }

  // ---------------------------------------------------------------------------
  // The two generated files

  /** The second line of the C file, which holds a lone minus sign. */
  const GENERATED: string := "// Generated automatically - do not edit\n\n"

  /** The include and the heading of the parameter block, in both files. */
  const INCLUDES: string := "#include <stdint.h>\n\n// Audio parameters\n"

  lemma ScanGenerated(rest: string)
    ensures Scan(GENERATED + rest) == Scan(rest)
  {
    var a, b := "// Generated automatically ", " do not edit\n\n";
    assert GENERATED + rest == a + (['-'] + (b + rest)) by {
      assert GENERATED == a + (['-'] + b);
      AppendAssoc(a, ['-'] + b, rest);
      AppendAssoc(['-'], b, rest);
    }
    assert AllSeparators(a) && AllSeparators(b) && b[0] == ' ';
    ScanSkip(a, ['-'] + (b + rest));
    ScanLoneMinus(b + rest);
    ScanSkip(b, rest);
  }

  lemma ScanIncludes(rest: string)
    ensures Scan(INCLUDES + rest) == Scan(rest)
  {
    assert AllSeparators(INCLUDES);
    ScanSkip(INCLUDES, rest);
  }

  lemma ScanInt16Type()
    ensures Scan("int16_t ") == [16]
  {
    var p, d, q := "int", "16", "_t ";
    assert "int16_t " == p + (d + q);
    assert AllSeparators(p) && AllSeparators(q) && AllDigits(d);
    assert DigitsValue(d) == 16 by {
      assert d[..1] == "1";
    }
    ScanSkip(p, d + q);
    ScanRun(d, q);
    ScanSeparators(q);
  }

  /**
   * `int16_t name[n]`, the array's type as both files declare it: it reads
   * back as the 16 of the type, the numbers in the name, and the length.
   */
  function ArrayHead(arrayName: string, n: nat): (h: string)
    ensures Scan(h) == [16] + Scan(arrayName) + [n]
  {
    FileLiterals();
    var dims := "[" + (NatText(n) + "]");
    ScanInt16Type();
    ScanConcatAfter("int16_t ", arrayName + dims);
    ScanConcat(arrayName, dims);
    ScanSkip("[", NatText(n) + "]");
    ScanNat(n, "]");
    ScanSeparators("]");
    "int16_t " + (arrayName + dims)
  }

  /**
   * The C file. Read as a sequence of integers it holds the numbers in the
   * input's name (in the opening comment), the rate, one channel, the length,
   * the duration, the type's 16, the numbers in the array name, the length
   * again, and then exactly the samples.
   */
  function CSource(inputFile: string, rate: nat, samples: seq<int>, arrayName: string): (c: string)
    requires rate > 0
    ensures Scan(c) == Scan(inputFile)
      + ([rate, 1, |samples|, DurationMs(|samples|, rate)] + ([16] + Scan(arrayName) + [|samples|] + samples))
  {
    FileLiterals();
    var n := |samples|;
    var close := Body(samples) + "};\n";
    var decl := ArrayHead(arrayName, n) + (" = {\n" + close);
    var params := Defines(rate, n) + ("const " + decl);
    assert Scan(close) == samples by {
      ScanConcat(Body(samples), "};\n");
      BodyRoundTrip(samples);
      ScanSeparators("};\n");
    }
    ScanConcat(ArrayHead(arrayName, n), " = {\n" + close);
    ScanSkip(" = {\n", close);
    ScanConcat(Defines(rate, n), "const " + decl);
    ScanSkip("const ", decl);
    ScanGenerated(INCLUDES + params);
    ScanIncludes(params);
    ScanBetween("// Audio data converted from ", inputFile, "\n", GENERATED + (INCLUDES + params));
    "// Audio data converted from " + (inputFile + ("\n" + (GENERATED + (INCLUDES + params))))
  }

  /**
   * The header. Read as a sequence of integers it holds the numbers in the
   * guard twice (`#ifndef`, `#define`), the same parameters and declaration
   * as the C file, and the guard's numbers once more (`#endif`).
   */
  function HeaderSource(guard: string, rate: nat, n: nat, arrayName: string): (h: string)
    requires rate > 0
    ensures Scan(h) == Scan(guard)
      + (Scan(guard) + ([rate, 1, n, DurationMs(n, rate)] + ([16] + Scan(arrayName) + [n] + Scan(guard))))
  {
    FileLiterals();
    var endif := "#endif // " + (guard + "\n");
    var decl := ArrayHead(arrayName, n) + (";\n\n" + endif);
    var params := Defines(rate, n) + ("extern const " + decl);
    var define := "#define " + (guard + ("\n\n" + (INCLUDES + params)));
    assert Scan(endif) == Scan(guard) by {
      ScanSkip("#endif // ", guard + "\n");
      ScanConcat(guard, "\n");
      ScanSeparators("\n");
    }
    ScanConcat(ArrayHead(arrayName, n), ";\n\n" + endif);
    ScanSkip(";\n\n", endif);
    ScanConcat(Defines(rate, n), "extern const " + decl);
    ScanSkip("extern const ", decl);
    ScanIncludes(params);
    ScanBetween("#define ", guard, "\n\n", INCLUDES + params);
    ScanBetween("#ifndef ", guard, "\n", define);
    "#ifndef " + (guard + ("\n" + define))
  }

  // ---------------------------------------------------------------------------
  // File names

  /** os.path.basename: the part after the last '/'. */
  function Basename(p: string): (b: string)
    ensures |b| <= |p| && b == p[|p| - |b|..] && '/' !in b
  {
    if p == [] || p[|p| - 1] == '/' then []
    else
      var b := Basename(p[..|p| - 1]);
      assert (b + [p[|p| - 1]]) == p[|p| - |b| - 1..];
      b + [p[|p| - 1]]
  }

  /** Index of the last '.' in s. */
  function LastDot(s: string): (d: Option<nat>)
    ensures d.Some? ==> (d.value < |s| && s[d.value] == '.'
      && forall i :: d.value < i < |s| ==> s[i] != '.')
    ensures d.None? ==> forall i :: 0 <= i < |s| ==> s[i] != '.'
  {
    if s == [] then None
    else if s[|s| - 1] == '.' then Some(|s| - 1)
    else LastDot(s[..|s| - 1])
  }

  /**
   * os.path.splitext(name)[0] for a name without '/': the name up to its last
   * dot, unless only dots precede that dot (".wav" has no extension).
   */
  function Stem(name: string): (r: string)
    ensures |r| <= |name| && r == name[..|r|]
  {
    match LastDot(name)
    case None => name
    case Some(d) => if exists i :: 0 <= i < d && name[i] != '.' then name[..d] else name
  }

  /** A name with a non-dot character, followed by ".wav", has that name as its stem. */
  lemma StemOfWav(name: string)
    requires exists i :: 0 <= i < |name| && name[i] != '.'
    ensures Stem(name + ".wav") == name
  {
    var s := name + ".wav";
    assert LastDot(s) == Some(|name|) by {
      var s3 := name + ".";
      assert s == s3 + ['w'] + ['a'] + ['v'];
      LastDotAfter(s3 + ['w'] + ['a'], 'v');
      LastDotAfter(s3 + ['w'], 'a');
      LastDotAfter(s3, 'w');
      assert s3[|s3| - 1] == '.';
    }
    assert s[..|name|] == name;
    var i :| 0 <= i < |name| && name[i] != '.';
    assert s[i] != '.';
  }

  lemma LastDotAfter(s: string, c: char)
    requires c != '.'
    ensures LastDot(s + [c]) == LastDot(s)
  {
    assert (s + [c])[..|s|] == s;
  }


  /** A name made of dots only has no extension. */
  lemma StemOfDotfile()
    ensures Stem(".wav") == ".wav"
  {
    var s := ".wav";
    assert s == ['.'] + ['w'] + ['a'] + ['v'];
    LastDotAfter(['.'] + ['w'] + ['a'], 'v');
    LastDotAfter(['.'] + ['w'], 'a');
    LastDotAfter(['.'], 'w');
    assert LastDot(['.']) == Some(0);
  }


  /** The part after a directory prefix is the base name, when it holds no '/'. */
  lemma {:induction false} BasenameAfter(dir: string, name: string)
    requires dir == [] || dir[|dir| - 1] == '/'
    requires '/' !in name
    ensures Basename(dir + name) == name
    decreases |name|
  {
    if name == [] {
      assert dir + name == dir;
    } else {
      var init, last := name[..|name| - 1], name[|name| - 1];
      assert name == init + [last];
      BasenameAfter(dir, init);
      BasenameStep(dir + init, last);
      AppendAssoc(dir, init, [last]);
    }
  }

  lemma BasenameStep(p: string, c: char)
    requires c != '/'
    ensures Basename(p + [c]) == Basename(p) + [c]
  {
    assert (p + [c])[..|p|] == p;
  }

  /** src/<stem>_data<ext>: where the converter puts the data of an input. */
  function DataFile(stem: string, ext: string): string
  {
    "src/" + stem + "_data" + ext
  }

  /** The C file the converter writes for an input: src/<stem>_data.c. */
  function OutputPath(inputFile: string): (o: string)
    ensures |o| >= 11 && o[..4] == "src/" && o[|o| - 7..] == "_data.c"
    ensures o[4..|o| - 7] == Stem(Basename(inputFile))
  {
    var stem := Stem(Basename(inputFile));
    AppendAssoc("src/" + stem, "_data", ".c");
    assert "_data" + ".c" == "_data.c";
    Framed("src/", stem, "_data.c");
    DataFile(stem, ".c")
  }

  /** The three parts of a concatenation are its slices. */
  lemma Framed<T>(a: seq<T>, m: seq<T>, b: seq<T>)
    ensures (a + m + b)[..|a|] == a && (a + m + b)[|a|..|a| + |m|] == m && (a + m + b)[|a| + |m|..] == b
  {
  }

  /** The array name: the second argument, else "audio_data". */
  function ArrayName(argv: seq<string>): (name: string)
    ensures |argv| > 2 ==> name == argv[2]
    ensures |argv| <= 2 ==> name == "audio_data"
  {
    if |argv| > 2 then argv[2] else "audio_data"
  }

  // ---------------------------------------------------------------------------
  // Header file name

  /** `s.replace(".c", ".h")`: every occurrence, left to right. */
  function ReplaceC(s: string): (r: string)
    ensures |r| == |s|
    ensures forall i :: 0 <= i < |s| ==> r[i] == ReplacedAt(s, i)
    decreases |s|
  {
    if |s| < 2 then s
    else if s[..2] == ".c" then
      var t := ReplaceC(s[2..]);
      assert forall i :: 2 <= i < |s| ==> t[i - 2] == ReplacedAt(s, i) by {
        forall i | 2 <= i < |s|
          ensures t[i - 2] == ReplacedAt(s, i)
        {
          ShiftReplacedAt(s, 2, i);
        }
      }
      ".h" + t
    else
      var t := ReplaceC(s[1..]);
      assert forall i :: 1 <= i < |s| ==> t[i - 1] == ReplacedAt(s, i) by {
        forall i | 1 <= i < |s|
          ensures t[i - 1] == ReplacedAt(s, i)
        {
          ShiftReplacedAt(s, 1, i);
        }
      }
      [s[0]] + t
  }

  /** Character i of `s.replace(".c", ".h")`: the 'c' of a ".c" becomes 'h', all else stays. */
  function ReplacedAt(s: string, i: nat): char
    requires i < |s|
  {
    if 0 < i && s[i - 1] == '.' && s[i] == 'c' then 'h' else s[i]
  }

  /** Dropping a prefix that ends in no '.' before position i leaves character i's fate unchanged. */
  lemma ShiftReplacedAt(s: string, k: nat, i: nat)
    requires 0 < k <= i < |s|
    requires k == 2 ==> s[..2] == ".c"
    requires k == 1 ==> s[..2] != ".c" && |s| >= 2
    requires k <= 2
    ensures ReplacedAt(s[k..], i - k) == ReplacedAt(s, i)
  {
    assert s[k..][i - k] == s[i];
    if i > k {
      assert s[k..][i - k - 1] == s[i - 1];
    } else if k == 2 {
      assert s[1] == 'c';
    } else {
      assert s[..2] == [s[0], s[1]];
    }
  }

  /** `output_file.replace('.c', '.h')` as the converter writes it. */
  function HeaderPathAsWritten(outputFile: string): (h: string)
    ensures |h| == |outputFile|
    ensures |outputFile| >= 2 && outputFile[|outputFile| - 2..] == ".c" ==> h[|h| - 2..] == ".h"
    ensures '.' !in outputFile ==> h == outputFile
  {
    var h := ReplaceC(outputFile);
    var n := |outputFile|;
    assert n >= 2 && outputFile[n - 2..] == ".c" ==> h[n - 2..] == ".h" by {
      if n >= 2 && outputFile[n - 2..] == ".c" {
        assert outputFile[n - 2] == '.' && outputFile[n - 1] == 'c';
        var i := n - 2;
        assert h[i] == if 0 < i && outputFile[i - 1] == '.' && outputFile[i] == 'c' then 'h' else outputFile[i];
        assert h[n - 2] == '.';
        assert h[n - 1] == 'h';
        assert h[n - 2..] == [h[n - 2], h[n - 1]];
      }
    }
    assert '.' !in outputFile ==> h == outputFile by {
      if '.' !in outputFile {
        forall i | 0 < i < n
          ensures h[i] == outputFile[i]
        {
          assert outputFile[i - 1] in outputFile;
        }
      }
    }
    h
  }

  /** Text without a dot passes through the replacement unchanged. */
  lemma ReplaceCPlain(a: string, rest: string)
    requires '.' !in a
    ensures ReplaceC(a + rest) == a + ReplaceC(rest)
  {
    var s := a + rest;
    var r, t := ReplaceC(s), ReplaceC(rest);
    forall i | 0 <= i < |s|
      ensures r[i] == (a + t)[i]
    {
      if 0 < i <= |a| {
        assert s[i - 1] == a[i - 1] && a[i - 1] in a;
      }
      if i >= |a| {
        assert s[i] == rest[i - |a|];
        if i > |a| {
          assert s[i - 1] == rest[i - 1 - |a|];
        }
      }
    }
  }

  /** Which of the literal parts of the file names hold a dot or a slash. */
  lemma LiteralParts()
    ensures '/' !in ".c" && '/' !in ".wav" && '.' !in "src/" && '.' !in "_data"
  {
  }

  lemma Regroup<T>(s: seq<T>, a: seq<T>, c: seq<T>, b: seq<T>, d: seq<T>, e: seq<T>)
    ensures s + (a + c + b) + d + e == (s + a) + (c + ((b + d) + e))
  {
    AppendAssoc(a, c, b);
    AppendAssoc(s, a, c + b);
    AppendAssoc(s + a, c, b);
    AppendAssoc(s + a + c, b, d);
    AppendAssoc(s + a + c, b + d, e);
    AppendAssoc(s + a, c, b + d + e);
  }

  lemma ReplaceCHit(rest: string)
    ensures ReplaceC(".c" + rest) == ".h" + ReplaceC(rest)
  {
    var s := ".c" + rest;
    assert s[..2] == ".c" && s[2..] == rest;
  }

  /** For a stem without dots the replacement only touches the final ".c". */
  lemma HeaderPathAgrees(inputFile: string)
    requires '.' !in Stem(Basename(inputFile))
    ensures HeaderPathAsWritten(OutputPath(inputFile)) == HeaderPath(OutputPath(inputFile))
  {
    var pre := "src/" + Stem(Basename(inputFile)) + "_data";
    assert '.' !in pre by {
      LiteralParts();
    }
    ReplaceCOnce(pre);
    HeaderPathOfOutput(inputFile);
  }

  /** The one ".c" at the end of a text without other dots becomes ".h". */
  lemma ReplaceCOnce(pre: string)
    requires '.' !in pre
    ensures ReplaceC(pre + ".c") == pre + ".h"
  {
    ReplaceCPlain(pre, ".c");
    ReplaceCHit([]);
    assert ".c" + [] == ".c" && ".h" + [] == ".h";
  }

  /**
   * An input whose stem holds ".c" (for instance "song.cut.wav", with a = "song"
   * and b = "ut") gets a header named after a different stem than its C file:
   * src/song.hut_data.h for src/song.cut_data.c.
   */
  lemma HeaderPathRenamesStem(a: string, b: string)
    requires a != [] && '.' !in a && '/' !in a && '.' !in b && '/' !in b
    ensures OutputPath(a + ".c" + b + ".wav") == DataFile(a + ".c" + b, ".c")
    ensures HeaderPathAsWritten(OutputPath(a + ".c" + b + ".wav")) == DataFile(a + ".h" + b, ".h")
    ensures HeaderPath(OutputPath(a + ".c" + b + ".wav")) == DataFile(a + ".c" + b, ".h")
    ensures DataFile(a + ".h" + b, ".h") != DataFile(a + ".c" + b, ".h")
  {
    var stem := a + ".c" + b;
    assert stem[0] == a[0] && a[0] in a;
    assert '/' !in stem by {
      LiteralParts();
    }
    OutputOfWav(stem);
    var pre, mid := "src/" + a, b + "_data";
    assert '.' !in pre && '.' !in mid by {
      LiteralParts();
    }
    Regroup("src/", a, ".c", b, "_data", ".c");
    Regroup("src/", a, ".h", b, "_data", ".h");
    ReplaceCTwice(pre, mid);
    HeaderPathOfOutput(stem + ".wav");
    assert DataFile(a + ".h" + b, ".h")[4 + |a| + 1] == 'h';
    assert DataFile(a + ".c" + b, ".h")[4 + |a| + 1] == 'c';
  }

  /** A stem that starts with a non-dot and has no '/', followed by ".wav", names src/<stem>_data.c. */
  lemma OutputOfWav(stem: string)
    requires stem != [] && stem[0] != '.' && '/' !in stem
    ensures Stem(Basename(stem + ".wav")) == stem
    ensures OutputPath(stem + ".wav") == DataFile(stem, ".c")
  {
    var input := stem + ".wav";
    LiteralParts();
    assert '/' !in input;
    BasenameAfter([], input);
    assert [] + input == input;
    StemOfWav(stem);
  }

  /** Both ".c" of a text whose other parts hold no dot become ".h". */
  lemma ReplaceCTwice(pre: string, mid: string)
    requires '.' !in pre && '.' !in mid
    ensures ReplaceC(pre + (".c" + (mid + ".c"))) == pre + (".h" + (mid + ".h"))
  {
    ReplaceCHit("");
    assert ReplaceC("") == "" && ".c" + "" == ".c" && ".h" + "" == ".h";
    ReplaceCPlain(mid, ".c");
    ReplaceCHit(mid + ".c");
    ReplaceCPlain(pre, ".c" + (mid + ".c"));
  }


  /** The header name: the C file's name with its final ".c" replaced by ".h". */
  function HeaderPath(outputFile: string): (h: string)
    ensures h != outputFile
    ensures |h| >= 2 && h[|h| - 2..] == ".h"
  {
    if |outputFile| >= 2 && outputFile[|outputFile| - 2..] == ".c" then
      outputFile[..|outputFile| - 2] + ".h"
    else outputFile + ".h"
  }

  /** The header of src/<stem>_data.c is src/<stem>_data.h, whatever the stem. */
  lemma HeaderPathOfOutput(inputFile: string)
    ensures HeaderPath(OutputPath(inputFile)) == DataFile(Stem(Basename(inputFile)), ".h")
  {
    var o := OutputPath(inputFile);
    var pre := "src/" + Stem(Basename(inputFile)) + "_data";
    assert o[|o| - 2..] == ".c" && o[..|o| - 2] == pre;
  }

  // ---------------------------------------------------------------------------
  // Include guard

  predicate IsIdentChar(c: char)
  {
    'A' <= c <= 'Z' || 'a' <= c <= 'z' || '0' <= c <= '9' || c == '_'
  }

  /** str.upper() on ASCII letters. */
  function Upper(s: string): (u: string)
    ensures |u| == |s|
  {
    seq(|s|, i requires 0 <= i < |s| => if 'a' <= s[i] <= 'z' then (s[i] as int - 32) as char else s[i])
  }

  /** `basename(header).upper().replace('.', '_')` as the converter writes it. */
  function GuardAsWritten(headerFile: string): (g: string)
    ensures |g| == |Basename(headerFile)|
  {
    var u := Upper(Basename(headerFile));
    seq(|u|, i requires 0 <= i < |u| => if u[i] == '.' then '_' else u[i])
  }

  /** Length of the run of identifier characters at the start of s. */
  function IdentRun(s: string): (n: nat)
    ensures n <= |s| && (forall i :: 0 <= i < n ==> IsIdentChar(s[i]))
    ensures n < |s| ==> !IsIdentChar(s[n])
  {
    if s == [] || !IsIdentChar(s[0]) then 0 else 1 + IdentRun(s[1..])
  }

  /**
   * The macro a `#ifndef` or `#define` line names: the identifier at its
   * start. Anything after it is a stray token, not part of the name.
   */
  function MacroName(g: string): (m: string)
    ensures |m| <= |g| && m == g[..|m|]
    ensures forall i :: 0 <= i < |m| ==> IsIdentChar(m[i])
    ensures |m| < |g| ==> !IsIdentChar(g[|m|])
  {
    g[..IdentRun(g)]
  }

  lemma {:induction false} IdentRunOf(s: string, n: nat)
    requires n <= |s| && (forall i :: 0 <= i < n ==> IsIdentChar(s[i]))
    requires n < |s| ==> !IsIdentChar(s[n])
    ensures IdentRun(s) == n
    decreases n
  {
    if n > 0 {
      IdentRunOf(s[1..], n - 1);
    }
  }

  /**
   * A header whose file name is a lower-case word, a hyphen and anything
   * else gets a guard whose macro name is only the upper-cased word.
   */
  lemma MacroNameAsWritten(headerFile: string, word: string, rest: string)
    requires Basename(headerFile) == word + "-" + rest
    requires forall i :: 0 <= i < |word| ==> 'a' <= word[i] <= 'z'
    ensures MacroName(GuardAsWritten(headerFile)) == Upper(word)
  {
    var g := GuardAsWritten(headerFile);
    var b := Basename(headerFile);
    forall i | 0 <= i < |word|
      ensures g[i] == Upper(word)[i] && IsIdentChar(g[i])
    {
      assert b[i] == word[i];
    }
    assert b[|word|] == '-' && g[|word|] == '-';
    IdentRunOf(g, |word|);
  }

  /** src/intensidade-intro-mono-44100_data.h and src/intensidade-intro-mono-22050_data.h */
  const HEADER_44100: string := "src/" + ("intensidade" + "-" + "intro-mono-44100_data.h")
  const HEADER_22050: string := "src/" + ("intensidade" + "-" + "intro-mono-22050_data.h")

  lemma BasenamesOfHeaders()
    ensures Basename(HEADER_44100) == "intensidade" + "-" + "intro-mono-44100_data.h"
    ensures Basename(HEADER_22050) == "intensidade" + "-" + "intro-mono-22050_data.h"
  {
    var b1, b2 := "intensidade" + "-" + "intro-mono-44100_data.h", "intensidade" + "-" + "intro-mono-22050_data.h";
    assert '/' !in "intensidade" && '/' !in "-";
    assert '/' !in "intro-mono-44100_data.h" && '/' !in "intro-mono-22050_data.h";
    BasenameAfter("src/", b1);
    BasenameAfter("src/", b2);
  }

  /**
   * The headers the converter generates for the 44100 Hz and the 22050 Hz
   * WAVs get different guards whose macro names are both INTENSIDADE: once
   * one is included, the `#ifndef` of the other is false and its body is
   * skipped. The checked-in 44100 Hz header carries such a guard.
   */
  lemma GuardCollision()
    ensures GuardAsWritten(HEADER_44100) != GuardAsWritten(HEADER_22050)
    ensures MacroName(GuardAsWritten(HEADER_44100)) == "INTENSIDADE"
    ensures MacroName(GuardAsWritten(HEADER_22050)) == "INTENSIDADE"
  {
    BasenamesOfHeaders();
    assert Upper("intensidade") == "INTENSIDADE";
    MacroNameAsWritten(HEADER_44100, "intensidade", "intro-mono-44100_data.h");
    MacroNameAsWritten(HEADER_22050, "intensidade", "intro-mono-22050_data.h");
    assert Basename(HEADER_44100)[23] == '4' && Basename(HEADER_22050)[23] == '2';
    assert GuardAsWritten(HEADER_44100)[23] != GuardAsWritten(HEADER_22050)[23];
  }

  /** The guard with every character that cannot appear in a C identifier made '_'. */
  function Guard(headerFile: string): (g: string)
    ensures |g| == |Basename(headerFile)|
    ensures forall i :: 0 <= i < |g| ==> IsIdentChar(g[i])
  {
    var u := Upper(Basename(headerFile));
    seq(|u|, i requires 0 <= i < |u| => if IsIdentChar(u[i]) then u[i] else '_')
  }

  /** The whole guard is the macro name. */
  lemma GuardIsMacroName(headerFile: string)
    ensures MacroName(Guard(headerFile)) == Guard(headerFile)
  {
    var g := Guard(headerFile);
    IdentRunOf(g, |g|);
  }

  /** Where the file name holds only identifier characters and dots, both guards agree. */
  lemma GuardAgrees(headerFile: string)
    requires forall i :: 0 <= i < |Basename(headerFile)| ==>
      IsIdentChar(Basename(headerFile)[i]) || Basename(headerFile)[i] == '.'
    ensures Guard(headerFile) == GuardAsWritten(headerFile)
  {
    var b := Basename(headerFile);
    var u := Upper(b);
    forall i | 0 <= i < |u|
      ensures Guard(headerFile)[i] == GuardAsWritten(headerFile)[i]
    {
      assert IsIdentChar(b[i]) || b[i] == '.';
    }
  }

  /** With the corrected guard, the two generated headers get distinct macro names. */
  lemma GuardsDistinct()
    ensures MacroName(Guard(HEADER_44100)) != MacroName(Guard(HEADER_22050))
  {
    BasenamesOfHeaders();
    GuardIsMacroName(HEADER_44100);
    GuardIsMacroName(HEADER_22050);
    assert Basename(HEADER_44100)[23] == '4' && Basename(HEADER_22050)[23] == '2';
    assert Guard(HEADER_44100)[23] != Guard(HEADER_22050)[23];
  }

  // ---------------------------------------------------------------------------
  // The conversion and the command line

  /** What wave.open reports: channel count, sample width, frame rate and the frame bytes. */
  datatype Wav = Wav(channels: int, sampleWidth: int, sampleRate: int, frames: seq<Byte>)

  /** The two files written: the C file's name and text, the header's name and text. */
  datatype Output = Output(cFile: string, cSource: string, headerFile: string, header: string)

  /**
   * wav_to_c_array. None is the False it returns: a zero frame rate (the
   * duration print divides by it), a sample width other than 2, or a frame
   * stream that the decoding loops cannot slice into whole samples.
   */
  method WavToCArray(inputFile: string, outputFile: string, arrayName: string, wav: Wav)
    returns (r: Option<Output>)
    requires wav.sampleRate >= 0
    ensures r.Some? <==> wav.sampleRate > 0 && wav.sampleWidth == 2 && WholeFrames(wav.channels, wav.frames)
    ensures r.Some? ==>
      var s := SamplesSpec(wav.channels, wav.frames);
      r.value.cFile == outputFile
      && r.value.cSource == CSource(inputFile, wav.sampleRate, s, arrayName)
      && r.value.headerFile == HeaderPathAsWritten(outputFile)
      && r.value.header == HeaderSource(GuardAsWritten(HeaderPathAsWritten(outputFile)), wav.sampleRate, |s|, arrayName)
  {
    if wav.sampleRate == 0 || wav.sampleWidth != 2 {
      return None;
    }
    var decoded := DecodeSamples(wav.channels, wav.frames);
    if decoded.None? {
      return None;
    }
    var samples := decoded.value;
    var body := ArrayBody(samples);
    var close := body + "};\n";
    var decl := ArrayHead(arrayName, |samples|) + (" = {\n" + close);
    var params := Defines(wav.sampleRate, |samples|) + ("const " + decl);
    var cSource := "// Audio data converted from " + (inputFile + ("\n" + (GENERATED + (INCLUDES + params))));
    var headerFile := HeaderPathAsWritten(outputFile);
    var header := HeaderSource(GuardAsWritten(headerFile), wav.sampleRate, |samples|, arrayName);
    return Some(Output(outputFile, cSource, headerFile, header));
  }

  /**
   * main: the input name is argv[1], the array name argv[2] or "audio_data";
   * exit status 1 for a missing argument, a missing input file or a failed
   * conversion.
   */
  method Run(argv: seq<string>, inputExists: bool, wav: Wav) returns (status: int, r: Option<Output>)
    requires wav.sampleRate >= 0
    ensures status == 0 <==> r.Some?
    ensures r.Some? ==> (|argv| >= 2 && inputExists && wav.sampleRate > 0
      && r.value.cFile == DataFile(Stem(Basename(argv[1])), ".c")
      && r.value.cSource == CSource(argv[1], wav.sampleRate, SamplesSpec(wav.channels, wav.frames), ArrayName(argv))
      && r.value.headerFile == HeaderPathAsWritten(DataFile(Stem(Basename(argv[1])), ".c"))
      && ('.' !in Stem(Basename(argv[1])) ==> r.value.headerFile == DataFile(Stem(Basename(argv[1])), ".h")))
    ensures (|argv| >= 2 && inputExists && wav.sampleRate > 0 && wav.sampleWidth == 2
      && WholeFrames(wav.channels, wav.frames)) ==> status == 0
  {
    if |argv| < 2 || !inputExists {
      return 1, None;
    }
    var inputFile := argv[1];
    var outputFile := OutputPath(inputFile);
    r := WavToCArray(inputFile, outputFile, ArrayName(argv), wav);
    HeaderPathOfOutput(inputFile);
    if '.' !in Stem(Basename(inputFile)) {
      HeaderPathAgrees(inputFile);
    }
    status := if r.Some? then 0 else 1;
  }
}
