/**
 How features and feature sets are written to and read from a byte stream: the layout of the bytes, the
 round trips, and what comes of streams that are cut short or not written here. Doubles are opaque
 eight-byte values.
 */
module FeatureCodec {
  import opened Options
  import opened Ints
  import opened FeatureTypes

  type Byte = b: int | 0 <= b < 256
  type Double = d: seq<Byte> | |d| == 8 witness [0, 0, 0, 0, 0, 0, 0, 0]
  type Data = FeatureData<Double>

  const UINT32 := 0x1_0000_0000
  const UINT64 := 0x1_0000_0000_0000_0000

  /** PastEnd stands for a read beyond the end of the stream, CheckFailed for the process aborting. */
  datatype ReadStatus = ReadOk | ReadNoData | ReadInvalidData | PastEnd | CheckFailed

  datatype Read<T> = Read(status: ReadStatus, value: T, rest: seq<Byte>)

  // ---------- big-endian numbers ----------

  function Power256(width: nat): (p: nat)
    ensures p > 0
  {
    if width == 0 then 1 else 256 * Power256(width - 1)
  }

  function Encode(width: nat, v: nat): (s: seq<Byte>)
    ensures |s| == width
  {
    if width == 0 then [] else Encode(width - 1, v / 256) + [v % 256]
  }

  function Decode(s: seq<Byte>): nat {
    if s == [] then 0 else Decode(s[..|s| - 1]) * 256 + s[|s| - 1]
  }

  lemma {:induction false} NumberRoundTrip(width: nat, v: nat)
    requires v < Power256(width)
    ensures Decode(Encode(width, v)) == v
  {
    if width > 0 {
      NumberRoundTrip(width - 1, v / 256);
      assert Encode(width, v)[..width - 1] == Encode(width - 1, v / 256);
    }
  }

  lemma {:induction false} Powers()
    ensures Power256(4) == UINT32 && Power256(8) == UINT64
  {
    assert Power256(2) == 0x1_0000 && Power256(4) == UINT32 && Power256(6) == 0x1_0000_0000_0000;
  }

  /** Two's complement. */
  function Unsigned(v: int, modulus: int): nat
    requires modulus > 0
  {
    v % modulus
  }

  function Signed(v: nat, modulus: int): int
    requires modulus > 0
  {
    if v >= modulus / 2 then v - modulus else v
  }

  function Enc32(v: int): (s: seq<Byte>)
    ensures |s| == 4
  {
    Encode(4, Unsigned(v, UINT32))
  }

  function Dec32(s: seq<Byte>): int {
    Signed(Decode(s), UINT32)
  }

  function Enc64(v: int): (s: seq<Byte>)
    ensures |s| == 8
  {
    Encode(8, Unsigned(v, UINT64))
  }

  function Dec64(s: seq<Byte>): int {
    Signed(Decode(s), UINT64)
  }

  predicate IsInt64(v: int) {
    -0x8000_0000_0000_0000 <= v < 0x8000_0000_0000_0000
  }

  lemma {:induction false} Int32RoundTrip(v: int)
    requires IsInt32(v)
    ensures Dec32(Enc32(v)) == v
  {
    Powers();
    NumberRoundTrip(4, Unsigned(v, UINT32));
  }

  lemma {:induction false} Int64RoundTrip(v: int)
    requires IsInt64(v)
    ensures Dec64(Enc64(v)) == v
  {
    Powers();
    NumberRoundTrip(8, Unsigned(v, UINT64));
  }

  /** A count, of which the lowest 32 bits are written. */
  function EncCount(v: nat): (s: seq<Byte>)
    ensures |s| == 4
  {
    Encode(4, v % UINT32)
  }

  lemma {:induction false} CountRoundTrip(v: nat)
    ensures Decode(EncCount(v)) == v % UINT32
  {
    Powers();
    NumberRoundTrip(4, v % UINT32);
  }

  /** Taking a field off the front of a stream. */
  lemma {:induction false} TakeField(field: seq<Byte>, rest: seq<Byte>)
    ensures (field + rest)[..|field|] == field && (field + rest)[|field|..] == rest
  {
  }

  /** The four bytes from `at` on, the most significant first. */
  function Word(s: seq<Byte>, at: nat): (v: nat)
    requires at + 4 <= |s|
    ensures v < 0x1_0000_0000
  {
    var a: int, b: int, c: int, d: int := s[at], s[at + 1], s[at + 2], s[at + 3];
    a * 0x100_0000 + b * 0x1_0000 + c * 0x100 + d
  }

  lemma {:induction false} DecodeFour(s: seq<Byte>)
    requires |s| == 4
    ensures Decode(s) == Word(s, 0)
  {
    var a: int, b: int, c: int := s[0], s[1], s[2];
    assert s[..3][..2] == s[..2] && s[..2][..1] == s[..1] && s[..1][..0] == [];
    assert Decode(s[..1]) == a;
    assert Decode(s[..2]) == a * 0x100 + b;
    assert Decode(s[..3]) == a * 0x1_0000 + b * 0x100 + c;
  }

  lemma {:induction false} DecodeEight(s: seq<Byte>)
    requires |s| == 8
    ensures Decode(s) == Word(s, 0) * 0x1_0000_0000 + Word(s, 4)
  {
    var four := s[..4];
    var a: int, b: int, c: int := s[4], s[5], s[6];
    DecodeFour(four);
    assert s[..7][..6] == s[..6] && s[..6][..5] == s[..5] && s[..5][..4] == four;
    assert Decode(s[..5]) == Decode(four) * 0x100 + a;
    assert Decode(s[..6]) == Decode(four) * 0x1_0000 + a * 0x100 + b;
    assert Decode(s[..7]) == Decode(four) * 0x100_0000 + a * 0x1_0000 + b * 0x100 + c;
  }

  /** A 32-bit number is written with its most significant byte first, a negative one as 2^32 more. */
  lemma {:induction false} Enc32IsBigEndian(v: int)
    requires IsInt32(v)
    ensures Word(Enc32(v), 0) == if v < 0 then v + 0x1_0000_0000 else v
  {
    Powers();
    NumberRoundTrip(4, Unsigned(v, UINT32));
    DecodeFour(Enc32(v));
  }

  lemma {:induction false} Enc64IsBigEndian(v: int)
    requires IsInt64(v)
    ensures Word(Enc64(v), 0) * 0x1_0000_0000 + Word(Enc64(v), 4)
            == if v < 0 then v + 0x1_0000_0000_0000_0000 else v
  {
    Powers();
    NumberRoundTrip(8, Unsigned(v, UINT64));
    DecodeEight(Enc64(v));
  }

  lemma {:induction false} CountIsBigEndian(v: nat)
    ensures Word(EncCount(v), 0) == v % 0x1_0000_0000
  {
    CountRoundTrip(v);
    DecodeFour(EncCount(v));
  }

  /** The signed number at `at` in the stream is `v`. */
  predicate HoldsInt(s: seq<Byte>, at: nat, v: int) {
    at + 4 <= |s| && Word(s, at) == if v < 0 then v + 0x1_0000_0000 else v
  }

  lemma {:induction false} FieldHolds(s: seq<Byte>, at: nat, v: int)
    requires IsInt32(v) && at + 4 <= |s| && s[at..at + 4] == Enc32(v)
    ensures HoldsInt(s, at, v)
  {
    Enc32IsBigEndian(v);
    var field := s[at..at + 4];
    assert field[0] == s[at] && field[1] == s[at + 1] && field[2] == s[at + 2] && field[3] == s[at + 3];
  }

  // ---------- vectors of doubles ----------

  function EncDoubles(v: seq<Double>): (s: seq<Byte>)
    ensures |s| == 8 * |v|
  {
    if v == [] then [] else v[0] + EncDoubles(v[1..])
  }

  function DecDoubles(s: seq<Byte>, n: nat): (v: seq<Double>)
    requires |s| >= 8 * n
    ensures |v| == n
  {
    if n == 0 then [] else [s[..8]] + DecDoubles(s[8..], n - 1)
  }

  lemma {:induction false} DoublesRoundTrip(v: seq<Double>, tail: seq<Byte>)
    ensures DecDoubles(EncDoubles(v) + tail, |v|) == v
    ensures (EncDoubles(v) + tail)[8 * |v|..] == tail
  {
    if v != [] {
      DoublesRoundTrip(v[1..], tail);
      assert EncDoubles(v) + tail == v[0] + (EncDoubles(v[1..]) + tail);
    }
  }

  // ---------- one feature ----------

  const CLEARED: Data := FeatureData(0, 0, 0, 0, false, 0, 0, [])

  function Header(d: Data): seq<Byte> {
    Enc32(d.x0) + Enc32(d.x1) + Enc32(d.y0) + Enc32(d.y1) + Enc32(if d.useYuv then 1 else 0)
    + Enc32(d.featureType) + Enc32(d.featureSize)
  }

  function EncChannels(channels: seq<seq<Double>>): seq<Byte> {
    if channels == [] then [] else EncDoubles(channels[0]) + EncChannels(channels[1..])
  }

  /** The bytes taken by `channels` vectors of `size` doubles. */
  function Bytes(channels: nat, size: nat): (n: nat)
    ensures channels == 1 ==> n == 8 * size
    ensures channels == 3 ==> n == 24 * size
  {
    if channels == 0 then 0 else 8 * size + Bytes(channels - 1, size)
  }

  /** Reads the vectors and says what is left. */
  function TakeChannels(s: seq<Byte>, channels: nat, size: nat): (seq<seq<Double>>, seq<Byte>)
    requires |s| >= Bytes(channels, size)
  {
    if channels == 0 then ([], s)
    else
      var (others, rest) := TakeChannels(s[8 * size..], channels - 1, size);
      ([DecDoubles(s, size)] + others, rest)
  }

  function SaveData(d: Data): seq<Byte> {
    if !d.HasArea() then [0] else [1] + Header(d) + EncChannels(d.features)
  }

  function ParseHeader(s: seq<Byte>): Data
    requires |s| >= 28
  {
    FeatureData(Dec32(s[0..4]), Dec32(s[4..8]), Dec32(s[8..12]), Dec32(s[12..16]), Dec32(s[16..20]) != 0,
                Dec32(s[20..24]), Dec32(s[24..28]), [])
  }

  /** The number of doubles asked for before they are read, in 32 bits; a negative one is taken for a huge one. */
  function Wanted(featureSize: int): int {
    Int32(CHANNELS * featureSize)
  }

  /** Only as long as the number fits are that many read. */
  lemma {:induction false} WantedExactly(featureSize: int)
    ensures Wanted(featureSize) == CHANNELS * featureSize <==> IsInt32(CHANNELS * featureSize)
    ensures Wanted(0x6000_0000) == 0x2000_0000
  {
  }

  /** Reading into a fresh object. The source asks for 24 bytes before it reads the 28 of the header. */
  function LoadData(s: seq<Byte>): Read<Data> {
    if |s| < 1 then Read(ReadNoData, CLEARED, s)
    else if s[0] == 0 then Read(ReadOk, CLEARED, s[1..])
    else if |s[1..]| < 24 then Read(ReadNoData, CLEARED, s[1..])
    else if |s[1..]| < 28 then Read(PastEnd, CLEARED, [])
    else
      var d := ParseHeader(s[1..]);
      var body := s[29..];
      if !d.HasArea() then Read(ReadInvalidData, d, s)
      else if Wanted(d.featureSize) < 0 || |body| < Wanted(d.featureSize) * 8 then Read(ReadNoData, d, s)
      else if d.featureSize < 0 then Read(CheckFailed, d, [])
      else if |body| < Bytes(CHANNELS, d.featureSize) then Read(PastEnd, d, [])
      else
        var (channels, rest) := TakeChannels(body, CHANNELS, d.featureSize);
        Read(ReadOk, d.(features := channels), rest)
  }

  lemma {:induction false} LoadStatus(s: seq<Byte>, d: Data)
    requires |s| >= 29 && s[0] != 0 && d == ParseHeader(s[1..])
    ensures var r, wanted := LoadData(s), Int32(3 * d.featureSize);
            && (r.status == ReadInvalidData <==> !d.HasArea())
            && (r.status == ReadNoData <==> d.HasArea() && (wanted < 0 || |s| - 29 < 8 * wanted))
            && (r.status in {ReadInvalidData, ReadNoData} ==> r.rest == s)
            && (r.status == ReadOk <==> d.HasArea() && wanted >= 0 && 0 <= 24 * d.featureSize <= |s| - 29)
            && (r.status == ReadOk ==> r.rest == s[29 + 24 * d.featureSize..])
  {
    if LoadData(s).status == ReadOk {
      TakenAre(s[29..], d.featureSize);
    }
  }

  /** What comes of any stream that holds a whole header: it is given back when the header has no area or the
      channels are not all there, and read to the end of the channels otherwise. */
  lemma {:induction false} LoadExactly(s: seq<Byte>, width: int, height: int, size: int)
    requires |s| >= 29 && s[0] != 0 && size == Signed(Word(s, 25), UINT32)
    requires width == Signed(Word(s, 5), UINT32) - Signed(Word(s, 1), UINT32)
    requires height == Signed(Word(s, 13), UINT32) - Signed(Word(s, 9), UINT32)
    ensures var r, area, wanted := LoadData(s), Int32(height * width), Int32(3 * size);
            && (r.status == ReadInvalidData <==> area <= 0)
            && (r.status == ReadNoData <==> area > 0 && (wanted < 0 || |s| - 29 < 8 * wanted))
            && (r.status in {ReadInvalidData, ReadNoData} ==> r.rest == s)
            && (r.status == ReadOk <==> area > 0 && wanted >= 0 && 0 <= 24 * size <= |s| - 29)
            && (r.status == ReadOk ==> r.rest == s[29 + 24 * size..])
  {
    var d := ParseHeader(s[1..]);
    LoadStatus(s, d);
    HeaderFields(s);
    TimesIsProduct(height, width);
  }

  lemma {:induction false} HeaderFields(s: seq<Byte>)
    requires |s| >= 29
    ensures var d := ParseHeader(s[1..]);
            && d.featureSize == Signed(Word(s, 25), UINT32)
            && d.x0 == Signed(Word(s, 1), UINT32) && d.x1 == Signed(Word(s, 5), UINT32)
            && d.y0 == Signed(Word(s, 9), UINT32) && d.y1 == Signed(Word(s, 13), UINT32)
  {
    var header := s[1..];
    FieldAt(header, 0);
    FieldAt(header, 4);
    FieldAt(header, 8);
    FieldAt(header, 12);
    FieldAt(header, 24);
  }

  lemma {:induction false} FieldAt(s: seq<Byte>, at: nat)
    requires at + 4 <= |s|
    ensures Dec32(s[at..at + 4]) == Signed(Word(s, at), UINT32)
  {
    DecodeFour(s[at..at + 4]);
  }

  lemma {:induction false} TakenAre(s: seq<Byte>, size: nat)
    requires |s| >= Bytes(CHANNELS, size)
    ensures TakeChannels(s, CHANNELS, size).1 == s[24 * size..]
  {
    assert s[8 * size..][8 * size..] == s[16 * size..] && s[16 * size..][8 * size..] == s[24 * size..];
    assert TakeChannels(s[16 * size..], 1, size).1 == s[24 * size..];
  }

  /** What the format can represent. */
  ghost predicate Storable(d: Data) {
    d.HasArea() ==>
      && d.Initialized()
      && IsInt32(d.x0) && IsInt32(d.x1) && IsInt32(d.y0) && IsInt32(d.y1)
      && IsInt32(d.featureType) && IsInt32(CHANNELS * d.featureSize)
  }

  /** What is left of a feature after saving and loading it: an empty one forgets its other fields. */
  function Stored(d: Data): Data {
    if !d.HasArea() then CLEARED else d
  }

  lemma {:induction false} HeaderRoundTrip(d: Data, tail: seq<Byte>)
    requires IsInt32(d.x0) && IsInt32(d.x1) && IsInt32(d.y0) && IsInt32(d.y1)
    requires IsInt32(d.featureType) && IsInt32(d.featureSize)
    ensures |Header(d)| == 28 && (Header(d) + tail)[28..] == tail
    ensures ParseHeader(Header(d) + tail) == d.(features := [])
  {
    var s := Header(d) + tail;
    var flag := if d.useYuv then 1 else 0;
    assert s[0..4] == Enc32(d.x0) && s[4..8] == Enc32(d.x1) && s[8..12] == Enc32(d.y0) && s[12..16] == Enc32(d.y1);
    assert s[16..20] == Enc32(flag) && s[20..24] == Enc32(d.featureType) && s[24..28] == Enc32(d.featureSize);
    Int32RoundTrip(d.x0);
    Int32RoundTrip(d.x1);
    Int32RoundTrip(d.y0);
    Int32RoundTrip(d.y1);
    Int32RoundTrip(flag);
    Int32RoundTrip(d.featureType);
    Int32RoundTrip(d.featureSize);
  }

  /** The order of the fields: corners x0, x1, y0, y1, the flag, type and size. */
  lemma {:induction false} HeaderLayout(d: Data)
    requires IsInt32(d.x0) && IsInt32(d.x1) && IsInt32(d.y0) && IsInt32(d.y1)
    requires IsInt32(d.featureType) && IsInt32(d.featureSize)
    ensures var h := Header(d);
            && HoldsInt(h, 0, d.x0) && HoldsInt(h, 4, d.x1) && HoldsInt(h, 8, d.y0) && HoldsInt(h, 12, d.y1)
            && HoldsInt(h, 16, if d.useYuv then 1 else 0)
            && HoldsInt(h, 20, d.featureType) && HoldsInt(h, 24, d.featureSize)
  {
    var h, flag := Header(d), if d.useYuv then 1 else 0;
    assert h[0..4] == Enc32(d.x0) && h[4..8] == Enc32(d.x1) && h[8..12] == Enc32(d.y0) && h[12..16] == Enc32(d.y1);
    assert h[16..20] == Enc32(flag) && h[20..24] == Enc32(d.featureType) && h[24..28] == Enc32(d.featureSize);
    FieldHolds(h, 0, d.x0);
    FieldHolds(h, 4, d.x1);
    FieldHolds(h, 8, d.y0);
    FieldHolds(h, 12, d.y1);
    FieldHolds(h, 16, flag);
    FieldHolds(h, 20, d.featureType);
    FieldHolds(h, 24, d.featureSize);
  }

  lemma {:induction false} DoubleAt(v: seq<Double>, i: nat)
    requires i < |v|
    ensures EncDoubles(v)[8 * i..8 * i + 8] == v[i]
  {
    if i > 0 {
      DoubleAt(v[1..], i - 1);
      assert EncDoubles(v)[8 * i..8 * i + 8] == EncDoubles(v[1..])[8 * (i - 1)..8 * (i - 1) + 8];
    }
  }

  /** A feature with an area: a byte 1, the header, and the vectors of the three channels one after the other. */
  lemma {:induction false} DataLayout(d: Data)
    requires Storable(d) && d.HasArea()
    ensures SaveData(d) == [1] + Header(d) + EncDoubles(d.features[0]) + EncDoubles(d.features[1])
                           + EncDoubles(d.features[2])
    ensures |SaveData(d)| == 29 + 24 * d.featureSize
  {
    var f := d.features;
    var others, last := f[1..], f[2..];
    assert others[1..] == last && others[0] == f[1] && last == [f[2]];
    assert |last[1..]| == 0;
    assert EncChannels(last) == EncDoubles(f[2]) + EncChannels(last[1..]);
    assert EncChannels(f) == EncDoubles(f[0]) + EncChannels(others);
    assert EncChannels(others) == EncDoubles(f[1]) + EncDoubles(f[2]);
  }

  lemma {:induction false} ChannelsRoundTrip(channels: seq<seq<Double>>, size: nat, tail: seq<Byte>)
    requires forall c :: 0 <= c < |channels| ==> |channels[c]| == size
    ensures |EncChannels(channels)| == Bytes(|channels|, size)
    ensures TakeChannels(EncChannels(channels) + tail, |channels|, size) == (channels, tail)
  {
    if channels == [] {
      assert EncChannels(channels) + tail == tail;
    } else {
      ChannelsRoundTrip(channels[1..], size, tail);
      var rest := EncChannels(channels[1..]) + tail;
      assert EncChannels(channels) + tail == EncDoubles(channels[0]) + rest;
      DoublesRoundTrip(channels[0], rest);
      assert [channels[0]] + channels[1..] == channels;
    }
  }

  lemma {:induction false} DataFields(header: seq<Byte>, channels: seq<Byte>, tail: seq<Byte>)
    requires |header| == 28
    ensures var s := [1] + header + channels + tail;
            s[0] == 1 && s[1..] == header + (channels + tail) && s[29..] == channels + tail
  {
  }

  lemma {:induction false} DataRoundTrip(d: Data, tail: seq<Byte>)
    requires Storable(d)
    ensures LoadData(SaveData(d) + tail) == Read(ReadOk, Stored(d), tail)
  {
    if !d.HasArea() {
      assert ([0] + tail)[1..] == tail;
    } else {
      var channels := EncChannels(d.features);
      HeaderRoundTrip(d, channels + tail);
      DataFields(Header(d), channels, tail);
      ChannelsRoundTrip(d.features, d.featureSize, tail);
      LoadRecord(SaveData(d) + tail, d, channels + tail, tail);
    }
  }

  lemma {:induction false} LoadRecord(s: seq<Byte>, d: Data, body: seq<Byte>, tail: seq<Byte>)
    requires |s| >= 29 && s[0] == 1 && s[29..] == body && ParseHeader(s[1..]) == d.(features := [])
    requires d.HasArea() && d.featureSize >= 0 && IsInt32(CHANNELS * d.featureSize)
    requires |body| >= Bytes(CHANNELS, d.featureSize)
    requires TakeChannels(body, CHANNELS, d.featureSize) == (d.features, tail)
    ensures LoadData(s) == Read(ReadOk, d, tail)
  {
    assert Wanted(d.featureSize) * 8 == Bytes(CHANNELS, d.featureSize);
    assert d.(features := []).(features := d.features) == d;
  }

  lemma {:induction false} PrefixFields(header: seq<Byte>, channels: seq<Byte>, n: nat)
    requires |header| == 28 && 29 <= n <= 29 + |channels|
    ensures var s := ([1] + header + channels)[..n];
            |s| == n && s[0] == 1 && s[1..] == header + channels[..n - 29] && s[29..] == channels[..n - 29]
  {
  }

  /** The header has arrived but not all channels. */
  lemma {:induction false} ShortRecord(s: seq<Byte>, d: Data, body: seq<Byte>)
    requires |s| >= 29 && s[0] == 1 && s[29..] == body && ParseHeader(s[1..]) == d.(features := [])
    requires d.HasArea() && d.featureSize >= 0 && IsInt32(CHANNELS * d.featureSize)
    requires |body| < Bytes(CHANNELS, d.featureSize)
    ensures LoadData(s) == Read(ReadNoData, d.(features := []), s)
  {
    assert Wanted(d.featureSize) * 8 == Bytes(CHANNELS, d.featureSize);
  }

  lemma {:induction false} TruncatedChannels(d: Data, n: nat)
    requires Storable(d) && d.HasArea() && 28 < n < |SaveData(d)|
    ensures LoadData(SaveData(d)[..n]) == Read(ReadNoData, d.(features := []), SaveData(d)[..n])
  {
    var channels := EncChannels(d.features);
    PrefixFields(Header(d), channels, n);
    HeaderRoundTrip(d, channels[..n - 29]);
    ChannelsRoundTrip(d.features, d.featureSize, []);
    ShortRecord(SaveData(d)[..n], d, channels[..n - 29]);
  }

  lemma {:induction false} TruncatedHeader(d: Data, n: nat)
    requires d.HasArea() && n <= 28 && n < |SaveData(d)|
    ensures LoadData(SaveData(d)[..n])
            == if 25 <= n then Read(PastEnd, CLEARED, [])
               else Read(ReadNoData, CLEARED, if n == 0 then [] else SaveData(d)[1..n])
  {
    var s := SaveData(d)[..n];
    if n > 0 {
      assert s[0] == 1 && s[1..] == SaveData(d)[1..n];
    }
  }

  /** A record that has not fully arrived: what the caller is told, and what is left in the stream. Up to
      the last four bytes of the header only the flag is taken and the caller is told to wait; those four
      are read past the end; in the channels the stream is put back. */
  lemma {:induction false} TruncatedData(d: Data, n: nat)
    requires Storable(d) && d.HasArea() && n < |SaveData(d)|
    ensures var r := LoadData(SaveData(d)[..n]);
            && (r.status == PastEnd <==> 25 <= n <= 28) && (r.status == ReadNoData <==> !(25 <= n <= 28))
            && r.rest == if n == 0 || 25 <= n <= 28 then [] else if n < 25 then SaveData(d)[1..n] else SaveData(d)[..n]
  {
    if n > 28 {
      TruncatedChannels(d, n);
    } else {
      TruncatedHeader(d, n);
    }
  }

  // ---------- a feature set ----------

  datatype Set = Set(width: int, height: int, features: seq<(int, Data)>)

  function EncFeatures(features: seq<(int, Data)>): seq<Byte> {
    if features == [] then []
    else Enc64(features[0].0) + SaveData(features[0].1) + EncFeatures(features[1..])
  }

  function SetBody(fs: Set): seq<Byte> {
    Enc32(fs.width) + Enc32(fs.height) + EncCount(|fs.features|) + EncFeatures(fs.features)
  }

  function SaveSet(fs: Set): seq<Byte> {
    EncCount(|SetBody(fs)|) + SetBody(fs)
  }

  lemma {:induction false} Regrouped(f: (int, Data), a: seq<Byte>, b: seq<Byte>, c: seq<Byte>, d: seq<Byte>)
    ensures Enc64(f.0) + SaveData(f.1) + (a + b + c + d) == Enc64(f.0) + SaveData(f.1) + a + b + c + d
  {
  }

  /** Features follow one another, each its time in eight bytes and then its record. */
  lemma {:induction false} FeatureLayout(features: seq<(int, Data)>, k: nat)
    requires k < |features|
    ensures EncFeatures(features)
            == EncFeatures(features[..k]) + Enc64(features[k].0) + SaveData(features[k].1)
               + EncFeatures(features[k + 1..])
  {
    if k > 0 {
      var rest := features[1..];
      FeatureLayout(rest, k - 1);
      assert rest[..k - 1] == features[..k][1..] && rest[k - 1 + 1..] == features[k + 1..];
      assert rest[k - 1] == features[k];
      Regrouped(features[0], EncFeatures(rest[..k - 1]), Enc64(features[k].0), SaveData(features[k].1),
                EncFeatures(features[k + 1..]));
    }
  }

  /** A set: the number of the bytes that follow it, width, height, the number of features, and these. */
  lemma {:induction false} SetLayout(fs: Set)
    requires IsInt32(fs.width) && IsInt32(fs.height)
    ensures var s := SaveSet(fs);
            && |s| >= 16 && Word(s, 0) == (|s| - 4) % 0x1_0000_0000
            && HoldsInt(s, 4, fs.width) && HoldsInt(s, 8, fs.height)
            && Word(s, 12) == |fs.features| % 0x1_0000_0000 && s[16..] == EncFeatures(fs.features)
  {
    var s := SaveSet(fs);
    var total, n := EncCount(|SetBody(fs)|), EncCount(|fs.features|);
    assert s[4..8] == Enc32(fs.width) && s[8..12] == Enc32(fs.height) && s[..4] == total && s[12..16] == n;
    FieldHolds(s, 4, fs.width);
    FieldHolds(s, 8, fs.height);
    CountIsBigEndian(|SetBody(fs)|);
    CountIsBigEndian(|fs.features|);
    assert forall k :: 0 <= k < 4 ==> s[k] == total[k] && s[12 + k] == n[k];
  }

  /** Reads `n` more features after those already added. */
  function LoadFeatures(s: seq<Byte>, n: nat, added: seq<(int, Data)>): Read<seq<(int, Data)>>
    decreases n
  {
    if n == 0 then Read(ReadOk, added, s)
    else if |s| < 8 then Read(PastEnd, added, [])
    else
      var r := LoadData(s[8..]);
      match r.status
      case ReadNoData => Read(CheckFailed, added, r.rest)
      case ReadOk => LoadFeatures(r.rest, n - 1, added + [(Dec64(s[..8]), r.value)])
      case _ => Read(r.status, added, r.rest)
  }

  /** `k` features can be read from the front of the stream, which leaves `rest`. */
  ghost predicate Leaves(s: seq<Byte>, k: nat, rest: seq<Byte>)
    decreases k
  {
    if k == 0 then rest == s
    else |s| >= 8 && LoadData(s[8..]).status == ReadOk && Leaves(LoadData(s[8..]).rest, k - 1, rest)
  }

  /** What reading `n` features comes to when the one at `rest` cannot be read, or when all `n` are. */
  predicate EndsWith(r: Read<seq<(int, Data)>>, k: nat, n: nat, rest: seq<Byte>) {
    if k == n then r.status == ReadOk && r.rest == rest
    else if |rest| < 8 then r.status == PastEnd
    else
      var f := LoadData(rest[8..]);
      && f.status != ReadOk && r.rest == f.rest
      && r.status == if f.status == ReadNoData then CheckFailed else f.status
  }

  lemma {:induction false} CannotLoad(s: seq<Byte>, n: nat, added: seq<(int, Data)>)
    requires n > 0 ==> |s| < 8 || LoadData(s[8..]).status != ReadOk
    ensures EndsWith(LoadFeatures(s, n, added), 0, n, s) && LoadFeatures(s, n, added).value == added
  {
  }

  /** Reading features from any stream goes on up to the first that cannot be read: the process aborts if its
      record is not all there, and the stream is left or refused there otherwise. */
  lemma {:induction false} LoadEndsAt(s: seq<Byte>, n: nat, added: seq<(int, Data)>) returns (k: nat, rest: seq<Byte>)
    ensures k <= n && Leaves(s, k, rest) && |LoadFeatures(s, n, added).value| == |added| + k
    ensures EndsWith(LoadFeatures(s, n, added), k, n, rest)
    decreases n
  {
    if n > 0 && |s| >= 8 && LoadData(s[8..]).status == ReadOk {
      var f := LoadData(s[8..]);
      var one := (Dec64(s[..8]), f.value);
      LoadOne(s, n, added, one.0, one.1, f.rest);
      k, rest := LoadEndsAt(f.rest, n - 1, added + [one]);
      k := k + 1;
    } else {
      CannotLoad(s, n, added);
      k, rest := 0, s;
    }
  }

  function LoadSet(s: seq<Byte>, fs: Set): Read<Set> {
    if |s| < 4 then Read(ReadNoData, fs, s)
    else
      var total := Decode(s[..4]);
      var body := s[4..];
      if |body| < total then Read(ReadNoData, fs, body)
      else if |body| < 12 then Read(PastEnd, fs, [])
      else
        var width, height, n := Dec32(body[..4]), Dec32(body[4..8]), Decode(body[8..12]);
        var r := LoadFeatures(body[12..], n, fs.features);
        Read(r.status, Set(width, height, r.value), r.rest)
  }

  ghost predicate StorableSet(fs: Set) {
    && IsInt32(fs.width) && IsInt32(fs.height)
    && forall i :: 0 <= i < |fs.features| ==> IsInt64(fs.features[i].0) && Storable(fs.features[i].1)
  }

  function StoredFeatures(features: seq<(int, Data)>): (r: seq<(int, Data)>)
    ensures |r| == |features|
    ensures forall i :: 0 <= i < |r| ==> r[i] == (features[i].0, Stored(features[i].1))
  {
    if features == [] then [] else [(features[0].0, Stored(features[0].1))] + StoredFeatures(features[1..])
  }

  lemma {:induction false} LoadOne(s: seq<Byte>, n: nat, added: seq<(int, Data)>, timestamp: int, d: Data,
                                   rest: seq<Byte>)
    requires n > 0 && |s| >= 8 && Dec64(s[..8]) == timestamp && LoadData(s[8..]) == Read(ReadOk, d, rest)
    ensures LoadFeatures(s, n, added) == LoadFeatures(rest, n - 1, added + [(timestamp, d)])
  {
  }

  lemma {:induction false} EncStep(features: seq<(int, Data)>, tail: seq<Byte>)
    requires features != []
    ensures var s := EncFeatures(features) + tail;
            && |s| >= 8 && s[..8] == Enc64(features[0].0)
            && s[8..] == SaveData(features[0].1) + (EncFeatures(features[1..]) + tail)
  {
    var f, rest := features[0], EncFeatures(features[1..]) + tail;
    assert EncFeatures(features) + tail == Enc64(f.0) + (SaveData(f.1) + rest);
    TakeField(Enc64(f.0), SaveData(f.1) + rest);
  }

  lemma {:induction false} StoredStep(features: seq<(int, Data)>, n: nat, added: seq<(int, Data)>)
    requires 0 < n <= |features|
    ensures added + [(features[0].0, Stored(features[0].1))] + StoredFeatures(features[1..][..n - 1])
            == added + StoredFeatures(features[..n])
    ensures features[1..][n - 1..] == features[n..]
  {
    assert features[1..][..n - 1] == features[..n][1..];
  }

  /** One written feature is read, and the others and the tail are left. */
  lemma {:induction false} OneFeature(features: seq<(int, Data)>, n: nat, added: seq<(int, Data)>, tail: seq<Byte>)
    requires 0 < n <= |features| && IsInt64(features[0].0) && Storable(features[0].1)
    ensures LoadFeatures(EncFeatures(features) + tail, n, added)
            == LoadFeatures(EncFeatures(features[1..]) + tail, n - 1, added + [(features[0].0, Stored(features[0].1))])
  {
    var f, rest := features[0], EncFeatures(features[1..]) + tail;
    EncStep(features, tail);
    Int64RoundTrip(f.0);
    DataRoundTrip(f.1, rest);
    LoadOne(EncFeatures(features) + tail, n, added, f.0, Stored(f.1), rest);
  }

  lemma {:induction false} NoFeatures(features: seq<(int, Data)>, added: seq<(int, Data)>, tail: seq<Byte>)
    ensures LoadFeatures(EncFeatures(features) + tail, 0, added)
            == Read(ReadOk, added + StoredFeatures(features[..0]), EncFeatures(features[0..]) + tail)
  {
    assert features[0..] == features;
    assert added + StoredFeatures(features[..0]) == added;
  }

  /** Reading the first n of the written features leaves the others, and the tail, in the stream. */
  lemma {:induction false} FeaturesRoundTrip(features: seq<(int, Data)>, n: nat, added: seq<(int, Data)>,
                                             tail: seq<Byte>)
    requires n <= |features|
    requires forall i :: 0 <= i < n ==> IsInt64(features[i].0) && Storable(features[i].1)
    ensures LoadFeatures(EncFeatures(features) + tail, n, added)
            == Read(ReadOk, added + StoredFeatures(features[..n]), EncFeatures(features[n..]) + tail)
  {
    if n == 0 {
      NoFeatures(features, added, tail);
    } else {
      OneFeature(features, n, added, tail);
      FeaturesRoundTrip(features[1..], n - 1, added + [(features[0].0, Stored(features[0].1))], tail);
      StoredStep(features, n, added);
    }
  }

  /** Loading a saved set reads as many features as the 32-bit count says, never trips the CHECK and
      leaves exactly the rest of the stream. */
  lemma {:induction false} SetRoundTrip(fs: Set, tail: seq<Byte>) returns (n: nat, r: Read<Set>)
    requires StorableSet(fs)
    ensures n == |fs.features| % UINT32 && r == LoadSet(SaveSet(fs) + tail, Set(0, 0, []))
    ensures r == Read(ReadOk, Set(fs.width, fs.height, StoredFeatures(fs.features[..n])),
                      EncFeatures(fs.features[n..]) + tail)
  {
    n := |fs.features| % UINT32;
    r := LoadSet(SaveSet(fs) + tail, Set(0, 0, []));
    var w, h, count, total := Enc32(fs.width), Enc32(fs.height), EncCount(|fs.features|), EncCount(|SetBody(fs)|);
    var features := EncFeatures(fs.features) + tail;
    var s := SaveSet(fs) + tail;
    SetFields(total, w, h, count, EncFeatures(fs.features), tail);
    Int32RoundTrip(fs.width);
    Int32RoundTrip(fs.height);
    CountRoundTrip(|fs.features|);
    CountRoundTrip(|SetBody(fs)|);
    CountFits(|fs.features|);
    CountFits(|SetBody(fs)|);
    assert Decode(s[..4]) <= |s[4..]|;
    FeaturesRoundTrip(fs.features, n, [], tail);
    assert [] + StoredFeatures(fs.features[..n]) == StoredFeatures(fs.features[..n]);
  }

  lemma {:induction false} SetFields(total: seq<Byte>, w: seq<Byte>, h: seq<Byte>, count: seq<Byte>,
                                     features: seq<Byte>, tail: seq<Byte>)
    requires |total| == |w| == |h| == |count| == 4
    ensures var s := total + (w + h + count + features) + tail;
            && s[..4] == total && s[4..] == w + h + count + features + tail
            && s[4..][..4] == w && s[4..][4..8] == h && s[4..][8..12] == count && s[4..][12..] == features + tail
  {
  }

  lemma {:induction false} StoredUnchanged(features: seq<(int, Data)>)
    requires forall i :: 0 <= i < |features| ==> features[i].1.Initialized()
    ensures StoredFeatures(features) == features
  {
    if features != [] { StoredUnchanged(features[1..]); }
  }

  lemma {:induction false} WholeCountExactly(fs: Set, n: nat, tail: seq<Byte>, r: Read<Set>)
    requires n <= |fs.features|
    requires forall i :: 0 <= i < |fs.features| ==> fs.features[i].1.Initialized()
    requires r.value.features == StoredFeatures(fs.features[..n])
    requires r == Read(ReadOk, Set(fs.width, fs.height, r.value.features), EncFeatures(fs.features[n..]) + tail)
    ensures r == Read(ReadOk, fs, tail) <==> n == |fs.features|
  {
    if n == |fs.features| {
      assert fs.features[..n] == fs.features && fs.features[n..] == [];
      StoredUnchanged(fs.features);
      assert EncFeatures([]) + tail == tail;
    } else {
      assert |r.value.features| < |fs.features|;
    }
  }

  lemma {:induction false} NeverNoData(s: seq<Byte>, n: nat, added: seq<(int, Data)>)
    ensures LoadFeatures(s, n, added).status != ReadNoData
    decreases n
  {
    if n > 0 && |s| >= 8 && LoadData(s[8..]).status == ReadOk {
      var r := LoadData(s[8..]);
      NeverNoData(r.rest, n - 1, added + [(Dec64(s[..8]), r.value)]);
    }
  }

  /** A set that has not fully arrived, as far as its size field tells, is reported as such; but the size field
      is gone from the stream, so a second attempt takes what follows it for one. */
  lemma {:induction false} TruncatedSet(fs: Set, n: nat)
    requires n <= |SaveSet(fs)|
    ensures var r := LoadSet(SaveSet(fs)[..n], Set(0, 0, []));
            && (r.status == ReadNoData <==> n < 4 + |SetBody(fs)| % UINT32)
            && (r.status == ReadNoData ==> r.value == Set(0, 0, []))
            && (r.status == ReadNoData ==> r.rest == if n < 4 then SaveSet(fs)[..n] else SaveSet(fs)[4..n])
            && (r.status == ReadNoData && n >= 4 ==> r.rest + SaveSet(fs)[n..] == SetBody(fs))
    ensures |SetBody(fs)| < UINT32 && n < |SaveSet(fs)| ==>
            LoadSet(SaveSet(fs)[..n], Set(0, 0, [])).status == ReadNoData
  {
    var s, all := SaveSet(fs)[..n], SaveSet(fs);
    CountRoundTrip(|SetBody(fs)|);
    CountFits(|SetBody(fs)|);
    if n >= 4 {
      assert s[..4] == EncCount(|SetBody(fs)|) && s[4..] == all[4..n] && all[4..] == SetBody(fs);
      assert all[4..n] + all[n..] == SetBody(fs);
      if |s[4..]| >= 12 {
        NeverNoData(s[4..][12..], Decode(s[4..][8..12]), []);
      }
    }
  }

  /** The same set comes back, with nothing read too much or too little, exactly when the number of
      features fits the count field. */
  lemma {:induction false} SetRoundTripExactly(fs: Set, tail: seq<Byte>)
    requires StorableSet(fs)
    requires forall i :: 0 <= i < |fs.features| ==> fs.features[i].1.Initialized()
    ensures LoadSet(SaveSet(fs) + tail, Set(0, 0, [])) == Read(ReadOk, fs, tail) <==> |fs.features| < UINT32
  {
    var n, r := SetRoundTrip(fs, tail);
    CountFits(|fs.features|);
    WholeCountExactly(fs, n, tail, r);
  }

  lemma {:induction false} NoneIsLoadedOf(fs: Set) returns (r: Read<Set>)
    requires StorableSet(fs) && |fs.features| == UINT32
    ensures r == LoadSet(SaveSet(fs), Set(0, 0, [])) && r.status == ReadOk && r.value.features == []
  {
    var n;
    n, r := SetRoundTrip(fs, []);
    assert SaveSet(fs) + [] == SaveSet(fs);
    assert fs.features[..0] == [] && StoredFeatures([]) == [];
  }

  /** One feature too many, and none is loaded. */
  lemma {:induction false} NoneIsLoaded() returns (fs: Set, r: Read<Set>)
    ensures StorableSet(fs) && |fs.features| == UINT32
    ensures r == LoadSet(SaveSet(fs), Set(0, 0, [])) && r.status == ReadOk && r.value.features == []
  {
    fs := Set(0, 0, seq(UINT32, i => (0, CLEARED)));
    r := NoneIsLoadedOf(fs);
  }

  lemma {:induction false} CountFits(v: nat)
    ensures v % UINT32 == v <==> v < UINT32
    ensures v % UINT32 <= v
  {
  }

  // ---------- the stream object ----------

  class MemoryStream {
    var data: seq<Byte>
    var marker: Option<seq<Byte>>

    constructor ()
      ensures data == [] && marker == None
    {
      data, marker := [], None;
    }

    method Write(s: seq<Byte>)
      modifies this`data
      ensures data == old(data) + s
    {
      data := data + s;
    }

    method Take(n: nat) returns (s: seq<Byte>)
      requires n <= |data|
      modifies this`data
      ensures s == old(data)[..n] && data == old(data)[n..]
    {
      s := data[..n];
      data := data[n..];
    }

    method MarkerSet()
      modifies this`marker
      ensures marker == Some(data)
    {
      marker := Some(data);
    }

    method MarkerRestore()
      modifies this
      ensures old(marker).Some? ==> data == old(marker).value
    {
      if marker.Some? {
        data := marker.value;
      }
      marker := None;
    }

    method MarkerClear()
      modifies this`marker
    {
      marker := None;
    }
  }

  method WriteData(ms: MemoryStream, d: Data)
    requires d.Initialized() || !d.HasArea()
    modifies ms`data
    ensures ms.data == old(ms.data) + SaveData(d)
  {
    if !d.HasArea() {
      ms.Write([0]);
      return;
    }
    ghost var before := ms.data;
    WriteHeader(ms, d);
    assert d.features[0..] == d.features;
    Regroup(before, [1] + Header(d), EncChannels(d.features));
    for c := 0 to |d.features|
      invariant ms.data + EncChannels(d.features[c..]) == before + SaveData(d)
    {
      assert d.features[c..][1..] == d.features[c + 1..];
      Regroup(ms.data, EncDoubles(d.features[c]), EncChannels(d.features[c + 1..]));
      WriteDoubles(ms, d.features[c]);
    }
    assert d.features[|d.features|..] == [];
    assert ms.data + [] == ms.data;
  }

  method WriteField(ms: MemoryStream, v: int, ghost base: seq<Byte>, ghost written: seq<Byte>)
    requires ms.data == base + written
    modifies ms`data
    ensures ms.data == base + (written + Enc32(v))
  {
    Regroup(base, written, Enc32(v));
    ms.Write(Enc32(v));
  }

  method WriteHeader(ms: MemoryStream, d: Data)
    modifies ms`data
    ensures ms.data == old(ms.data) + ([1] + Header(d))
  {
    ghost var before := ms.data;
    var flag := if d.useYuv then 1 else 0;
    ms.Write([1]);
    ghost var base, h := before + [1], Enc32(d.x0);
    ms.Write(Enc32(d.x0));
    WriteField(ms, d.x1, base, h);
    h := h + Enc32(d.x1);
    WriteField(ms, d.y0, base, h);
    h := h + Enc32(d.y0);
    WriteField(ms, d.y1, base, h);
    h := h + Enc32(d.y1);
    WriteField(ms, flag, base, h);
    h := h + Enc32(flag);
    WriteField(ms, d.featureType, base, h);
    h := h + Enc32(d.featureType);
    WriteField(ms, d.featureSize, base, h);
    Regroup(before, [1], Header(d));
  }

  method WriteDoubles(ms: MemoryStream, v: seq<Double>)
    modifies ms`data
    ensures ms.data == old(ms.data) + EncDoubles(v)
  {
    for i := 0 to |v|
      invariant ms.data + EncDoubles(v[i..]) == old(ms.data) + EncDoubles(v)
    {
      assert v[i..][1..] == v[i + 1..];
      ms.Write(v[i]);
    }
    assert v[|v|..] == [];
  }

  lemma {:induction false} Shift(s: seq<Byte>, k: nat)
    requires k + 8 <= |s|
    ensures s[k..][8..] == s[k + 8..]
  {
  }

  method ReadDoubles(ms: MemoryStream, n: nat) returns (v: seq<Double>)
    requires |ms.data| >= 8 * n
    modifies ms`data
    ensures v == DecDoubles(old(ms.data), n) && ms.data == old(ms.data)[8 * n..]
  {
    v := [];
    ghost var start := ms.data;
    for i := 0 to n
      invariant ms.data == start[8 * i..]
      invariant v + DecDoubles(ms.data, n - i) == DecDoubles(start, n)
    {
      Shift(start, 8 * i);
      Regroup(v, [ms.data[..8]], DecDoubles(ms.data[8..], n - i - 1));
      var d := ms.Take(8);
      v := v + [d];
    }
  }

  /** FeatureData::Load on a fresh object. */
  method ReadData(ms: MemoryStream) returns (status: ReadStatus, d: Data)
    modifies ms
    ensures Read(status, d, ms.data) == LoadData(old(ms.data))
  {
    d := CLEARED;
    if |ms.data| < 1 {
      return ReadNoData, d;
    }
    ghost var start := ms.data;
    ms.MarkerSet();
    var flag := ms.Take(1);
    if flag[0] == 0 {
      ms.MarkerClear();
      return ReadOk, d;
    }
    if |ms.data| < 24 {
      return ReadNoData, d;
    }
    if |ms.data| < 28 {
      ms.data := [];
      return PastEnd, d;
    }
    d := ReadHeader(ms);
    if !d.HasArea() {
      ms.MarkerRestore();
      return ReadInvalidData, d;
    }
    if Wanted(d.featureSize) < 0 || |ms.data| < Wanted(d.featureSize) * 8 {
      ms.MarkerRestore();
      return ReadNoData, d;
    }
    if d.featureSize < 0 {
      ms.data := [];
      return CheckFailed, d;
    }
    if |ms.data| < Bytes(CHANNELS, d.featureSize) {
      ms.data := [];
      return PastEnd, d;
    }
    var channels := ReadChannels(ms, CHANNELS, d.featureSize);
    d := d.(features := channels);
    ms.MarkerClear();
    status := ReadOk;
  }

  method ReadHeader(ms: MemoryStream) returns (d: Data)
    requires |ms.data| >= 28
    modifies ms`data
    ensures d == ParseHeader(old(ms.data)) && ms.data == old(ms.data)[28..]
  {
    ghost var s := ms.data;
    var x0 := ms.Take(4);
    var x1 := ms.Take(4);
    var y0 := ms.Take(4);
    var y1 := ms.Take(4);
    assert x0 == s[0..4] && x1 == s[4..8] && y0 == s[8..12] && y1 == s[12..16] && ms.data == s[16..];
    var useYuv := ms.Take(4);
    var featureType := ms.Take(4);
    var featureSize := ms.Take(4);
    assert useYuv == s[16..20] && featureType == s[20..24] && featureSize == s[24..28];
    d := FeatureData(Dec32(x0), Dec32(x1), Dec32(y0), Dec32(y1), Dec32(useYuv) != 0,
                     Dec32(featureType), Dec32(featureSize), []);
  }

  method ReadChannels(ms: MemoryStream, n: nat, size: nat) returns (channels: seq<seq<Double>>)
    requires |ms.data| >= Bytes(n, size)
    modifies ms`data
    ensures (channels, ms.data) == TakeChannels(old(ms.data), n, size)
  {
    channels := [];
    ghost var all := TakeChannels(ms.data, n, size);
    for c := 0 to n
      invariant |ms.data| >= Bytes(n - c, size)
      invariant var (others, rest) := TakeChannels(ms.data, n - c, size);
                channels + others == all.0 && rest == all.1
    {
      ghost var others := TakeChannels(ms.data[8 * size..], n - c - 1, size).0;
      Regroup(channels, [DecDoubles(ms.data, size)], others);
      var v := ReadDoubles(ms, size);
      channels := channels + [v];
    }
    assert channels + [] == channels;
  }

  lemma {:induction false} Regroup<T>(a: seq<T>, b: seq<T>, c: seq<T>)
    ensures a + (b + c) == a + b + c
  {
  }

  class FeatureSet {
    var width: int
    var height: int
    var features: seq<(int, Data)>

    constructor ()
      ensures Value() == Set(0, 0, [])
    {
      width, height, features := 0, 0, [];
    }

    function Value(): Set
      reads this
    {
      Set(width, height, features)
    }

    method Save(ms: MemoryStream)
      requires forall i :: 0 <= i < |features| ==> features[i].1.Initialized() || !features[i].1.HasArea()
      modifies ms`data
      ensures ms.data == old(ms.data) + SaveSet(Value())
    {
      var tmp := SaveBody();
      ghost var before := ms.data;
      ms.Write(EncCount(|tmp.data|));
      ms.Write(tmp.data);
      Regroup(before, EncCount(|tmp.data|), tmp.data);
    }

    method SaveBody() returns (tmp: MemoryStream)
      requires forall i :: 0 <= i < |features| ==> features[i].1.Initialized() || !features[i].1.HasArea()
      ensures fresh(tmp) && tmp.data == SetBody(Value())
    {
      tmp := new MemoryStream();
      tmp.Write(Enc32(width));
      tmp.Write(Enc32(height));
      tmp.Write(EncCount(|features|));
      ghost var body := SetBody(Value());
      assert features[0..] == features;
      for i := 0 to |features|
        invariant fresh(tmp)
        invariant tmp.data + EncFeatures(features[i..]) == body
      {
        assert features[i..][1..] == features[i + 1..] && features[i..][0] == features[i];
        WriteFeature(tmp, features[i], EncFeatures(features[i + 1..]));
      }
      assert features[|features|..] == [];
      assert tmp.data + [] == tmp.data;
    }

    /** One feature: its time and its record. `rest` stands for those behind it. */
    method WriteFeature(tmp: MemoryStream, f: (int, Data), ghost rest: seq<Byte>)
      requires f.1.Initialized() || !f.1.HasArea()
      modifies tmp
      ensures tmp.data + rest == old(tmp.data) + (Enc64(f.0) + SaveData(f.1) + rest)
    {
      Regroup(tmp.data, Enc64(f.0) + SaveData(f.1), rest);
      Regroup(tmp.data, Enc64(f.0), SaveData(f.1));
      tmp.Write(Enc64(f.0));
      WriteData(tmp, f.1);
    }

    method Load(ms: MemoryStream) returns (status: ReadStatus)
      modifies this, ms
      ensures Read(status, Value(), ms.data) == LoadSet(old(ms.data), old(Value()))
    {
      if |ms.data| < 4 {
        return ReadNoData;
      }
      var total := ms.Take(4);
      ms.MarkerSet();
      if |ms.data| < Decode(total) {
        ms.MarkerRestore();
        return ReadNoData;
      }
      if |ms.data| < 12 {
        ms.data := [];
        return PastEnd;
      }
      ghost var body := ms.data;
      var w := ms.Take(4);
      var h := ms.Take(4);
      var n := ms.Take(4);
      assert n == body[8..12] && h == body[4..8] && ms.data == body[12..];
      width, height := Dec32(w), Dec32(h);
      status := LoadAll(ms, Decode(n));
    }

    method LoadAll(ms: MemoryStream, n: nat) returns (status: ReadStatus)
      modifies this`features, ms
      ensures Read(status, features, ms.data) == LoadFeatures(old(ms.data), n, old(features))
    {
      for i := 0 to n
        invariant LoadFeatures(ms.data, n - i, features) == LoadFeatures(old(ms.data), n, old(features))
      {
        if |ms.data| < 8 {
          ms.data := [];
          return PastEnd;
        }
        var timestamp := ms.Take(8);
        var stat, d := ReadData(ms);
        if stat == ReadNoData {
          return CheckFailed;
        }
        if stat != ReadOk {
          return stat;
        }
        features := features + [(Dec64(timestamp), d)];
      }
      status := ReadOk;
    }
  }
}
