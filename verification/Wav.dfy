/** The WAV container writer (internal/service/wav.go). */
module Wav {
  newtype byte = x: int | 0 <= x < 256

  const U16: int := 0x1_0000
  const U32: int := 0x1_0000_0000

  // ---- little-endian numbers and tags

  function Byte(v: int, shift: int): byte
    requires shift > 0
  {
    (v / shift % 256) as byte
  }

  method PutUint16(h: array<byte>, at: nat, v: int)
    requires at + 2 <= h.Length
    modifies h
    ensures h[..at + 2] == old(h[..at]) + LittleEndian16(v)
  {
    h[at], h[at + 1] := Byte(v, 1), Byte(v, 0x100);
  }

  method PutUint32(h: array<byte>, at: nat, v: int)
    requires at + 4 <= h.Length
    modifies h
    ensures h[..at + 4] == old(h[..at]) + LittleEndian32(v)
  {
    h[at], h[at + 1], h[at + 2], h[at + 3] := Byte(v, 1), Byte(v, 0x100), Byte(v, 0x1_0000), Byte(v, 0x100_0000);
  }

  method PutTag(h: array<byte>, at: nat, tag: string)
    requires |tag| == 4 && at + 4 <= h.Length && IsAscii(tag)
    modifies h
    ensures h[..at + 4] == old(h[..at]) + TagBytes(tag)
  {
    h[at], h[at + 1] := tag[0] as int as byte, tag[1] as int as byte;
    h[at + 2], h[at + 3] := tag[2] as int as byte, tag[3] as int as byte;
  }

  function LittleEndian16(v: int): seq<byte> {
    [Byte(v, 1), Byte(v, 0x100)]
  }

  function LittleEndian32(v: int): seq<byte> {
    [Byte(v, 1), Byte(v, 0x100), Byte(v, 0x1_0000), Byte(v, 0x100_0000)]
  }

  predicate IsAscii(s: string) {
    forall k :: 0 <= k < |s| ==> s[k] as int < 128
  }

  function TagBytes(tag: string): seq<byte>
    requires |tag| == 4 && IsAscii(tag)
  {
    [tag[0] as int as byte, tag[1] as int as byte, tag[2] as int as byte, tag[3] as int as byte]
  }

  function Read16(s: seq<byte>, at: nat): int
    requires at + 2 <= |s|
  {
    s[at] as int + s[at + 1] as int * 0x100
  }

  function Read32(s: seq<byte>, at: nat): int
    requires at + 4 <= |s|
  {
    s[at] as int + s[at + 1] as int * 0x100 + s[at + 2] as int * 0x1_0000 + s[at + 3] as int * 0x100_0000
  }

  lemma Read16Puts(v: int)
    ensures Read16(LittleEndian16(v), 0) == v % U16
  {
  }

  lemma Read32Puts(v: int)
    ensures Read32(LittleEndian32(v), 0) == v % U32
  {
    var a := v / 0x100;
    var b := a / 0x100;
    assert v / 0x1_0000 == b;
    assert v / 0x100_0000 == b / 0x100;
  }

  // ---- the header

  /** The fields of a canonical PCM header. */
  datatype Format = Format(channels: int, sampleRate: int, byteRate: int, blockAlign: int, bitsPerSample: int,
                           formatTag: int, formatSize: int, riffSize: int, dataSize: int)

  function Riff(): seq<byte> {
    TagBytes("RIFF") + LittleEndian32(36) + TagBytes("WAVE")
  }

  function FormatHead(channels: int): seq<byte> {
    TagBytes("fmt ") + LittleEndian32(16) + LittleEndian16(1) + LittleEndian16(channels)
  }

  function FormatRates(rate: int, channels: int): seq<byte> {
    LittleEndian32(rate) + LittleEndian32(rate * channels * 2) + LittleEndian16(channels * 2) + LittleEndian16(16)
  }

  function DataChunk(): seq<byte> {
    TagBytes("data") + LittleEndian32(0)
  }

  function Header(rate: int, channels: int): seq<byte> {
    Riff() + FormatHead(channels) + FormatRates(rate, channels) + DataChunk()
  }

  /** Reads the fields at the offsets the WAVE form fixes, if the four tags are in place. */
  function Decode(h: seq<byte>): (f: Format)
    requires |h| == 44
  {
    Format(Read16(h, 22), Read32(h, 24), Read32(h, 28), Read16(h, 32), Read16(h, 34),
           Read16(h, 20), Read32(h, 16), Read32(h, 4), Read32(h, 40))
  }

  predicate Tagged(h: seq<byte>)
    requires |h| == 44
  {
    h[..4] == TagBytes("RIFF") && h[8..12] == TagBytes("WAVE") && h[12..16] == TagBytes("fmt ") && h[36..40] == TagBytes("data")
  }

  lemma Groups(a: seq<byte>, b: seq<byte>, c: seq<byte>, d: seq<byte>)
    requires |a| == 12 && |b| == 12 && |c| == 12 && |d| == 8
    ensures var h := a + b + c + d;
            |h| == 44 && h[..12] == a && h[12..24] == b && h[24..36] == c && h[36..] == d
  {
  }

  lemma Field16(h: seq<byte>, at: nat, v: int)
    requires at + 2 <= |h| && h[at..at + 2] == LittleEndian16(v)
    ensures Read16(h, at) == v % U16
  {
    Read16Puts(v);
    assert h[at] == h[at..at + 2][0] && h[at + 1] == h[at..at + 2][1];
  }

  lemma Field32(h: seq<byte>, at: nat, v: int)
    requires at + 4 <= |h| && h[at..at + 4] == LittleEndian32(v)
    ensures Read32(h, at) == v % U32
  {
    Read32Puts(v);
    var f := h[at..at + 4];
    assert h[at] == f[0] && h[at + 1] == f[1] && h[at + 2] == f[2] && h[at + 3] == f[3];
  }

  /** Where the parts of a concatenation lie. */
  lemma Parts(a: seq<byte>, b: seq<byte>, c: seq<byte>, d: seq<byte>)
    ensures var f := a + b + c + d;
            var i, j := |a| + |b|, |a| + |b| + |c|;
            |f| == j + |d| && f[..|a|] == a && f[|a|..i] == b && f[i..j] == c && f[j..] == d
  {
  }

  lemma Slice(h: seq<byte>, at: nat, f: seq<byte>, i: nat, j: nat)
    requires at + |f| <= |h| && h[at..at + |f|] == f && i <= j <= |f|
    ensures h[at + i..at + j] == f[i..j]
  {
    forall k | 0 <= k < j - i ensures h[at + i..at + j][k] == f[i..j][k] {
      assert h[at + i + k] == h[at..at + |f|][i + k];
    }
  }

  lemma RiffReads(h: seq<byte>)
    requires |h| == 44 && h[..12] == Riff()
    ensures h[..4] == TagBytes("RIFF") && h[8..12] == TagBytes("WAVE") && Read32(h, 4) == 36
  {
    assert h[..4] == Riff()[..4] && h[8..12] == Riff()[8..] && h[4..8] == Riff()[4..8];
    Field32(h, 4, 36);
  }

  lemma FormatHeadReads(h: seq<byte>, channels: int)
    requires |h| == 44 && h[12..24] == FormatHead(channels)
    ensures h[12..16] == TagBytes("fmt ") && Read32(h, 16) == 16 && Read16(h, 20) == 1 && Read16(h, 22) == channels % U16
  {
    var f := FormatHead(channels);
    Parts(TagBytes("fmt "), LittleEndian32(16), LittleEndian16(1), LittleEndian16(channels));
    Slice(h, 12, f, 0, 4);
    Slice(h, 12, f, 4, 8);
    Slice(h, 12, f, 8, 10);
    Slice(h, 12, f, 10, 12);
    assert f[..4] == f[0..4] && f[10..12] == f[10..];
    Field32(h, 16, 16);
    Field16(h, 20, 1);
    Field16(h, 22, channels);
  }

  lemma FormatRatesRead(h: seq<byte>, rate: int, channels: int)
    requires |h| == 44 && h[24..36] == FormatRates(rate, channels)
    ensures Read32(h, 24) == rate % U32 && Read32(h, 28) == rate * channels * 2 % U32
    ensures Read16(h, 32) == channels * 2 % U16 && Read16(h, 34) == 16
  {
    var f := FormatRates(rate, channels);
    Parts(LittleEndian32(rate), LittleEndian32(rate * channels * 2), LittleEndian16(channels * 2), LittleEndian16(16));
    Slice(h, 24, f, 0, 4);
    Slice(h, 24, f, 4, 8);
    Slice(h, 24, f, 8, 10);
    Slice(h, 24, f, 10, 12);
    assert f[..4] == f[0..4] && f[10..12] == f[10..];
    Field32(h, 24, rate);
    Field32(h, 28, rate * channels * 2);
    Field16(h, 32, channels * 2);
    Field16(h, 34, 16);
  }

  lemma DataReads(h: seq<byte>)
    requires |h| == 44 && h[36..] == DataChunk()
    ensures h[36..40] == TagBytes("data") && Read32(h, 40) == 0
  {
    assert h[36..40] == h[36..][..4] == DataChunk()[..4] && h[40..44] == h[36..][4..] == DataChunk()[4..];
    Field32(h, 40, 0);
  }

  /** Each field read back is the value put there, cut to its width. */
  lemma HeaderReadsBack(rate: int, channels: int)
    ensures |Header(rate, channels)| == 44 && Tagged(Header(rate, channels))
    ensures Decode(Header(rate, channels))
            == Format(channels % U16, rate % U32, rate * channels * 2 % U32, channels * 2 % U16, 16, 1, 16, 36, 0)
  {
    Groups(Riff(), FormatHead(channels), FormatRates(rate, channels), DataChunk());
    var h := Header(rate, channels);
    RiffReads(h);
    FormatHeadReads(h, channels);
    FormatRatesRead(h, rate, channels);
    DataReads(h);
  }

  /** Byte for byte: the four tags in ASCII, and every number with its lowest byte first. */
  lemma HeaderBytes(rate: int, channels: int)
    ensures var h, byteRate, align := Header(rate, channels), rate * channels * 2, channels * 2;
            && |h| == 44
            && h[..4] == [82, 73, 70, 70] && h[4..8] == [36, 0, 0, 0]
            && h[8..12] == [87, 65, 86, 69] && h[12..16] == [102, 109, 116, 32]
            && h[16..20] == [16, 0, 0, 0] && h[20..22] == [1, 0]
            && h[22] as int == channels % 256 && h[23] as int == channels / 256 % 256
            && h[24] as int == rate % 256 && h[25] as int == rate / 256 % 256
            && h[26] as int == rate / 65536 % 256 && h[27] as int == rate / 16777216 % 256
            && h[28] as int == byteRate % 256 && h[29] as int == byteRate / 256 % 256
            && h[30] as int == byteRate / 65536 % 256 && h[31] as int == byteRate / 16777216 % 256
            && h[32] as int == align % 256 && h[33] as int == align / 256 % 256
            && h[34..36] == [16, 0] && h[36..40] == [100, 97, 116, 97] && h[40..44] == [0, 0, 0, 0]
  {
    Groups(Riff(), FormatHead(channels), FormatRates(rate, channels), DataChunk());
    var h := Header(rate, channels);
    RiffBytes(h);
    FormatHeadBytes(h, channels);
    FormatRatesBytes(h, rate, channels, rate * channels * 2);
    DataBytes(h);
  }

  lemma RiffBytes(h: seq<byte>)
    requires |h| == 44 && h[..12] == Riff()
    ensures h[..4] == [82, 73, 70, 70] && h[4..8] == [36, 0, 0, 0] && h[8..12] == [87, 65, 86, 69]
  {
    var f := Riff();
    assert h[..4] == f[..4] && h[4..8] == f[4..8] && h[8..12] == f[8..];
    assert "RIFF"[0] == 'R' && "RIFF"[1] == 'I' && "RIFF"[2] == 'F' && "RIFF"[3] == 'F';
    assert "WAVE"[0] == 'W' && "WAVE"[1] == 'A' && "WAVE"[2] == 'V' && "WAVE"[3] == 'E';
  }

  lemma FormatHeadBytes(h: seq<byte>, channels: int)
    requires |h| == 44 && h[12..24] == FormatHead(channels)
    ensures h[12..16] == [102, 109, 116, 32] && h[16..20] == [16, 0, 0, 0] && h[20..22] == [1, 0]
    ensures h[22] as int == channels % 256 && h[23] as int == channels / 256 % 256
  {
    var f := FormatHead(channels);
    Parts(TagBytes("fmt "), LittleEndian32(16), LittleEndian16(1), LittleEndian16(channels));
    Slice(h, 12, f, 0, 4);
    Slice(h, 12, f, 4, 8);
    Slice(h, 12, f, 8, 10);
    assert h[22] == h[12..24][10] == f[10] && h[23] == h[12..24][11] == f[11];
    assert "fmt "[0] == 'f' && "fmt "[1] == 'm' && "fmt "[2] == 't' && "fmt "[3] == ' ';
  }

  lemma FormatRatesBytes(h: seq<byte>, rate: int, channels: int, byteRate: int)
    requires |h| == 44 && h[24..36] == FormatRates(rate, channels) && byteRate == rate * channels * 2
    ensures h[24] as int == rate % 256 && h[25] as int == rate / 256 % 256
    ensures h[26] as int == rate / 65536 % 256 && h[27] as int == rate / 16777216 % 256
    ensures h[28] as int == byteRate % 256 && h[29] as int == byteRate / 256 % 256
    ensures h[30] as int == byteRate / 65536 % 256 && h[31] as int == byteRate / 16777216 % 256
    ensures h[32] as int == channels * 2 % 256 && h[33] as int == channels * 2 / 256 % 256
    ensures h[34..36] == [16, 0]
  {
    var f := FormatRates(rate, channels);
    forall k | 0 <= k < 12 ensures h[24 + k] == f[k] {
      assert h[24 + k] == h[24..36][k];
    }
  }

  lemma DataBytes(h: seq<byte>)
    requires |h| == 44 && h[36..] == DataChunk()
    ensures h[36..40] == [100, 97, 116, 97] && h[40..44] == [0, 0, 0, 0]
  {
    assert h[36..40] == h[36..][..4] && h[40..44] == h[36..][4..];
    assert "data"[0] == 'd' && "data"[1] == 'a' && "data"[2] == 't' && "data"[3] == 'a';
  }

  /** The header describes the stream consistently iff no field is cut. */
  lemma HeaderConsistent(rate: int, channels: int)
    requires rate > 0 && channels > 0
    ensures var f := Decode(Header(rate, channels));
            (&& f.channels == channels && f.sampleRate == rate
             && f.blockAlign == f.channels * 2 && f.byteRate == f.sampleRate * f.blockAlign)
            <==> channels * 2 < U16 && rate * channels * 2 < U32
  {
    HeaderReadsBack(rate, channels);
    NotCut(rate, channels, rate * channels * 2);
  }

  lemma NotCut(rate: int, channels: int, product: int)
    requires rate > 0 && channels > 0 && product == rate * channels * 2
    ensures (channels % U16 == channels && rate % U32 == rate && channels * 2 % U16 == channels % U16 * 2
             && product % U32 == rate % U32 * (channels * 2 % U16))
            <==> channels * 2 < U16 && product < U32
  {
    assert product == rate * (channels * 2);
    Grows(rate, channels * 2);
  }

  lemma Grows(a: int, b: int)
    requires a > 0 && b > 0
    ensures a * b >= a
  {
    if b > 1 {
      Grows(a, b - 1);
      assert a * b == a * (b - 1) + a;
    }
  }

  method PutRiff(header: array<byte>)
    requires header.Length == 44
    modifies header
    ensures header[..12] == Riff()
  {
    PutTag(header, 0, "RIFF");
    assert header[..4] == TagBytes("RIFF");
    PutUint32(header, 4, 36);
    PutTag(header, 8, "WAVE");
  }

  method PutFormatHead(header: array<byte>, channels: int)
    requires header.Length == 44
    modifies header
    ensures header[..24] == old(header[..12]) + FormatHead(channels)
  {
    ghost var before := header[..12];
    PutTag(header, 12, "fmt ");
    PutUint32(header, 16, 16);
    PutUint16(header, 20, 1);
    PutUint16(header, 22, channels);
    Regroup(before, TagBytes("fmt "), LittleEndian32(16), LittleEndian16(1), LittleEndian16(channels));
  }

  method PutFormatRates(header: array<byte>, sampleRate: int, channels: int)
    requires header.Length == 44
    modifies header
    ensures header[..36] == old(header[..24]) + FormatRates(sampleRate, channels)
  {
    ghost var before := header[..24];
    PutUint32(header, 24, sampleRate);
    var byteRate := sampleRate * channels * 2;
    PutUint32(header, 28, byteRate);
    var blockAlign := channels * 2;
    PutUint16(header, 32, blockAlign);
    PutUint16(header, 34, 16);
    Regroup(before, LittleEndian32(sampleRate), LittleEndian32(byteRate), LittleEndian16(blockAlign), LittleEndian16(16));
  }

  method PutData(header: array<byte>)
    requires header.Length == 44
    modifies header
    ensures header[..] == old(header[..36]) + DataChunk()
  {
    ghost var before := header[..36];
    PutTag(header, 36, "data");
    PutUint32(header, 40, 0);
    assert header[..44] == header[..];
    assert before + TagBytes("data") + LittleEndian32(0) == before + DataChunk();
  }

  lemma Regroup(before: seq<byte>, a: seq<byte>, b: seq<byte>, c: seq<byte>, d: seq<byte>)
    ensures before + a + b + c + d == before + (a + b + c + d)
  {
  }

  // ---- the writer

  /** How one write to the sink went: bytes taken, and whether it reported an error. */
  datatype Outcome = Outcome(n: nat, failed: bool)

  predicate Possible(p: seq<byte>, o: Outcome) {
    o.n <= |p| && (o.n < |p| ==> o.failed)
  }

  class Sink {
    var content: seq<byte>

    method Write(p: seq<byte>, o: Outcome) returns (n: nat, failed: bool)
      requires Possible(p, o)
      modifies this
      ensures content == old(content) + p[..o.n] && n == o.n && failed == o.failed
    {
      content := content + p[..o.n];
      n, failed := o.n, o.failed;
    }
  }

  /** One completed call on the writer: Write or WriteRTP, and the bytes the sink took. */
  datatype Call = Write(taken: seq<byte>) | WriteRTP(taken: seq<byte>)

  function Payloads(calls: seq<Call>): seq<byte> {
    if calls == [] then [] else Payloads(calls[..|calls| - 1]) + calls[|calls| - 1].taken
  }

  function WriteTotal(calls: seq<Call>): nat {
    if calls == [] then 0
    else
      WriteTotal(calls[..|calls| - 1]) + match calls[|calls| - 1] case Write(t) => |t| case WriteRTP(_) => 0
  }

  lemma AppendedBytes(before: seq<byte>, head: seq<byte>, body: seq<byte>, more: seq<byte>)
    ensures before + head + body + more == before + head + (body + more)
  {
  }

  lemma AddWraps(a: int, n: int)
    ensures (a % U32 + n) % U32 == (a + n) % U32
  {
  }

  lemma OneMoreCall(calls: seq<Call>, call: Call)
    ensures Payloads(calls + [call]) == Payloads(calls) + call.taken
    ensures WriteTotal(calls + [call]) == WriteTotal(calls) + match call case Write(t) => |t| case WriteRTP(_) => 0
  {
    assert (calls + [call])[..|calls + [call]| - 1] == calls;
  }

  class WAVWriter {
    const file: Sink
    const sampleRate: int
    const channels: int
    var bytesWritten: int
    var headerWritten: bool
    /** What the sink held before the header, and the calls made since. */
    ghost var before: seq<byte>
    ghost var calls: seq<Call>

    ghost predicate Valid()
      reads this, file
    {
      && sampleRate > 0 && channels > 0
      && bytesWritten == WriteTotal(calls) % U32
      && (if headerWritten then file.content == before + Header(sampleRate, channels) + Payloads(calls)
          else file.content == before && calls == [])
    }

    constructor (file: Sink, sampleRate: int, channels: int)
      ensures Valid() && !headerWritten && this.file == file && before == file.content
      ensures this.sampleRate == (if sampleRate <= 0 then 8000 else sampleRate)
      ensures this.channels == if channels <= 0 then 1 else channels
    {
      this.file := file;
      this.sampleRate := if sampleRate <= 0 then 8000 else sampleRate;
      this.channels := if channels <= 0 then 1 else channels;
      bytesWritten, headerWritten, before, calls := 0, false, file.content, [];
    }

    method WriteHeader(o: Outcome) returns (failed: bool)
      requires Valid() && !headerWritten && Possible(Header(sampleRate, channels), o)
      modifies this, file
      ensures Valid() && failed == o.failed && headerWritten == !o.failed && calls == old(calls)
      ensures bytesWritten == old(bytesWritten)
      ensures !o.failed ==> before == old(before)
    {
      var header := new byte[44](_ => 0);
      PutRiff(header);
      PutFormatHead(header, channels);
      PutFormatRates(header, sampleRate, channels);
      PutData(header);
      var n;
      n, failed := file.Write(header[..], o);
      if failed {
        before := file.content;
      } else {
        headerWritten := true;
        assert file.content == before + Header(sampleRate, channels) + [];
      }
    }

    /** Appends the bytes the sink takes; the counter adds them modulo 2^32. */
    method Write(p: seq<byte>, header: Outcome, o: Outcome) returns (n: nat, failed: bool)
      requires Valid() && Possible(p, o) && (!headerWritten ==> Possible(Header(sampleRate, channels), header))
      modifies this, file
      ensures Valid()
      ensures if !old(headerWritten) && header.failed then n == 0 && failed && !headerWritten && calls == old(calls)
              else headerWritten && before == old(before) && calls == old(calls) + [Call.Write(p[..o.n])]
                   && n == o.n && failed == o.failed && bytesWritten == (old(bytesWritten) + o.n) % 4294967296
    {
      if !headerWritten {
        failed := WriteHeader(header);
        if failed {
          return 0, true;
        }
      }
      AppendedBytes(before, Header(sampleRate, channels), Payloads(calls), p[..o.n]);
      n, failed := file.Write(p, o);
      AddWraps(WriteTotal(calls), n);
      bytesWritten := (bytesWritten + n) % U32;
      OneMoreCall(calls, Call.Write(p[..n]));
      calls := calls + [Call.Write(p[..n])];
    }

    /** Appends a packet's payload past the counter; an empty payload is not written. */
    method WriteRTP(payload: seq<byte>, o: Outcome) returns (failed: bool)
      requires Valid() && headerWritten && Possible(payload, o)
      modifies this, file
      ensures Valid() && headerWritten && before == old(before) && bytesWritten == old(bytesWritten)
      ensures if payload == [] then !failed && calls == old(calls)
              else failed == o.failed && calls == old(calls) + [Call.WriteRTP(payload[..o.n])]
    {
      if |payload| == 0 {
        return false;
      }
      AppendedBytes(before, Header(sampleRate, channels), Payloads(calls), payload[..o.n]);
      var n;
      n, failed := file.Write(payload, o);
      OneMoreCall(calls, Call.WriteRTP(payload[..n]));
      calls := calls + [Call.WriteRTP(payload[..n])];
    }
  }

  /** A writer is handed out only once its header is in place. */
  method NewWAVWriter(file: Sink?, sampleRate: int, channels: int, o: Outcome) returns (w: WAVWriter?)
    requires Possible(Header(if sampleRate <= 0 then 8000 else sampleRate, if channels <= 0 then 1 else channels), o)
    modifies file
    ensures w == null <==> file == null || o.failed
    ensures w != null ==> fresh(w) && w.Valid() && w.headerWritten && w.calls == []
                          && w.file == file && w.before == old(file.content)
                          && file.content == old(file.content) + Header(w.sampleRate, w.channels)
  {
    if file == null {
      return null;
    }
    w := new WAVWriter(file, sampleRate, channels);
    var failed := w.WriteHeader(o);
    if failed {
      return null;
    }
    assert Payloads([]) == [];
  }
}
