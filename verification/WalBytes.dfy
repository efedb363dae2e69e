/** The byte format of the write-ahead log: an eight-byte header (type, 24-bit length, 32-bit
    checksum, little-endian) followed by the packed record, records one after another.

    Packing and the checksum are parameters: packing is taken to be lossless, and nothing is
    assumed about the checksum beyond its width.
 */
module WalBytes {
  import opened Proto

  type byte = b: nat | b < 256 witness 0

  type Bytes = seq<byte>

  const MAX_PAYLOAD: nat := 0xFF_FFFF

  datatype Codec = Codec(pack: Record -> Bytes, unpack: (byte, Bytes) -> Option<Record>, crc: Bytes -> nat) {
    ghost predicate Ok() {
      && (forall r: Record {:trigger pack(r)} :: unpack(TypeOf(r), pack(r)) == Some(r))
      && (forall s: Bytes {:trigger crc(s)} :: crc(s) < 0x1_0000_0000)
    }
  }

  function TypeOf(r: Record): byte {
    match r
    case EntryRecord(_) => 1
    case HardStateRecord(_) => 2
    case SnapshotRecord(_) => 4
  }

  predicate Supported(t: byte) {
    t == 1 || t == 2 || t == 4
  }

  // ---------- headers ----------

  datatype Header = Header(kind: byte, len: nat, crc: nat)

  function EncodeHeader(h: Header): (out: Bytes)
    ensures |out| == 8
  {
    [h.kind, h.len % 256, h.len / 0x100 % 256, h.len / 0x1_0000 % 256,
     h.crc % 256, h.crc / 0x100 % 256, h.crc / 0x1_0000 % 256, h.crc / 0x100_0000 % 256]
  }

  function DecodeHeader(data: Bytes): Header
    requires |data| >= 8
  {
    Header(data[0],
           data[1] + data[2] as nat * 0x100 + data[3] as nat * 0x1_0000,
           data[4] + data[5] as nat * 0x100 + data[6] as nat * 0x1_0000 + data[7] as nat * 0x100_0000)
  }

  lemma Digits(x: nat)
    requires x < 0x1_0000_0000
    ensures x % 256 + x / 0x100 % 256 * 0x100 + x / 0x1_0000 % 256 * 0x1_0000 + x / 0x100_0000 % 256 * 0x100_0000 == x
  {
  }

  /** A header survives the round trip if its length fits 24 bits and its checksum 32. */
  lemma HeaderRoundTrip(h: Header, rest: Bytes)
    requires h.len <= MAX_PAYLOAD && h.crc < 0x1_0000_0000
    ensures DecodeHeader(EncodeHeader(h) + rest) == h
  {
    Digits(h.len);
    Digits(h.crc);
  }

  // ---------- records ----------

  predicate Storable(k: Codec, r: Record) {
    |k.pack(r)| <= MAX_PAYLOAD
  }

  ghost predicate AllStorable(k: Codec, rs: seq<Record>) {
    forall i :: 0 <= i < |rs| ==> Storable(k, rs[i])
  }

  function Encode(k: Codec, r: Record): Bytes {
    EncodeHeader(Header(TypeOf(r), |k.pack(r)|, k.crc(k.pack(r)))) + k.pack(r)
  }

  function EncodeAll(k: Codec, rs: seq<Record>): Bytes {
    if |rs| == 0 then [] else EncodeAll(k, rs[..|rs| - 1]) + Encode(k, rs[|rs| - 1])
  }

  /** What reading one record at the start of `data` yields: the record and its size, or `None`
      if it is cut short, of an unknown type, fails its checksum or does not unpack. */
  datatype Parsed = Parsed(record: Record, size: nat)

  function ParseOne(k: Codec, data: Bytes): (p: Option<Parsed>)
    ensures p.Some? ==> 8 <= p.value.size <= |data|
  {
    if |data| < 8 then None
    else
      var h := DecodeHeader(data);
      if !Supported(h.kind) || |data| - 8 < h.len then None
      else
        var payload := data[8..8 + h.len];
        if k.crc(payload) != h.crc then None
        else
          var r := k.unpack(h.kind, payload);
          if r.None? then None else Some(Parsed(r.value, 8 + h.len))
  }

  datatype Scan = Scan(records: seq<Record>, valid: nat)

  /** All records up to the first one that cannot be read, and where they end. */
  function ParseAll(k: Codec, data: Bytes): (s: Scan)
    ensures s.valid <= |data|
    decreases |data|
  {
    var p := ParseOne(k, data);
    if p.None? then Scan([], 0)
    else
      var rest := ParseAll(k, data[p.value.size..]);
      Scan([p.value.record] + rest.records, p.value.size + rest.valid)
  }

  lemma ParseEncoded(k: Codec, r: Record, rest: Bytes)
    requires k.Ok() && Storable(k, r)
    ensures ParseOne(k, Encode(k, r) + rest) == Some(Parsed(r, |Encode(k, r)|))
  {
    var h := Header(TypeOf(r), |k.pack(r)|, k.crc(k.pack(r)));
    var data := Encode(k, r) + rest;
    HeaderRoundTrip(h, k.pack(r) + rest);
    assert data == EncodeHeader(h) + (k.pack(r) + rest);
    assert data[8..8 + h.len] == k.pack(r);
  }

  /** A record cut anywhere is recognised as such, by its size alone. */
  lemma TornRecordRefused(k: Codec, r: Record, cut: nat)
    requires k.Ok() && Storable(k, r) && cut < |Encode(k, r)|
    ensures ParseOne(k, Encode(k, r)[..cut]) == None
  {
    var h := Header(TypeOf(r), |k.pack(r)|, k.crc(k.pack(r)));
    if cut >= 8 {
      HeaderRoundTrip(h, k.pack(r)[..cut - 8]);
      assert Encode(k, r)[..cut] == EncodeHeader(h) + k.pack(r)[..cut - 8];
    }
  }

  lemma {:induction false} EncodeAllConcat(k: Codec, a: seq<Record>, b: seq<Record>)
    ensures EncodeAll(k, a + b) == EncodeAll(k, a) + EncodeAll(k, b)
  {
    if |b| == 0 {
      assert a + b == a;
    } else {
      assert (a + b)[..|a + b| - 1] == a + b[..|b| - 1];
      EncodeAllConcat(k, a, b[..|b| - 1]);
    }
  }

  lemma EncodeAllCons(k: Codec, rs: seq<Record>)
    requires |rs| > 0
    ensures EncodeAll(k, rs) == Encode(k, rs[0]) + EncodeAll(k, rs[1..])
  {
    assert rs == [rs[0]] + rs[1..];
    EncodeAllConcat(k, [rs[0]], rs[1..]);
    assert [rs[0]][..0] == [];
    assert EncodeAll(k, [rs[0]]) == Encode(k, rs[0]);
  }

  lemma ParseAllStep(k: Codec, r: Record, rest: Bytes)
    requires k.Ok() && Storable(k, r)
    ensures ParseAll(k, Encode(k, r) + rest) ==
            Scan([r] + ParseAll(k, rest).records, |Encode(k, r)| + ParseAll(k, rest).valid)
  {
    ParseEncoded(k, r, rest);
    assert (Encode(k, r) + rest)[|Encode(k, r)|..] == rest;
  }

  /** Reading back what was written, followed by bytes that are not a readable record, yields
      exactly the records written and the length of their encoding. */
  lemma {:induction false} ScanEncoded(k: Codec, rs: seq<Record>, tail: Bytes)
    requires k.Ok() && AllStorable(k, rs) && ParseOne(k, tail) == None
    ensures ParseAll(k, EncodeAll(k, rs) + tail) == Scan(rs, |EncodeAll(k, rs)|)
    decreases |rs|
  {
    if |rs| == 0 {
      assert EncodeAll(k, rs) + tail == tail;
    } else {
      var rest := EncodeAll(k, rs[1..]) + tail;
      EncodeAllCons(k, rs);
      assert EncodeAll(k, rs) + tail == Encode(k, rs[0]) + rest;
      ParseAllStep(k, rs[0], rest);
      ScanEncoded(k, rs[1..], tail);
      assert rs == [rs[0]] + rs[1..];
    }
  }

  /** Torn-tail repair: a log that ends in any strict prefix of one more record recovers as the
      complete records, is cut back to their end, and accepts further records there. */
  lemma TornTailRecovered(k: Codec, rs: seq<Record>, r: Record, cut: nat, later: seq<Record>)
    requires k.Ok() && AllStorable(k, rs) && Storable(k, r) && cut < |Encode(k, r)| && AllStorable(k, later)
    ensures var data := EncodeAll(k, rs) + Encode(k, r)[..cut];
            var s := ParseAll(k, data);
            && s == Scan(rs, |EncodeAll(k, rs)|)
            && data[..s.valid] == EncodeAll(k, rs)
            && ParseAll(k, data[..s.valid] + EncodeAll(k, later)).records == rs + later
  {
    TornRecordRefused(k, r, cut);
    ScanEncoded(k, rs, Encode(k, r)[..cut]);
    EncodeAllConcat(k, rs, later);
    ScanEncoded(k, rs + later, []);
    assert EncodeAll(k, rs + later) + [] == EncodeAll(k, rs) + EncodeAll(k, later);
  }

  /** Any prefix of an encoded log is some of its records followed by a strict prefix of the next. */
  lemma {:induction false} SplitPrefix(k: Codec, rs: seq<Record>, n: nat) returns (j: nat, cut: nat)
    requires n <= |EncodeAll(k, rs)|
    ensures j <= |rs| && (j < |rs| ==> cut < |Encode(k, rs[j])|) && (j == |rs| ==> cut == 0)
    ensures EncodeAll(k, rs)[..n] == EncodeAll(k, rs[..j]) + if j < |rs| then Encode(k, rs[j])[..cut] else []
    decreases |rs|
  {
    if |rs| == 0 {
      j, cut := 0, 0;
    } else {
      var front := rs[..|rs| - 1];
      var last := rs[|rs| - 1];
      if n < |EncodeAll(k, front)| {
        j, cut := SplitPrefix(k, front, n);
        assert EncodeAll(k, rs)[..n] == EncodeAll(k, front)[..n];
        assert front[..j] == rs[..j];
      } else if n < |EncodeAll(k, rs)| {
        j, cut := |rs| - 1, n - |EncodeAll(k, front)|;
        assert EncodeAll(k, rs)[..n] == EncodeAll(k, front) + Encode(k, last)[..cut];
      } else {
        j, cut := |rs|, 0;
        assert rs[..|rs|] == rs;
      }
    }
  }

  /** What was readable stays readable, and means the same, when bytes are added. */
  lemma ParseOneExtends(k: Codec, data: Bytes, more: Bytes)
    requires ParseOne(k, data).Some?
    ensures ParseOne(k, data + more) == ParseOne(k, data)
  {
    var h := DecodeHeader(data);
    assert DecodeHeader(data + more) == h;
    assert (data + more)[8..8 + h.len] == data[8..8 + h.len];
  }

  /** The first record, if there is one, and then the rest. */
  lemma ParseAllCons(k: Codec, data: Bytes, more: Bytes)
    requires ParseOne(k, data).Some?
    ensures var p := ParseOne(k, data).value;
            var rest := ParseAll(k, data[p.size..] + more);
            ParseAll(k, data + more) == Scan([p.record] + rest.records, p.size + rest.valid)
  {
    ParseOneExtends(k, data, more);
    var size := ParseOne(k, data).value.size;
    assert (data + more)[size..] == data[size..] + more;
  }

  lemma Associative<T>(a: seq<T>, b: seq<T>, c: seq<T>)
    ensures a + (b + c) == a + b + c
  {
  }

  lemma SliceOfPrefix<T>(s: seq<T>, keep: nat, a: nat, b: nat)
    requires a <= b <= keep <= |s|
    ensures s[..keep][a..b] == s[a..b]
  {
  }

  /** Appending to a log that is readable to its end, whatever bytes it consists of. */
  lemma {:induction false} ScanContinues(k: Codec, data: Bytes, more: Bytes)
    requires ParseAll(k, data).valid == |data|
    ensures ParseAll(k, data + more) ==
            Scan(ParseAll(k, data).records + ParseAll(k, more).records, |data| + ParseAll(k, more).valid)
    decreases |data|
  {
    var p := ParseOne(k, data);
    if p.None? {
      assert data + more == more;
    } else {
      var rest := data[p.value.size..];
      ParseAllCons(k, data, more);
      ParseAllCons(k, data, []);
      assert data + [] == data && rest + [] == rest;
      ScanContinues(k, rest, more);
      Associative([p.value.record], ParseAll(k, rest).records, ParseAll(k, more).records);
    }
  }

  lemma ScanAppended(k: Codec, data: Bytes, rs: seq<Record>, tail: Bytes)
    requires k.Ok() && AllStorable(k, rs) && ParseOne(k, tail) == None
    requires ParseAll(k, data).valid == |data|
    ensures ParseAll(k, data + (EncodeAll(k, rs) + tail)) ==
            Scan(ParseAll(k, data).records + rs, |data| + |EncodeAll(k, rs)|)
  {
    ScanContinues(k, data, EncodeAll(k, rs) + tail);
    ScanEncoded(k, rs, tail);
  }

  lemma ParsePrefix(k: Codec, data: Bytes, keep: nat)
    requires ParseOne(k, data).Some? && ParseOne(k, data).value.size <= keep <= |data|
    ensures ParseOne(k, data[..keep]) == ParseOne(k, data)
  {
    var h := DecodeHeader(data);
    assert DecodeHeader(data[..keep]) == h;
    SliceOfPrefix(data, keep, 8, 8 + h.len);
  }

  /** Cutting a log after its last readable record leaves it readable to its end. */
  lemma {:induction false} ScanTruncated(k: Codec, data: Bytes)
    ensures var s := ParseAll(k, data);
            ParseAll(k, data[..s.valid]) == s
    decreases |data|
  {
    var p := ParseOne(k, data);
    if p.Some? {
      var size, rest := p.value.size, data[p.value.size..];
      var keep := size + ParseAll(k, rest).valid;
      ScanTruncated(k, rest);
      ParsePrefix(k, data, keep);
      assert data[..keep][size..] == rest[..keep - size];
    }
  }
}
