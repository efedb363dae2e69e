/** The write-ahead log as the code keeps it: a buffer of encoded records, and a file that a
    flush may extend by any prefix of that buffer before it fails.  The ghost fields say in
    records what the bytes hold.
 */
module WalFile {
  import opened Proto
  import opened WalBytes
  import opened Replay

  /** Strictly ascending indexes: what recovery's binary searches rely on. */
  predicate Ascending(entries: Log) {
    forall i, j :: 0 <= i < j < |entries| ==> entries[i].index < entries[j].index
  }

  lemma ApplyKeepsAscending(d: Disk, r: Record)
    requires Ascending(d.entries)
    ensures Ascending(ApplyRecord(d, r).entries)
  {
  }

  lemma {:induction false} BelowAscending(entries: Log, index: nat, k: nat)
    requires Ascending(entries) && k <= |entries|
    requires forall i :: 0 <= i < k ==> entries[i].index < index
    requires forall i :: k <= i < |entries| ==> entries[i].index >= index
    ensures |Below(entries, index)| == k
  {
    if k > 0 {
      BelowAscending(entries[1..], index, k - 1);
    }
  }

  /** Position of the first entry at or after `index`, by binary search. */
  method LowerBound(entries: Log, index: nat) returns (k: nat)
    requires Ascending(entries)
    ensures k == |Below(entries, index)|
  {
    var hi := |entries|;
    k := 0;
    while k < hi
      invariant k <= hi <= |entries|
      invariant forall i :: 0 <= i < k ==> entries[i].index < index
      invariant forall i :: hi <= i < |entries| ==> entries[i].index >= index
    {
      var mid := (k + hi) / 2;
      if entries[mid].index < index {
        k := mid + 1;
      } else {
        hi := mid;
      }
    }
    BelowAscending(entries, index, k);
  }

  /** One record of the recovery loop. */
  method Replayed(d: Disk, r: Record) returns (out: Disk)
    requires Ascending(d.entries)
    ensures out == ApplyRecord(d, r) && Ascending(out.entries)
  {
    match r {
      case HardStateRecord(hs) =>
        out := d.(hs := hs);
      case EntryRecord(e) =>
        var k := LowerBound(d.entries, e.index);
        out := d.(entries := d.entries[..k] + [e]);
      case SnapshotRecord(s) =>
        if s.discardSuffix {
          out := d.(entries := []);
        } else {
          var k := LowerBound(d.entries, s.index + 1);
          out := d.(entries := d.entries[k..]);
        }
        out := out.(snap := s);
    }
    ApplyKeepsAscending(d, r);
  }

  lemma EmptyEncoding(k: Codec, rs: seq<Record>)
    requires |EncodeAll(k, rs)| == 0
    ensures rs == []
  {
  }

  lemma WholeBuffer(k: Codec, rs: seq<Record>, j: nat)
    requires j < |rs|
    ensures |EncodeAll(k, rs)| >= |EncodeAll(k, rs[..j])| + |Encode(k, rs[j])|
  {
    assert rs == rs[..j] + rs[j..];
    EncodeAllConcat(k, rs[..j], rs[j..]);
    EncodeAllCons(k, rs[j..]);
  }

  /** What a flush that stopped after `written` bytes left in the file: some first records. */
  lemma PartlyWritten(k: Codec, file: Bytes, rs: seq<Record>, written: nat) returns (j: nat)
    requires k.Ok() && AllStorable(k, rs) && written <= |EncodeAll(k, rs)| && ParseAll(k, file).valid == |file|
    ensures j <= |rs| && ParseAll(k, file + EncodeAll(k, rs)[..written]).records == ParseAll(k, file).records + rs[..j]
    ensures written == |EncodeAll(k, rs)| ==>
              rs[..j] == rs && ParseAll(k, file + EncodeAll(k, rs)[..written]).valid == |file| + written
  {
    var cut;
    j, cut := SplitPrefix(k, rs, written);
    var tail := if j < |rs| then Encode(k, rs[j])[..cut] else [];
    if j < |rs| {
      TornRecordRefused(k, rs[j], cut);
      WholeBuffer(k, rs, j);
    }
    ScanAppended(k, file, rs[..j], tail);
  }

  /** The bytes before `offset` are the records `done`. */
  ghost predicate Scanned(k: Codec, data: Bytes, offset: nat, done: seq<Record>) {
    && offset <= |data|
    && ParseAll(k, data).records == done + ParseAll(k, data[offset..]).records
    && ParseAll(k, data).valid == offset + ParseAll(k, data[offset..]).valid
  }

  lemma ScannedOne(k: Codec, data: Bytes, offset: nat, done: seq<Record>)
    requires Scanned(k, data, offset, done) && ParseOne(k, data[offset..]).Some?
    ensures var p := ParseOne(k, data[offset..]).value; Scanned(k, data, offset + p.size, done + [p.record])
  {
    var p := ParseOne(k, data[offset..]).value;
    assert data[offset..][p.size..] == data[offset + p.size..];
    Associative(done, [p.record], ParseAll(k, data[offset + p.size..]).records);
  }

  lemma ScannedAll(k: Codec, data: Bytes, offset: nat, done: seq<Record>)
    requires Scanned(k, data, offset, done) && ParseOne(k, data[offset..]).None?
    ensures ParseAll(k, data) == Scan(done, offset) == ParseAll(k, data[..offset])
    ensures offset == |data| ==> data[..offset] == data
  {
    assert done + [] == done;
    ScanTruncated(k, data);
  }

  /** One record at `offset`, with the checks in the order the code makes them. */
  method ReadRecord(k: Codec, data: Bytes, offset: nat) returns (p: Option<Parsed>)
    requires offset <= |data|
    ensures p == ParseOne(k, data[offset..])
  {
    if |data| - offset < 8 {
      return None;
    }
    var h := DecodeHeader(data[offset..]);
    if !Supported(h.kind) {
      return None;
    }
    if |data| - offset - 8 < h.len {
      return None;
    }
    var payload := data[offset..][8..8 + h.len];
    if k.crc(payload) != h.crc {
      return None;
    }
    var r := k.unpack(h.kind, payload);
    if r.None? {
      return None;
    }
    return Some(Parsed(r.value, 8 + h.len));
  }

  ghost predicate Uses(c: Codec, k: Codec) {
    c == k
  }

  /** What the recovery loop has done before `offset`. */
  ghost predicate ReadSoFar(k: Codec, data: Bytes, offset: nat, done: seq<Record>, d: Disk) {
    && offset <= |data| && Ascending(d.entries)
    && forall c {:trigger Uses(k, c)} :: Uses(k, c) ==> Scanned(c, data, offset, done) && d == Replay.Recover(done)
  }

  lemma ReadNothing(k: Codec, data: Bytes)
    ensures ReadSoFar(k, data, 0, [], EMPTY_DISK)
  {
    assert data[0..] == data;
  }

  lemma ReadOneMore(k: Codec, data: Bytes, offset: nat, done: seq<Record>, d: Disk)
    requires ReadSoFar(k, data, offset, done, d) && ParseOne(k, data[offset..]).Some?
    ensures var p := ParseOne(k, data[offset..]).value;
            ReadSoFar(k, data, offset + p.size, done + [p.record], ApplyRecord(d, p.record))
  {
    assert Uses(k, k);
    var p := ParseOne(k, data[offset..]).value;
    ScannedOne(k, data, offset, done);
    ApplyKeepsAscending(d, p.record);
    assert (done + [p.record])[..|done|] == done;
  }

  lemma ReadToEnd(k: Codec, data: Bytes, offset: nat, done: seq<Record>, d: Disk)
    requires ReadSoFar(k, data, offset, done, d) && ParseOne(k, data[offset..]).None?
    ensures ParseAll(k, data) == Scan(done, offset) == ParseAll(k, data[..offset]) && d == Replay.Recover(done)
  {
    assert Uses(k, k);
    ScannedAll(k, data, offset, done);
  }

  /** The recovery loop: all readable records, replayed, and where they end. */
  method ReadLog(k: Codec, data: Bytes) returns (d: Disk, offset: nat, damaged: bool)
    ensures ParseAll(k, data).valid == offset <= |data| && (damaged <==> offset < |data|)
    ensures d == Replay.Recover(ParseAll(k, data).records) && Ascending(d.entries)
    ensures ParseAll(k, data[..offset]) == ParseAll(k, data)
  {
    offset, damaged, d := 0, false, EMPTY_DISK;
    ghost var done: seq<Record> := [];
    ReadNothing(k, data);
    while offset < |data|
      invariant ReadSoFar(k, data, offset, done, d) && !damaged
      decreases |data| - offset
    {
      var p := ReadRecord(k, data, offset);
      if p.None? {
        damaged := true;
        break;
      }
      ReadOneMore(k, data, offset, done, d);
      d := Replayed(d, p.value.record);
      done := done + [p.value.record];
      offset := offset + p.value.size;
    }
    ReadToEnd(k, data, offset, done, d);
  }

  class Wal {
    const codec: Codec
    var buffer: Bytes
    var file: Bytes
    var failed: bool
    ghost var pending: seq<Record>  // encoded in the buffer, not yet flushed
    ghost var durable: seq<Record>  // what reading the file back yields

    ghost predicate Valid()
      reads this
    {
      // Stated for the codec in use; named so that a proof unfolds it only where it needs to.
      forall k {:trigger Uses(codec, k)} :: Uses(codec, k) ==>
        && k.Ok()
        && AllStorable(k, pending)
        && buffer == EncodeAll(k, pending)
        && ParseAll(k, file).records == durable
        && (!failed ==> ParseAll(k, file).valid == |file|)
    }

    /** A log opened on a file with the given contents; `Recover` is called next. */
    constructor (codec: Codec, contents: Bytes)
      ensures this.codec == codec && file == contents && !failed && buffer == [] && pending == []
    {
      this.codec := codec;
      buffer, file, failed := [], contents, false;
      pending, durable := [], [];
    }

    /** A record over the 24-bit payload limit is refused and nothing is appended. */
    method AppendRecord(r: Record) returns (ok: bool)
      requires Valid()
      modifies this`buffer, this`pending
      ensures Valid()
      ensures ok == Storable(codec, r)
      ensures pending == if ok then old(pending) + [r] else old(pending)
    {
      assert Uses(codec, codec);
      var payload := codec.pack(r);
      if |payload| > MAX_PAYLOAD {
        return false;
      }
      buffer := buffer + EncodeHeader(Header(TypeOf(r), |payload|, codec.crc(payload)));
      buffer := buffer + payload;
      pending := pending + [r];
      assert pending[..|pending| - 1] == old(pending);
      return true;
    }

    /** The all-zero hard state is not written. */
    method SaveHardState(hs: HardState) returns (ok: bool)
      requires Valid()
      modifies this`buffer, this`pending
      ensures Valid()
      ensures hs == HardState(0, 0, 0) ==> ok && pending == old(pending)
      ensures hs != HardState(0, 0, 0) && ok ==> pending == old(pending) + [HardStateRecord(hs)]
      ensures !ok ==> pending == old(pending)
    {
      if hs.term == 0 && hs.vote == 0 && hs.commit == 0 {
        return true;
      }
      ok := AppendRecord(HardStateRecord(hs));
    }

    /** Makes the buffered records durable, or fails for good with some first records of them
        durable and the next one possibly torn. */
    method Sync() returns (ok: bool)
      requires Valid()
      modifies this
      ensures Valid()
      ensures ok == !failed && (old(failed) ==> failed)
      ensures ok ==> durable == old(durable) + old(pending) && pending == []
      ensures old(failed) ==> durable == old(durable)
      ensures !ok ==> exists j :: 0 <= j <= |old(pending)| && durable == old(durable) + old(pending)[..j]
    {
      assert Uses(codec, codec);
      if failed {
        assert durable == old(durable) + old(pending)[..0];
        return false;
      }
      if |buffer| == 0 {
        EmptyEncoding(codec, pending);
        return true;
      }
      var written: nat :| written <= |buffer|;
      var flushed: bool := *;
      ghost var j := PartlyWritten(codec, file, pending, written);
      file := file + buffer[..written];
      durable := durable + pending[..j];
      if written != |buffer| || !flushed {
        failed := true;
        buffer, pending := [], [];
        return false;
      }
      buffer, pending := [], [];
      return true;
    }

    /** Reads the file record by record up to the first one that is cut short or damaged, and
        cuts the file there.  `None` if that repair fails. */
    method Recover() returns (found: Option<Disk>)
      requires codec.Ok() && !failed && buffer == [] && pending == []
      modifies this`file, this`durable
      ensures found.None? ==> ParseAll(codec, old(file)).valid < |old(file)| && file == old(file)
      ensures found.Some? ==>
        && Valid() && file == old(file)[..ParseAll(codec, old(file)).valid]
        && durable == ParseAll(codec, old(file)).records
        && found.value == Replay.Recover(durable) && Ascending(found.value.entries)
    {
      var data := file;
      var d, offset, damaged := ReadLog(codec, data);
      ghost var done := ParseAll(codec, data).records;
      if damaged {
        var repaired: bool := *;
        if !repaired {
          return None;
        }
        file := data[..offset];
      }
      durable := done;
      return Some(d);
    }
  }
}
