/** The incremental RESP2 decoder of client commands, and the printer it inverts.

    A protocol error is a thrown exception in the code; here it is the result `Bad`.
 */
module Resp {
  import opened Proto

  const SIZE_LIMIT: nat := 0x1_0000_0000_0000_0000

  /** Limits are machine words. */
  datatype Limits = Limits(buffer: nat, elements: nat, bulk: nat) {
    predicate Valid() {
      buffer < SIZE_LIMIT && elements < SIZE_LIMIT && bulk < SIZE_LIMIT
    }
  }

  const DEFAULTS := Limits(2 * 1024 * 1024, 1024, 1024 * 1024)

  // ---------- lines ----------

  predicate CrlfAt(s: string, i: nat) {
    i + 1 < |s| && s[i] == '\r' && s[i + 1] == '\n'
  }

  /** Position of the first line end at or after `from`. */
  function FindCrlf(s: string, from: nat): (p: Option<nat>)
    ensures p.Some? ==> from <= p.value && CrlfAt(s, p.value) && forall q :: from <= q < p.value ==> !CrlfAt(s, q)
    ensures p.None? ==> forall q :: from <= q ==> !CrlfAt(s, q)
    decreases |s| - from
  {
    if from + 1 >= |s| then None else if CrlfAt(s, from) then Some(from) else FindCrlf(s, from + 1)
  }

  lemma {:induction false} FindUnique(s: string, from: nat, p: nat)
    requires from <= p && CrlfAt(s, p) && forall q :: from <= q < p ==> !CrlfAt(s, q)
    ensures FindCrlf(s, from) == Some(p)
    decreases p - from
  {
    if from < p {
      FindUnique(s, from + 1, p);
    }
  }

  lemma FindExtends(s: string, t: string, from: nat)
    requires FindCrlf(s, from).Some?
    ensures FindCrlf(s + t, from) == FindCrlf(s, from)
  {
    var p := FindCrlf(s, from).value;
    forall q | from <= q < p ensures !CrlfAt(s + t, q) {
      assert !CrlfAt(s, q);
    }
    FindUnique(s + t, from, p);
  }

  // ---------- decimal sizes ----------

  predicate IsDigit(c: char) {
    '0' <= c <= '9'
  }

  predicate AllDigits(s: string) {
    forall i :: 0 <= i < |s| ==> IsDigit(s[i])
  }

  function DigitValue(c: char): nat
    requires IsDigit(c)
  {
    c as nat - '0' as nat
  }

  function Number(s: string): nat
    requires AllDigits(s)
  {
    if |s| == 0 then 0 else Number(s[..|s| - 1]) * 10 + DigitValue(s[|s| - 1])
  }

  /** Only digits, at least one, and a value that fits a machine word. */
  function ParseSize(line: string): Option<nat> {
    if |line| == 0 || !AllDigits(line) || Number(line) >= SIZE_LIMIT then None else Some(Number(line))
  }

  function Print(n: nat): (s: string)
    ensures |s| > 0 && AllDigits(s) && Number(s) == n
  {
    var digit := ('0' as nat + n % 10) as char;
    if n < 10 then assert [digit][..0] == []; [digit]
    else
      var s := Print(n / 10) + [digit];
      assert s[..|s| - 1] == Print(n / 10);
      s
  }

  // ---------- one bulk string ----------

  datatype Step = Item(value: string, next: nat) | More | Bad

  function ReadBulk(s: string, cursor: nat, limits: Limits): (r: Step)
    requires cursor <= |s|
    ensures r.Item? ==> cursor < r.next <= |s|
  {
    if cursor == |s| then More
    else if s[cursor] != '$' then Bad
    else
      var end := FindCrlf(s, cursor + 1);
      if end.None? then More
      else
        var length := ParseSize(s[cursor + 1..end.value]);
        var c := end.value + 2;
        if length.None? || length.value > limits.bulk then Bad
        else if |s| - c < length.value || |s| - c - length.value < 2 then More
        else if s[c + length.value] != '\r' || s[c + length.value + 1] != '\n' then Bad
        else Item(s[c..c + length.value], c + length.value + 2)
  }

  /** A result other than `More` does not change when more bytes arrive. */
  lemma BulkExtends(s: string, t: string, cursor: nat, limits: Limits)
    requires cursor <= |s| && !ReadBulk(s, cursor, limits).More?
    ensures ReadBulk(s + t, cursor, limits) == ReadBulk(s, cursor, limits)
  {
    if s[cursor] == '$' {
      FindExtends(s, t, cursor + 1);
      var end := FindCrlf(s, cursor + 1).value;
      assert (s + t)[cursor + 1..end] == s[cursor + 1..end];
      var r := ReadBulk(s, cursor, limits);
      if r.Item? {
        assert (s + t)[end + 2..r.next - 2] == s[end + 2..r.next - 2];
      }
    }
  }

  // ---------- one command ----------

  datatype Parsed = Whole(args: seq<string>, consumed: nat) | Incomplete | Malformed

  function ReadArgs(s: string, cursor: nat, count: nat, limits: Limits): (r: Parsed)
    requires cursor <= |s|
    ensures r.Whole? ==> cursor <= r.consumed <= |s| && |r.args| == count
    decreases count
  {
    if count == 0 then Whole([], cursor)
    else
      match ReadBulk(s, cursor, limits)
      case More => Incomplete
      case Bad => Malformed
      case Item(value, next) => Prefixed([value], ReadArgs(s, next, count - 1, limits))
  }

  function Prefixed(args: seq<string>, p: Parsed): Parsed {
    if p.Whole? then Whole(args + p.args, p.consumed) else p
  }

  function ParseCommand(s: string, limits: Limits): (r: Parsed)
    ensures r.Whole? ==> 0 < r.consumed <= |s|
  {
    if s == "" then Incomplete
    else if s[0] != '*' then Malformed
    else
      var end := FindCrlf(s, 1);
      if end.None? then Incomplete
      else
        var count := ParseSize(s[1..end.value]);
        if count.None? || count.value > limits.elements then Malformed
        else ReadArgs(s, end.value + 2, count.value, limits)
  }

  lemma {:induction false} ArgsExtend(s: string, t: string, cursor: nat, count: nat, limits: Limits)
    requires cursor <= |s| && !ReadArgs(s, cursor, count, limits).Incomplete?
    ensures ReadArgs(s + t, cursor, count, limits) == ReadArgs(s, cursor, count, limits)
    decreases count
  {
    if count > 0 {
      var r := ReadBulk(s, cursor, limits);
      BulkExtends(s, t, cursor, limits);
      if r.Item? {
        ArgsExtend(s, t, r.next, count - 1, limits);
      }
    }
  }

  /** A complete command, or an error, is not changed by bytes that follow. */
  lemma CommandExtends(s: string, t: string, limits: Limits)
    requires !ParseCommand(s, limits).Incomplete?
    ensures ParseCommand(s + t, limits) == ParseCommand(s, limits)
  {
    if s[0] == '*' {
      FindExtends(s, t, 1);
      var end := FindCrlf(s, 1).value;
      assert (s + t)[1..end] == s[1..end];
      var count := ParseSize(s[1..end]);
      if count.Some? && count.value <= limits.elements {
        ArgsExtend(s, t, end + 2, count.value, limits);
      }
    }
  }

  /** Nor does a command depend on the bytes behind its end. */
  lemma BulkStops(s: string, k: nat, cursor: nat, limits: Limits)
    requires cursor <= |s| && ReadBulk(s, cursor, limits).Item? && ReadBulk(s, cursor, limits).next <= k <= |s|
    ensures ReadBulk(s[..k], cursor, limits) == ReadBulk(s, cursor, limits)
  {
    var end := FindCrlf(s, cursor + 1).value;
    FindStops(s, k, cursor + 1, end);
    assert s[..k][cursor + 1..end] == s[cursor + 1..end];
    var next := ReadBulk(s, cursor, limits).next;
    assert s[..k][end + 2..next - 2] == s[end + 2..next - 2];
  }

  lemma FindStops(s: string, k: nat, from: nat, p: nat)
    requires FindCrlf(s, from) == Some(p) && p + 2 <= k <= |s|
    ensures FindCrlf(s[..k], from) == Some(p)
  {
    forall q | from <= q < p ensures !CrlfAt(s[..k], q) {
      assert !CrlfAt(s, q);
    }
    FindUnique(s[..k], from, p);
  }

  lemma {:induction false} ArgsStop(s: string, k: nat, cursor: nat, count: nat, limits: Limits)
    requires cursor <= |s| && ReadArgs(s, cursor, count, limits).Whole?
    requires ReadArgs(s, cursor, count, limits).consumed <= k <= |s|
    ensures cursor <= k && ReadArgs(s[..k], cursor, count, limits) == ReadArgs(s, cursor, count, limits)
    decreases count
  {
    if count > 0 {
      var r := ReadBulk(s, cursor, limits);
      ArgsStop(s, k, r.next, count - 1, limits);
      BulkStops(s, k, cursor, limits);
    }
  }

  lemma CommandStops(s: string, k: nat, limits: Limits)
    requires ParseCommand(s, limits).Whole? && ParseCommand(s, limits).consumed <= k <= |s|
    ensures ParseCommand(s[..k], limits) == ParseCommand(s, limits)
  {
    var end := FindCrlf(s, 1).value;
    ArgsStop(s, k, end + 2, ParseSize(s[1..end]).value, limits);
    FindStops(s, k, 1, end);
    assert s[..k][1..end] == s[1..end];
  }

  // ---------- a whole stream ----------

  datatype Stream = Stream(commands: seq<seq<string>>, left: string, ok: bool)

  /** All complete commands of a stream and the bytes left over. */
  function Decode(s: string, limits: Limits): Stream
    decreases |s|
  {
    match ParseCommand(s, limits)
    case Incomplete => Stream([], s, true)
    case Malformed => Stream([], s, false)
    case Whole(args, consumed) =>
      var rest := Decode(s[consumed..], limits);
      Stream([args] + rest.commands, rest.left, rest.ok)
  }

  /** Decoding may stop anywhere and resume with what was left over. */
  lemma {:induction false} DecodeResumes(s: string, t: string, limits: Limits)
    requires Decode(s, limits).ok
    ensures var first := Decode(s, limits);
            var second := Decode(first.left + t, limits);
            Decode(s + t, limits) == Stream(first.commands + second.commands, second.left, second.ok)
    decreases |s|
  {
    var p := ParseCommand(s, limits);
    if p.Whole? {
      CommandExtends(s, t, limits);
      DropJoined(s, t, p.consumed);
      DecodeResumes(s[p.consumed..], t, limits);
      Assoc([p.args], Decode(s[p.consumed..], limits).commands,
            Decode(Decode(s, limits).left + t, limits).commands);
    } else {
      assert [] + Decode(s + t, limits).commands == Decode(s + t, limits).commands;
    }
  }

  lemma DropJoined(s: string, t: string, k: nat)
    requires k <= |s|
    ensures (s + t)[k..] == s[k..] + t
  {
  }

  lemma Assoc(a: seq<seq<string>>, b: seq<seq<string>>, c: seq<seq<string>>)
    ensures a + (b + c) == a + b + c
  {
  }

  lemma {:induction false} ErrorStays(s: string, t: string, limits: Limits)
    requires !Decode(s, limits).ok
    ensures !Decode(s + t, limits).ok
    decreases |s|
  {
    var p := ParseCommand(s, limits);
    CommandExtends(s, t, limits);
    if p.Whole? {
      assert (s + t)[p.consumed..] == s[p.consumed..] + t;
      ErrorStays(s[p.consumed..], t, limits);
    }
  }

  // ---------- feeding in chunks ----------

  /** One call of the decoder; an error discards the commands of the call. */
  datatype Fed = Fed(commands: seq<seq<string>>, left: string) | Refused

  function Feed(buffer: string, bytes: string, limits: Limits): Fed {
    if |buffer| + |bytes| > limits.buffer then Refused
    else
      var d := Decode(buffer + bytes, limits);
      if d.ok then Fed(d.commands, d.left) else Refused
  }

  /** The calls of one connection, up to the first that fails: the commands they handed on, the
      bytes then buffered, and how many calls succeeded. */
  datatype Session = Session(commands: seq<seq<string>>, left: string, calls: nat)

  function FeedAll(buffer: string, chunks: seq<string>, limits: Limits): (s: Session)
    ensures s.calls <= |chunks|
    decreases |chunks|
  {
    if |chunks| == 0 || Feed(buffer, chunks[0], limits).Refused? then Session([], buffer, 0)
    else
      var first := Feed(buffer, chunks[0], limits);
      var rest := FeedAll(first.left, chunks[1..], limits);
      Session(first.commands + rest.commands, rest.left, 1 + rest.calls)
  }

  function Joined(chunks: seq<string>): string {
    if |chunks| == 0 then "" else chunks[0] + Joined(chunks[1..])
  }

  /** The complete commands among the bytes that no successful call took. */
  function Lost(buffer: string, chunks: seq<string>, limits: Limits): seq<seq<string>> {
    var s := FeedAll(buffer, chunks, limits);
    Decode(s.left + Joined(chunks[s.calls..]), limits).commands
  }

  /** Call `i` has room for its chunk beside what the bytes before it leave over. */
  predicate HasRoom(buffer: string, chunks: seq<string>, limits: Limits, i: nat)
    requires i < |chunks|
  {
    |Decode(buffer + Joined(chunks[..i]), limits).left| + |chunks[i]| <= limits.buffer
  }

  predicate Roomy(buffer: string, chunks: seq<string>, limits: Limits) {
    forall i: nat :: i < |chunks| ==> HasRoom(buffer, chunks, limits, i)
  }

  lemma {:induction false} LeftIsShorter(s: string, limits: Limits)
    ensures |Decode(s, limits).left| <= |s|
    decreases |s|
  {
    var p := ParseCommand(s, limits);
    if p.Whole? {
      LeftIsShorter(s[p.consumed..], limits);
    }
  }

  /** What is left over has no complete command in it. */
  lemma {:induction false} LeftIsIncomplete(s: string, limits: Limits)
    requires Decode(s, limits).ok
    ensures Settled(Decode(s, limits).left, limits)
    decreases |s|
  {
    var p := ParseCommand(s, limits);
    if p.Whole? {
      LeftIsIncomplete(s[p.consumed..], limits);
    }
  }

  predicate Settled(buffer: string, limits: Limits) {
    Decode(buffer, limits) == Stream([], buffer, true)
  }

  lemma JoinedSplit(buffer: string, chunks: seq<string>)
    requires |chunks| > 0
    ensures buffer + Joined(chunks) == buffer + chunks[0] + Joined(chunks[1..])
  {
  }

  lemma FedOnce(buffer: string, bytes: string, limits: Limits)
    requires Feed(buffer, bytes, limits).Fed?
    ensures var d := Decode(buffer + bytes, limits);
            d.ok && Feed(buffer, bytes, limits) == Fed(d.commands, d.left) && Settled(d.left, limits)
  {
    LeftIsIncomplete(buffer + bytes, limits);
  }

  /** Conservation: however the bytes are cut and wherever the session ends, the commands of the
      whole stream are those handed on, followed by those lost. */
  lemma {:induction false} HandedOnOrLost(buffer: string, chunks: seq<string>, limits: Limits)
    requires Settled(buffer, limits)
    ensures var s := FeedAll(buffer, chunks, limits);
            var rest := Decode(s.left + Joined(chunks[s.calls..]), limits);
            && Settled(s.left, limits)
            && Decode(buffer + Joined(chunks), limits) == Stream(s.commands + rest.commands, rest.left, rest.ok)
    decreases |chunks|
  {
    if |chunks| == 0 || Feed(buffer, chunks[0], limits).Refused? {
      assert chunks[0..] == chunks;
      var d := Decode(buffer + Joined(chunks), limits);
      assert [] + d.commands == d.commands;
    } else {
      var first, tail := buffer + chunks[0], Joined(chunks[1..]);
      FedOnce(buffer, chunks[0], limits);
      HandedOnOrLost(Decode(first, limits).left, chunks[1..], limits);
      DecodeResumes(first, tail, limits);
      JoinedSplit(buffer, chunks);
      SessionSplit(buffer, chunks, limits);
      var s := FeedAll(buffer, chunks, limits);
      Assoc(Feed(buffer, chunks[0], limits).commands, FeedAll(Decode(first, limits).left, chunks[1..], limits).commands,
            Decode(s.left + Joined(chunks[s.calls..]), limits).commands);
    }
  }

  /** The first call and the session that follows it. */
  lemma SessionSplit(buffer: string, chunks: seq<string>, limits: Limits)
    requires |chunks| > 0 && Feed(buffer, chunks[0], limits).Fed?
    ensures var s, rest := FeedAll(buffer, chunks, limits),
            FeedAll(Feed(buffer, chunks[0], limits).left, chunks[1..], limits);
            && s.left == rest.left && s.calls == 1 + rest.calls && chunks[s.calls..] == chunks[1..][rest.calls..]
            && s.commands == Feed(buffer, chunks[0], limits).commands + rest.commands
  {
  }

  /** If every call succeeds, commands and leftover are those of the whole stream. */
  lemma ChunkingInvariant(buffer: string, chunks: seq<string>, limits: Limits)
    requires Settled(buffer, limits) && FeedAll(buffer, chunks, limits).calls == |chunks|
    ensures var s := FeedAll(buffer, chunks, limits);
            Decode(buffer + Joined(chunks), limits) == Stream(s.commands, s.left, true)
  {
    var s := FeedAll(buffer, chunks, limits);
    HandedOnOrLost(buffer, chunks, limits);
    assert s.left + Joined(chunks[s.calls..]) == s.left;
    assert s.commands + [] == s.commands;
  }

  /** Every call succeeds if and only if the stream has no error and every call has room. */
  lemma {:induction false} ChunkingSucceeds(buffer: string, chunks: seq<string>, limits: Limits)
    requires Settled(buffer, limits)
    ensures FeedAll(buffer, chunks, limits).calls == |chunks| <==>
              Decode(buffer + Joined(chunks), limits).ok && Roomy(buffer, chunks, limits)
    decreases |chunks|
  {
    if |chunks| == 0 {
      assert buffer + Joined(chunks) == buffer;
    } else {
      JoinedSplit(buffer, chunks);
      FirstRoom(buffer, chunks, limits);
      var first, tail := buffer + chunks[0], Joined(chunks[1..]);
      if Decode(first, limits).ok {
        DecodeResumes(first, tail, limits);
        LeftIsIncomplete(first, limits);
        ChunkingSucceeds(Decode(first, limits).left, chunks[1..], limits);
        RoomAfterFirst(buffer, chunks, limits);
      } else {
        ErrorStays(first, tail, limits);
      }
    }
  }

  lemma FirstRoom(buffer: string, chunks: seq<string>, limits: Limits)
    requires Settled(buffer, limits) && |chunks| > 0
    ensures HasRoom(buffer, chunks, limits, 0) <==> |buffer| + |chunks[0]| <= limits.buffer
  {
    assert buffer + Joined(chunks[..0]) == buffer;
  }

  lemma RoomAfterFirst(buffer: string, chunks: seq<string>, limits: Limits)
    requires |chunks| > 0 && Decode(buffer + chunks[0], limits).ok
    ensures Roomy(buffer, chunks, limits) <==>
              HasRoom(buffer, chunks, limits, 0) && Roomy(Decode(buffer + chunks[0], limits).left, chunks[1..], limits)
  {
    var left := Decode(buffer + chunks[0], limits).left;
    forall i: nat | i < |chunks[1..]|
      ensures HasRoom(left, chunks[1..], limits, i) <==> HasRoom(buffer, chunks, limits, i + 1)
    {
      assert chunks[..i + 1][1..] == chunks[1..][..i];
      JoinedSplit(buffer, chunks[..i + 1]);
      DecodeResumes(buffer + chunks[0], Joined(chunks[1..][..i]), limits);
    }
    if Roomy(left, chunks[1..], limits) && HasRoom(buffer, chunks, limits, 0) {
      forall i: nat | i < |chunks| ensures HasRoom(buffer, chunks, limits, i) {
        if i > 0 { assert HasRoom(left, chunks[1..], limits, i - 1); }
      }
    }
    if Roomy(buffer, chunks, limits) {
      forall i: nat | i < |chunks[1..]| ensures HasRoom(left, chunks[1..], limits, i) {
        assert HasRoom(buffer, chunks, limits, i + 1);
      }
    }
  }

  /** Two ways to cut the same bytes hand on the same commands if and only if equally many are
      lost; on a stream without error, cut with room, nothing is lost. */
  lemma ChunkingIrrelevant(buffer: string, a: seq<string>, b: seq<string>, limits: Limits)
    requires Settled(buffer, limits) && Joined(a) == Joined(b)
    ensures FeedAll(buffer, a, limits).commands == FeedAll(buffer, b, limits).commands <==>
              |Lost(buffer, a, limits)| == |Lost(buffer, b, limits)|
    ensures Decode(buffer + Joined(a), limits).ok && Roomy(buffer, a, limits) && Roomy(buffer, b, limits) ==>
              && FeedAll(buffer, a, limits).left == FeedAll(buffer, b, limits).left
              && |Lost(buffer, a, limits)| == 0 == |Lost(buffer, b, limits)|
  {
    HandedOnOrLost(buffer, a, limits);
    HandedOnOrLost(buffer, b, limits);
    SameSplit(FeedAll(buffer, a, limits).commands, Lost(buffer, a, limits),
              FeedAll(buffer, b, limits).commands, Lost(buffer, b, limits));
    if Decode(buffer + Joined(a), limits).ok && Roomy(buffer, a, limits) && Roomy(buffer, b, limits) {
      ChunkingSucceeds(buffer, a, limits);
      ChunkingSucceeds(buffer, b, limits);
      ChunkingInvariant(buffer, a, limits);
      ChunkingInvariant(buffer, b, limits);
    }
  }

  lemma SameSplit(p: seq<seq<string>>, q: seq<seq<string>>, r: seq<seq<string>>, s: seq<seq<string>>)
    requires p + q == r + s
    ensures p == r <==> |q| == |s|
  {
    assert |p + q| == |p| + |q| && |r + s| == |r| + |s|;
    if |q| == |s| {
      assert p == (p + q)[..|p|] == (r + s)[..|r|] == r;
    }
  }

  // ---------- commands before an error ----------

  /** Some cut can hand on a command: there is a first one, and it fits the buffer. */
  predicate Deliverable(buffer: string, bytes: string, limits: Limits) {
    var p := ParseCommand(buffer + bytes, limits);
    p.Whole? && p.consumed <= limits.buffer
  }

  /** A failing call discards the commands that came before the error in the same chunk, so the cut
      decides whether they are handed on: all cuts of the same bytes hand on the same commands if
      and only if no cut can hand on any, or the bytes have no error and fit the buffer at once. */
  lemma CutsAgree(buffer: string, bytes: string, limits: Limits)
    requires Settled(buffer, limits)
    ensures (forall a, b {:trigger Joined(a), Joined(b)} :: Joined(a) == bytes && Joined(b) == bytes ==>
               FeedAll(buffer, a, limits).commands == FeedAll(buffer, b, limits).commands) <==>
            || !Deliverable(buffer, bytes, limits)
            || (Decode(buffer + bytes, limits).ok && |buffer| + |bytes| <= limits.buffer)
  {
    if !Deliverable(buffer, bytes, limits) {
      forall a, b | Joined(a) == bytes && Joined(b) == bytes
        ensures FeedAll(buffer, a, limits).commands == FeedAll(buffer, b, limits).commands
      {
        NothingHandedOn(buffer, a, limits);
        NothingHandedOn(buffer, b, limits);
      }
    } else if Decode(buffer + bytes, limits).ok && |buffer| + |bytes| <= limits.buffer {
      forall a, b | Joined(a) == bytes && Joined(b) == bytes
        ensures FeedAll(buffer, a, limits).commands == FeedAll(buffer, b, limits).commands
      {
        AllHandedOn(buffer, a, limits);
        AllHandedOn(buffer, b, limits);
      }
    } else {
      var a, b := CutsDiffer(buffer, bytes, limits);
    }
  }

  /** Without a first command, or with one beyond the buffer, nothing is handed on. */
  lemma {:induction false} NothingHandedOn(buffer: string, chunks: seq<string>, limits: Limits)
    requires Settled(buffer, limits) && !Deliverable(buffer, Joined(chunks), limits)
    ensures FeedAll(buffer, chunks, limits).commands == []
    decreases |chunks|
  {
    if |chunks| > 0 && Feed(buffer, chunks[0], limits).Fed? {
      var first, tail := buffer + chunks[0], Joined(chunks[1..]);
      JoinedSplit(buffer, chunks);
      FedOnce(buffer, chunks[0], limits);
      if !ParseCommand(first, limits).Incomplete? { CommandExtends(first, tail, limits); }
      assert Decode(first, limits) == Stream([], first, true);
      NothingHandedOn(first, chunks[1..], limits);
    }
  }

  lemma AllHandedOn(buffer: string, chunks: seq<string>, limits: Limits)
    requires Settled(buffer, limits) && |buffer| + |Joined(chunks)| <= limits.buffer
    requires Decode(buffer + Joined(chunks), limits).ok
    ensures FeedAll(buffer, chunks, limits).commands == Decode(buffer + Joined(chunks), limits).commands
  {
    RoomForAll(buffer, chunks, limits);
    ChunkingSucceeds(buffer, chunks, limits);
    ChunkingInvariant(buffer, chunks, limits);
  }

  /** A chunking of no more bytes than the buffer holds always has room. */
  lemma RoomForAll(buffer: string, chunks: seq<string>, limits: Limits)
    requires |buffer| + |Joined(chunks)| <= limits.buffer
    ensures Roomy(buffer, chunks, limits)
  {
    forall i: nat | i < |chunks| ensures HasRoom(buffer, chunks, limits, i) {
      LeftIsShorter(buffer + Joined(chunks[..i]), limits);
      JoinedParts(chunks, i);
    }
  }

  lemma {:induction false} JoinedParts(chunks: seq<string>, i: nat)
    requires i < |chunks|
    ensures |Joined(chunks[..i])| + |chunks[i]| <= |Joined(chunks)|
    decreases i
  {
    if i > 0 {
      JoinedParts(chunks[1..], i - 1);
      assert chunks[..i][1..] == chunks[1..][..i - 1];
    }
  }

  /** A cut behind the first command hands it on; no cut at all loses it. */
  lemma CutsDiffer(buffer: string, bytes: string, limits: Limits) returns (whole: seq<string>, cut: seq<string>)
    requires Settled(buffer, limits) && Deliverable(buffer, bytes, limits)
    requires !Decode(buffer + bytes, limits).ok || |buffer| + |bytes| > limits.buffer
    ensures Joined(whole) == bytes && Joined(cut) == bytes
    ensures |FeedAll(buffer, whole, limits).commands| == 0 && |FeedAll(buffer, cut, limits).commands| > 0
  {
    var s := buffer + bytes;
    var end := ParseCommand(s, limits).consumed;
    FirstEndsInside(buffer, bytes, limits);
    whole, cut := [bytes], [s[|buffer|..end], s[end..]];
    CutBytes(buffer, bytes, end);
    TwoChunks(cut[0], cut[1]);
    TwoChunks(bytes, bytes);
    FirstAlone(s, end, limits);
    FirstCall(buffer, cut, limits);
    FirstCall(buffer, whole, limits);
  }

  lemma CutBytes(buffer: string, bytes: string, end: nat)
    requires |buffer| <= end <= |buffer| + |bytes|
    ensures var s := buffer + bytes;
            s[|buffer|..end] + s[end..] == bytes && buffer + s[|buffer|..end] == s[..end]
  {
  }

  /** A session has at least the commands of its first call, and none if that fails. */
  lemma FirstCall(buffer: string, chunks: seq<string>, limits: Limits)
    requires |chunks| > 0
    ensures var fed := Feed(buffer, chunks[0], limits);
            if fed.Fed? then |FeedAll(buffer, chunks, limits).commands| >= |fed.commands|
            else |FeedAll(buffer, chunks, limits).commands| == 0
  {
  }

  lemma TwoChunks(a: string, b: string)
    ensures Joined([a, b]) == a + b && Joined([a]) == a
  {
    assert [a, b][1..] == [b];
    assert Joined([b]) == b + Joined([b][1..]) == b;
    assert Joined([a]) == a + Joined([a][1..]) == a;
  }

  /** The bytes up to the end of the first command are that command. */
  lemma FirstAlone(s: string, end: nat, limits: Limits)
    requires ParseCommand(s, limits).Whole? && ParseCommand(s, limits).consumed == end
    ensures Decode(s[..end], limits).ok && |Decode(s[..end], limits).commands| == 1
  {
    CommandStops(s, end, limits);
    var rest := s[..end][end..];
    assert |rest| == 0 && ParseCommand(rest, limits).Incomplete?;
  }

  /** A buffer without a complete command does not reach to the end of the first one. */
  lemma FirstEndsInside(buffer: string, bytes: string, limits: Limits)
    requires Settled(buffer, limits) && ParseCommand(buffer + bytes, limits).Whole?
    ensures |buffer| <= ParseCommand(buffer + bytes, limits).consumed
  {
    assert (buffer + bytes)[..|buffer|] == buffer;
    if ParseCommand(buffer + bytes, limits).consumed < |buffer| {
      CommandStops(buffer + bytes, |buffer|, limits);
    }
  }

  // ---------- the printer ----------

  const CRLF := "\r\n"

  function EncodeArg(part: string): string {
    ("$" + (Print(|part|) + CRLF)) + (part + CRLF)
  }

  function EncodeArgs(parts: seq<string>): string {
    if |parts| == 0 then "" else EncodeArg(parts[0]) + EncodeArgs(parts[1..])
  }

  function EncodeCommand(parts: seq<string>): string {
    ("*" + (Print(|parts|) + CRLF)) + EncodeArgs(parts)
  }

  lemma AssocBytes(a: string, b: string, c: string)
    ensures a + (b + c) == a + b + c
  {
  }

  lemma {:induction false} EncodeOneMore(parts: seq<string>, part: string)
    ensures EncodeArgs(parts + [part]) == EncodeArgs(parts) + EncodeArg(part)
    decreases |parts|
  {
    if |parts| == 0 {
      assert (parts + [part])[1..] == [];
      assert EncodeArg(part) + "" == EncodeArg(part) == "" + EncodeArg(part);
    } else {
      EncodeOneMore(parts[1..], part);
      assert (parts + [part])[1..] == parts[1..] + [part];
      AssocBytes(EncodeArg(parts[0]), EncodeArgs(parts[1..]), EncodeArg(part));
    }
  }

  /** Builds the frame part by part. */
  method PrintCommand(parts: seq<string>) returns (frame: string)
    ensures frame == EncodeCommand(parts)
  {
    var head := "*" + (Print(|parts|) + CRLF);
    frame := head;
    for i := 0 to |parts|
      invariant frame == head + EncodeArgs(parts[..i])
    {
      ghost var before := frame;
      var arg := PrintArg(parts[i]);
      frame := frame + arg;
      assert parts[..i + 1] == parts[..i] + [parts[i]];
      EncodeOneMore(parts[..i], parts[i]);
      AssocBytes(head, EncodeArgs(parts[..i]), arg);
    }
    assert parts[..|parts|] == parts;
  }

  method PrintArg(part: string) returns (arg: string)
    ensures arg == EncodeArg(part)
  {
    arg := "$" + (Print(|part|) + CRLF);
    arg := arg + (part + CRLF);
  }

  // ---------- reading back ----------

  /** `t` stands in `s` at position `at`. */
  predicate Has(s: string, at: nat, t: string) {
    at + |t| <= |s| && s[at..at + |t|] == t
  }

  lemma HasParts(s: string, at: nat, a: string, b: string)
    requires Has(s, at, a + b)
    ensures Has(s, at, a) && Has(s, at + |a|, b)
  {
    assert s[at..at + |a|] == s[at..at + |a + b|][..|a|];
    assert s[at + |a|..at + |a + b|] == s[at..at + |a + b|][|a|..];
  }

  lemma HasAt(s: string, at: nat, t: string, k: nat)
    requires Has(s, at, t) && k < |t|
    ensures s[at + k] == t[k]
  {
    assert s[at..at + |t|][k] == s[at + k];
  }

  /** A printed number and its line end are found and read back. */
  lemma PrintedLine(s: string, at: nat, n: nat)
    requires n < SIZE_LIMIT && Has(s, at, Print(n) + CRLF)
    ensures FindCrlf(s, at) == Some(at + |Print(n)|) && ParseSize(s[at..at + |Print(n)|]) == Some(n)
  {
    var p := Print(n);
    HasParts(s, at, p, CRLF);
    HasAt(s, at + |p|, CRLF, 0);
    HasAt(s, at + |p|, CRLF, 1);
    forall q | at <= q < at + |p| ensures !CrlfAt(s, q) {
      HasAt(s, at, p, q - at);
      assert IsDigit(p[q - at]);
    }
    FindUnique(s, at, at + |p|);
  }

  lemma BulkIs(s: string, at: nat, end: nat, part: string, limits: Limits)
    requires at < |s| && s[at] == '$' && FindCrlf(s, at + 1) == Some(end)
    requires ParseSize(s[at + 1..end]) == Some(|part|) && |part| <= limits.bulk
    requires Has(s, end + 2, part) && CrlfAt(s, end + 2 + |part|)
    ensures ReadBulk(s, at, limits) == Item(part, end + 2 + |part| + 2)
  {
  }

  lemma ReadEncodedArg(s: string, at: nat, part: string, limits: Limits)
    requires |part| <= limits.bulk && limits.Valid() && Has(s, at, EncodeArg(part))
    ensures ReadBulk(s, at, limits) == Item(part, at + |EncodeArg(part)|)
  {
    var line := Print(|part|) + CRLF;
    HasParts(s, at, "$" + line, part + CRLF);
    HasParts(s, at, "$", line);
    HasAt(s, at, "$", 0);
    PrintedLine(s, at + 1, |part|);
    ClosedPart(s, at + 1 + |line|, part);
    BulkIs(s, at, at + 1 + |Print(|part|)|, part, limits);
  }

  lemma ClosedPart(s: string, at: nat, part: string)
    requires Has(s, at, part + CRLF)
    ensures Has(s, at, part) && CrlfAt(s, at + |part|)
  {
    HasParts(s, at, part, CRLF);
    HasAt(s, at + |part|, CRLF, 0);
    HasAt(s, at + |part|, CRLF, 1);
  }

  lemma ArgsCons(s: string, at: nat, part: string, next: nat, others: seq<string>, end: nat, limits: Limits)
    requires at <= |s| && ReadBulk(s, at, limits) == Item(part, next)
    requires ReadArgs(s, next, |others|, limits) == Whole(others, end)
    ensures ReadArgs(s, at, 1 + |others|, limits) == Whole([part] + others, end)
  {
  }

  lemma {:induction false} ReadEncodedArgs(s: string, at: nat, parts: seq<string>, limits: Limits)
    requires limits.Valid() && Has(s, at, EncodeArgs(parts))
    requires forall i :: 0 <= i < |parts| ==> |parts[i]| <= limits.bulk
    ensures ReadArgs(s, at, |parts|, limits) == Whole(parts, at + |EncodeArgs(parts)|)
    decreases |parts|
  {
    if |parts| > 0 {
      var next := FirstArg(s, at, parts, limits);
      ReadEncodedArgs(s, next, parts[1..], limits);
      ArgsCons(s, at, parts[0], next, parts[1..], next + |EncodeArgs(parts[1..])|, limits);
      assert parts == [parts[0]] + parts[1..];
    }
  }

  lemma FirstArg(s: string, at: nat, parts: seq<string>, limits: Limits) returns (next: nat)
    requires limits.Valid() && |parts| > 0 && Has(s, at, EncodeArgs(parts)) && |parts[0]| <= limits.bulk
    ensures ReadBulk(s, at, limits) == Item(parts[0], next) && Has(s, next, EncodeArgs(parts[1..]))
    ensures at + |EncodeArgs(parts)| == next + |EncodeArgs(parts[1..])|
  {
    var first := EncodeArg(parts[0]);
    next := at + |first|;
    HasParts(s, at, first, EncodeArgs(parts[1..]));
    ReadEncodedArg(s, at, parts[0], limits);
  }

  predicate Fits(parts: seq<string>, limits: Limits) {
    |parts| <= limits.elements && forall i :: 0 <= i < |parts| ==> |parts[i]| <= limits.bulk
  }

  /** The decoder inverts the printer, whatever follows. */
  lemma CommandRoundTrip(parts: seq<string>, s: string, limits: Limits)
    requires limits.Valid() && Fits(parts, limits) && Has(s, 0, EncodeCommand(parts))
    ensures ParseCommand(s, limits) == Whole(parts, |EncodeCommand(parts)|)
  {
    var line := Print(|parts|) + CRLF;
    HasParts(s, 0, "*" + line, EncodeArgs(parts));
    HasParts(s, 0, "*", line);
    HasAt(s, 0, "*", 0);
    PrintedLine(s, 1, |parts|);
    ReadEncodedArgs(s, 1 + |line|, parts, limits);
    CommandIs(s, 1 + |Print(|parts|)|, parts, |EncodeCommand(parts)|, limits);
  }

  lemma CommandIs(s: string, end: nat, parts: seq<string>, stop: nat, limits: Limits)
    requires |s| > 0 && s[0] == '*' && FindCrlf(s, 1) == Some(end) && ParseSize(s[1..end]) == Some(|parts|)
    requires |parts| <= limits.elements && ReadArgs(s, end + 2, |parts|, limits) == Whole(parts, stop)
    ensures ParseCommand(s, limits) == Whole(parts, stop)
  {
  }

  function EncodeStream(commands: seq<seq<string>>): string {
    if |commands| == 0 then "" else EncodeCommand(commands[0]) + EncodeStream(commands[1..])
  }

  lemma FirstDecoded(parts: seq<string>, rest: string, limits: Limits)
    requires limits.Valid() && Fits(parts, limits)
    ensures var d := Decode(rest, limits);
            Decode(EncodeCommand(parts) + rest, limits) == Stream([parts] + d.commands, d.left, d.ok)
  {
    var first := EncodeCommand(parts);
    assert (first + rest)[0..|first|] == first;
    CommandRoundTrip(parts, first + rest, limits);
    assert (first + rest)[|first|..] == rest;
  }

  /** A printed command directly followed by an error: cut between them it is handed on, in one
      chunk it is not. */
  lemma LostBeforeError(parts: seq<string>, bad: string, limits: Limits)
    requires limits.Valid() && Fits(parts, limits) && ParseCommand(bad, limits).Malformed?
    requires |EncodeCommand(parts)| + |bad| <= limits.buffer
    ensures FeedAll("", [EncodeCommand(parts), bad], limits).commands == [parts]
    ensures FeedAll("", [EncodeCommand(parts) + bad], limits).commands == []
    ensures Joined([EncodeCommand(parts), bad]) == Joined([EncodeCommand(parts) + bad])
  {
    var first := EncodeCommand(parts);
    TwoChunks(first, bad);
    TwoChunks(first + bad, bad);
    FirstDecoded(parts, bad, limits);
    FirstDecoded(parts, "", limits);
    EmptyStream(limits);
    assert "" + first == first + "" == first && "" + (first + bad) == first + bad && "" + bad == bad;
    assert [first, bad][1..] == [bad];
  }

  /** The smallest such input: an empty array and a letter. */
  lemma EmptyArrayLost()
    ensures FeedAll("", ["*0\r\n", "x"], DEFAULTS).commands == [[]]
    ensures FeedAll("", ["*0\r\nx"], DEFAULTS).commands == []
  {
    assert Print(0) == "0";
    assert EncodeCommand([]) == "*0\r\n";
    assert "*0\r\n" + "x" == "*0\r\nx";
    LostBeforeError([], "x", DEFAULTS);
  }

  /** Any sequence of printed commands decodes to itself, followed by what the tail holds. */
  lemma {:induction false} StreamRoundTrip(commands: seq<seq<string>>, tail: string, limits: Limits)
    requires limits.Valid() && forall i :: 0 <= i < |commands| ==> Fits(commands[i], limits)
    ensures var d := Decode(tail, limits);
            Decode(EncodeStream(commands) + tail, limits) == Stream(commands + d.commands, d.left, d.ok)
    decreases |commands|
  {
    if |commands| == 0 {
      assert EncodeStream(commands) + tail == tail;
      assert commands + Decode(tail, limits).commands == Decode(tail, limits).commands;
    } else {
      var first, others := EncodeCommand(commands[0]), EncodeStream(commands[1..]);
      AssocBytes(first, others, tail);
      FirstDecoded(commands[0], others + tail, limits);
      StreamRoundTrip(commands[1..], tail, limits);
      Assoc([commands[0]], commands[1..], Decode(tail, limits).commands);
      assert [commands[0]] + commands[1..] == commands;
    }
  }

  lemma EmptyStream(limits: Limits)
    ensures Decode("", limits) == Stream([], "", true)
  {
  }

  /** The same through the decoder: of printed commands, cut in any way, the decoder hands on the
      first ones, and all of them with nothing left over if and only if every call has room. */
  lemma PrintedCommandsArrive(commands: seq<seq<string>>, chunks: seq<string>, limits: Limits)
    requires limits.Valid() && forall i :: 0 <= i < |commands| ==> Fits(commands[i], limits)
    requires Joined(chunks) == EncodeStream(commands)
    ensures FeedAll("", chunks, limits).commands <= commands
    ensures FeedAll("", chunks, limits) == Session(commands, "", |chunks|) <==> Roomy("", chunks, limits)
  {
    StreamRoundTrip(commands, "", limits);
    EmptyStream(limits);
    assert EncodeStream(commands) + "" == "" + Joined(chunks);
    assert commands + [] == commands;
    HandedOnOrLost("", chunks, limits);
    ChunkingSucceeds("", chunks, limits);
    if Roomy("", chunks, limits) {
      ChunkingInvariant("", chunks, limits);
    }
  }
}
