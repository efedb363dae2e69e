/** The decoder object and its parsing loops, proved against `Resp`. */
module RespDecoder {
  import opened Proto
  import opened Resp

  /** Position of the next line end. */
  method FindLine(s: string, from: nat) returns (p: Option<nat>)
    ensures p == FindCrlf(s, from)
  {
    var i := from;
    while i + 1 < |s|
      invariant from <= i && FindCrlf(s, from) == FindCrlf(s, i)
    {
      if s[i] == '\r' && s[i + 1] == '\n' {
        return Some(i);
      }
      i := i + 1;
    }
    return None;
  }

  /** Digit by digit, giving up as soon as the value no longer fits a machine word. */
  method ReadSize(line: string) returns (size: Option<nat>)
    ensures size == ParseSize(line)
  {
    if |line| == 0 {
      return None;
    }
    var result := 0;
    var fits := true;
    for i := 0 to |line|
      invariant forall k :: 0 <= k < i ==> IsDigit(line[k])
      invariant AllDigits(line[..i]) && fits == (Number(line[..i]) < SIZE_LIMIT)
      invariant fits ==> result == Number(line[..i])
    {
      if !IsDigit(line[i]) {
        return None;
      }
      assert line[..i + 1][..i] == line[..i];
      if fits {
        result := result * 10 + DigitValue(line[i]);
        fits := result < SIZE_LIMIT;
      }
    }
    assert line[..|line|] == line;
    return if fits then Some(result) else None;
  }

  /** One bulk string; `More` and `Bad` are the code's early return and its throw. */
  method ReadOne(s: string, cursor: nat, limits: Limits) returns (r: Step)
    requires cursor <= |s|
    ensures r == ReadBulk(s, cursor, limits)
  {
    if cursor == |s| {
      return More;
    }
    if s[cursor] != '$' {
      return Bad;
    }
    var end := FindLine(s, cursor + 1);
    if end.None? {
      return More;
    }
    var length := ReadSize(s[cursor + 1..end.value]);
    if length.None? || length.value > limits.bulk {
      return Bad;
    }
    var c := end.value + 2;
    if length.value > |s| - c {
      return More;
    }
    if |s| - c - length.value < 2 {
      return More;
    }
    if s[c + length.value] != '\r' || s[c + length.value + 1] != '\n' {
      return Bad;
    }
    return Item(s[c..c + length.value], c + length.value + 2);
  }

  /** `args` have been read; what `left` more elements from `cursor` on give completes `goal`. */
  ghost predicate Remains(goal: Parsed, args: seq<string>, s: string, cursor: nat, left: nat, limits: Limits) {
    cursor <= |s| && goal == Prefixed(args, ReadArgs(s, cursor, left, limits))
  }

  lemma RemainsNone(goal: Parsed, args: seq<string>, s: string, cursor: nat, limits: Limits)
    requires Remains(goal, args, s, cursor, 0, limits)
    ensures goal == Whole(args, cursor)
  {
    assert args + [] == args;
  }

  lemma RemainsOne(goal: Parsed, args: seq<string>, s: string, cursor: nat, left: nat, limits: Limits)
    requires Remains(goal, args, s, cursor, left, limits) && left > 0
    ensures match ReadBulk(s, cursor, limits)
            case More => goal == Incomplete
            case Bad => goal == Malformed
            case Item(value, next) => Remains(goal, args + [value], s, next, left - 1, limits)
  {
    var r := ReadBulk(s, cursor, limits);
    if r.Item? {
      var rest := ReadArgs(s, r.next, left - 1, limits);
      if rest.Whole? {
        assert args + ([r.value] + rest.args) == args + [r.value] + rest.args;
      }
    }
  }

  /** The elements of the array, with a moving cursor. */
  method ReadElements(s: string, start: nat, count: nat, limits: Limits) returns (r: Parsed)
    requires start <= |s|
    ensures r == ReadArgs(s, start, count, limits)
  {
    ghost var goal := ReadArgs(s, start, count, limits);
    var args: seq<string> := [];
    var cursor: nat := start;
    RemainsAll(s, start, count, limits);
    for index := 0 to count
      invariant Remains(goal, args, s, cursor, count - index, limits)
    {
      RemainsOne(goal, args, s, cursor, count - index, limits);
      var one := ReadOne(s, cursor, limits);
      if one.More? {
        return Incomplete;
      }
      if one.Bad? {
        return Malformed;
      }
      args := args + [one.value];
      cursor := one.next;
    }
    RemainsNone(goal, args, s, cursor, limits);
    return Whole(args, cursor);
  }

  lemma RemainsAll(s: string, start: nat, count: nat, limits: Limits)
    requires start <= |s|
    ensures Remains(ReadArgs(s, start, count, limits), [], s, start, count, limits)
  {
    var goal := ReadArgs(s, start, count, limits);
    if goal.Whole? {
      assert [] + goal.args == goal.args;
    }
  }

  method ReadCommand(s: string, limits: Limits) returns (r: Parsed)
    ensures r == ParseCommand(s, limits)
  {
    if |s| == 0 {
      return Incomplete;
    }
    if s[0] != '*' {
      return Malformed;
    }
    var end := FindLine(s, 1);
    if end.None? {
      return Incomplete;
    }
    var count := ReadSize(s[1..end.value]);
    if count.None? || count.value > limits.elements {
      return Malformed;
    }
    r := ReadElements(s, end.value + 2, count.value, limits);
  }

  /** Throwing leaves the connection unusable; `failed` marks it. */
  class Decoder {
    const limits: Limits
    var buffer: string
    var failed: bool

    /** No complete command is waiting, and the buffer is within its limit. */
    ghost predicate Valid()
      reads this
    {
      |buffer| <= limits.buffer && (!failed ==> Settled(buffer, limits))
    }

    constructor (limits: Limits)
      ensures Valid() && !failed && buffer == "" && this.limits == limits
    {
      this.limits, buffer, failed := limits, "", false;
      new;
      EmptyStream(limits);
    }

    method Feed(bytes: string) returns (commands: seq<seq<string>>)
      requires Valid() && !failed
      modifies this
      ensures Valid()
      ensures match Resp.Feed(old(buffer), bytes, limits)
              case Refused => failed && commands == []
              case Fed(cs, left) => !failed && commands == cs && buffer == left
    {
      commands := [];
      if |bytes| > limits.buffer - |buffer| {
        failed := true;
        return;
      }
      buffer := buffer + bytes;
      ghost var whole := Decode(buffer, limits);
      ghost var total := |buffer|;
      while true
        invariant |buffer| <= total && !failed
        invariant Continues(whole, commands, Decode(buffer, limits))
        decreases |buffer|
      {
        var parsed := ReadCommand(buffer, limits);
        if parsed.Malformed? {
          failed := true;
          commands := [];
          return;
        }
        if parsed.Incomplete? {
          break;
        }
        ContinuesOne(whole, commands, buffer, limits);
        commands := commands + [parsed.args];
        buffer := buffer[parsed.consumed..];
      }
    }
  }

  /** `done` has been taken off the front of `whole`; `rest` is what remains. */
  ghost predicate Continues(whole: Stream, done: seq<seq<string>>, rest: Stream) {
    whole == Stream(done + rest.commands, rest.left, rest.ok)
  }

  lemma ContinuesOne(whole: Stream, done: seq<seq<string>>, buffer: string, limits: Limits)
    requires Continues(whole, done, Decode(buffer, limits)) && ParseCommand(buffer, limits).Whole?
    ensures var p := ParseCommand(buffer, limits);
            Continues(whole, done + [p.args], Decode(buffer[p.consumed..], limits))
  {
    var p := ParseCommand(buffer, limits);
    Assoc(done, [p.args], Decode(buffer[p.consumed..], limits).commands);
  }
}
