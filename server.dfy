/**
 The in-memory thought log of the think tool server.

 A `ThinkToolServer` owns an ordered log of timestamped thoughts and answers
 four tool calls on it: `think` records a thought, `get_thoughts` renders the
 log, `clear_thoughts` empties it and `get_thought_stats` summarises it. The
 handlers are methods of the class and follow the loops of `server.go`; the
 functions below them say what each handler must produce, and the lemmas say
 what those results mean.
 */
module ThinkTool {

  import opened Text

  datatype Option<T> = None | Some(value: T)

  datatype Result<T, E> = Success(value: T) | Failure(error: E)

  /** One recorded thought with the (RFC 3339) time at which it was recorded. */
  datatype ThoughtEntry = ThoughtEntry(timestamp: Bytes, thought: Bytes)

  /** A dynamically typed tool argument: a string, or any value of another type. */
  datatype Value = StringValue(s: Bytes) | NonStringValue

  /** The argument map of a tool call, keyed by argument name. */
  type Arguments = map<string, Value>

  const ThoughtKey: string := "thought"
  const DefaultServerName: Bytes := Ascii("think-tool")

  /** Longest prefix of a thought that the confirmation echoes. */
  const MaxEcho: nat := 50

  const RecordedPrefix: Bytes := Ascii("Thought recorded: ")
  const Ellipsis: Bytes := Ascii("...")
  const NotAStringError: Bytes := Ascii("thought must be a string")
  const NoThoughtsMessage: Bytes := Ascii("No thoughts have been recorded yet.")
  const EntryHead: Bytes := Ascii("Thought #")
  const EntryOpen: Bytes := Ascii(" (")
  const EntryClose: Bytes := Ascii("):\n")
  const Newline: Bytes := Ascii("\n")
  const ClearedHead: Bytes := Ascii("Cleared ")
  const ClearedTail: Bytes := Ascii(" recorded thoughts.")

  // ---------------------------------------------------------------- think

  /** The Go type assertion `args["thought"].(string)`: present and a string, or nothing. */
  function ThoughtArgument(args: Arguments): (r: Option<Bytes>)
    ensures r.Some? <==> ThoughtKey in args && args[ThoughtKey].StringValue?
    ensures r.Some? ==> args[ThoughtKey] == StringValue(r.value)
  {
    if ThoughtKey !in args then None
    else match args[ThoughtKey]
      case StringValue(s) => Some(s)
      case NonStringValue => None
  }

  /** The confirmation returned by `think`: the thought, cut to 50 bytes plus "..." when longer. */
  function Confirmation(thought: Bytes): (m: Bytes)
  {
    if |thought| > MaxEcho then RecordedPrefix + thought[..MaxEcho] + Ellipsis
    else RecordedPrefix + thought
  }

  /** The number of bytes of a thought that its confirmation shows. */
  function EchoLength(thought: Bytes): nat
  {
    if |thought| > MaxEcho then MaxEcho else |thought|
  }

  /**
   Every confirmation starts with the fixed prefix, continues with the first
   EchoLength(thought) bytes of the thought, and ends right there unless the
   thought was cut, in which case exactly "..." follows.
   */
  lemma ConfirmationEchoes(thought: Bytes)
    ensures var m := Confirmation(thought);
      var k := |RecordedPrefix| + EchoLength(thought);
      && k <= |m| <= |RecordedPrefix| + MaxEcho + |Ellipsis|
      && m[..|RecordedPrefix|] == RecordedPrefix
      && m[|RecordedPrefix|..k] == thought[..EchoLength(thought)]
      && (|thought| <= MaxEcho ==> m == RecordedPrefix + thought)
      && (|thought| > MaxEcho ==> m[k..] == Ellipsis)
  {
  }

  /** A thought of at most 50 bytes can be read back from its confirmation. */
  lemma ShortConfirmationInjective(a: Bytes, b: Bytes)
    requires |a| <= MaxEcho && |b| <= MaxEcho
    requires Confirmation(a) == Confirmation(b)
    ensures a == b
  {
    assert a == Confirmation(a)[|RecordedPrefix|..];
    assert b == Confirmation(b)[|RecordedPrefix|..];
  }

  /** Longer thoughts that agree on their first 50 bytes get the same confirmation. */
  lemma LongConfirmationForgets(a: Bytes, b: Bytes)
    requires |a| > MaxEcho && |b| > MaxEcho
    requires a[..MaxEcho] == b[..MaxEcho]
    ensures Confirmation(a) == Confirmation(b)
  {
  }

  /** The scenario of the unit test: a 22-byte thought is echoed in full. */
  lemma ConfirmationOfShortThought()
    ensures Confirmation(Ascii("This is a test thought"))
         == Ascii("Thought recorded: This is a test thought")
  {
    assert "Thought recorded: " + "This is a test thought" == "Thought recorded: This is a test thought";
    AsciiConcat("Thought recorded: ", "This is a test thought");
  }

  // ---------------------------------------------------------- get_thoughts

  /** `fmt.Sprintf("Thought #%d (%s):\n%s\n", index, timestamp, thought)`. */
  function EntryText(index: nat, e: ThoughtEntry): Bytes
  {
    EntryHead + Decimal(index) + EntryOpen + e.timestamp + EntryClose + e.thought + Newline
  }

  /** One block of the listing: the entry's text and the separating newline. */
  function Block(index: nat, e: ThoughtEntry): Bytes
  {
    EntryText(index, e) + Newline
  }

  /** The blocks of the entries in order, the k-th (from 0) numbered base + k + 1. */
  function Rendered(es: seq<ThoughtEntry>, base: nat): Bytes
    decreases |es|
  {
    if es == [] then []
    else Rendered(es[..|es| - 1], base) + Block(base + |es|, es[|es| - 1])
  }

  /** What `get_thoughts` returns for a log. */
  function Transcript(es: seq<ThoughtEntry>): Bytes
  {
    if es == [] then NoThoughtsMessage else Rendered(es, 0)
  }

  /** Rendering a concatenation renders the two parts one after the other, numbering the second part on. */
  lemma {:induction false} RenderedAppend(a: seq<ThoughtEntry>, b: seq<ThoughtEntry>, base: nat)
    ensures Rendered(a + b, base) == Rendered(a, base) + Rendered(b, base + |a|)
    decreases |b|
  {
    if b == [] {
      assert a + b == a;
    } else {
      var b', x := b[..|b| - 1], b[|b| - 1];
      var block := Block(base + |a| + |b|, x);
      assert (a + b)[..|a + b| - 1] == a + b' && (a + b)[|a + b| - 1] == x;
      RenderedAppend(a, b', base);
      calc {
        Rendered(a + b, base);
        Rendered(a + b', base) + block;
        (Rendered(a, base) + Rendered(b', base + |a|)) + block;
        { ConcatAssociative(Rendered(a, base), Rendered(b', base + |a|), block); }
        Rendered(a, base) + (Rendered(b', base + |a|) + block);
        Rendered(a, base) + Rendered(b, base + |a|);
      }
    }
  }

  /**
   The transcript of a non-empty log lists every entry in insertion order:
   entry k (from 0) appears as block number k + 1, after the blocks of the
   entries before it and before the blocks of the entries after it.
   */
  lemma TranscriptInOrder(es: seq<ThoughtEntry>, k: nat)
    requires k < |es|
    ensures Transcript(es) == Rendered(es[..k], 0) + Block(k + 1, es[k]) + Rendered(es[k + 1..], k + 1)
  {
    assert es == es[..k + 1] + es[k + 1..];
    RenderedAppend(es[..k + 1], es[k + 1..], 0);
    assert es[..k + 1][..k] == es[..k];
  }

  /** `t` occurs in `s` starting at position i. */
  predicate OccursAt(s: Bytes, t: Bytes, i: int)
  {
    0 <= i <= |s| - |t| && s[i..i + |t|] == t
  }

  /** `t` occurs in `s` at some position. */
  ghost predicate Contains(s: Bytes, t: Bytes)
  {
    exists i :: OccursAt(s, t, i)
  }

  /** An occurrence stays an occurrence when text is put around it, shifted by what comes before. */
  lemma OccursInContext(u: Bytes, s: Bytes, v: Bytes, t: Bytes, i: int)
    requires OccursAt(s, t, i)
    ensures OccursAt(u + s + v, t, |u| + i)
  {
    assert (u + s + v)[|u| + i..|u| + i + |t|] == s[i..i + |t|];
  }

  /** A block shows the entry's timestamp and, after it, the entry's thought. */
  lemma BlockShowsEntry(index: nat, e: ThoughtEntry)
    ensures var p := |EntryHead| + |Decimal(index)| + |EntryOpen|;
      OccursAt(Block(index, e), e.timestamp, p)
      && OccursAt(Block(index, e), e.thought, p + |e.timestamp| + |EntryClose|)
  {
    var head := EntryHead + Decimal(index) + EntryOpen;
    var tail := Newline + Newline;
    assert Block(index, e) == head + e.timestamp + (EntryClose + e.thought + tail);
    assert Block(index, e) == (head + e.timestamp + EntryClose) + e.thought + tail;
    OccursInContext(head, e.timestamp, EntryClose + e.thought + tail, e.timestamp, 0);
    OccursInContext(head + e.timestamp + EntryClose, e.thought, tail, e.thought, 0);
  }

  /** Every recorded thought, and its timestamp, occurs in the transcript. */
  lemma TranscriptContainsEntry(es: seq<ThoughtEntry>, k: nat)
    requires k < |es|
    ensures Contains(Transcript(es), es[k].thought)
    ensures Contains(Transcript(es), es[k].timestamp)
  {
    var e := es[k];
    var before, after := Rendered(es[..k], 0), Rendered(es[k + 1..], k + 1);
    var p := |EntryHead| + |Decimal(k + 1)| + |EntryOpen|;
    TranscriptInOrder(es, k);
    BlockShowsEntry(k + 1, e);
    OccursInContext(before, Block(k + 1, e), after, e.timestamp, p);
    OccursInContext(before, Block(k + 1, e), after, e.thought, p + |e.timestamp| + |EntryClose|);
  }

  /** Recording an entry leaves the old transcript in place and adds one block, numbered by the new length. */
  lemma TranscriptAfterRecord(es: seq<ThoughtEntry>, e: ThoughtEntry)
    ensures Transcript(es + [e]) == (if es == [] then [] else Transcript(es)) + Block(|es| + 1, e)
  {
    assert (es + [e])[..|es|] == es;
    if es == [] {
      assert Rendered(es, 0) == [];
    }
  }

  // -------------------------------------------------------- clear_thoughts

  /** `fmt.Sprintf("Cleared %d recorded thoughts.", count)`. */
  function ClearMessage(count: nat): Bytes
  {
    ClearedHead + Decimal(count) + ClearedTail
  }

  /** The count is recoverable from the message: different counts give different messages. */
  lemma ClearMessageInjective(m: nat, n: nat)
    requires ClearMessage(m) == ClearMessage(n)
    ensures m == n
  {
    var a, b := ClearMessage(m), ClearMessage(n);
    assert Decimal(m) == a[|ClearedHead|..|a| - |ClearedTail|];
    assert Decimal(n) == b[|ClearedHead|..|b| - |ClearedTail|];
    DecimalInjective(m, n);
  }

  /** The singular case keeps the plural noun, as the unit test expects. */
  lemma ClearMessageOfOne()
    ensures ClearMessage(1) == Ascii("Cleared 1 recorded thoughts.")
  {
    assert Decimal(1) == [Digit(1)];
  }

  // ----------------------------------------------------- get_thought_stats

  /** The four numbers of the statistics payload; the average is in hundredths. */
  datatype Stats = Stats(totalThoughts: nat, averageHundredths: nat, longestIndex: nat, longestLength: nat)

  /** What `get_thought_stats` returns: the fixed message on an empty log, the statistics otherwise. */
  datatype StatsReply = NoStats(message: Bytes) | Report(stats: Stats)

  /** The sum of the byte lengths of the thoughts. */
  function TotalLength(es: seq<ThoughtEntry>): nat
    decreases |es|
  {
    if es == [] then 0 else TotalLength(es[..|es| - 1]) + |es[|es| - 1].thought|
  }

  /** The state of the longest-thought scan: a length and a 0-based index, -1 when none was found. */
  datatype Longest = Longest(length: nat, index: int)

  /**
   The scan of the log for its longest thought, starting from length 0 and
   index -1 and taking an entry only when it is strictly longer: the length is
   the maximum, the index is the first entry of that length, and the index
   stays -1 exactly when every thought is empty.
   */
  function LongestScan(es: seq<ThoughtEntry>): (r: Longest)
    ensures -1 <= r.index < |es|
    ensures forall k :: 0 <= k < |es| ==> |es[k].thought| <= r.length
    ensures r.index == -1 <==> r.length == 0
    ensures r.index >= 0 ==> |es[r.index].thought| == r.length
    ensures r.index >= 0 ==> forall k :: 0 <= k < r.index ==> |es[k].thought| < r.length
    decreases |es|
  {
    if es == [] then Longest(0, -1)
    else
      var prev := LongestScan(es[..|es| - 1]);
      var last := |es[|es| - 1].thought|;
      if last > prev.length then Longest(last, |es| - 1) else prev
  }

  /** The statistics of a log, with the average truncated (not rounded) to hundredths. */
  function Statistics(es: seq<ThoughtEntry>): (r: StatsReply)
    ensures r.NoStats? <==> es == []
    ensures r.NoStats? ==> r.message == NoThoughtsMessage
    ensures r.Report? ==> r.stats.totalThoughts == |es|
  {
    if es == [] then NoStats(NoThoughtsMessage)
    else
      var longest := LongestScan(es);
      Report(Stats(|es|, AverageHundredths(TotalLength(es), |es|), longest.index + 1, longest.length))
  }

  /**
   The average length in hundredths, `int(float64(total) / float64(count) * 100)`
   computed exactly: 100 times the total divided by the count, truncated.
   */
  function AverageHundredths(total: nat, count: nat): (q: nat)
    requires count > 0
    ensures q * count <= 100 * total < (q + 1) * count
  {
    var x := 100 * total;
    assert x == (x / count) * count + x % count;
    x / count
  }

  /**
   The reported longest entry is the first one of maximal length, numbered
   from 1: no thought is longer, the entry at that position has exactly that
   length, and every earlier entry is strictly shorter.
   */
  lemma LongestIsFirstMaximum(es: seq<ThoughtEntry>)
    requires es != []
    ensures Statistics(es).stats.longestIndex <= |es|
    ensures Statistics(es).stats.longestIndex == 0 ==> Statistics(es).stats.longestLength == 0
    ensures var s := Statistics(es).stats;
      && (forall k :: 0 <= k < |es| ==> |es[k].thought| <= s.longestLength)
      && (s.longestIndex >= 1 ==>
            |es[s.longestIndex - 1].thought| == s.longestLength
            && forall k :: 0 <= k < s.longestIndex - 1 ==> |es[k].thought| < s.longestLength)
  {
  }

  /** When every thought is empty the scan never moves, so the reported index is 0, not a position. */
  lemma AllEmptyGivesIndexZero(es: seq<ThoughtEntry>)
    requires es != []
    ensures Statistics(es).stats.longestIndex == 0
        <==> forall k :: 0 <= k < |es| ==> es[k].thought == []
  {
    var s := Statistics(es).stats;
    if s.longestIndex != 0 {
      assert |es[s.longestIndex - 1].thought| > 0;
    }
  }

  /**
   Recording one more entry adds one to the count and its length to the
   total; it becomes the reported longest entry exactly when it is strictly
   longer than every earlier one, and otherwise the report is unchanged.
   */
  lemma StatsAfterRecord(es: seq<ThoughtEntry>, e: ThoughtEntry)
    ensures var s, before := Statistics(es + [e]).stats, LongestScan(es);
      && s.totalThoughts == |es| + 1
      && TotalLength(es + [e]) == TotalLength(es) + |e.thought|
      && (|e.thought| > before.length ==> s.longestIndex == |es| + 1 && s.longestLength == |e.thought|)
      && (|e.thought| <= before.length ==> s.longestIndex == before.index + 1 && s.longestLength == before.length)
  {
    assert (es + [e])[..|es|] == es;
  }

  /** No thought is longer than the longest one, so the lengths sum to at most count times the maximum. */
  lemma {:induction false} TotalLengthBound(es: seq<ThoughtEntry>, bound: nat)
    requires forall k :: 0 <= k < |es| ==> |es[k].thought| <= bound
    ensures TotalLength(es) <= |es| * bound
    decreases |es|
  {
    if es != [] {
      TotalLengthBound(es[..|es| - 1], bound);
    }
  }

  /** The average never exceeds the longest length. */
  lemma AverageAtMostLongest(es: seq<ThoughtEntry>)
    requires es != []
    ensures Statistics(es).stats.averageHundredths <= 100 * Statistics(es).stats.longestLength
  {
    var longest := LongestScan(es).length;
    TotalLengthBound(es, longest);
    AverageAtMost(TotalLength(es), |es|, longest);
  }

  /** A total of at most count * bound averages to at most bound. */
  lemma AverageAtMost(total: nat, count: nat, bound: nat)
    requires count > 0 && total <= count * bound
    ensures AverageHundredths(total, count) <= 100 * bound
  {
  }

  /** The prefixes of a three-entry log and its total length. */
  lemma ThreePrefixes(es: seq<ThoughtEntry>)
    requires |es| == 3
    ensures es[..2][..1] == es[..1] && es[..1][..0] == []
    ensures TotalLength(es) == |es[0].thought| + |es[1].thought| + |es[2].thought|
  {
    assert es[..2][..1] == es[..1];
    assert es[..1][..0] == [];
    assert TotalLength(es[..1]) == |es[0].thought|;
    assert TotalLength(es[..2]) == |es[0].thought| + |es[1].thought|;
  }

  /**
   The unit test's log (lengths 13, 29, 13): three thoughts, the second is
   the longest, and the average 55/3 is reported as 18.33.
   */
  lemma StatsOfUnitTestLog(es: seq<ThoughtEntry>)
    requires |es| == 3 && |es[0].thought| == 13 && |es[1].thought| == 29 && |es[2].thought| == 13
    ensures Statistics(es) == Report(Stats(3, 1833, 2, 29))
  {
    ThreePrefixes(es);
    assert LongestScan(es[..1]) == Longest(13, 0);
    assert LongestScan(es[..2]) == Longest(29, 1);
  }

  /** Lengths 13, 30, 13: the mean 18.666... is truncated to 18.66, not rounded to 18.67. */
  lemma AverageTruncates(es: seq<ThoughtEntry>)
    requires |es| == 3 && |es[0].thought| == 13 && |es[1].thought| == 30 && |es[2].thought| == 13
    ensures Statistics(es) == Report(Stats(3, 1866, 2, 30))
  {
    ThreePrefixes(es);
    assert LongestScan(es[..1]) == Longest(13, 0);
    assert LongestScan(es[..2]) == Longest(30, 1);
  }

  // ---------------------------------------------------------------- server

  class ThinkToolServer {
    var thoughts: seq<ThoughtEntry>
    var serverName: Bytes

    /** A server starts with an empty log; an empty name is replaced by "think-tool". */
    constructor (name: Bytes)
      ensures thoughts == []
      ensures serverName == if name == [] then DefaultServerName else name
    {
      thoughts := [];
      serverName := if name == [] then DefaultServerName else name;
    }

    /**
     The `think` tool. A missing or non-string argument fails and leaves the
     log as it was; otherwise exactly one entry is appended at the end and the
     confirmation is returned.
     */
    method HandleThink(args: Arguments, timestamp: Bytes) returns (r: Result<Bytes, Bytes>)
      modifies this`thoughts
      ensures match ThoughtArgument(args)
        case None => r == Failure(NotAStringError) && thoughts == old(thoughts)
        case Some(t) => r == Success(Confirmation(t)) && thoughts == old(thoughts) + [ThoughtEntry(timestamp, t)]
    {
      var arg := ThoughtArgument(args);
      if arg.None? {
        return Failure(NotAStringError);
      }
      var thought := arg.value;
      thoughts := thoughts + [ThoughtEntry(timestamp, thought)];
      r := Success(Confirmation(thought));
    }

    /** The `get_thoughts` tool: renders each entry, then joins the renderings, each followed by a blank line. */
    method HandleGetThoughts() returns (r: Bytes)
      ensures r == Transcript(thoughts)
    {
      if |thoughts| == 0 {
        return NoThoughtsMessage;
      }
      var formatted: seq<Bytes> := [];
      for i := 0 to |thoughts|
        invariant |formatted| == i
        invariant forall k :: 0 <= k < i ==> formatted[k] == EntryText(k + 1, thoughts[k])
      {
        formatted := formatted + [EntryText(i + 1, thoughts[i])];
      }
      r := [];
      for i := 0 to |formatted|
        invariant r == Rendered(thoughts[..i], 0)
      {
        assert thoughts[..i + 1][..i] == thoughts[..i];
        r := r + (formatted[i] + Newline);
      }
      assert thoughts[..|thoughts|] == thoughts;
    }

    /** The `clear_thoughts` tool: empties the log and reports how many entries it held. */
    method HandleClearThoughts() returns (r: Bytes)
      modifies this`thoughts
      ensures thoughts == []
      ensures r == ClearMessage(|old(thoughts)|)
    {
      var count := |thoughts|;
      thoughts := [];
      r := ClearMessage(count);
    }

    /** The `get_thought_stats` tool: sums the lengths, then scans for the first longest thought. */
    method HandleGetThoughtStats() returns (r: StatsReply)
      ensures r == Statistics(thoughts)
    {
      if |thoughts| == 0 {
        return NoStats(NoThoughtsMessage);
      }
      var totalThoughts := |thoughts|;
      var totalLength: nat := 0;
      for i := 0 to |thoughts|
        invariant totalLength == TotalLength(thoughts[..i])
      {
        assert thoughts[..i + 1][..i] == thoughts[..i];
        totalLength := totalLength + |thoughts[i].thought|;
      }
      var longestLength: nat := 0;
      var longestIndex: int := -1;
      for i := 0 to |thoughts|
        invariant Longest(longestLength, longestIndex) == LongestScan(thoughts[..i])
      {
        assert thoughts[..i + 1][..i] == thoughts[..i];
        if |thoughts[i].thought| > longestLength {
          longestLength := |thoughts[i].thought|;
          longestIndex := i;
        }
      }
      assert thoughts[..|thoughts|] == thoughts;
      r := Report(Stats(totalThoughts, AverageHundredths(totalLength, totalThoughts), longestIndex + 1, longestLength));
    }
  }
}
