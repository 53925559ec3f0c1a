/**
 The debug-UART forwarding of the IO bridge: the MCU's output arrives as raw chunks in UDP packets
 and is put together again into lines.
 */
module DebugUart {
  import opened Common

  const TYPE_DEBUG_UART := 7
  const HEADER_SIZE := 4
  const TEXT_MAX := 128
  const PARTIAL_MAX := 2048
  const NEWLINE: byte := 10
  const CARRIAGE_RETURN: byte := 13

  /** What followed a printed text in the stream and was not printed. */
  datatype Ending = Newline | ReturnNewline | Cut

  datatype Entry = Entry(text: seq<byte>, ending: Ending) {
    /** The bytes of the stream this entry stands for. */
    function Raw(): (r: seq<byte>) {
      match ending
      case Newline => text + [NEWLINE]
      case ReturnNewline => text + [CARRIAGE_RETURN, NEWLINE]
      case Cut => text
    }
  }

  /** The text of a debug-UART packet; `None` for another packet and for one without its header. */
  function PacketText(d: seq<byte>): (text: Option<seq<byte>>)
    ensures text.Some? ==> |d| >= HEADER_SIZE && |text.value| <= TEXT_MAX && text.value <= d[HEADER_SIZE..]
    ensures text.Some? ==>
              var declared := d[2] as int + 256 * d[3] as int;
              |text.value| <= declared && |text.value| in {declared, TEXT_MAX, |d| - HEADER_SIZE}
  {
    if |d| < HEADER_SIZE || d[0] != TYPE_DEBUG_UART || d[1] != 0 then None
    else
      var low: int, high: int := d[2], d[3];
      var received := Least(|d|, HEADER_SIZE + TEXT_MAX) - HEADER_SIZE;
      Some(d[HEADER_SIZE..HEADER_SIZE + Least(Least(low + 256 * high, TEXT_MAX), received)])
  }

  // ---- Splitting a whole stream ----

  predicate HasNewline(s: seq<byte>) { NEWLINE in s }

  function FirstNewline(s: seq<byte>): (n: nat)
    requires HasNewline(s)
    ensures n < |s| && s[n] == NEWLINE && !HasNewline(s[..n])
  {
    if s[0] == NEWLINE then 0
    else
      assert s == [s[0]] + s[1..];
      var n := FirstNewline(s[1..]) + 1;
      assert s[..n] == [s[0]] + s[1..][..n - 1];
      n
  }

  /** A terminated line, with at most one carriage return removed from its end. */
  function LineEntry(line: seq<byte>): (e: Entry)
    ensures e.Raw() == line + [NEWLINE] && !e.ending.Cut?
  {
    if line != [] && line[|line| - 1] == CARRIAGE_RETURN then
      assert line == line[..|line| - 1] + [CARRIAGE_RETURN];
      Entry(line[..|line| - 1], ReturnNewline)
    else Entry(line, Newline)
  }

  function Lines(s: seq<byte>): (entries: seq<Entry>)
    decreases |s|
  {
    if !HasNewline(s) then []
    else [LineEntry(s[..FirstNewline(s)])] + Lines(s[FirstNewline(s) + 1..])
  }

  function Rest(s: seq<byte>): (r: seq<byte>)
    ensures !HasNewline(r) && |r| <= |s|
    decreases |s|
  {
    if !HasNewline(s) then s else Rest(s[FirstNewline(s) + 1..])
  }

  lemma {:induction false} SplitStep(s: seq<byte>)
    requires HasNewline(s)
    ensures var n := FirstNewline(s);
            Lines(s) == [LineEntry(s[..n])] + Lines(s[n + 1..]) && Rest(s) == Rest(s[n + 1..])
  {
    hide LineEntry, HasNewline, FirstNewline;
  }

  lemma {:induction false} NoNewline(s: seq<byte>)
    requires !HasNewline(s)
    ensures Lines(s) == [] && Rest(s) == s
  {}

  // ---- Feeding chunks ----

  datatype Fed = Fed(entries: seq<Entry>, partial: seq<byte>)

  /** One packet's text: its complete lines, and an over-long remainder cut off as it is. */
  function Feed(partial: seq<byte>, chunk: seq<byte>): (r: Fed) {
    var s := partial + chunk;
    if |Rest(s)| <= PARTIAL_MAX then Fed(Lines(s), Rest(s))
    else Fed(Lines(s) + [Entry(Rest(s), Cut)], [])
  }

  function FeedAll(partial: seq<byte>, chunks: seq<seq<byte>>): (r: Fed)
    decreases |chunks|
  {
    if chunks == [] then Fed([], partial)
    else
      var first := Feed(partial, chunks[0]);
      var others := FeedAll(first.partial, chunks[1..]);
      Fed(first.entries + others.entries, others.partial)
  }

  function Concat(chunks: seq<seq<byte>>): (s: seq<byte>) {
    if chunks == [] then [] else chunks[0] + Concat(chunks[1..])
  }

  /** No remainder after a packet is too long. */
  predicate NeverTooLong(partial: seq<byte>, chunks: seq<seq<byte>>)
    decreases |chunks|
  {
    chunks == [] ||
    (|Rest(partial + chunks[0])| <= PARTIAL_MAX && NeverTooLong(Rest(partial + chunks[0]), chunks[1..]))
  }

  /** The reassembly buffer of the IO bridge. */
  class Reassembler {
    var partial: seq<byte>
    var log: seq<Entry>

    constructor ()
      ensures partial == [] && log == []
    {
      partial, log := [], [];
    }

    method OnPacket(d: seq<byte>)
      modifies this
      ensures match PacketText(d)
              case None => partial == old(partial) && log == old(log)
              case Some(text) =>
                var r := Feed(old(partial), text);
                partial == r.partial && log == old(log) + r.entries
    {
      var text := PacketText(d);
      if text.None? {
        return;
      }
      partial := partial + text.value;
      EmitLines();
      if |partial| > PARTIAL_MAX {
        log := log + [Entry(partial, Cut)];
        partial := [];
      }
    }

    method EmitLines()
      modifies this
      ensures partial == Rest(old(partial)) && log == old(log) + Lines(old(partial))
    {
      hide Lines, Rest, HasNewline, FirstNewline, LineEntry;
      while HasNewline(partial)
        invariant Rest(partial) == Rest(old(partial)) && log + Lines(partial) == old(log) + Lines(old(partial))
        decreases |partial|
      {
        SplitStep(partial);
        var nl := FirstNewline(partial);
        var line := partial[..nl];
        log := log + [LineEntry(line)];
        partial := partial[nl + 1..];
      }
      NoNewline(partial);
    }
  }

  // ---- What reassembly guarantees ----

  lemma {:induction false} FirstNewlineOfConcat(a: seq<byte>, b: seq<byte>)
    requires HasNewline(a)
    ensures HasNewline(a + b) && FirstNewline(a + b) == FirstNewline(a)
  {
    assert (a + b)[FirstNewline(a)] == NEWLINE;
    if a[0] != NEWLINE {
      assert a == [a[0]] + a[1..];
      FirstNewlineOfConcat(a[1..], b);
      assert (a + b)[1..] == a[1..] + b;
    }
  }

  /** Splitting at any point and carrying the remainder over gives the lines of the whole. */
  lemma {:induction false} SplitAnywhere(a: seq<byte>, b: seq<byte>)
    ensures Lines(a + b) == Lines(a) + Lines(Rest(a) + b)
    ensures Rest(a + b) == Rest(Rest(a) + b)
    decreases |a|
  {
    hide Lines, Rest, HasNewline, FirstNewline, LineEntry;
    if HasNewline(a) {
      FirstNewlineOfConcat(a, b);
      var n := FirstNewline(a);
      SplitStep(a);
      SplitStep(a + b);
      SplitAnywhere(a[n + 1..], b);
      assert (a + b)[n + 1..] == a[n + 1..] + b && (a + b)[..n] == a[..n];
    } else {
      NoNewline(a);
    }
  }

  /**
   Reassembly does not depend on the chunking: without an over-long remainder the entries and the
   remainder are those of the whole stream.
   */
  lemma {:induction false} FeedIsSplit(partial: seq<byte>, chunks: seq<seq<byte>>)
    requires !HasNewline(partial) && NeverTooLong(partial, chunks)
    ensures FeedAll(partial, chunks) == Fed(Lines(partial + Concat(chunks)), Rest(partial + Concat(chunks)))
    decreases |chunks|
  {
    if chunks == [] {
      assert partial + [] == partial;
    } else {
      var s, others := partial + chunks[0], Concat(chunks[1..]);
      FeedIsSplit(Rest(s), chunks[1..]);
      SplitAnywhere(s, others);
      assert partial + Concat(chunks) == s + others;
    }
  }

  lemma {:induction false} FirstNewlineAfter(a: seq<byte>, b: seq<byte>)
    requires !HasNewline(a) && HasNewline(b)
    ensures HasNewline(a + b) && FirstNewline(a + b) == |a| + FirstNewline(b)
  {
    assert (a + b)[|a| + FirstNewline(b)] == NEWLINE;
    if a == [] {
      assert a + b == b;
    } else {
      assert a == [a[0]] + a[1..] && (a + b)[1..] == a[1..] + b;
      FirstNewlineAfter(a[1..], b);
    }
  }

  /** Text without a newline adds no line. */
  lemma {:induction false} LineCount(a: seq<byte>, b: seq<byte>)
    requires !HasNewline(a)
    ensures |Lines(a + b)| == |Lines(b)|
  {
    hide Lines, LineEntry, FirstNewline;
    if HasNewline(b) {
      FirstNewlineAfter(a, b);
      var n := FirstNewline(b);
      SplitStep(b);
      SplitStep(a + b);
      assert (a + b)[|a| + n + 1..] == b[n + 1..];
    } else {
      NoNewline(b);
      NoNewline(a + b);
    }
  }

  /** Every over-long remainder is printed as an entry that the stream has no line for. */
  lemma {:induction false} EntryCount(partial: seq<byte>, chunks: seq<seq<byte>>)
    requires !HasNewline(partial)
    ensures |FeedAll(partial, chunks).entries| >= |Lines(partial + Concat(chunks))|
    ensures |FeedAll(partial, chunks).entries| == |Lines(partial + Concat(chunks))| <==> NeverTooLong(partial, chunks)
    decreases |chunks|
  {
    hide Lines, Rest;
    if chunks == [] {
      assert partial + [] == partial;
      NoNewline(partial);
    } else {
      var s, others := partial + chunks[0], Concat(chunks[1..]);
      SplitAnywhere(s, others);
      assert partial + Concat(chunks) == s + others;
      if |Rest(s)| <= PARTIAL_MAX {
        EntryCount(Rest(s), chunks[1..]);
      } else {
        LineCount(Rest(s), others);
        assert [] + others == others && !HasNewline([]);
        EntryCount([], chunks[1..]);
      }
    }
  }

  /**
   The condition is exact, and it shows in the log: with an over-long remainder the log has more
   entries than the stream has lines.
   */
  lemma FeedIsSplitExactly(partial: seq<byte>, chunks: seq<seq<byte>>)
    requires !HasNewline(partial)
    ensures var r, s := FeedAll(partial, chunks), partial + Concat(chunks);
            && |r.entries| >= |Lines(s)|
            && (|r.entries| == |Lines(s)| <==> NeverTooLong(partial, chunks))
            && (r == Fed(Lines(s), Rest(s)) <==> NeverTooLong(partial, chunks))
  {
    EntryCount(partial, chunks);
    if NeverTooLong(partial, chunks) { FeedIsSplit(partial, chunks); }
  }

  /** The bytes of the stream that a log stands for. */
  function RawLog(entries: seq<Entry>): (s: seq<byte>) {
    if entries == [] then [] else entries[0].Raw() + RawLog(entries[1..])
  }

  lemma {:induction false} RawLogConcat(a: seq<Entry>, b: seq<Entry>)
    ensures RawLog(a + b) == RawLog(a) + RawLog(b)
  {
    hide Entry.Raw;
    if a == [] {
      assert a + b == b;
    } else {
      RawLogConcat(a[1..], b);
      assert (a + b)[0] == a[0] && (a + b)[1..] == a[1..] + b;
      Regroup(a[0].Raw(), RawLog(a[1..]), RawLog(b));
    }
  }

  lemma RawLogCons(e: Entry, log: seq<Entry>)
    ensures RawLog([e] + log) == e.Raw() + RawLog(log)
  {}

  lemma RawLogNone()
    ensures RawLog([]) == []
  {}

  /** Splitting loses nothing. */
  lemma {:induction false} LinesAndRest(s: seq<byte>)
    ensures RawLog(Lines(s)) + Rest(s) == s
    decreases |s|
  {
    hide Lines, Rest, HasNewline, FirstNewline, LineEntry, Entry.Raw, RawLog;
    if HasNewline(s) {
      var n := FirstNewline(s);
      var line := LineEntry(s[..n]);
      SplitStep(s);
      LinesAndRest(s[n + 1..]);
      RawLogCons(line, Lines(s[n + 1..]));
      assert s == s[..n] + [NEWLINE] + s[n + 1..];
    } else {
      NoNewline(s);
      RawLogNone();
    }
  }

  lemma FeedKeepsBytes(partial: seq<byte>, chunk: seq<byte>)
    ensures var r := Feed(partial, chunk);
            RawLog(r.entries) + r.partial == partial + chunk && !HasNewline(r.partial) && |r.partial| <= PARTIAL_MAX
  {
    var s := partial + chunk;
    LinesAndRest(s);
    if |Rest(s)| > PARTIAL_MAX {
      var last := [Entry(Rest(s), Cut)];
      RawLogConcat(Lines(s), last);
      assert RawLog(last) == Rest(s) + RawLog([]) == Rest(s);
    }
  }

  /** For every chunking: no byte is lost or reordered, and the remainder has no newline and a bound. */
  lemma {:induction false} NoByteIsLost(partial: seq<byte>, chunks: seq<seq<byte>>)
    requires !HasNewline(partial) && |partial| <= PARTIAL_MAX
    ensures var r := FeedAll(partial, chunks);
            && RawLog(r.entries) + r.partial == partial + Concat(chunks)
            && !HasNewline(r.partial) && |r.partial| <= PARTIAL_MAX
    decreases |chunks|
  {
    hide RawLog, Feed, HasNewline;
    if chunks == [] {
      RawLogNone();
    } else {
      var first := Feed(partial, chunks[0]);
      FeedKeepsBytes(partial, chunks[0]);
      NoByteIsLost(first.partial, chunks[1..]);
      var others := FeedAll(first.partial, chunks[1..]);
      RawLogConcat(first.entries, others.entries);
      calc {
        RawLog(first.entries + others.entries) + others.partial;
        RawLog(first.entries) + (RawLog(others.entries) + others.partial);
        (RawLog(first.entries) + first.partial) + Concat(chunks[1..]);
        partial + Concat(chunks);
      }
    }
  }
}
