/** `_split_xml_messages`, and what threading `(buffer, scan_pos)` through it over many chunks gives. */
module Splitter {
  import opened Bytes
  import opened XmlStream
  import opened Scanners

  // ---------- from one element to the stream ----------

  /** Inside a message, one more byte takes the automaton on, or completes the message. */
  lemma OneMoreByte(front: seq<byte>, mode: Mode, depth: int, b: byte)
    requires Feed(Idle, front) == Fed(Inside(mode, depth, front), [])
    ensures match Advance(mode, depth, b)
            case Goto(m, d) => Feed(Idle, front + [b]) == Fed(Inside(m, d, front + [b]), [])
            case Complete => Feed(Idle, front + [b]) == Fed(Idle, [front + [b]])
  {
    FeedOne(Idle, front, b);
  }

  lemma FirstByte()
    ensures Feed(Idle, [LT]) == Fed(Inside(Lt, 0, [LT]), [])
  {
    FeedOne(Idle, [], LT);
    assert [] + [LT] == [LT];
  }

  lemma SliceSnoc(buf: seq<byte>, start: nat, pos: nat)
    requires start < pos <= |buf|
    ensures buf[start..pos] == buf[start..pos - 1] + [buf[pos - 1]]
  {
  }

  /** The scan of an element from its '<' is what the stream automaton does with those bytes. */
  lemma {:induction false} ScanIsFeed(buf: seq<byte>, start: nat, pos: nat)
    requires start < pos <= |buf| && buf[start] == LT && ScanTo(buf, start, pos).Going?
    ensures var scan := ScanTo(buf, start, pos);
            Feed(Idle, buf[start..pos]) == Fed(Inside(scan.mode, scan.depth, buf[start..pos]), [])
  {
    if pos == start + 1 {
      FirstByte();
      assert buf[start..pos] == [LT] && ScanTo(buf, start, start) == Going(Text, 0);
    } else {
      ScanIsFeed(buf, start, pos - 1);
      var before := ScanTo(buf, start, pos - 1);
      OneMoreByte(buf[start..pos - 1], before.mode, before.depth, buf[pos - 1]);
      SliceSnoc(buf, start, pos);
    }
  }

  /** An element has at least two bytes, and its last one completes it. */
  lemma EndCompletes(buf: seq<byte>, start: nat, end: nat)
    requires Ends(buf, start, end)
    ensures start < end - 1 && ScanTo(buf, start, end - 1).Going?
    ensures var scan := ScanTo(buf, start, end - 1); Advance(scan.mode, scan.depth, buf[end - 1]) == Complete
  {
  }

  lemma EndIsMessage(buf: seq<byte>, start: nat, end: nat)
    requires Ends(buf, start, end) && buf[start] == LT
    ensures Feed(Idle, buf[start..end]) == Fed(Idle, [buf[start..end]])
  {
    EndCompletes(buf, start, end);
    var scan := ScanTo(buf, start, end - 1);
    ScanIsFeed(buf, start, end - 1);
    OneMoreByte(buf[start..end - 1], scan.mode, scan.depth, buf[end - 1]);
    SliceSnoc(buf, start, end);
  }

  /** An element that ends at `end` is the next message, and stripping it changes nothing. */
  lemma NextMessage(buf: seq<byte>, pos: nat, end: nat, messages: seq<Message>)
    requires Ends(buf, pos, end) && buf[pos] == LT && Feed(Idle, buf[..pos]) == Fed(Idle, messages)
    ensures Feed(Idle, buf[..end]) == Fed(Idle, messages + [buf[pos..end]])
    ensures Strip(buf[pos..end]) == buf[pos..end] && |buf[pos..end]| > 0
  {
    EndIsMessage(buf, pos, end);
    FeedWellFormed(Idle, buf[pos..end]);
    assert buf[pos..end] in Feed(Idle, buf[pos..end]).messages;
    StripDelimited(buf[pos..end]);
    FeedAppend(Idle, buf[..pos], buf[pos..end]);
    assert buf[..pos] + buf[pos..end] == buf[..end];
  }

  /** An element that does not end is what remains. */
  lemma LastPiece(buf: seq<byte>, pos: nat, messages: seq<Message>)
    requires pos < |buf| && Unfinished(buf, pos) && buf[pos] == LT && Feed(Idle, buf[..pos]) == Fed(Idle, messages)
    ensures Messages(buf) == messages && Remainder(buf) == buf[pos..]
  {
    ScanIsFeed(buf, pos, |buf|);
    FeedAppend(Idle, buf[..pos], buf[pos..|buf|]);
    assert buf[..pos] + buf[pos..|buf|] == buf && buf[pos..|buf|] == buf[pos..];
  }

  lemma {:induction false} OverStays(buf: seq<byte>, start: nat, i: nat, j: nat)
    requires i <= j <= |buf| && ScanTo(buf, start, i).Over?
    ensures ScanTo(buf, start, j).Over?
    decreases j
  {
    if i == j {
    } else {
      OverStays(buf, start, i, j - 1);
    }
  }

  /**
   The resume hint is neutral: two scans of one element, whatever their `scanFrom`, agree on whether
   it is complete and, when it is, on where it ends.
   */
  lemma ResumeHintIsNeutral(buf: seq<byte>, start: nat, end: nat, complete: bool, end': nat, complete': bool)
    requires if complete then Ends(buf, start, end) else Unfinished(buf, start)
    requires if complete' then Ends(buf, start, end') else Unfinished(buf, start)
    ensures complete == complete' && (complete ==> end == end')
  {
    if complete && complete' && end < end' {
      OverStays(buf, start, end, end' - 1);
    } else if complete && complete' && end' < end {
      OverStays(buf, start, end', end - 1);
    } else if complete {
      OverStays(buf, start, end, |buf|);
    } else if complete' {
      OverStays(buf, start, end', |buf|);
    }
  }

  // ---------- the splitter ----------

  function Max(a: int, b: int): int {
    if a < b then b else a
  }

  /** `_split_xml_messages`: for every hint, what the automaton makes of the buffer. */
  method SplitXmlMessages(buf: seq<byte>, scanPos: int)
    returns (messages: seq<Message>, remaining: seq<byte>, newScanPos: nat)
    ensures messages == Messages(buf) && remaining == Remainder(buf)
    ensures newScanPos <= |remaining|
  {
    messages := [];
    var hint := scanPos;
    var pos := 0;
    var n := |buf|;
    while pos < n
      invariant pos <= n && Feed(Idle, buf[..pos]) == Fed(Idle, messages)
    {
      while pos < n && buf[pos] in {SPACE, TAB, NEWLINE, RETURN}
        invariant pos <= n && Feed(Idle, buf[..pos]) == Fed(Idle, messages)
      {
        SkipByte(buf, pos);
        pos := pos + 1;
      }
      if pos >= n {
        break;
      }
      if buf[pos] != LT {
        SkipByte(buf, pos);
        pos := pos + 1;
        continue;
      }
      var end, complete := FindElementEnd(buf, pos, Max(pos + 1, hint));
      if !complete {
        LastPiece(buf, pos, messages);
        return messages, buf[pos..], end - pos;
      }
      hint := 0;
      NextMessage(buf, pos, end, messages);
      var msg := Strip(buf[pos..end]);
      if |msg| > 0 {
        messages := messages + [msg];
      }
      pos := end;
    }
    assert buf[..pos] == buf;
    return messages, buf[pos..], 0;
  }

  lemma SkipByte(buf: seq<byte>, pos: nat)
    requires pos < |buf| && buf[pos] != LT && Feed(Idle, buf[..pos]).state == Idle
    ensures Feed(Idle, buf[..pos + 1]) == Feed(Idle, buf[..pos])
  {
    assert buf[..pos + 1] == buf[..pos] + [buf[pos]];
    FeedOne(Idle, buf[..pos], buf[pos]);
  }

  // ---------- many chunks ----------

  /** The messages queued, and the buffer kept, after receiving `chunks` one by one. */
  function Threaded(chunks: seq<seq<byte>>): (seq<Message>, seq<byte>) {
    if |chunks| == 0 then ([], [])
    else
      var before := Threaded(chunks[..|chunks| - 1]);
      var buf := before.1 + chunks[|chunks| - 1];
      (before.0 + Messages(buf), Remainder(buf))
  }

  /** Cutting a stream into chunks changes neither the messages nor the remainder. */
  lemma {:induction false} ChunkingInvariance(chunks: seq<seq<byte>>)
    ensures Threaded(chunks) == (Messages(Concat(chunks)), Remainder(Concat(chunks)))
  {
    if |chunks| == 0 {
    } else {
      var front := chunks[..|chunks| - 1];
      ChunkingInvariance(front);
      RemainderSuffices(Concat(front), chunks[|chunks| - 1]);
    }
  }
}
