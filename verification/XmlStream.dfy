/**
 The framing of the INDI stream as an automaton that reads one byte at a time and never looks back.
 This is the reference that the rescanning splitter of `Scanners` is proved against: what has been
 recognised so far is a function of the bytes alone, however they were cut into chunks.
 */
module XmlStream {
  import opened Bytes

  type Message = seq<byte>

  /** Where inside an element the automaton is. */
  datatype Mode =
    | Text                    // character data
    | Lt                      // just after '<'
    | Bang                    // after "<!"
    | BangDash                // after "<!-"
    | Tag(slash: bool)        // inside an opening tag; slash: the previous byte was an unquoted '/'
    | TagQuoted(quote: byte)  // inside a quoted attribute value
    | Close                   // after "</"
    | CloseQuoted(quote: byte)
    | Comment(dashes: nat)    // after "<!--", with the number of dashes that could start "-->"
    | Pi(query: bool)         // after "<?"; query: the previous byte was '?'

  /** Between messages, or inside one whose bytes so far are `pending`. */
  datatype Stream = Idle | Inside(mode: Mode, depth: int, pending: seq<byte>)

  datatype Verdict = Goto(mode: Mode, depth: int) | Complete

  datatype Fed = Fed(state: Stream, messages: seq<Message>)

  function Pending(s: Stream): seq<byte> {
    if s.Idle? then [] else s.pending
  }

  /** One byte of an opening tag. */
  function InTag(slash: bool, depth: int, b: byte): Verdict {
    if IsQuote(b) then Goto(TagQuoted(b), depth)
    else if b != GT then Goto(Tag(b == SLASH), depth)
    else if !slash then Goto(Text, depth + 1)
    else if depth == 0 then Complete
    else Goto(Text, depth)
  }

  /** One byte of a closing tag. */
  function InClose(depth: int, b: byte): Verdict {
    if IsQuote(b) then Goto(CloseQuoted(b), depth)
    else if b != GT then Goto(Close, depth)
    else if depth == 1 then Complete
    else Goto(Text, depth - 1)
  }

  function Advance(mode: Mode, depth: int, b: byte): Verdict {
    match mode
    case Text => Goto(if b == LT then Lt else Text, depth)
    case Lt =>
      if b == BANG then Goto(Bang, depth)
      else if b == QUERY then Goto(Pi(false), depth)
      else if b == SLASH then Goto(Close, depth)
      else InTag(false, depth, b)
    case Bang => if b == DASH then Goto(BangDash, depth) else InTag(false, depth, b)
    case BangDash => if b == DASH then Goto(Comment(0), depth) else InTag(false, depth, b)
    case Tag(slash) => InTag(slash, depth, b)
    case TagQuoted(q) => Goto(if b == q then Tag(false) else mode, depth)
    case Close => InClose(depth, b)
    case CloseQuoted(q) => Goto(if b == q then Close else mode, depth)
    case Comment(dashes) =>
      if b == DASH then Goto(Comment(if dashes == 0 then 1 else 2), depth)
      else if b == GT && dashes == 2 then Goto(Text, depth)
      else Goto(Comment(0), depth)
    case Pi(query) => Goto(if query && b == GT then Text else Pi(b == QUERY), depth)
  }

  function Step(s: Stream, b: byte): Fed {
    match s
    case Idle => Fed(if b == LT then Inside(Lt, 0, [b]) else Idle, [])
    case Inside(mode, depth, pending) =>
      match Advance(mode, depth, b)
      case Goto(m, d) => Fed(Inside(m, d, pending + [b]), [])
      case Complete => Fed(Idle, [pending + [b]])
  }

  /** Reading `bytes` from state `s`: the state reached and the messages completed, in order. */
  function Feed(s: Stream, bytes: seq<byte>): Fed {
    if |bytes| == 0 then Fed(s, [])
    else
      var before := Feed(s, bytes[..|bytes| - 1]);
      var last := Step(before.state, bytes[|bytes| - 1]);
      Fed(last.state, before.messages + last.messages)
  }

  /** The messages of a whole byte stream. */
  function Messages(bytes: seq<byte>): seq<Message> {
    Feed(Idle, bytes).messages
  }

  /** The unfinished message at the end of a byte stream. */
  function Remainder(bytes: seq<byte>): seq<byte> {
    Pending(Feed(Idle, bytes).state)
  }

  lemma FeedOne(s: Stream, bytes: seq<byte>, b: byte)
    ensures Feed(s, bytes + [b]).state == Step(Feed(s, bytes).state, b).state
    ensures Feed(s, bytes + [b]).messages == Feed(s, bytes).messages + Step(Feed(s, bytes).state, b).messages
  {
  }

  /** Feeding in two parts is feeding at once. */
  lemma {:induction false} FeedAppend(s: Stream, a: seq<byte>, b: seq<byte>)
    ensures Feed(s, a + b).state == Feed(Feed(s, a).state, b).state
    ensures Feed(s, a + b).messages == Feed(s, a).messages + Feed(Feed(s, a).state, b).messages
    decreases |b|
  {
    if |b| == 0 {
      assert a + b == a;
    } else {
      var front, last := b[..|b| - 1], b[|b| - 1];
      assert a + b == (a + front) + [last] && b == front + [last];
      FeedAppend(s, a, front);
      FeedOne(s, a + front, last);
      FeedOne(Feed(s, a).state, front, last);
    }
  }

  /** A state from which nothing is lost by keeping only its pending bytes. */
  ghost predicate Replayable(s: Stream) {
    Feed(Idle, Pending(s)) == Fed(s, [])
  }

  lemma {:induction false} FeedReplayable(s: Stream, bytes: seq<byte>)
    requires Replayable(s)
    ensures Replayable(Feed(s, bytes).state)
  {
    if |bytes| == 0 {
    } else {
      var front, b := bytes[..|bytes| - 1], bytes[|bytes| - 1];
      FeedReplayable(s, front);
      FeedOne(Idle, Pending(Feed(s, front).state), b);
    }
  }

  /** The remainder of a stream stands for the whole of it. */
  lemma RemainderSuffices(bytes: seq<byte>, more: seq<byte>)
    ensures Messages(bytes + more) == Messages(bytes) + Messages(Remainder(bytes) + more)
    ensures Remainder(bytes + more) == Remainder(Remainder(bytes) + more)
  {
    FeedReplayable(Idle, bytes);
    FeedAppend(Idle, bytes, more);
    FeedAppend(Idle, Remainder(bytes), more);
  }

  /** What holds of every state that is reached from Idle, besides Replayable. */
  predicate WellFormed(s: Stream) {
    s.Inside? ==> |s.pending| > 0 && s.pending[0] == LT
  }

  /** A message starts with '<' and ends with '>'. */
  predicate Delimited(m: Message) {
    |m| >= 2 && m[0] == LT && m[|m| - 1] == GT
  }

  lemma {:induction false} FeedWellFormed(s: Stream, bytes: seq<byte>)
    requires WellFormed(s)
    ensures WellFormed(Feed(s, bytes).state)
    ensures forall m :: m in Feed(s, bytes).messages ==> Delimited(m)
  {
    if |bytes| == 0 {
    } else {
      FeedWellFormed(s, bytes[..|bytes| - 1]);
    }
  }

  lemma StripDelimited(m: Message)
    requires Delimited(m)
    ensures Strip(m) == m
  {
  }

  ghost predicate IsSlice(part: seq<byte>, whole: seq<byte>) {
    exists i, j :: 0 <= i <= j <= |whole| && whole[i..j] == part
  }

  lemma SliceGrows(part: seq<byte>, whole: seq<byte>, b: byte)
    requires IsSlice(part, whole)
    ensures IsSlice(part, whole + [b])
  {
    var i, j :| 0 <= i <= j <= |whole| && whole[i..j] == part;
    assert (whole + [b])[i..j] == part;
  }

  lemma EndIsSlice(before: seq<byte>, part: seq<byte>)
    ensures IsSlice(part, before + part)
  {
    assert (before + part)[|before|..|before + part|] == part;
  }

  /** Every message is a contiguous piece of the stream, and the remainder is its end. */
  lemma {:induction false} MessagesAreSlices(bytes: seq<byte>)
    ensures |Remainder(bytes)| <= |bytes| && bytes[|bytes| - |Remainder(bytes)|..] == Remainder(bytes)
    ensures forall m :: m in Messages(bytes) ==> IsSlice(m, bytes)
  {
    if |bytes| == 0 {
    } else {
      var front, b := bytes[..|bytes| - 1], bytes[|bytes| - 1];
      MessagesAreSlices(front);
      var pending := Remainder(front);
      var before := front[..|front| - |pending|];
      assert bytes == front + [b] == before + (pending + [b]);
      EndIsSlice(before, pending + [b]);
      forall m | m in Messages(front)
        ensures IsSlice(m, bytes)
      {
        SliceGrows(m, front, b);
      }
    }
  }
}
