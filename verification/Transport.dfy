/** `IndiTransport._reader_loop`: chunks, end of file, errors and reconnections. */
module Transport {
  import opened Bytes
  import opened XmlStream
  import opened Splitter

  const RECONNECT_MIN_DELAY := 2
  const RECONNECT_MAX_DELAY := 60
  const RECONNECT_BACKOFF_FACTOR := 2

  /** What `recv` does: it returns bytes (none at end of file), times out, or raises. */
  datatype Recv = Data(bytes: seq<byte>) | TimedOut | Failed

  /**
   One turn of the reader loop: whether a sender found the connection dead since the last turn, what
   `recv` does if it is called, and whether a reconnection tried in this turn succeeds.
   */
  datatype Turn = Turn(lost: bool, recv: Recv, reconnects: bool)

  // ---------- the loop as a function of its turns ----------

  datatype Reader = Reader(connected: bool, buffer: seq<byte>, queue: seq<Message>)

  const CONNECTED := Reader(true, [], [])

  function AfterTurn(r: Reader, t: Turn): Reader {
    if !r.connected || t.lost then Reader(t.reconnects, [], r.queue)
    else
      match t.recv
      case TimedOut => r
      case Failed => r.(connected := t.reconnects)
      case Data(bytes) =>
        if bytes == [] then Reader(t.reconnects, [], r.queue)
        else Reader(true, Remainder(r.buffer + bytes), r.queue + Messages(r.buffer + bytes))
  }

  function AfterTurns(r: Reader, turns: seq<Turn>): Reader {
    if |turns| == 0 then r else AfterTurn(AfterTurns(r, turns[..|turns| - 1]), turns[|turns| - 1])
  }

  // ---------- the loop ----------

  class IndiTransport {
    var connected: bool
    var queue: seq<Message>
    var reconnectDelay: int

    constructor ()
      ensures !connected && queue == [] && reconnectDelay == RECONNECT_MIN_DELAY
    {
      connected, queue, reconnectDelay := false, [], RECONNECT_MIN_DELAY;
    }

    /** `_handle_disconnection`: back off, then try once. */
    method HandleDisconnection(reconnects: bool)
      modifies `connected, `reconnectDelay
      ensures connected == reconnects
      ensures reconnectDelay ==
              if reconnects then RECONNECT_MIN_DELAY
              else if old(reconnectDelay) * 2 < RECONNECT_MAX_DELAY then old(reconnectDelay) * 2 else RECONNECT_MAX_DELAY
    {
      connected := false;
      var doubled := reconnectDelay * RECONNECT_BACKOFF_FACTOR;
      reconnectDelay := if doubled < RECONNECT_MAX_DELAY then doubled else RECONNECT_MAX_DELAY;
      if reconnects {
        connected := true;
        reconnectDelay := RECONNECT_MIN_DELAY;
      }
    }

    /** Queues the messages one by one. */
    method PutAll(messages: seq<Message>)
      modifies `queue
      ensures queue == old(queue) + messages
    {
      for k := 0 to |messages|
        invariant queue == old(queue) + messages[..k]
      {
        queue := queue + [messages[k]];
      }
    }

    /** `_reader_loop`, until it is told to stop after `turns`; `buffer` is what it then still holds. */
    method ReaderLoop(turns: seq<Turn>) returns (buffer: seq<byte>)
      modifies this
      ensures Reader(connected, buffer, queue) == AfterTurns(Reader(old(connected), [], old(queue)), turns)
    {
      buffer := [];
      var scanPos := 0;
      var i := 0;
      while i < |turns|
        invariant i <= |turns|
        invariant Reader(connected, buffer, queue) == AfterTurns(Reader(old(connected), [], old(queue)), turns[..i])
      {
        var turn := turns[i];
        assert turns[..i + 1][..i] == turns[..i];
        i := i + 1;
        if turn.lost {
          connected := false;
        }
        if !connected {
          HandleDisconnection(turn.reconnects);
          buffer := [];
          scanPos := 0;
          continue;
        }
        match turn.recv
        case TimedOut =>
        case Failed =>
          connected := false;
          HandleDisconnection(turn.reconnects);
        case Data(data) =>
          if |data| == 0 {
            connected := false;
            HandleDisconnection(turn.reconnects);
            buffer := [];
            scanPos := 0;
            continue;
          }
          buffer := buffer + data;
          var messages;
          messages, buffer, scanPos := SplitXmlMessages(buffer, scanPos);
          PutAll(messages);
      }
      assert turns[..i] == turns;
    }
  }

  // ---------- connections do not leak into each other ----------

  /** Nothing can be received in this turn, or what is received ends the connection; a reconnection is tried. */
  predicate Breaks(connected: bool, t: Turn) {
    !connected || t.lost || t.recv.Failed? || t.recv == Data([])
  }

  /** Whether there is a connection, told from the turns alone: the last reconnection that was tried succeeded. */
  predicate ConnectedAfter(turns: seq<Turn>) {
    |turns| > 0 ==>
      var t := turns[|turns| - 1];
      var was := ConnectedAfter(turns[..|turns| - 1]);
      if Breaks(was, t) then t.reconnects else was
  }

  /** The bytes received from each connection, told from the turns alone; the last is the present connection. */
  function Streams(turns: seq<Turn>): (streams: seq<seq<byte>>)
    ensures |streams| > 0
  {
    if |turns| == 0 then [[]]
    else
      var before := turns[..|turns| - 1];
      NextStreams(ConnectedAfter(before), Streams(before), turns[|turns| - 1])
  }

  function NextStreams(connected: bool, streams: seq<seq<byte>>, t: Turn): (next: seq<seq<byte>>)
    requires |streams| > 0
    ensures |next| > 0
  {
    var n := |streams| - 1;
    if Breaks(connected, t) then streams + [[]]
    else if t.recv.TimedOut? then streams
    else streams[..n] + [streams[n] + t.recv.bytes]
  }

  /** The reader is connected exactly when the turns say so. */
  lemma {:induction false} ConnectedAsTurnsSay(turns: seq<Turn>)
    ensures AfterTurns(CONNECTED, turns).connected == ConnectedAfter(turns)
  {
    if |turns| == 0 {
    } else {
      ConnectedAsTurnsSay(turns[..|turns| - 1]);
    }
  }

  /** The messages of each stream on its own. */
  function MessagesOfEach(streams: seq<seq<byte>>): seq<Message> {
    if |streams| == 0 then [] else MessagesOfEach(streams[..|streams| - 1]) + Messages(streams[|streams| - 1])
  }

  /** An error is carried over when it interrupts a message and the reconnection succeeds at once. */
  predicate CarriesOver(turns: seq<Turn>, t: Turn) {
    var streams := Streams(turns);
    ConnectedAfter(turns) && !t.lost && t.recv.Failed? && t.reconnects && Remainder(streams[|streams| - 1]) != []
  }

  /** No turn carries an unfinished message into another connection. */
  predicate NeverCarriesOver(turns: seq<Turn>) {
    |turns| > 0 ==>
      var before := turns[..|turns| - 1];
      NeverCarriesOver(before) && !CarriesOver(before, turns[|turns| - 1])
  }

  /** What is queued is the messages of each connection's own bytes; what is kept is the present one's. */
  predicate Isolated(r: Reader, connected: bool, streams: seq<seq<byte>>)
    requires |streams| > 0
  {
    && r.connected == connected
    && r.queue == MessagesOfEach(streams)
    && (connected ==> r.buffer == Remainder(streams[|streams| - 1]))
  }

  lemma AppendEmpty(streams: seq<seq<byte>>)
    ensures MessagesOfEach(streams + [[]]) == MessagesOfEach(streams)
  {
    assert (streams + [[]])[..|streams|] == streams;
    assert Messages([]) == [];
  }

  lemma AppendBytes(streams: seq<seq<byte>>, bytes: seq<byte>)
    requires |streams| > 0
    ensures var n := |streams| - 1;
            MessagesOfEach(streams[..n] + [streams[n] + bytes]) == MessagesOfEach(streams) + Messages(Remainder(streams[n]) + bytes)
  {
    var n := |streams| - 1;
    var next := streams[..n] + [streams[n] + bytes];
    assert next[..n] == streams[..n] && next[n] == streams[n] + bytes;
    RemainderSuffices(streams[n], bytes);
  }

  lemma IsolationStep(r: Reader, turns: seq<Turn>, t: Turn)
    requires Isolated(r, ConnectedAfter(turns), Streams(turns)) && !CarriesOver(turns, t)
    ensures var connected := ConnectedAfter(turns);
            Isolated(AfterTurn(r, t), if Breaks(connected, t) then t.reconnects else connected, NextStreams(connected, Streams(turns), t))
  {
    var connected, streams := ConnectedAfter(turns), Streams(turns);
    if Breaks(connected, t) {
      AppendEmpty(streams);
    } else if t.recv.Data? {
      AppendBytes(streams, t.recv.bytes);
      RemainderSuffices(streams[|streams| - 1], t.recv.bytes);
    }
  }

  /** Per-connection isolation: it holds on every run in which no error carries a message over. */
  lemma {:induction false} PerConnectionIsolation(turns: seq<Turn>)
    requires NeverCarriesOver(turns)
    ensures Isolated(AfterTurns(CONNECTED, turns), ConnectedAfter(turns), Streams(turns))
  {
    if |turns| == 0 {
      assert MessagesOfEach([[]]) == MessagesOfEach([]) + Messages([]);
    } else {
      var before := turns[..|turns| - 1];
      PerConnectionIsolation(before);
      IsolationStep(AfterTurns(CONNECTED, before), before, turns[|turns| - 1]);
    }
  }

  /** What a new connection sends first is queued, on its own, however the old one ended. */
  lemma {:induction false} NewConnectionIsHeard(turns: seq<Turn>, broken: Turn, data: seq<byte>, later: bool)
    requires NeverCarriesOver(turns) && !CarriesOver(turns, broken)
    requires Breaks(ConnectedAfter(turns), broken) && broken.reconnects && data != []
    ensures AfterTurns(CONNECTED, turns + [broken] + [Turn(false, Data(data), later)]).queue
            == MessagesOfEach(Streams(turns)) + Messages(data)
  {
    var t := Turn(false, Data(data), later);
    var more := turns + [broken];
    TurnMore(turns, broken);
    TurnMore(more, t);
    assert more[..|turns|] == turns && (more + [t])[..|more|] == more;
    PerConnectionIsolation(more + [t]);
    AppendBytes(Streams(turns) + [[]], data);
    AppendEmpty(Streams(turns));
    assert Messages(Remainder([]) + data) == Messages(data) by {
      assert [] + data == data;
    }
  }

  lemma {:induction false} MessageOfSomeStream(streams: seq<seq<byte>>, m: Message)
    requires m in MessagesOfEach(streams)
    ensures exists s :: s in streams && m in Messages(s)
  {
    var n := |streams| - 1;
    if m !in Messages(streams[n]) {
      MessageOfSomeStream(streams[..n], m);
    }
  }

  /** So every queued message is a contiguous piece of the bytes of one connection. */
  lemma QueuedFromOneConnection(turns: seq<Turn>, m: Message)
    requires NeverCarriesOver(turns) && m in AfterTurns(CONNECTED, turns).queue
    ensures exists s :: s in Streams(turns) && IsSlice(m, s)
  {
    PerConnectionIsolation(turns);
    MessageOfSomeStream(Streams(turns), m);
    var s :| s in Streams(turns) && m in Messages(s);
    MessagesAreSlices(s);
  }

  /** `<a/>` */
  const PROBE: seq<byte> := [LT, 97, SLASH, GT]

  lemma ProbeIsOneMessage()
    ensures Messages(PROBE) == [PROBE]
  {
    assert PROBE == [] + [LT] + [97] + [SLASH] + [GT];
    FeedOne(Idle, [], LT);
    FeedOne(Idle, [] + [LT], 97);
    FeedOne(Idle, [] + [LT] + [97], SLASH);
    FeedOne(Idle, [] + [LT] + [97] + [SLASH], GT);
  }

  /** The first message completed after a remainder extends that remainder. */
  lemma {:induction false} FirstMessageExtends(s: Stream, bytes: seq<byte>)
    requires s.Inside?
    ensures var fed := Feed(s, bytes);
            if fed.messages == [] then fed.state.Inside? && fed.state.pending == s.pending + bytes
            else exists k :: 0 < k <= |bytes| && fed.messages[0] == s.pending + bytes[..k]
  {
    if |bytes| == 0 {
    } else {
      var front, b := bytes[..|bytes| - 1], bytes[|bytes| - 1];
      FirstMessageExtends(s, front);
      if Feed(s, front).messages == [] {
        assert s.pending + front + [b] == s.pending + bytes[..|bytes|];
      } else {
        var k :| 0 < k <= |front| && Feed(s, front).messages[0] == s.pending + front[..k];
        assert bytes[..k] == front[..k];
      }
    }
  }

  lemma NoLongerProbe(rest: seq<byte>, k: nat)
    requires rest != [] && 0 < k <= |PROBE|
    ensures rest + PROBE[..k] != PROBE
  {
    if k == |PROBE| {
      assert |rest + PROBE[..k]| > |PROBE|;
    } else {
      assert PROBE[k - 1] != GT && (rest + PROBE[..k])[|rest| + k - 1] == PROBE[k - 1];
    }
  }

  /** An unfinished message swallows the beginning of what follows it. */
  lemma UnfinishedSwallows(stream: seq<byte>)
    requires Remainder(stream) != []
    ensures Messages(Remainder(stream) + PROBE) != Messages(PROBE)
  {
    var rest, s := Remainder(stream), Feed(Idle, stream).state;
    FeedReplayable(Idle, stream);
    FeedAppend(Idle, rest, PROBE);
    assert Messages(rest + PROBE) == Feed(s, PROBE).messages;
    FirstMessageExtends(s, PROBE);
    ProbeIsOneMessage();
    forall k: nat | 0 < k <= |PROBE|
      ensures rest + PROBE[..k] != PROBE
    {
      NoLongerProbe(rest, k);
    }
  }

  /**
   The error branch keeps the buffer, so it is harmless, whatever the next connection sends, exactly
   when it does not interrupt a message.
   */
  lemma ErrorHarmlessIffBetweenMessages(stream: seq<byte>)
    ensures (forall data :: Messages(Remainder(stream) + data) == Messages(data)) <==> Remainder(stream) == []
  {
    var rest := Remainder(stream);
    if rest == [] {
      forall data
        ensures Messages(rest + data) == Messages(data)
      {
        assert rest + data == data;
      }
    } else {
      UnfinishedSwallows(stream);
    }
  }

  /** What is queued after one more turn and then the first bytes of the next connection. */
  function QueuedAfter(r: Reader, t: Turn, data: seq<byte>): seq<Message> {
    AfterTurn(AfterTurn(r, t), Turn(false, Data(data), true)).queue
  }

  /**
   On an isolated run, an error followed by an immediate reconnection keeps the next connection's
   messages its own, whatever it sends first, exactly when it does not carry a message over.
   */
  lemma ErrorKeepsIsolationIff(turns: seq<Turn>)
    requires NeverCarriesOver(turns) && ConnectedAfter(turns)
    ensures var r := AfterTurns(CONNECTED, turns);
            var error := Turn(false, Failed, true);
            (forall data: seq<byte> | data != [] ::
               QueuedAfter(r, error, data) == MessagesOfEach(Streams(turns)) + Messages(data))
            <==> !CarriesOver(turns, error)
  {
    var r := AfterTurns(CONNECTED, turns);
    var error := Turn(false, Failed, true);
    var streams := Streams(turns);
    var stream := streams[|streams| - 1];
    PerConnectionIsolation(turns);
    ErrorHarmlessIffBetweenMessages(stream);
    forall data: seq<byte> | data != []
      ensures QueuedAfter(r, error, data) == MessagesOfEach(streams) + Messages(data)
              <==> Messages(Remainder(stream) + data) == Messages(data)
    {
      QueuedAfterError(r, data);
      SameSuffix(r.queue, Messages(r.buffer + data), Messages(data));
    }
    if r.buffer != [] {
      var data :| Messages(Remainder(stream) + data) != Messages(data);
      FeedReplayable(Idle, stream);
      assert Remainder(stream) + [] == Remainder(stream);
      assert data != [];
    }
  }

  lemma QueuedAfterError(r: Reader, data: seq<byte>)
    requires r.connected && data != []
    ensures QueuedAfter(r, Turn(false, Failed, true), data) == r.queue + Messages(r.buffer + data)
  {
  }

  lemma SameSuffix<T>(a: seq<T>, b: seq<T>, c: seq<T>)
    ensures a + b == a + c <==> b == c
  {
    if a + b == a + c {
      assert b == (a + b)[|a|..] == (a + c)[|a|..] == c;
    }
  }

  /** `<<a/>` */
  lemma MixedIsOneMessage()
    ensures Messages([LT] + PROBE) == [[LT] + PROBE]
    ensures Messages([LT]) == [] && Remainder([LT]) == [LT]
  {
    assert [LT] + PROBE == [] + [LT] + [LT] + [97] + [SLASH] + [GT];
    FeedOne(Idle, [], LT);
    FeedOne(Idle, [] + [LT], LT);
    FeedOne(Idle, [] + [LT] + [LT], 97);
    FeedOne(Idle, [] + [LT] + [LT] + [97], SLASH);
    FeedOne(Idle, [] + [LT] + [LT] + [97] + [SLASH], GT);
    assert [] + [LT] == [LT];
  }

  lemma TurnMore(turns: seq<Turn>, t: Turn)
    ensures AfterTurns(CONNECTED, turns + [t]) == AfterTurn(AfterTurns(CONNECTED, turns), t)
    ensures Streams(turns + [t]) == NextStreams(ConnectedAfter(turns), Streams(turns), t)
    ensures ConnectedAfter(turns + [t]) == if Breaks(ConnectedAfter(turns), t) then t.reconnects else ConnectedAfter(turns)
  {
    assert (turns + [t])[..|turns|] == turns;
  }

  lemma MessagesOfTwo(a: seq<byte>, b: seq<byte>)
    ensures MessagesOfEach([a, b]) == Messages(a) + Messages(b)
  {
    assert [a, b][..1] == [a] && [a][..0] == [];
    assert MessagesOfEach([a]) == MessagesOfEach([]) + Messages(a) == Messages(a);
  }

  /**
   A run that mixes two connections: the first one breaks off after a '<', and the message that the
   second one sends is queued with that '<' before it.
   */
  lemma ErrorMixesConnections()
    ensures var turns := [Turn(false, Data([LT]), true)] + [Turn(false, Failed, true)] + [Turn(false, Data(PROBE), true)];
            && Streams(turns) == [[LT], PROBE]
            && MessagesOfEach(Streams(turns)) == [PROBE]
            && AfterTurns(CONNECTED, turns).queue == [[LT] + PROBE]
  {
    var first, error, second := Turn(false, Data([LT]), true), Turn(false, Failed, true), Turn(false, Data(PROBE), true);
    MixedIsOneMessage();
    ProbeIsOneMessage();
    MessagesOfTwo([LT], PROBE);
    BrokenOff(first, error);
    TurnMore([first] + [error], second);
    assert Streams([first] + [error] + [second]) == [[LT]] + [[] + PROBE];
    assert [] + PROBE == PROBE;
  }

  lemma BrokenOff(first: Turn, error: Turn)
    requires first == Turn(false, Data([LT]), true) && error == Turn(false, Failed, true)
    ensures AfterTurns(CONNECTED, [first] + [error]) == Reader(true, [LT], [])
    ensures Streams([first] + [error]) == [[LT], []]
  {
    assert [] + [first] == [first] && [] + [LT] == [LT];
    MixedIsOneMessage();
    TurnMore([], first);
    TurnMore([first], error);
    assert AfterTurns(CONNECTED, [first]) == Reader(true, [LT], []);
    assert Streams([first]) == [] + [[] + [LT]];
  }
}
