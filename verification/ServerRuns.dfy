/** Who gets a broadcast, told from everything that has happened to a server since it started. */
module ServerRuns {
  import opened Options
  import opened SocketServer

  /** What happens to a server; how many of the replies get through does not matter here. */
  datatype Op<C> =
    | Accepted(conn: C)
    | Closed(conn: C)
    | SubscribedTo(conn: C, device: Device, snapshot: seq<Message>, reach: nat)
    | UnsubscribedFrom(conn: C, device: Device, acked: bool)
    | Published(msg: Message, exclude: Option<C>, broken: set<C>)

  // ---------- the history of one connection ----------

  /** The connection is open, and no broadcast has found it broken. */
  predicate Connected<C(==)>(ops: seq<Op<C>>, c: C)
    decreases |ops|, 0
  {
    if |ops| == 0 then false
    else
      var before := ops[..|ops| - 1];
      match ops[|ops| - 1]
      case Accepted(x) => x == c || Connected(before, c)
      case Closed(x) => x != c && Connected(before, c)
      case Published(m, exclude, broken) => Connected(before, c) && !(c in broken && Due(before, c, m.device, exclude))
      case _ => Connected(before, c)
  }

  /** It has subscribed to this device (None: to all messages), and not unsubscribed since. */
  predicate Subscribing<C(==)>(ops: seq<Op<C>>, c: C, key: Device)
    decreases |ops|, 0
  {
    if |ops| == 0 then false
    else
      var before, op := ops[..|ops| - 1], ops[|ops| - 1];
      match op
      case SubscribedTo(x, device, _, _) => (x == c && device == key && Connected(before, c)) || Subscribing(before, c, key)
      case UnsubscribedFrom(x, device, _) => !(x == c && device == key) && Subscribing(before, c, key)
      case _ => !Resets(before, op, c) && Subscribing(before, c, key)
  }

  /** An operation after which the connection has no subscriptions: it is new, or gone. */
  predicate Resets<C(==)>(before: seq<Op<C>>, op: Op<C>, c: C)
    decreases |before|, 2
  {
    match op
    case Accepted(x) => x == c
    case Closed(x) => x == c
    case Published(m, exclude, broken) => c in broken && Due(before, c, m.device, exclude)
    case _ => false
  }

  /** A message is for everyone who wants all messages; one about a device also for who wants that device. */
  predicate Due<C(==)>(ops: seq<Op<C>>, c: C, device: Device, exclude: Option<C>)
    decreases |ops|, 1
  {
    && Connected(ops, c) && Some(c) != exclude
    && (Subscribing(ops, c, None) || (device.Some? && Subscribing(ops, c, device)))
  }

  /** The server's table says what the history says. */
  ghost predicate Tells<C(!new)>(connections: map<C, Subscriptions>, ops: seq<Op<C>>) {
    forall c :: TellsOf(connections, ops, c)
  }

  ghost predicate TellsOf<C(!new)>(connections: map<C, Subscriptions>, ops: seq<Op<C>>, c: C) {
    && (c in connections <==> Connected(ops, c))
    && forall key :: Subscribing(ops, c, key) <==> c in connections && key in connections[c]
  }

  lemma TargetsAreDue<C(!new)>(connections: map<C, Subscriptions>, ops: seq<Op<C>>, exclude: Option<C>, device: Device, c: C)
    requires TellsOf(connections, ops, c)
    ensures c in Targets(connections, exclude, device) <==> Due(ops, c, device, exclude)
  {
  }

  lemma OneMoreOp<C>(ops: seq<Op<C>>, op: Op<C>)
    ensures (ops + [op])[..|ops + [op]| - 1] == ops && (ops + [op])[|ops + [op]| - 1] == op
  {
  }

  lemma AcceptTells<C(!new)>(conns: map<C, Subscriptions>, ops: seq<Op<C>>, conn: C)
    requires Tells(conns, ops)
    ensures Tells(conns[conn := {}], ops + [Accepted(conn)])
  {
    OneMoreOp(ops, Accepted(conn));
    var after, more := conns[conn := {}], ops + [Accepted(conn)];
    forall c
      ensures TellsOf(after, more, c)
    {
      assert TellsOf(conns, ops, c);
      assert Resets(ops, Accepted(conn), c) <==> c == conn;
      assert forall key :: Subscribing(more, c, key) <==> c != conn && Subscribing(ops, c, key);
    }
  }

  lemma CloseTells<C(!new)>(conns: map<C, Subscriptions>, ops: seq<Op<C>>, conn: C)
    requires Tells(conns, ops)
    ensures Tells(conns - {conn}, ops + [Closed(conn)])
  {
    OneMoreOp(ops, Closed(conn));
    forall c
      ensures TellsOf(conns - {conn}, ops + [Closed(conn)], c)
    {
      assert TellsOf(conns, ops, c);
    }
  }

  lemma SubscribeTells<C(!new)>(conns: map<C, Subscriptions>, ops: seq<Op<C>>, op: Op<C>)
    requires Tells(conns, ops) && op.SubscribedTo?
    ensures Tells(if op.conn in conns then conns[op.conn := conns[op.conn] + {op.device}] else conns, ops + [op])
  {
    OneMoreOp(ops, op);
    var after := if op.conn in conns then conns[op.conn := conns[op.conn] + {op.device}] else conns;
    forall c
      ensures TellsOf(after, ops + [op], c)
    {
      assert TellsOf(conns, ops, c);
    }
  }

  lemma UnsubscribeTells<C(!new)>(conns: map<C, Subscriptions>, ops: seq<Op<C>>, op: Op<C>)
    requires Tells(conns, ops) && op.UnsubscribedFrom?
    ensures Tells(if op.conn in conns then conns[op.conn := conns[op.conn] - {op.device}] else conns, ops + [op])
  {
    OneMoreOp(ops, op);
    var after := if op.conn in conns then conns[op.conn := conns[op.conn] - {op.device}] else conns;
    forall c
      ensures TellsOf(after, ops + [op], c)
    {
      assert TellsOf(conns, ops, c);
    }
  }

  lemma PublishTells<C(!new)>(conns: map<C, Subscriptions>, ops: seq<Op<C>>, op: Op<C>)
    requires Tells(conns, ops) && op.Published?
    ensures Tells(conns - (Targets(conns, op.exclude, op.msg.device) * op.broken), ops + [op])
  {
    OneMoreOp(ops, op);
    var after := conns - (Targets(conns, op.exclude, op.msg.device) * op.broken);
    forall c
      ensures TellsOf(after, ops + [op], c)
    {
      assert TellsOf(conns, ops, c);
      TargetsAreDue(conns, ops, op.exclude, op.msg.device, c);
    }
  }

  // ---------- a server that goes through a history ----------

  method Perform<C(==,!new)>(server: Server<C>, ghost ops: seq<Op<C>>, op: Op<C>)
    requires Tells(server.connections, ops)
    modifies server
    ensures Tells(server.connections, ops + [op])
  {
    ghost var before := server.connections;
    match op
    case Accepted(c) =>
      AcceptTells(before, ops, c);
      server.Accept(c);
    case Closed(c) =>
      CloseTells(before, ops, c);
      server.Close(c);
    case SubscribedTo(c, device, snapshot, works) =>
      SubscribeTells(before, ops, op);
      server.Subscribe(c, device, snapshot, works);
    case UnsubscribedFrom(c, device, works) =>
      UnsubscribeTells(before, ops, op);
      server.Unsubscribe(c, device, works);
    case Published(m, exclude, broken) =>
      PublishTells(before, ops, op);
      server.Broadcast(m, exclude, broken);
  }

  /** The connections that a list of sent messages serves. */
  predicate Served<C(==)>(out: seq<Sent<C>>, c: C) {
    exists k :: 0 <= k < |out| && out[k].conn == c
  }

  lemma SentToTells<C(!new)>(out: seq<Sent<C>>, conns: set<C>, msg: Message)
    requires multiset(out) == multiset(SentTo(conns, msg))
    ensures forall k :: 0 <= k < |out| ==> out[k].msg == msg
    ensures forall c :: Served(out, c) <==> c in conns
    ensures forall j, k :: 0 <= j < k < |out| ==> out[j].conn != out[k].conn
  {
    forall k | 0 <= k < |out|
      ensures out[k] in SentTo(conns, msg)
    {
      assert out[k] in multiset(out);
    }
    forall c
      ensures Served(out, c) <==> c in conns
    {
      if c in conns {
        assert Sent(c, msg) in multiset(SentTo(conns, msg));
        assert Sent(c, msg) in out;
      }
    }
    forall j, k | 0 <= j < k < |out|
      ensures out[j].conn != out[k].conn
    {
      if out[j] == out[k] {
        Twice(out, j, k);
      }
    }
  }

  lemma Twice<T>(s: seq<T>, j: nat, k: nat)
    requires j < k < |s| && s[j] == s[k]
    ensures multiset(s)[s[j]] >= 2
  {
    assert s == s[..k] + [s[k]] + s[k + 1..];
    assert s[j] in multiset(s[..k]);
  }

  /**
   What a broadcast sends after any history: one message to every working connection that is due one, and
   to no other; with the message's own device and body, and the engine's id added to its provenance.
   */
  method PublishAfter<C(==,!new)>(identity: Option<Id>, ops: seq<Op<C>>, msg: Message, exclude: Option<C>, broken: set<C>)
    returns (out: seq<Sent<C>>)
    ensures forall c :: Served(out, c) <==> c !in broken && Due(ops, c, msg.device, exclude)
    ensures forall j, k :: 0 <= j < k < |out| ==> out[j].conn != out[k].conn
    ensures forall k :: 0 <= k < |out| ==>
              && out[k].msg.device == msg.device && out[k].msg.body == msg.body
              && out[k].msg.provenance == msg.provenance + if identity.Some? then [identity.value] else []
  {
    var server := new Server<C>(identity);
    for i := 0 to |ops|
      invariant fresh(server) && server.identity == identity && Tells(server.connections, ops[..i])
    {
      assert ops[..i + 1] == ops[..i] + [ops[i]];
      Perform(server, ops[..i], ops[i]);
    }
    assert ops[..|ops|] == ops;
    ghost var connections := server.connections;
    var n := |server.sent|;
    server.Broadcast(msg, exclude, broken);
    out := server.sent[n..];
    ghost var targets := Targets(connections, exclude, msg.device);
    SentToTells(out, targets - broken, Stamp(identity, msg));
    forall c
      ensures c in targets <==> Due(ops, c, msg.device, exclude)
    {
      assert TellsOf(connections, ops, c);
      TargetsAreDue(connections, ops, exclude, msg.device, c);
    }
  }

  // ---------- what a subscription is worth ----------

  /** An operation that ends a subscription. */
  predicate Ends<C(==)>(before: seq<Op<C>>, op: Op<C>, c: C, key: Device) {
    Resets(before, op, c) || (op.UnsubscribedFrom? && op.conn == c && op.device == key)
  }

  /** A connection subscribes to a key as long as nothing has ended its last subscription to it. */
  lemma {:induction false} SubscribingIff<C>(ops: seq<Op<C>>, c: C, key: Device)
    ensures Subscribing(ops, c, key) <==>
            exists j :: 0 <= j < |ops|
                        && ops[j].SubscribedTo? && ops[j].conn == c && ops[j].device == key && Connected(ops[..j], c)
                        && forall i :: j < i < |ops| ==> !Ends(ops[..i], ops[i], c, key)
    decreases |ops|
  {
    if |ops| == 0 {
    } else {
      var before, op := ops[..|ops| - 1], ops[|ops| - 1];
      SubscribingIff(before, c, key);
      assert forall i :: 0 <= i < |before| ==> before[i] == ops[i] && before[..i] == ops[..i];
      assert ops[..|before|] == before;
    }
  }

  /** A subscriber to all messages is due every one, whatever its device, until it unsubscribes, leaves or breaks. */
  lemma {:induction false} AllMeansAll<C>(ops: seq<Op<C>>, j: nat, c: C, device: Device, exclude: Option<C>)
    requires j < |ops| && ops[j].SubscribedTo? && ops[j].conn == c && ops[j].device == None && Connected(ops[..j], c)
    requires forall i :: j < i < |ops| ==> !Ends(ops[..i], ops[i], c, None)
    requires Some(c) != exclude
    ensures Due(ops, c, device, exclude)
  {
    SubscribingIff(ops, c, None);
    SubscribingMeansConnected(ops, c, None);
  }

  lemma {:induction false} SubscribingMeansConnected<C>(ops: seq<Op<C>>, c: C, key: Device)
    requires Subscribing(ops, c, key)
    ensures Connected(ops, c)
  {
    if Subscribing(ops[..|ops| - 1], c, key) {
      SubscribingMeansConnected(ops[..|ops| - 1], c, key);
    }
  }
}
