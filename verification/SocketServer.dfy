/** The engine's socket server: subscriptions, filtering, provenance and removal of dead connections. */
module SocketServer {

  import opened Options

  type Id = string
  type Device = Option<string>

  /** The devices a connection has subscribed to; None stands for "all messages". */
  type Subscriptions = set<Device>

  /** A message; no provenance and an empty one are treated alike. */
  datatype Message = Message(device: Device, provenance: seq<Id>, body: string)

  /** Which subscriptions let a message through. */
  predicate Admits(subs: Subscriptions, device: Device) {
    None in subs || (device.Some? && device in subs)
  }

  /** The message as it leaves an engine. */
  function Stamp(identity: Option<Id>, msg: Message): Message {
    match identity
    case None => msg
    case Some(id) => msg.(provenance := msg.provenance + [id])
  }

  /** The connections that a broadcast is meant for. */
  function Targets<C(==)>(connections: map<C, Subscriptions>, exclude: Option<C>, device: Device): set<C> {
    set c | c in connections && Some(c) != exclude && Admits(connections[c], device)
  }

  datatype Sent<C> = Sent(conn: C, msg: Message)

  /** A message for each of the given connections. */
  function SentTo<C(==)>(conns: set<C>, msg: Message): set<Sent<C>> {
    set c | c in conns :: Sent(c, msg)
  }

  /** Messages sent along one connection, in order. */
  function SentAlong<C>(conn: C, msgs: seq<Message>): seq<Sent<C>> {
    seq(|msgs|, i requires 0 <= i < |msgs| => Sent(conn, msgs[i]))
  }

  /** At most the first `n`. */
  function FirstOf<T>(s: seq<T>, n: nat): seq<T> {
    if n < |s| then s[..n] else s
  }

  lemma OneMoreReply<T>(s: seq<T>, n: nat)
    requires n < |s|
    ensures FirstOf(s, n + 1) == FirstOf(s, n) + [s[n]]
  {
  }

  /** A server whose connections are identified by values of type C. */
  class Server<C(==)> {
    const identity: Option<Id>
    var connections: map<C, Subscriptions>
    var sent: seq<Sent<C>>

    constructor (identity: Option<Id>)
      ensures this.identity == identity && connections == map[] && sent == []
    {
      this.identity, connections, sent := identity, map[], [];
    }

    /** A new connection receives nothing before it subscribes. */
    method Accept(conn: C)
      modifies `connections
      ensures connections == old(connections)[conn := {}]
    {
      connections := connections[conn := {}];
    }

    /** The end of `_handle_client`, however it is reached. */
    method Close(conn: C)
      modifies `connections
      ensures connections == old(connections) - {conn}
    {
      if conn in connections {
        connections := connections - {conn};
      } else {
        assert connections - {conn} == connections;
      }
    }

    /**
     `_handle_subscription`, subscribe. `snapshot` is what `_send_current_state` finds in the cache; the
     connection takes `works` more messages and then fails for good, which cuts the replies short.
     */
    method Subscribe(conn: C, device: Device, snapshot: seq<Message>, works: nat)
      modifies this
      ensures conn !in old(connections) ==> connections == old(connections) && sent == old(sent)
      ensures conn in old(connections) ==>
                && connections == old(connections)[conn := old(connections)[conn] + {device}]
                && sent == old(sent) + FirstOf(SentAlong(conn, [Message(device, [], "subscribe_ack")] + snapshot), works)
    {
      if conn !in connections {
        return;
      }
      connections := connections[conn := connections[conn] + {device}];
      var ack := Message(device, [], "subscribe_ack");
      ghost var replies := SentAlong(conn, [ack] + snapshot);
      if works > 0 {
        sent := sent + [Sent(conn, ack)];
      }
      assert sent == old(sent) + FirstOf(replies, if works > 0 then 1 else 0);
      for k := 0 to |snapshot|
        invariant connections == old(connections)[conn := old(connections)[conn] + {device}]
        invariant k > 0 ==> works > k
        invariant sent == old(sent) + FirstOf(replies, if works > k then k + 1 else works)
      {
        if works <= k + 1 {
          return;
        }
        sent := sent + [Sent(conn, snapshot[k])];
        OneMoreReply(replies, k + 1);
      }
    }

    /** `_handle_subscription`, unsubscribe; `works` says whether the acknowledgement can be sent. */
    method Unsubscribe(conn: C, device: Device, works: bool)
      modifies this
      ensures conn !in old(connections) ==> connections == old(connections) && sent == old(sent)
      ensures conn in old(connections) ==>
                && connections == old(connections)[conn := old(connections)[conn] - {device}]
                && sent == old(sent) + if works then [Sent(conn, Message(device, [], "unsubscribe_ack"))] else []
    {
      if conn !in connections {
        return;
      }
      connections := connections[conn := connections[conn] - {device}];
      if works {
        sent := sent + [Sent(conn, Message(device, [], "unsubscribe_ack"))];
      }
    }

    /** The tests of `broadcast` on one connection. */
    method PassesFilter(subs: Subscriptions, excluded: bool, device: Device) returns (wanted: bool)
      ensures wanted <==> !excluded && (None in subs || (device.Some? && device in subs))
    {
      if excluded {
        return false;
      }
      if subs == {} {
        return false;
      }
      if device == None {
        if None !in subs {
          return false;
        }
      } else {
        if None !in subs && device !in subs {
          return false;
        }
      }
      return true;
    }

    /**
     `broadcast`: each target that can be reached gets the stamped message once; the targets among the
     `broken` connections, whose `sendall` raises, are removed; nothing else changes.
     */
    method Broadcast(msg: Message, exclude: Option<C>, broken: set<C>)
      modifies this
      ensures var targets := Targets(old(connections), exclude, msg.device);
              && connections == old(connections) - (targets * broken)
              && |sent| >= |old(sent)| && sent[..|old(sent)|] == old(sent)
              && multiset(sent[|old(sent)|..]) == multiset(SentTo(targets - broken, Stamp(identity, msg)))
    {
      var stamped := Stamp(identity, msg);
      var dead: set<C> := {};
      var snapshot := connections;
      ghost var targets := Targets(snapshot, exclude, msg.device);
      ghost var out: seq<Sent<C>> := [];
      var todo := snapshot.Keys;
      while todo != {}
        invariant todo <= snapshot.Keys && connections == snapshot == old(connections)
        invariant dead == (targets - todo) * broken
        invariant sent == old(sent) + out
        invariant multiset(out) == multiset(SentTo(targets - todo - broken, stamped))
        decreases todo
      {
        var conn :| conn in todo;
        TodoStep(targets, todo, broken, conn);
        SentToOneMore(targets - todo - broken, conn, stamped);
        todo := todo - {conn};
        var wanted := PassesFilter(snapshot[conn], Some(conn) == exclude, msg.device);
        if !wanted {
          continue;
        }
        if conn in broken {
          dead := dead + {conn};
        } else {
          sent := sent + [Sent(conn, stamped)];
          out := out + [Sent(conn, stamped)];
        }
      }
      assert targets - todo == targets;
      connections := connections - dead;
    }

    /** `receive_peer_message`: drop what has been here before, pass on the rest. */
    method ReceivePeerMessage(msg: Message, broken: set<C>)
      modifies this
      ensures identity.Some? && identity.value in msg.provenance ==> connections == old(connections) && sent == old(sent)
      ensures !(identity.Some? && identity.value in msg.provenance) ==>
                var targets := Targets(old(connections), None, msg.device);
                && connections == old(connections) - (targets * broken)
                && |sent| >= |old(sent)| && sent[..|old(sent)|] == old(sent)
                && multiset(sent[|old(sent)|..]) == multiset(SentTo(targets - broken, Stamp(identity, msg)))
    {
      if identity.Some? {
        if identity.value in msg.provenance {
          return;
        }
      }
      Broadcast(msg, None, broken);
    }
  }

  /** What taking one connection off the list adds to those served and to those found dead. */
  lemma TodoStep<C>(targets: set<C>, todo: set<C>, broken: set<C>, conn: C)
    requires conn in todo
    ensures conn !in targets - todo - broken
    ensures targets - (todo - {conn}) - broken ==
            if conn in targets && conn !in broken then targets - todo - broken + {conn} else targets - todo - broken
    ensures (targets - (todo - {conn})) * broken ==
            if conn in targets && conn in broken then (targets - todo) * broken + {conn} else (targets - todo) * broken
  {
  }

  lemma SentToOneMore<C>(conns: set<C>, conn: C, msg: Message)
    requires conn !in conns
    ensures multiset(SentTo(conns + {conn}, msg)) == multiset(SentTo(conns, msg)) + multiset{Sent(conn, msg)}
  {
  }
}
