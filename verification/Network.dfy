/**
 A network of engines that subscribe to each other and pass broadcasts on. The only thing that stops
 a message is that an engine finds its own id in the provenance. Copies in flight may be delivered in
 any order, which allows every order that first-in first-out links and unhurried senders can produce.
 */
module Network {
  import opened Options
  import opened SocketServer

  /** A connection from `subscriber` to `publisher`, with its subscriptions. */
  datatype Link = Link(publisher: Id, subscriber: Id, subs: Subscriptions)

  datatype Graph = Graph(engines: set<Id>, links: seq<Link>)

  predicate WellFormedGraph(g: Graph) {
    forall l :: l in g.links ==> l.publisher in g.engines && l.subscriber in g.engines
  }

  /** At most one connection from one engine to another. */
  predicate SimpleLinks(links: seq<Link>) {
    forall i, j :: 0 <= i < j < |links| ==>
      !(links[i].publisher == links[j].publisher && links[i].subscriber == links[j].subscriber)
  }

  /** `u` sends messages about `device` to `v`. */
  predicate Edge(g: Graph, device: Device, u: Id, v: Id) {
    exists l :: l in g.links && l.publisher == u && l.subscriber == v && Admits(l.subs, device)
  }

  /**
   Where a message comes from: the engine that first broadcasts it, and the provenance it then already
   has, which names no engine (it is the INDI server's id, or nothing).
   */
  datatype Origin = Origin(device: Device, before: seq<Id>, at: Id)

  predicate WellFormedOrigin(g: Graph, o: Origin) {
    o.at in g.engines && forall x :: x in o.before ==> x !in g.engines
  }

  /** A copy on its way. The tag, which no engine looks at, tells messages apart in the proofs. */
  datatype Copy = Copy(tag: nat, provenance: seq<Id>, to: Id)

  /** A broadcast that some engine has made, with the provenance it sent. */
  datatype Entry = Entry(tag: nat, provenance: seq<Id>)

  datatype Net = Net(origins: seq<Origin>, flying: seq<Copy>, log: seq<Entry>)

  const START := Net([], [], [])

  /** The copies that a broadcast by `u` puts on its links. */
  function Fanout(links: seq<Link>, u: Id, device: Device, tag: nat, provenance: seq<Id>): seq<Copy> {
    if |links| == 0 then []
    else
      var rest := Fanout(links[1..], u, device, tag, provenance);
      if links[0].publisher == u && Admits(links[0].subs, device) then [Copy(tag, provenance, links[0].subscriber)] + rest
      else rest
  }

  function Remove<T>(s: seq<T>, i: nat): seq<T>
    requires i < |s|
  {
    s[..i] + s[i + 1..]
  }

  /** `u` appends its id and broadcasts. */
  function Broadcasting(g: Graph, s: Net, u: Id, tag: nat, provenance: seq<Id>): Net
    requires tag < |s.origins|
  {
    var p := provenance + [u];
    s.(flying := s.flying + Fanout(g.links, u, s.origins[tag].device, tag, p), log := s.log + [Entry(tag, p)])
  }

  datatype Step =
    | Publish(origin: Origin)              // an engine broadcasts a message of its own
    | Reply(link: nat, device: Device)     // an engine answers one subscriber, without provenance
    | Deliver(index: nat)                  // a copy arrives

  function Delivered(g: Graph, s: Net, i: nat): Net
    requires i < |s.flying| && s.flying[i].tag < |s.origins|
  {
    var c := s.flying[i];
    var rest := s.(flying := Remove(s.flying, i));
    if c.to in c.provenance then rest else Broadcasting(g, rest, c.to, c.tag, c.provenance)
  }

  /** One step; a step that is not possible changes nothing. */
  function After(g: Graph, s: Net, step: Step): Net {
    match step
    case Publish(o) =>
      if !WellFormedOrigin(g, o) then s
      else Broadcasting(g, s.(origins := s.origins + [o]), o.at, |s.origins|, o.before)
    case Reply(k, device) =>
      if k >= |g.links| then s
      else
        var v := g.links[k].subscriber;
        s.(origins := s.origins + [Origin(device, [], v)], flying := s.flying + [Copy(|s.origins|, [], v)])
    case Deliver(i) =>
      if i < |s.flying| && s.flying[i].tag < |s.origins| then Delivered(g, s, i) else s
  }

  function Run(g: Graph, steps: seq<Step>): Net {
    if |steps| == 0 then START else After(g, Run(g, steps[..|steps| - 1]), steps[|steps| - 1])
  }

  // ---------- routes ----------

  /** A provenance that starts at the origin and follows edges that admit the message, never back. */
  predicate IsRoute(g: Graph, o: Origin, p: seq<Id>) {
    if |p| <= |o.before| + 1 then p == o.before + [o.at]
    else
      var q, v := p[..|p| - 1], p[|p| - 1];
      IsRoute(g, o, q) && Edge(g, o.device, q[|q| - 1], v) && v !in q
  }

  // ---------- elementary facts ----------

  predicate NoDuplicates<T(==)>(s: seq<T>) {
    forall i, j :: 0 <= i < j < |s| ==> s[i] != s[j]
  }

  lemma RemoveFacts<T>(s: seq<T>, i: nat)
    requires i < |s|
    ensures forall x :: x in Remove(s, i) ==> x in s
    ensures forall x :: x in s && x != s[i] ==> x in Remove(s, i)
    ensures NoDuplicates(s) ==> NoDuplicates(Remove(s, i)) && s[i] !in Remove(s, i)
  {
  }

  lemma AppendNoDuplicates<T>(a: seq<T>, b: seq<T>)
    requires NoDuplicates(a) && NoDuplicates(b) && forall x :: x in a ==> x !in b
    ensures NoDuplicates(a + b)
  {
    forall i, j | 0 <= i < j < |a + b|
      ensures (a + b)[i] != (a + b)[j]
    {
      if i < |a| <= j {
        assert a[i] in a && b[j - |a|] in b;
      }
    }
  }

  /** Who gets a copy of a broadcast; on a simple graph, one each. */
  lemma {:induction false} FanoutFacts(links: seq<Link>, u: Id, device: Device, tag: nat, p: seq<Id>)
    ensures var out := Fanout(links, u, device, tag, p);
            && |out| <= |links|
            && (forall c :: c in out ==> c.tag == tag && c.provenance == p)
            && (forall v :: Copy(tag, p, v) in out <==>
                  exists l :: l in links && l.publisher == u && l.subscriber == v && Admits(l.subs, device))
            && (SimpleLinks(links) ==> NoDuplicates(out))
  {
    if |links| == 0 {
    } else {
      var rest := Fanout(links[1..], u, device, tag, p);
      FanoutFacts(links[1..], u, device, tag, p);
      if links[0].publisher == u && Admits(links[0].subs, device) {
        var first := Copy(tag, p, links[0].subscriber);
        AppendNoDuplicates([first], if SimpleLinks(links) then rest else []);
        assert [first] + rest == Fanout(links, u, device, tag, p);
      }
    }
  }

  /** The copies a broadcast puts in flight are those of the edges out of the broadcaster. */
  lemma FanoutIsEdges(g: Graph, u: Id, device: Device, tag: nat, p: seq<Id>)
    ensures var out := Fanout(g.links, u, device, tag, p);
            && (forall c :: c in out ==> c.tag == tag && c.provenance == p && Edge(g, device, u, c.to))
            && (forall v :: Edge(g, device, u, v) ==> Copy(tag, p, v) in out)
            && (SimpleLinks(g.links) ==> NoDuplicates(out))
  {
    FanoutFacts(g.links, u, device, tag, p);
    forall c | c in Fanout(g.links, u, device, tag, p)
      ensures Edge(g, device, u, c.to)
    {
      assert c == Copy(tag, p, c.to);
    }
  }

  // ---------- what every step keeps, on every graph ----------

  /** The first broadcast of a message has not been made, but its copy is on the way to who makes it. */
  predicate IsRoot(o: Origin, c: Copy) {
    c.provenance == o.before && c.to == o.at
  }

  predicate OriginsOk(g: Graph, s: Net) {
    forall t :: 0 <= t < |s.origins| ==> WellFormedOrigin(g, s.origins[t])
  }

  /** Every provenance broadcast is a route of its message. */
  predicate LogOk(g: Graph, s: Net) {
    forall e :: e in s.log ==> e.tag < |s.origins| && IsRoute(g, s.origins[e.tag], e.provenance)
  }

  /** A copy in flight was broadcast with its provenance and follows an edge, or is a root. */
  predicate CopyOk(g: Graph, s: Net, c: Copy) {
    && c.tag < |s.origins| && c.to in g.engines
    && (IsRoot(s.origins[c.tag], c)
        || (Entry(c.tag, c.provenance) in s.log && c.provenance != []
            && Edge(g, s.origins[c.tag].device, c.provenance[|c.provenance| - 1], c.to)))
  }

  predicate FlyingOk(g: Graph, s: Net) {
    forall c :: c in s.flying ==> CopyOk(g, s, c)
  }

  /** A provenance was broadcast only after the one it extends. */
  predicate Closed(s: Net) {
    forall e :: e in s.log && e.tag < |s.origins| && |e.provenance| > |s.origins[e.tag].before| + 1 ==>
      Entry(e.tag, e.provenance[..|e.provenance| - 1]) in s.log
  }

  /** Every message has been broadcast at its origin, or its root copy is in flight. */
  predicate Rooted(s: Net) {
    forall t :: 0 <= t < |s.origins| ==>
      var o := s.origins[t];
      Entry(t, o.before + [o.at]) in s.log || Copy(t, o.before, o.at) in s.flying
  }

  /** A broadcast has been passed on along this edge, or is on its way there, or need not be. */
  predicate Answered(s: Net, e: Entry, v: Id) {
    Copy(e.tag, e.provenance, v) in s.flying || v in e.provenance || Entry(e.tag, e.provenance + [v]) in s.log
  }

  ghost predicate Progress(g: Graph, s: Net) {
    forall e, v :: e in s.log && e.tag < |s.origins| && e.provenance != []
                   && Edge(g, s.origins[e.tag].device, e.provenance[|e.provenance| - 1], v)
                   ==> Answered(s, e, v)
  }

  ghost predicate Honest(g: Graph, s: Net) {
    OriginsOk(g, s) && LogOk(g, s) && FlyingOk(g, s) && Closed(s) && Rooted(s) && Progress(g, s)
  }

  /** A new message whose root copy is put in flight: what a reply does. */
  function Launched(s: Net, o: Origin): Net {
    s.(origins := s.origins + [o], flying := s.flying + [Copy(|s.origins|, o.before, o.at)])
  }

  lemma LaunchKeepsHonest(g: Graph, s: Net, o: Origin)
    requires Honest(g, s) && WellFormedOrigin(g, o)
    ensures Honest(g, Launched(s, o))
  {
    var s' := Launched(s, o);
    var n := |s.origins|;
    assert forall t :: 0 <= t < n ==> s'.origins[t] == s.origins[t];
    forall c | c in s'.flying
      ensures CopyOk(g, s', c)
    {
      assert c in s.flying ==> CopyOk(g, s, c);
    }
    forall e, v | e in s'.log && e.tag < |s'.origins| && e.provenance != []
                  && Edge(g, s'.origins[e.tag].device, e.provenance[|e.provenance| - 1], v)
      ensures Answered(s', e, v)
    {
      assert Answered(s, e, v);
    }
  }

  /** Publishing is putting the root copy in flight and delivering it at once. */
  lemma PublishIsLaunchAndDeliver(g: Graph, s: Net, o: Origin)
    requires WellFormedOrigin(g, o)
    ensures After(g, s, Publish(o)) == Delivered(g, Launched(s, o), |s.flying|)
  {
  }

  /** Handing over a copy that its receiver drops. */
  lemma DropKeepsHonest(g: Graph, s: Net, i: nat)
    requires Honest(g, s) && i < |s.flying| && s.flying[i].to in s.flying[i].provenance
    ensures s.flying[i].tag < |s.origins| && Honest(g, Delivered(g, s, i))
  {
    var c := s.flying[i];
    assert c in s.flying && CopyOk(g, s, c);
    var s' := Delivered(g, s, i);
    RemoveFacts(s.flying, i);
    forall c' | c' in s'.flying
      ensures CopyOk(g, s', c')
    {
      assert CopyOk(g, s, c');
    }
    forall t | 0 <= t < |s'.origins|
      ensures var o := s'.origins[t]; Entry(t, o.before + [o.at]) in s'.log || Copy(t, o.before, o.at) in s'.flying
    {
      assert WellFormedOrigin(g, s.origins[t]);
    }
    forall e, v | e in s'.log && e.tag < |s'.origins| && e.provenance != []
                  && Edge(g, s'.origins[e.tag].device, e.provenance[|e.provenance| - 1], v)
      ensures Answered(s', e, v)
    {
      assert Answered(s, e, v);
    }
  }

  /** The provenance of a copy that is passed on extends to a route. */
  lemma ForwardedIsRoute(g: Graph, s: Net, c: Copy)
    requires OriginsOk(g, s) && LogOk(g, s) && CopyOk(g, s, c) && c.to !in c.provenance
    ensures IsRoute(g, s.origins[c.tag], c.provenance + [c.to])
    ensures IsRoot(s.origins[c.tag], c) || |c.provenance| > |s.origins[c.tag].before|
  {
  }

  lemma RouteLength(g: Graph, o: Origin, p: seq<Id>)
    requires IsRoute(g, o, p)
    ensures |p| > |o.before|
  {
  }

  lemma ForwardKeepsFlying(g: Graph, s: Net, i: nat)
    requires WellFormedGraph(g) && Honest(g, s) && i < |s.flying| && s.flying[i].to !in s.flying[i].provenance
    ensures s.flying[i].tag < |s.origins| && FlyingOk(g, Delivered(g, s, i))
  {
    var c := s.flying[i];
    assert c in s.flying && CopyOk(g, s, c);
    var s' := Delivered(g, s, i);
    var p := c.provenance + [c.to];
    RemoveFacts(s.flying, i);
    FanoutIsEdges(g, c.to, s.origins[c.tag].device, c.tag, p);
    assert Entry(c.tag, p) in s'.log;
    forall c' | c' in s'.flying
      ensures CopyOk(g, s', c')
    {
      if c' in Remove(s.flying, i) {
        assert CopyOk(g, s, c');
      } else {
        assert Edge(g, s.origins[c.tag].device, c.to, c'.to);
      }
    }
  }

  lemma ForwardKeepsLog(g: Graph, s: Net, i: nat)
    requires Honest(g, s) && i < |s.flying| && s.flying[i].to !in s.flying[i].provenance
    ensures s.flying[i].tag < |s.origins| && LogOk(g, Delivered(g, s, i)) && Closed(Delivered(g, s, i)) && Rooted(Delivered(g, s, i))
  {
    var c := s.flying[i];
    assert c in s.flying && CopyOk(g, s, c);
    var s' := Delivered(g, s, i);
    var p := c.provenance + [c.to];
    var o := s.origins[c.tag];
    RemoveFacts(s.flying, i);
    ForwardedIsRoute(g, s, c);
    assert p[..|p| - 1] == c.provenance;
    forall e | e in s'.log && e.tag < |s'.origins| && |e.provenance| > |s'.origins[e.tag].before| + 1
      ensures Entry(e.tag, e.provenance[..|e.provenance| - 1]) in s'.log
    {
      if e in s.log {
        assert Entry(e.tag, e.provenance[..|e.provenance| - 1]) in s.log;
      }
    }
    forall t | 0 <= t < |s'.origins|
      ensures var o := s'.origins[t]; Entry(t, o.before + [o.at]) in s'.log || Copy(t, o.before, o.at) in s'.flying
    {
      var root := s.origins[t];
      assert Entry(t, root.before + [root.at]) in s.log || Copy(t, root.before, root.at) in s.flying;
      assert Entry(c.tag, p) in s'.log;
    }
  }

  lemma ForwardKeepsProgress(g: Graph, s: Net, i: nat)
    requires Honest(g, s) && i < |s.flying| && s.flying[i].to !in s.flying[i].provenance
    ensures s.flying[i].tag < |s.origins| && Progress(g, Delivered(g, s, i))
  {
    var c := s.flying[i];
    assert c in s.flying && CopyOk(g, s, c);
    var s' := Delivered(g, s, i);
    var p := c.provenance + [c.to];
    RemoveFacts(s.flying, i);
    FanoutIsEdges(g, c.to, s.origins[c.tag].device, c.tag, p);
    forall e, v | e in s'.log && e.tag < |s'.origins| && e.provenance != []
                  && Edge(g, s'.origins[e.tag].device, e.provenance[|e.provenance| - 1], v)
      ensures Answered(s', e, v)
    {
      if e in s.log {
        assert Answered(s, e, v);
        assert Entry(c.tag, p) in s'.log;
      } else {
        assert e == Entry(c.tag, p);
      }
    }
  }

  lemma DeliverKeepsHonest(g: Graph, s: Net, i: nat)
    requires WellFormedGraph(g) && Honest(g, s) && i < |s.flying|
    ensures s.flying[i].tag < |s.origins| && Honest(g, Delivered(g, s, i))
  {
    if s.flying[i].to in s.flying[i].provenance {
      DropKeepsHonest(g, s, i);
    } else {
      ForwardKeepsFlying(g, s, i);
      ForwardKeepsLog(g, s, i);
      ForwardKeepsProgress(g, s, i);
    }
  }

  lemma {:induction false} RunIsHonest(g: Graph, steps: seq<Step>)
    requires WellFormedGraph(g)
    ensures Honest(g, Run(g, steps))
  {
    if |steps| == 0 {
    } else {
      var s := Run(g, steps[..|steps| - 1]);
      RunIsHonest(g, steps[..|steps| - 1]);
      match steps[|steps| - 1]
      case Publish(o) =>
        if WellFormedOrigin(g, o) {
          LaunchKeepsHonest(g, s, o);
          PublishIsLaunchAndDeliver(g, s, o);
          DeliverKeepsHonest(g, Launched(s, o), |s.flying|);
        }
      case Reply(k, device) =>
        if k < |g.links| {
          LaunchKeepsHonest(g, s, Origin(device, [], g.links[k].subscriber));
        }
      case Deliver(i) =>
        if i < |s.flying| {
          DeliverKeepsHonest(g, s, i);
        }
    }
  }
}
